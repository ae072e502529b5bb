/** The layout of what `tag` writes: field frames first, then the album and
    the track RVA2 frame, then the pictures; each non-picture key at most
    once; and the replay-gain pair rule. */
module TaggerLayout {

  import opened Wrappers
  import opened PyStrings
  import opened FlacTags
  import opened Id3Frames
  import opened Tagger
  import opened TaggerProperties

  /** `tag` accepts the file. */
  predicate Tagged(flac: Flac)
  {
    WellFormed(flac) && Translate(flac).Success?
  }

  /** The frames of the field loop, when it succeeds. */
  function FieldFrames(flac: Flac): seq<Frame>
    requires Tagged(flac)
  {
    Collect(FieldResults(flac), |flac.fields|).value
  }

  /** Neither an RVA2 nor an APIC frame. */
  predicate Plain(frames: seq<Frame>)
  {
    forall j :: 0 <= j < |frames| ==> !frames[j].Rva2? && !frames[j].Apic?
  }

  /** The output is the field frames, which are plain, followed by the album
      and the track RVA2 frame and the pictures' APIC frames. */
  lemma Layout(flac: Flac)
    requires Tagged(flac)
    ensures Translate(flac).value
      == FieldFrames(flac) + OptionSeq(ReplayGain(flac, "album")) + OptionSeq(ReplayGain(flac, "track"))
         + PictureFrames(flac.pictures)
    ensures Plain(FieldFrames(flac))
  {
    var results, ff := FieldResults(flac), FieldFrames(flac);
    TranslateOfFieldFrames(flac, ff);
    CollectOrigin(results, |flac.fields|, ff);
    forall j | 0 <= j < |ff|
      ensures !ff[j].Rva2? && !ff[j].Apic?
    {
      var i :| 0 <= i < |flac.fields| && results[i] == Success(Some(ff[j]));
      FieldFrameKind(flac, flac.fields[i]);
    }
  }

  // ---------------------------------------------------------------------
  // Replay gain

  lemma CountOptionSeq(o: Option<Frame>, k: FrameKey)
    ensures Count(OptionSeq(o), k) == if o.Some? && KeyOf(o.value) == k then 1 else 0
  {
    if o.Some? {
      assert OptionSeq(o)[..0] == [];
    }
  }

  /** Under an RVA2 key only the two middle parts file anything. */
  lemma {:induction false} Rva2CountOfParts(ff: seq<Frame>, album: Option<Frame>, track: Option<Frame>,
                                             pictures: seq<Picture>, k: FrameKey)
    requires Plain(ff) && k.Rva2Key?
    ensures Count(ff + OptionSeq(album) + OptionSeq(track) + PictureFrames(pictures), k)
      == (if album.Some? && KeyOf(album.value) == k then 1 else 0)
         + (if track.Some? && KeyOf(track.value) == k then 1 else 0)
  {
    var a, t, pics := OptionSeq(album), OptionSeq(track), PictureFrames(pictures);
    CountAbsent(ff, k);
    CountAbsent(pics, k);
    CountAppend(ff, a, k);
    CountAppend(ff + a, t, k);
    CountAppend(ff + a + t, pics, k);
    CountOptionSeq(album, k);
    CountOptionSeq(track, k);
  }

  /** For `album` and for `track`: exactly one RVA2 frame for that scope is
      written when both the gain and the peak field are present, and none
      when either is missing. */
  lemma ReplayGainCount(flac: Flac, scope: string)
    requires Tagged(flac) && (scope == "album" || scope == "track")
    ensures Count(Translate(flac).value, Rva2Key(scope))
      == if Has(flac, GainTag(scope)) && Has(flac, PeakTag(scope)) then 1 else 0
  {
    Layout(flac);
    Rva2CountOfParts(FieldFrames(flac), ReplayGain(flac, "album"), ReplayGain(flac, "track"),
                     flac.pictures, Rva2Key(scope));
  }

  /** The RVA2 frame of a complete pair is on the master volume channel and
      carries the first gain and first peak value, each short of its last
      three characters. */
  lemma ReplayGainWritten(flac: Flac, scope: string)
    requires WellFormed(flac) && Has(flac, GainTag(scope)) && Has(flac, PeakTag(scope))
    requires scope == "album" || scope == "track"
    ensures Translate(flac).Success? ==>
      Rva2(scope, MasterVolume, DropLast(Get(flac, GainTag(scope))[0], 3),
           DropLast(Get(flac, PeakTag(scope))[0], 3)) in Translate(flac).value
  {
    if Translate(flac).Success? {
      Layout(flac);
    }
  }

  // ---------------------------------------------------------------------
  // Each key once

  lemma {:induction false} CollectAtMostOnce(results: seq<FieldResult>, n: nat, frames: seq<Frame>, k: FrameKey)
    requires n <= |results| && Collect(results, n) == Success(frames) && KeysDistinct(results)
    ensures Count(frames, k) <= 1
  {
    CollectCount(results, n, frames, k);
    CountKeyUnique(results, n, k);
  }

  /** No two written frames share a key other than an APIC key: the `add`
      calls never rely on mutagen replacing a frame already present. */
  lemma KeysWrittenOnce(flac: Flac, k: FrameKey)
    requires Tagged(flac) && !k.ApicKey?
    ensures Count(Translate(flac).value, k) <= 1
  {
    if k.Rva2Key? {
      Layout(flac);
      Rva2CountOfParts(FieldFrames(flac), ReplayGain(flac, "album"), ReplayGain(flac, "track"),
                       flac.pictures, k);
    } else {
      TranslateCount(flac, k);
      FieldResultsKeysDistinct(flac);
      CollectAtMostOnce(FieldResults(flac), |flac.fields|, FieldFrames(flac), k);
    }
  }

  // ---------------------------------------------------------------------
  // Order

  /** The position class of a frame in the output: field frames, the album
      RVA2 frame, the track RVA2 frame, pictures. */
  function Rank(f: Frame): nat
  {
    match f
    case Rva2(desc, _, _, _) => if desc == "album" then 1 else 2
    case Apic(_, _, _, _, _) => 3
    case _ => 0
  }

  predicate Ordered(frames: seq<Frame>)
  {
    forall i, j :: 0 <= i < j < |frames| ==> Rank(frames[i]) <= Rank(frames[j])
  }

  lemma OrderOfParts(ff: seq<Frame>, album: Option<Frame>, track: Option<Frame>, pictures: seq<Picture>)
    requires Plain(ff)
    requires album.Some? ==> album.value.Rva2? && album.value.desc == "album"
    requires track.Some? ==> track.value.Rva2? && track.value.desc == "track"
    ensures Ordered(ff + OptionSeq(album) + OptionSeq(track) + PictureFrames(pictures))
  {
    var out := ff + OptionSeq(album) + OptionSeq(track) + PictureFrames(pictures);
    var a := |ff| + |OptionSeq(album)|;
    var t := a + |OptionSeq(track)|;
    assert forall j :: 0 <= j < |out| ==>
      Rank(out[j]) == if j < |ff| then 0 else if j < a then 1 else if j < t then 2 else 3;
  }

  /** Every field frame comes before the album RVA2 frame, which comes before
      the track RVA2 frame, which comes before every picture. */
  lemma FrameOrder(flac: Flac)
    requires Tagged(flac)
    ensures Ordered(Translate(flac).value)
  {
    Layout(flac);
    OrderOfParts(FieldFrames(flac), ReplayGain(flac, "album"), ReplayGain(flac, "track"), flac.pictures);
  }

  /** The last frames are one APIC frame per picture, in source order, with
      mime type, picture type, description and data copied; no frame before
      them is an APIC frame. */
  lemma PicturesLast(flac: Flac)
    requires Tagged(flac)
    ensures var out := Translate(flac).value;
      var start := |out| - |flac.pictures|;
      && start >= 0
      && (forall j :: 0 <= j < start ==> !out[j].Apic?)
      && forall k :: 0 <= k < |flac.pictures| ==>
           var p := flac.pictures[k];
           out[start + k] == Apic(Utf8, p.mime, p.picType, p.desc, p.data)
  {
    Layout(flac);
  }
}
