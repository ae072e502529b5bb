/** What the translator promises about the frames it writes: which frame each
    field becomes, that each frame key is written at most once, the failure
    on unknown fields, the replay-gain pairs, the performer split and the
    order of the output. */
module TaggerProperties {

  import opened Wrappers
  import opened PyStrings
  import opened FlacTags
  import opened Id3Frames
  import opened Tagger

  // ---------------------------------------------------------------------
  // The two lookup tables are one-to-one

  /** The field name `tag_map` sends to each text frame. */
  function TagFor(id: TextId): string
  {
    match id
    case TALB => "album"
    case TBPM => "bpm"
    case TCMP => "compilation"
    case TCOM => "composer"
    case TCON => "genre"
    case TCOP => "copyright"
    case TDOR => "originaldate"
    case TDRC => "date"
    case TENC => "encodeby"
    case TEXT => "lyricist"
    case TIT1 => "grouping"
    case TIT2 => "title"
    case TIT3 => "subtitle"
    case TLAN => "language"
    case TMED => "media"
    case TMOO => "mood"
    case TPE1 => "artist"
    case TPE2 => "albumartist"
    case TPE3 => "conductor"
    case TPE4 => "remixer"
    case TPUB => "label"
    case TSOA => "albumsort"
    case TSOP => "artistsort"
    case TSOT => "titlesort"
    case TSRC => "isrc"
    case TSST => "discsubtitle"
  }

  /** The field name `text_tag_map` gives each TXXX description. */
  function LabelSource(desc: string): Option<string>
  {
    match desc
    case "Acoustid Id" => Some("acoustid_id")
    case "ALBUMARTISTSORT" => Some("albumartistsort")
    case "ASIN" => Some("asin")
    case "BARCODE" => Some("barcode")
    case "CATALOGNUMBER" => Some("catalognumber")
    case "MusicBrainz Album Artist Id" => Some("musicbrainz_albumartistid")
    case "MusicBrainz Album Id" => Some("musicbrainz_albumid")
    case "MusicBrainz Artist Id" => Some("musicbrainz_artistid")
    case "MusicBrainz Disc Id" => Some("musicbrainz_discid")
    case "MusicBrainz Release Group Id" => Some("musicbrainz_releasegroupid")
    case "MusicBrainz TRM Id" => Some("musicbrainz_trmid")
    case "MusicBrainz Work Id" => Some("musicbrainz_workid")
    case "MusicIP PUID" => Some("musicip_puid")
    case "MusicBrainz Album Release Country" => Some("releasecountry")
    case "MusicBrainz Album Status" => Some("releasestatus")
    case "MusicBrainz Album Type" => Some("releasetype")
    case "SCRIPT" => Some("script")
    case _ => None
  }

  /** Each name of `tag_map` is the name its frame is listed under. */
  lemma DirectFrameLeftInverse(tag: string)
    requires DirectFrame(tag).Some?
    ensures TagFor(DirectFrame(tag).value) == tag
  {
  }

  /** Each of the 26 text frames is reached from its own name. */
  lemma DirectFrameRightInverse(id: TextId)
    ensures DirectFrame(TagFor(id)) == Some(id)
  {
  }

  /** `tag_map` is a bijection between its 26 field names and the 26 text
      frames. */
  lemma DirectFrameInverse(tag: string, id: TextId)
    ensures DirectFrame(tag) == Some(id) <==> tag == TagFor(id)
  {
    if DirectFrame(tag) == Some(id) {
      DirectFrameLeftInverse(tag);
    }
    DirectFrameRightInverse(id);
  }

  /** Each name of `text_tag_map` is the one its description is listed under. */
  lemma FreeTextLabelLeftInverse(tag: string)
    requires FreeTextLabel(tag).Some?
    ensures LabelSource(FreeTextLabel(tag).value) == Some(tag)
  {
  }

  lemma FreeTextLabelRightInverse(desc: string)
    requires LabelSource(desc).Some?
    ensures FreeTextLabel(LabelSource(desc).value) == Some(desc)
  {
  }

  /** No two names of `text_tag_map` share a description. */
  lemma FreeTextLabelInverse(tag: string, desc: string)
    ensures FreeTextLabel(tag) == Some(desc) <==> LabelSource(desc) == Some(tag)
  {
    if FreeTextLabel(tag) == Some(desc) {
      FreeTextLabelLeftInverse(tag);
    }
    if LabelSource(desc) == Some(tag) {
      FreeTextLabelRightInverse(desc);
    }
  }

  // ---------------------------------------------------------------------
  // Frame keys: each field name files its frame under a key of its own

  /** The key of the frame a field with this name adds, if it adds one. */
  function EmittedKey(tag: string): Option<FrameKey>
  {
    match RouteOf(tag)
    case Direct(id) => Some(TextKey(id))
    case FreeText(desc) => Some(TxxxKey(desc))
    case TrackNumber => Some(TrckKey)
    case DiscNumber => Some(TposKey)
    case TrackId => Some(UfidKey(MusicBrainzOwner))
    case Producer => Some(TiplKey)
    case Performer => Some(TmclKey)
    case Ignored => None
    case Unknown => None
  }

  lemma FieldFrameKey(flac: Flac, f: Field)
    requires WellFormed(flac) && f.value != [] && Known(f.tag)
    ensures FieldFrame(flac, f).Success?
    ensures FieldFrame(flac, f).value.None? <==> EmittedKey(f.tag).None?
    ensures FieldFrame(flac, f).value.Some? ==> EmittedKey(f.tag) == Some(KeyOf(FieldFrame(flac, f).value.value))
  {
  }

  /** Two field names never file their frames under the same key. */
  lemma EmittedKeyInjective(t1: string, t2: string)
    requires EmittedKey(t1).Some? && EmittedKey(t1) == EmittedKey(t2)
    ensures t1 == t2
  {
    match RouteOf(t1)
    case Direct(id) =>
      DirectFrameLeftInverse(t1);
      DirectFrameLeftInverse(t2);
    case FreeText(desc) =>
      FreeTextLabelLeftInverse(t1);
      FreeTextLabelLeftInverse(t2);
    case _ =>
  }

  /** Two field names never file their frames under the same key, so with
      distinct names no two outcomes of the field loop share a key. */
  lemma FieldResultsKeysDistinct(flac: Flac)
    requires WellFormed(flac)
    ensures KeysDistinct(FieldResults(flac))
  {
    var results := FieldResults(flac);
    forall i, j, k | 0 <= i < j < |results| && Files(results[i], k)
      ensures !Files(results[j], k)
    {
      var fi, fj := flac.fields[i], flac.fields[j];
      FieldFrameKey(flac, fi);
      if Files(results[j], k) {
        FieldFrameKey(flac, fj);
        EmittedKeyInjective(fi.tag, fj.tag);
      }
    }
  }

  /** The field loop adds no RVA2 and no APIC frame. */
  lemma FieldFrameKind(flac: Flac, f: Field)
    requires WellFormed(flac) && f.value != []
    requires FieldFrame(flac, f).Success? && FieldFrame(flac, f).value.Some?
    ensures !FieldFrame(flac, f).value.value.Rva2? && !FieldFrame(flac, f).value.value.Apic?
  {
  }

  // ---------------------------------------------------------------------
  // The loop over the field outcomes

  /** Outcome `res` adds a frame filed under `k`. */
  predicate Files(res: FieldResult, k: FrameKey)
  {
    res.Success? && res.value.Some? && KeyOf(res.value.value) == k
  }

  ghost predicate KeysDistinct(results: seq<FieldResult>)
  {
    forall i, j, k :: 0 <= i < j < |results| && Files(results[i], k) ==> !Files(results[j], k)
  }

  /** How many of the first `n` outcomes add a frame filed under `k`. */
  function CountKey(results: seq<FieldResult>, n: nat, k: FrameKey): nat
    requires n <= |results|
  {
    if n == 0 then 0 else CountKey(results, n - 1, k) + (if Files(results[n - 1], k) then 1 else 0)
  }

  lemma {:induction false} CountKeyUnique(results: seq<FieldResult>, n: nat, k: FrameKey)
    requires n <= |results| && KeysDistinct(results)
    ensures CountKey(results, n, k) == if exists i :: 0 <= i < n && Files(results[i], k) then 1 else 0
    decreases n
  {
    if n > 0 {
      CountKeyUnique(results, n - 1, k);
      if Files(results[n - 1], k) {
        assert forall i :: 0 <= i < n - 1 ==> !Files(results[i], k);
      }
    }
  }

  lemma {:induction false} CollectCount(results: seq<FieldResult>, n: nat, frames: seq<Frame>, k: FrameKey)
    requires n <= |results| && Collect(results, n) == Success(frames)
    ensures Count(frames, k) == CountKey(results, n, k)
    decreases n
  {
    if n > 0 {
      var front := Collect(results, n - 1).value;
      var added := OptionSeq(results[n - 1].value);
      CollectCount(results, n - 1, front, k);
      CountAppend(front, added, k);
      if added != [] {
        assert added[..0] == [];
      }
    }
  }

  lemma {:induction false} CollectMember(results: seq<FieldResult>, n: nat, frames: seq<Frame>, i: nat, fr: Frame)
    requires i < n <= |results| && Collect(results, n) == Success(frames)
    requires results[i] == Success(Some(fr))
    ensures fr in frames
    decreases n
  {
    if i < n - 1 {
      CollectMember(results, n - 1, Collect(results, n - 1).value, i, fr);
    }
  }

  /** Every frame the loop collects is the frame of one of the outcomes. */
  lemma {:induction false} CollectOrigin(results: seq<FieldResult>, n: nat, frames: seq<Frame>)
    requires n <= |results| && Collect(results, n) == Success(frames)
    ensures forall j :: 0 <= j < |frames| ==> exists i :: 0 <= i < n && results[i] == Success(Some(frames[j]))
    decreases n
  {
    if n > 0 {
      var front := Collect(results, n - 1).value;
      CollectOrigin(results, n - 1, front);
      forall j | 0 <= j < |frames|
        ensures exists i :: 0 <= i < n && results[i] == Success(Some(frames[j]))
      {
        if j < |front| {
          assert frames[j] == front[j];
        } else {
          assert results[n - 1] == Success(Some(frames[j]));
        }
      }
    }
  }

  /** Outcome `i` is the first failure among the first `n`. */
  predicate FirstFailure(results: seq<FieldResult>, n: nat, i: int)
    requires n <= |results|
  {
    0 <= i < n && results[i].Failure? && forall j :: 0 <= j < i ==> results[j].Success?
  }

  /** The loop succeeds exactly when every outcome does, and otherwise stops
      with the first failure. */
  lemma {:induction false} CollectOutcome(results: seq<FieldResult>, n: nat)
    requires n <= |results|
    ensures Collect(results, n).Success? <==> forall i :: 0 <= i < n ==> results[i].Success?
    ensures Collect(results, n).Failure? ==>
      exists i :: FirstFailure(results, n, i) && Collect(results, n).error == results[i].error
    decreases n
  {
    if n > 0 {
      CollectOutcome(results, n - 1);
      if Collect(results, n - 1).Failure? {
        var i :| FirstFailure(results, n - 1, i) && Collect(results, n - 1).error == results[i].error;
        assert FirstFailure(results, n, i);
      } else if results[n - 1].Failure? {
        assert FirstFailure(results, n, n - 1);
      }
    }
  }

  // ---------------------------------------------------------------------
  // What `tag` writes

  /** Field `i` is the first one the dispatch does not accept. */
  predicate FirstUnknown(flac: Flac, i: int)
  {
    && 0 <= i < |flac.fields|
    && !Known(flac.fields[i].tag)
    && forall j :: 0 <= j < i ==> Known(flac.fields[j].tag)
  }

  /** A field name no rule covers fails the whole file, and the failure names
      the first such field with its values; otherwise the file is tagged. */
  lemma UnknownTagFails(flac: Flac)
    requires WellFormed(flac)
    ensures Translate(flac).Failure? <==> exists i :: 0 <= i < |flac.fields| && !Known(flac.fields[i].tag)
    ensures Translate(flac).Failure? ==>
      exists i :: FirstUnknown(flac, i) && Translate(flac).error == UnknownTag(flac.fields[i].tag, flac.fields[i].value)
  {
    var results := FieldResults(flac);
    var n := |flac.fields|;
    assert forall i :: 0 <= i < n ==> (results[i].Success? <==> Known(flac.fields[i].tag));
    CollectOutcome(results, n);
    if Translate(flac).Failure? {
      var i :| FirstFailure(results, n, i) && Collect(results, n).error == results[i].error;
      assert FirstUnknown(flac, i);
    }
  }

  lemma TrackTotalIgnored(tag: string)
    requires tag in TrackTotalTags
    ensures RouteOf(tag) == Ignored
  {
  }

  lemma DiscTotalIgnored(tag: string)
    requires tag in DiscTotalTags
    ensures RouteOf(tag) == Ignored
  {
  }

  lemma AlbumGainIgnored(tag: string)
    requires tag in ["replaygain_album_gain", "replaygain_album_peak"]
    ensures RouteOf(tag) == Ignored
  {
  }

  lemma TrackGainIgnored(tag: string)
    requires tag in ["replaygain_track_gain", "replaygain_track_peak"]
    ensures RouteOf(tag) == Ignored
  {
  }

  /** The eight total and replay-gain names are accepted and add no frame of
      their own. */
  lemma IgnoredAddNothing(flac: Flac, f: Field)
    requires WellFormed(flac) && f.value != [] && f.tag in IgnoredTags
    ensures Known(f.tag) && FieldFrame(flac, f) == Success(None)
  {
    if f.tag in TrackTotalTags {
      TrackTotalIgnored(f.tag);
    } else if f.tag in DiscTotalTags {
      DiscTotalIgnored(f.tag);
    } else if f.tag in ["replaygain_album_gain", "replaygain_album_peak"] {
      AlbumGainIgnored(f.tag);
    } else {
      TrackGainIgnored(f.tag);
    }
  }

  /** An outcome's frame is collected, and with distinct keys it is the only
      collected frame filed under its key. */
  lemma CollectUnique(results: seq<FieldResult>, n: nat, frames: seq<Frame>, i: nat, fr: Frame)
    requires i < n <= |results| && Collect(results, n) == Success(frames) && KeysDistinct(results)
    requires results[i] == Success(Some(fr))
    ensures fr in frames && Count(frames, KeyOf(fr)) == 1
  {
    CollectMember(results, n, frames, i, fr);
    CollectCount(results, n, frames, KeyOf(fr));
    CountKeyUnique(results, n, KeyOf(fr));
  }

  lemma ReplayGainKey(flac: Flac, scope: string, k: FrameKey)
    requires WellFormed(flac) && k != Rva2Key(scope)
    ensures Count(OptionSeq(ReplayGain(flac, scope)), k) == 0
  {
    CountAbsent(OptionSeq(ReplayGain(flac, scope)), k);
  }

  lemma PictureFramesKey(pictures: seq<Picture>, k: FrameKey)
    requires !k.ApicKey?
    ensures Count(PictureFrames(pictures), k) == 0
  {
    CountAbsent(PictureFrames(pictures), k);
  }

  /** The replay-gain and picture frames `tag` appends after the field loop
      leave the count of every other key as the loop left it. */
  lemma TranslateCount(flac: Flac, k: FrameKey)
    requires WellFormed(flac) && Translate(flac).Success?
    requires !k.Rva2Key? && !k.ApicKey?
    ensures Count(Translate(flac).value, k) == Count(Collect(FieldResults(flac), |flac.fields|).value, k)
  {
    var ff := Collect(FieldResults(flac), |flac.fields|).value;
    var album, track := OptionSeq(ReplayGain(flac, "album")), OptionSeq(ReplayGain(flac, "track"));
    var pics := PictureFrames(flac.pictures);
    TranslateOfFieldFrames(flac, ff);
    ReplayGainKey(flac, "album", k);
    ReplayGainKey(flac, "track", k);
    PictureFramesKey(flac.pictures, k);
    CountAppend(ff, album, k);
    CountAppend(ff + album, track, k);
    CountAppend(ff + album + track, pics, k);
  }

  /** The frame a field maps to is written, and it is the only frame filed
      under its key. */
  lemma FieldFrameWritten(flac: Flac, i: nat, fr: Frame)
    requires WellFormed(flac) && i < |flac.fields|
    requires Translate(flac).Success?
    requires FieldFrame(flac, flac.fields[i]) == Success(Some(fr))
    ensures fr in Translate(flac).value
    ensures Count(Translate(flac).value, KeyOf(fr)) == 1
  {
    var results := FieldResults(flac);
    assert results[i] == Success(Some(fr));
    FieldResultsKeysDistinct(flac);
    CollectUnique(results, |flac.fields|, Collect(results, |flac.fields|).value, i, fr);
    FieldFrameKind(flac, flac.fields[i]);
    TranslateCount(flac, KeyOf(fr));
  }

  /** The five names with a rule of their own take that rule. */
  lemma RouteOfTrackNumber() ensures RouteOf("tracknumber") == TrackNumber {}
  lemma RouteOfDiscNumber() ensures RouteOf("discnumber") == DiscNumber {}
  lemma RouteOfTrackId() ensures RouteOf("musicbrainz_trackid") == TrackId {}
  lemma RouteOfProducer() ensures RouteOf("producer") == Producer {}
  lemma RouteOfPerformer() ensures RouteOf("performer") == Performer {}

  lemma FirstDirectNamesNotFreeText()
    ensures && FreeTextLabel("album").None?
      && FreeTextLabel("bpm").None?
      && FreeTextLabel("compilation").None?
      && FreeTextLabel("composer").None?
      && FreeTextLabel("genre").None?
      && FreeTextLabel("copyright").None?
      && FreeTextLabel("originaldate").None?
      && FreeTextLabel("date").None?
      && FreeTextLabel("encodeby").None?
  {
  }

  lemma MiddleDirectNamesNotFreeText()
    ensures && FreeTextLabel("lyricist").None?
      && FreeTextLabel("grouping").None?
      && FreeTextLabel("title").None?
      && FreeTextLabel("subtitle").None?
      && FreeTextLabel("language").None?
      && FreeTextLabel("media").None?
      && FreeTextLabel("mood").None?
      && FreeTextLabel("artist").None?
      && FreeTextLabel("albumartist").None?
  {
  }

  lemma LastDirectNamesNotFreeText()
    ensures && FreeTextLabel("conductor").None?
      && FreeTextLabel("remixer").None?
      && FreeTextLabel("label").None?
      && FreeTextLabel("albumsort").None?
      && FreeTextLabel("artistsort").None?
      && FreeTextLabel("titlesort").None?
      && FreeTextLabel("isrc").None?
      && FreeTextLabel("discsubtitle").None?
  {
  }

  /** No `tag_map` name is also a `text_tag_map` name. */
  lemma DirectNamesNotFreeText(id: TextId)
    ensures FreeTextLabel(TagFor(id)).None?
  {
    FirstDirectNamesNotFreeText();
    MiddleDirectNamesNotFreeText();
    LastDirectNamesNotFreeText();
  }

  /** No name is in both tables. */
  lemma TablesDisjoint(tag: string)
    requires FreeTextLabel(tag).Some?
    ensures DirectFrame(tag).None?
  {
    if DirectFrame(tag).Some? {
      DirectFrameLeftInverse(tag);
      DirectNamesNotFreeText(DirectFrame(tag).value);
    }
  }

  /** A `tag_map` field becomes the one text frame of its kind, carrying the
      value list unchanged. */
  lemma DirectMapping(flac: Flac, i: nat, id: TextId)
    requires WellFormed(flac) && i < |flac.fields| && flac.fields[i].tag == TagFor(id)
    requires Translate(flac).Success?
    ensures Text(Utf8, id, flac.fields[i].value) in Translate(flac).value
    ensures Count(Translate(flac).value, TextKey(id)) == 1
  {
    DirectFrameRightInverse(id);
    FieldFrameWritten(flac, i, Text(Utf8, id, flac.fields[i].value));
  }

  /** A `text_tag_map` field becomes the one TXXX frame with its table label
      as description, carrying the value list unchanged. */
  lemma FreeTextMapping(flac: Flac, i: nat, desc: string)
    requires WellFormed(flac) && i < |flac.fields| && LabelSource(desc) == Some(flac.fields[i].tag)
    requires Translate(flac).Success?
    ensures Txxx(Utf8, desc, flac.fields[i].value) in Translate(flac).value
    ensures Count(Translate(flac).value, TxxxKey(desc)) == 1
  {
    FreeTextLabelRightInverse(desc);
    TablesDisjoint(flac.fields[i].tag);
    FieldFrameWritten(flac, i, Txxx(Utf8, desc, flac.fields[i].value));
  }

  /** `_total` over a pair of names: the first one present wins. */
  lemma TotalOfPair(flac: Flac, first: string, second: string)
    requires WellFormed(flac)
    ensures TotalSuffix(flac, [first, second], 0) ==
      if Has(flac, first) then "/" + Get(flac, first)[0]
      else if Has(flac, second) then "/" + Get(flac, second)[0]
      else ""
  {
    var tags := [first, second];
    if Has(flac, first) {
      TotalSuffixFirst(flac, tags, 0, 0);
    } else if Has(flac, second) {
      TotalSuffixFirst(flac, tags, 0, 1);
    }
  }

  /** `tracknumber` becomes the one TRCK frame: its first value gets "/" and
      the first value of `tracktotal`, or failing that of `totaltracks`, or
      nothing; the other values are unchanged. */
  lemma TrackNumberFrame(flac: Flac, i: nat)
    requires WellFormed(flac) && i < |flac.fields| && flac.fields[i].tag == "tracknumber"
    requires Translate(flac).Success?
    ensures var v := flac.fields[i].value;
      var total := if Has(flac, "tracktotal") then "/" + Get(flac, "tracktotal")[0]
                   else if Has(flac, "totaltracks") then "/" + Get(flac, "totaltracks")[0]
                   else "";
      Trck(Utf8, v[0 := v[0] + total]) in Translate(flac).value
    ensures Count(Translate(flac).value, TrckKey) == 1
  {
    RouteOfTrackNumber();
    var v := flac.fields[i].value;
    TotalOfPair(flac, "tracktotal", "totaltracks");
    var total := TotalSuffix(flac, TrackTotalTags, 0);
    FieldFrameWritten(flac, i, Trck(Utf8, v[0 := v[0] + total]));
  }

  /** `discnumber` becomes the one TPOS frame, completed the same way from
      `disctotal` or `totaldiscs`. */
  lemma DiscNumberFrame(flac: Flac, i: nat)
    requires WellFormed(flac) && i < |flac.fields| && flac.fields[i].tag == "discnumber"
    requires Translate(flac).Success?
    ensures var v := flac.fields[i].value;
      var total := if Has(flac, "disctotal") then "/" + Get(flac, "disctotal")[0]
                   else if Has(flac, "totaldiscs") then "/" + Get(flac, "totaldiscs")[0]
                   else "";
      Tpos(Utf8, v[0 := v[0] + total]) in Translate(flac).value
    ensures Count(Translate(flac).value, TposKey) == 1
  {
    RouteOfDiscNumber();
    var v := flac.fields[i].value;
    TotalOfPair(flac, "disctotal", "totaldiscs");
    var total := TotalSuffix(flac, DiscTotalTags, 0);
    FieldFrameWritten(flac, i, Tpos(Utf8, v[0 := v[0] + total]));
  }

  /** `musicbrainz_trackid` becomes the one UFID frame owned by MusicBrainz,
      whose payload is the field's value list as `flac[...]` returns it. */
  lemma TrackIdFrame(flac: Flac, i: nat)
    requires WellFormed(flac) && i < |flac.fields| && flac.fields[i].tag == "musicbrainz_trackid"
    requires Translate(flac).Success?
    ensures Has(flac, "musicbrainz_trackid") && Get(flac, "musicbrainz_trackid") == flac.fields[i].value
    ensures Ufid(MusicBrainzOwner, flac.fields[i].value) in Translate(flac).value
    ensures Count(Translate(flac).value, UfidKey(MusicBrainzOwner)) == 1
  {
    RouteOfTrackId();
    LookupFindsField(flac.fields, i);
    FieldFrameWritten(flac, i, Ufid(MusicBrainzOwner, flac.fields[i].value));
  }

  /** `producer` becomes the one TIPL frame pairing the role "producer" with
      the whole value list. */
  lemma ProducerFrame(flac: Flac, i: nat)
    requires WellFormed(flac) && i < |flac.fields| && flac.fields[i].tag == "producer"
    requires Translate(flac).Success?
    ensures Tipl(Utf8, "producer", flac.fields[i].value) in Translate(flac).value
    ensures Count(Translate(flac).value, TiplKey) == 1
  {
    RouteOfProducer();
    FieldFrameWritten(flac, i, Tipl(Utf8, "producer", flac.fields[i].value));
  }

  /** `performer` becomes the one TMCL frame with one credit per value, in
      order. */
  lemma PerformerFrame(flac: Flac, i: nat)
    requires WellFormed(flac) && i < |flac.fields| && flac.fields[i].tag == "performer"
    requires Translate(flac).Success?
    ensures Tmcl(Utf8, Performers(flac.fields[i].value)) in Translate(flac).value
    ensures Count(Translate(flac).value, TmclKey) == 1
  {
    RouteOfPerformer();
    FieldFrameWritten(flac, i, Tmcl(Utf8, Performers(flac.fields[i].value)));
  }

  /** Each credit is the value with every trailing ')' removed, split at the
      last " (": `[name, role]` with no " (" left in the role, or the whole
      stripped value when it holds no " (". */
  lemma PerformerSplit(people: seq<string>, j: nat)
    requires j < |people|
    ensures |Performers(people)| == |people|
    ensures var entry := Performers(people)[j];
      var stripped := RStrip(people[j], ')');
      && (|entry| == 1 || |entry| == 2)
      && (|entry| == 1 ==> entry[0] == stripped && Free(stripped, " ("))
      && (|entry| == 2 ==> entry[0] + " (" + entry[1] == stripped && Free(entry[1], " ("))
  {
    RSplitOnceParts(RStrip(people[j], ')'), " (");
  }

  lemma StripsEveryParenthesis()
    ensures RStrip("Jane Doe (Bass (fretless))", ')') == "Jane Doe (Bass (fretless"
  {
    var s := "Jane Doe (Bass (fretless))";
    assert s[..|s| - 1] == "Jane Doe (Bass (fretless)";
    assert s[..|s| - 1][..|s| - 2] == "Jane Doe (Bass (fretless";
  }

  lemma LastOpening()
    ensures LastIndexOf("Jane Doe (Bass (fretless", " (") == Some(14)
  {
    var t := "Jane Doe (Bass (fretless";
    assert OccursAt(t, " (", 14);
    forall j | 14 < j
      ensures !OccursAt(t, " (", j)
    {
      if j + 2 <= |t| {
        assert t[j..j + 2][0] == t[j];
        assert t[j] != ' ';
      }
    }
  }

  /** A nested role keeps its inner opening parenthesis in the name: both
      closing parentheses go, and the split is at the last " (". */
  lemma NestedRoleCredit()
    ensures PerformerEntry("Jane Doe (Bass (fretless))") == ["Jane Doe (Bass", "fretless"]
  {
    var t := "Jane Doe (Bass (fretless";
    StripsEveryParenthesis();
    LastOpening();
    assert t[..14] == "Jane Doe (Bass";
    assert t[16..] == "fretless";
  }

  /** Both replay-gain values lose their last three characters: the " dB"
      unit of the gain, and the last three digits of the peak. */
  lemma ReplayGainSlicing()
    ensures DropLast("-7.03 dB", 3) == "-7.03"
    ensures DropLast("0.988420", 3) == "0.988"
  {
  }
}
