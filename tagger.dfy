/** The tag translator (class `Tagger`): maps a FLAC tag set and its pictures
    onto a list of ID3v2.4 frames, or fails with `UnknownTag`. */
module Tagger {

  import opened Wrappers
  import opened PyStrings
  import opened FlacTags
  import opened Id3Frames

  /** `tag_map`: the field names written as one text information frame
      each, and the frame each one becomes. */
  function DirectFrame(tag: string): Option<TextId>
  {
    match tag
    case "album" => Some(TALB)
    case "bpm" => Some(TBPM)
    case "compilation" => Some(TCMP)
    case "composer" => Some(TCOM)
    case "genre" => Some(TCON)
    case "copyright" => Some(TCOP)
    case "originaldate" => Some(TDOR)
    case "date" => Some(TDRC)
    case "encodeby" => Some(TENC)
    case "lyricist" => Some(TEXT)
    case "grouping" => Some(TIT1)
    case "title" => Some(TIT2)
    case "subtitle" => Some(TIT3)
    case "language" => Some(TLAN)
    case "media" => Some(TMED)
    case "mood" => Some(TMOO)
    case "artist" => Some(TPE1)
    case "albumartist" => Some(TPE2)
    case "conductor" => Some(TPE3)
    case "remixer" => Some(TPE4)
    case "label" => Some(TPUB)
    case "albumsort" => Some(TSOA)
    case "artistsort" => Some(TSOP)
    case "titlesort" => Some(TSOT)
    case "isrc" => Some(TSRC)
    case "discsubtitle" => Some(TSST)
    case _ => None
  }

  /** `text_tag_map`: the field names written as a TXXX frame, and the
      description that frame carries. */
  function FreeTextLabel(tag: string): Option<string>
  {
    match tag
    case "acoustid_id" => Some("Acoustid Id")
    case "albumartistsort" => Some("ALBUMARTISTSORT")
    case "asin" => Some("ASIN")
    case "barcode" => Some("BARCODE")
    case "catalognumber" => Some("CATALOGNUMBER")
    case "musicbrainz_albumartistid" => Some("MusicBrainz Album Artist Id")
    case "musicbrainz_albumid" => Some("MusicBrainz Album Id")
    case "musicbrainz_artistid" => Some("MusicBrainz Artist Id")
    case "musicbrainz_discid" => Some("MusicBrainz Disc Id")
    case "musicbrainz_releasegroupid" => Some("MusicBrainz Release Group Id")
    case "musicbrainz_trmid" => Some("MusicBrainz TRM Id")
    case "musicbrainz_workid" => Some("MusicBrainz Work Id")
    case "musicip_puid" => Some("MusicIP PUID")
    case "releasecountry" => Some("MusicBrainz Album Release Country")
    case "releasestatus" => Some("MusicBrainz Album Status")
    case "releasetype" => Some("MusicBrainz Album Type")
    case "script" => Some("SCRIPT")
    case _ => None
  }

  const TrackTotalTags: seq<string> := ["tracktotal", "totaltracks"]
  const DiscTotalTags: seq<string> := ["disctotal", "totaldiscs"]

  /** Fields that produce no frame of their own and are not an error. */
  const IgnoredTags: seq<string> := [
    "tracktotal", "totaltracks", "disctotal", "totaldiscs",
    "replaygain_album_gain", "replaygain_album_peak",
    "replaygain_track_gain", "replaygain_track_peak"]

  const MusicBrainzOwner: string := "http://musicbrainz.org"

  /** RVA2 channel type 1: master volume. */
  const MasterVolume: int := 1

  /** The exception raised for a field no rule covers; it names the field and
      its value list. */
  datatype UnknownTag = UnknownTag(tag: string, value: seq<string>)

  /** `tags[j]` is the first of `tags[lo..]` present in `flac`. */
  predicate FirstPresent(flac: Flac, tags: seq<string>, lo: nat, j: int)
  {
    lo <= j < |tags| && Has(flac, tags[j]) && forall i :: lo <= i < j ==> !Has(flac, tags[i])
  }

  /** `_total` over `totalTags[lo..]`: "/" and the first value of the first
      of them present, or the empty string when none is. */
  function TotalSuffix(flac: Flac, totalTags: seq<string>, lo: nat): (s: string)
    requires WellFormed(flac) && lo <= |totalTags|
    ensures s == "" <==> forall j :: lo <= j < |totalTags| ==> !Has(flac, totalTags[j])
    decreases |totalTags| - lo
  {
    if lo == |totalTags| then ""
    else if Has(flac, totalTags[lo]) then "/" + Get(flac, totalTags[lo])[0]
    else TotalSuffix(flac, totalTags, lo + 1)
  }

  /** The suffix comes from the first total field present. */
  lemma {:induction false} TotalSuffixFirst(flac: Flac, totalTags: seq<string>, lo: nat, j: nat)
    requires WellFormed(flac) && FirstPresent(flac, totalTags, lo, j)
    ensures TotalSuffix(flac, totalTags, lo) == "/" + Get(flac, totalTags[j])[0]
    decreases j - lo
  {
    if lo < j {
      assert !Has(flac, totalTags[lo]);
      assert FirstPresent(flac, totalTags, lo + 1, j);
      TotalSuffixFirst(flac, totalTags, lo + 1, j);
    }
  }

  /** `_total` as the source runs it: a loop that returns at the first total
      field present. */
  method Total(flac: Flac, totalTags: seq<string>) returns (s: string)
    requires WellFormed(flac)
    ensures s == TotalSuffix(flac, totalTags, 0)
  {
    for i := 0 to |totalTags|
      invariant TotalSuffix(flac, totalTags, 0) == TotalSuffix(flac, totalTags, i)
    {
      if Has(flac, totalTags[i]) {
        return "/" + Get(flac, totalTags[i])[0];
      }
    }
    return "";
  }

  /** One performer credit: all trailing ')' removed, then split at the last
      " (" into `[name, role]`. */
  function PerformerEntry(x: string): seq<string>
  {
    RSplitOnce(RStrip(x, ')'), " (")
  }

  /** `_performers` */
  function Performers(people: seq<string>): seq<seq<string>>
  {
    seq(|people|, i requires 0 <= i < |people| => PerformerEntry(people[i]))
  }

  function GainTag(scope: string): string { "replaygain_" + scope + "_gain" }
  function PeakTag(scope: string): string { "replaygain_" + scope + "_peak" }

  /** `_replaygain`: the RVA2 frame for one scope, present only when both the
      gain and the peak field are; each value loses its last three characters. */
  function ReplayGain(flac: Flac, scope: string): Option<Frame>
    requires WellFormed(flac)
  {
    if Has(flac, GainTag(scope)) && Has(flac, PeakTag(scope)) then
      Some(Rva2(scope, MasterVolume,
                DropLast(Get(flac, GainTag(scope))[0], 3),
                DropLast(Get(flac, PeakTag(scope))[0], 3)))
    else None
  }

  /** Which branch of the if/elif chain in `tag` a field name takes, tried in
      the source's order. */
  datatype Route =
    | Direct(id: TextId)
    | FreeText(desc: string)
    | TrackNumber
    | DiscNumber
    | TrackId
    | Producer
    | Performer
    | Ignored
    | Unknown

  function RouteOf(tag: string): Route
  {
    if DirectFrame(tag).Some? then Direct(DirectFrame(tag).value)
    else if FreeTextLabel(tag).Some? then FreeText(FreeTextLabel(tag).value)
    else if tag == "tracknumber" then TrackNumber
    else if tag == "discnumber" then DiscNumber
    else if tag == "musicbrainz_trackid" then TrackId
    else if tag == "producer" then Producer
    else if tag == "performer" then Performer
    else if tag in IgnoredTags then Ignored
    else Unknown
  }

  /** A field the dispatch in `tag` accepts. */
  predicate Known(tag: string)
  {
    RouteOf(tag) != Unknown
  }

  /** One iteration of the loop in `tag`: the frame a field adds, none for an
      ignored field, or the failure for an unknown one. */
  function FieldFrame(flac: Flac, f: Field): FieldResult
    requires WellFormed(flac) && f.value != []
  {
    var value := f.value;
    match RouteOf(f.tag)
    case Direct(id) => Success(Some(Text(Utf8, id, value)))
    case FreeText(desc) => Success(Some(Txxx(Utf8, desc, value)))
    case TrackNumber => Success(Some(Trck(Utf8, value[0 := value[0] + TotalSuffix(flac, TrackTotalTags, 0)])))
    case DiscNumber => Success(Some(Tpos(Utf8, value[0 := value[0] + TotalSuffix(flac, DiscTotalTags, 0)])))
    case TrackId => Success(Some(Ufid(MusicBrainzOwner, value)))
    case Producer => Success(Some(Tipl(Utf8, "producer", value)))
    case Performer => Success(Some(Tmcl(Utf8, Performers(value))))
    case Ignored => Success(None)
    case Unknown => Failure(UnknownTag(f.tag, value))
  }

  function OptionSeq(o: Option<Frame>): seq<Frame>
  {
    if o.Some? then [o.value] else []
  }

  /** What one pass of the loop body does: add a frame, add none, or fail. */
  type FieldResult = Result<Option<Frame>, UnknownTag>

  /** The outcome of the loop body for each field, in `iteritems` order. */
  function FieldResults(flac: Flac): seq<FieldResult>
    requires WellFormed(flac)
  {
    seq(|flac.fields|, i requires 0 <= i < |flac.fields| => FieldFrame(flac, flac.fields[i]))
  }

  /** `results` holds the outcome of the loop body for each field of `flac`. */
  ghost predicate Outcomes(flac: Flac, results: seq<FieldResult>)
    requires WellFormed(flac)
  {
    |results| == |flac.fields|
    && forall i {:trigger FieldFrame(flac, flac.fields[i])} :: 0 <= i < |results| ==> results[i] == FieldFrame(flac, flac.fields[i])
  }

  /** The loop over the first `n` outcomes: the frames they add, in order, or
      the first failure among them. */
  function Collect(results: seq<FieldResult>, n: nat): Result<seq<Frame>, UnknownTag>
    requires n <= |results|
  {
    if n == 0 then Success([])
    else
      match Collect(results, n - 1)
      case Failure(e) => Failure(e)
      case Success(frames) =>
        match results[n - 1]
        case Failure(e) => Failure(e)
        case Success(o) => Success(frames + OptionSeq(o))
  }

  function PictureFrame(p: Picture): Frame
  {
    Apic(Utf8, p.mime, p.picType, p.desc, p.data)
  }

  function PictureFrames(pictures: seq<Picture>): seq<Frame>
  {
    seq(|pictures|, i requires 0 <= i < |pictures| => PictureFrame(pictures[i]))
  }

  /** What `tag` writes: the field frames, the album and the track RVA2 frame,
      then one APIC frame per picture. */
  function Translate(flac: Flac): Result<seq<Frame>, UnknownTag>
    requires WellFormed(flac)
  {
    match Collect(FieldResults(flac), |flac.fields|)
    case Failure(e) => Failure(e)
    case Success(frames) =>
      Success(frames + OptionSeq(ReplayGain(flac, "album")) + OptionSeq(ReplayGain(flac, "track"))
              + PictureFrames(flac.pictures))
  }

  lemma {:induction false} FailureSticks(results: seq<FieldResult>, i: nat, n: nat, e: UnknownTag)
    requires i <= n <= |results|
    requires Collect(results, i) == Failure(e)
    ensures Collect(results, n) == Failure(e)
    decreases n
  {
    if i < n {
      FailureSticks(results, i, n - 1, e);
    }
  }

  lemma TranslateOfFieldFrames(flac: Flac, fieldFrames: seq<Frame>)
    requires WellFormed(flac) && Collect(FieldResults(flac), |flac.fields|) == Success(fieldFrames)
    ensures Translate(flac) == Success(fieldFrames + OptionSeq(ReplayGain(flac, "album"))
                                      + OptionSeq(ReplayGain(flac, "track")) + PictureFrames(flac.pictures))
  {
  }

  lemma PictureFramesSnoc(pictures: seq<Picture>, j: nat)
    requires j < |pictures|
    ensures PictureFrames(pictures[..j + 1]) == PictureFrames(pictures[..j]) + [PictureFrame(pictures[j])]
  {
  }

  /** `_replaygain`: adds the RVA2 frame for `scope` when both of its fields
      are present. */
  method AddReplayGain(flac: Flac, frames: seq<Frame>, scope: string) returns (r: seq<Frame>)
    requires WellFormed(flac)
    ensures r == frames + OptionSeq(ReplayGain(flac, scope))
  {
    var gainTag, peakTag := GainTag(scope), PeakTag(scope);
    if Has(flac, gainTag) && Has(flac, peakTag) {
      var gain := DropLast(Get(flac, gainTag)[0], 3);
      var peak := DropLast(Get(flac, peakTag)[0], 3);
      return frames + [Rva2(scope, MasterVolume, gain, peak)];
    }
    return frames;
  }

  /** The picture loop at the end of `tag`: one APIC frame per picture, in
      order, with mime type, picture type, description and data copied. */
  method AddPictures(frames: seq<Frame>, pictures: seq<Picture>) returns (r: seq<Frame>)
    ensures r == frames + PictureFrames(pictures)
  {
    r := frames;
    for j := 0 to |pictures|
      invariant r == frames + PictureFrames(pictures[..j])
    {
      var pic := pictures[j];
      PictureFramesSnoc(pictures, j);
      r := r + [Apic(Utf8, pic.mime, pic.picType, pic.desc, pic.data)];
    }
    assert pictures[..|pictures|] == pictures;
  }

  /** The body of the field loop in `tag`: append the frame the field at
      index `i` maps to, skip an ignored field, or fail on an unknown one. */
  method AddField(flac: Flac, ghost results: seq<FieldResult>, frames: seq<Frame>, i: nat) returns (r: Result<seq<Frame>, UnknownTag>)
    requires WellFormed(flac) && Outcomes(flac, results) && i < |flac.fields|
    requires Collect(results, i) == Success(frames)
    ensures r == Collect(results, i + 1)
    ensures r.Failure? ==> r == Collect(results, |flac.fields|)
  {
    var tag, value := flac.fields[i].tag, flac.fields[i].value;
    assert results[i] == FieldFrame(flac, flac.fields[i]);
    match RouteOf(tag) {
      case Direct(id) =>
        return Success(frames + [Text(Utf8, id, value)]);
      case FreeText(desc) =>
        return Success(frames + [Txxx(Utf8, desc, value)]);
      case TrackNumber =>
        var total := Total(flac, TrackTotalTags);
        value := value[0 := value[0] + total];
        return Success(frames + [Trck(Utf8, value)]);
      case DiscNumber =>
        var total := Total(flac, DiscTotalTags);
        value := value[0 := value[0] + total];
        return Success(frames + [Tpos(Utf8, value)]);
      case TrackId =>
        LookupFindsField(flac.fields, i);
        return Success(frames + [Ufid(MusicBrainzOwner, Get(flac, "musicbrainz_trackid"))]);
      case Producer =>
        return Success(frames + [Tipl(Utf8, "producer", value)]);
      case Performer =>
        return Success(frames + [Tmcl(Utf8, Performers(value))]);
      case Ignored =>
        assert frames + [] == frames;
        return Success(frames);
      case Unknown =>
        r := Failure(UnknownTag(tag, value));
        FailureSticks(results, i + 1, |flac.fields|, r.error);
    }
  }

  /** The `for` loop of `tag` over `flac.iteritems()`: the frames the fields
      add, or the `UnknownTag` the first unknown field raises. */
  method AddFields(flac: Flac, ghost results: seq<FieldResult>) returns (r: Result<seq<Frame>, UnknownTag>)
    requires WellFormed(flac) && Outcomes(flac, results)
    ensures r == Collect(results, |flac.fields|)
  {
    var frames: seq<Frame> := [];
    for i := 0 to |flac.fields|
      invariant Collect(results, i) == Success(frames)
    {
      var next := AddField(flac, results, frames, i);
      if next.Failure? {
        return next;
      }
      frames := next.value;
    }
    return Success(frames);
  }

  /** `Tagger.tag`: the field frames (the `id3.add` calls of the loop), then
      the album and the track RVA2 frame, then one APIC frame per picture;
      nothing at all when a field is unknown. */
  method Tag(flac: Flac) returns (r: Result<seq<Frame>, UnknownTag>)
    requires WellFormed(flac)
    ensures r == Translate(flac)
  {
    var fieldFrames := AddFields(flac, FieldResults(flac));
    if fieldFrames.Failure? {
      return fieldFrames;
    }
    var frames := fieldFrames.value;
    TranslateOfFieldFrames(flac, frames);

    frames := AddReplayGain(flac, frames, "album");
    frames := AddReplayGain(flac, frames, "track");

    frames := AddPictures(frames, flac.pictures);
    return Success(frames);
  }
}
