# flac2mp3 in Dafny

`flac2mp3.py` mirrors a directory tree of FLAC files as MP3 files. This
project models two parts of it and proves what they promise.

**The tag translator.** `Tagger.tag` reads a FLAC file's Vorbis-comment fields
and its embedded pictures, and builds the ID3v2.4 frames of the MP3 file:
- each field goes through a fixed dispatch:
  - the `tag_map` table sends 26 names to text frames;
  - the `text_tag_map` table sends 17 names to TXXX frames;
  - five names have rules of their own (TRCK and TPOS completed with a total, UFID, TIPL, TMCL);
  - eight names are ignored;
  - any other name raises `UnknownTag`;
- then the album RVA2 frame and the track RVA2 frame are added, each when its gain and peak are both present;
- then one APIC frame is added per picture.

**The walk over a directory.** `transcode_dir`:
- copies the cover art;
- then, for each `.flac` file, either skips it, because its MP3 is at least as new, or transcodes and tags it into `<stem>.mp3` and gives the MP3 the FLAC file's time;
- stops at the first file whose transcode or tag raises.

The modules:
- `Wrappers`: `Option` and `Result`.
- `PyStrings`: the Python string operations the program uses, with their edge cases:
  - `endswith`;
  - `rstrip` of one character (all trailing copies go);
  - `rfind`;
  - `rsplit(sep, 1)`;
  - the slice `s[:-3]`;
  - the stem of `os.path.splitext`.
- `FlacTags`: the FLAC side. It holds the field names in `iteritems` order, each with a non-empty value list, plus the pictures, along with `tag in flac` and `flac[tag]`. The model accepts any distinct names; the reader is what lower-cases them.
- `Id3Frames`: the ID3 side. It has one `Frame` constructor per frame kind and the key under which mutagen files each frame. `Count` says how many frames share a key.
- `Tagger`: the tables, the dispatch (`RouteOf`), and the specification function `Translate`. It also holds `Tag`, the method with the source's loops (`AddFields` over the fields, `Total` for `_total`, `AddPictures` over the pictures), each proved equal to its specification.
- `TaggerProperties` and `TaggerLayout`: what `tag` writes. This covers each mapping, the failure on unknown names, the replay-gain pair rule, the performer split, that each frame key other than an APIC key is written at most once, and the order of the output.
- `Sync` and `SyncProperties`: the walk over one directory as the method `TranscodeDir`, proved equal to the specification function `Pass`. They also cover naming, staleness, and that a second walk over unchanged files skips every file.

Two details of the code differ from what the data's usual conventions suggest. The model follows the code in both:
- **Performer credits.** A credit written as "Name (Role)" becomes the pair `[name, role]`, in that order. `x.rstrip(')').rsplit(' (', 1)` strips every trailing `)`, not just one. So `"Jane Doe (Bass (fretless))"` becomes `["Jane Doe (Bass", "fretless"]`.
- **Replay gain.** The peak loses its last three characters just as the gain does, so `"0.988420"` is read as `"0.988"`.

## Model

| member | source | states |
|---|---|---|
| PyStrings.RStrip | flac2mp3.py:153 | `rstrip(')')` leaves a prefix of the value, removes only `)` characters, and leaves no `)` at the end |
| PyStrings.LastIndexOf | flac2mp3.py:153 | the separator occurs at the index found and at no later index; None means it does not occur at all |
| PyStrings.RSplitOnceParts | flac2mp3.py:153 | `rsplit(' (', 1)` gives one part, the whole string, when there is no separator; otherwise two parts that rejoin to the string around the separator's last occurrence, as `rfind` finds it, with no separator left in the second |
| PyStrings.DropLastParts | flac2mp3.py:148-149 | `s[:-3]` has length `|s| - 3` (0 for a shorter string) and, put back in front of the last three characters, gives `s` |
| FlacTags.Lookup | flac2mp3.py:140-141 | `flac[tag]` is missing exactly when no field has that name |
| FlacTags.LookupFound | flac2mp3.py:113 | what `flac[tag]` returns is the value list of a field with that name |
| FlacTags.LookupFindsField | flac2mp3.py:101-113 | with distinct names, `flac[tag]` for a field's own name returns that field's value list |
| FlacTags.Get | flac2mp3.py:140-141 | a present field's value list is non-empty, so `[0]` is defined |
| Tagger.TotalSuffix | flac2mp3.py:138-142 | `_total` is the empty string exactly when none of the total names is present |
| Tagger.TotalSuffixFirst | flac2mp3.py:138-142 | `_total` is "/" plus the first value of the first total name present |
| Tagger.Total | flac2mp3.py:138-142 | the loop with its early return computes `_total` |
| Tagger.FailureSticks | flac2mp3.py:118-122 | once a field has raised, later fields change nothing |
| Tagger.AddField | flac2mp3.py:101-122 | one pass of the field loop adds that field's frame, adds nothing for an ignored name, or raises and ends the loop |
| Tagger.AddFields | flac2mp3.py:101-122 | the field loop yields the frames of all fields in order, or the first `UnknownTag` |
| Tagger.AddReplayGain | flac2mp3.py:144-150 | `_replaygain` appends exactly the scope's RVA2 frame when both fields are present, and nothing otherwise |
| Tagger.AddPictures | flac2mp3.py:127-134 | the picture loop appends one APIC frame per picture, in order |
| Tagger.Tag | flac2mp3.py:98-136 | `tag` writes exactly what `Translate` specifies: field frames, the album and track RVA2 frames, the pictures, or the failure |
| TaggerProperties.DirectFrameLeftInverse | flac2mp3.py:49-76 | each `tag_map` name is the name listed for its frame |
| TaggerProperties.DirectFrameRightInverse | flac2mp3.py:49-76 | each of the 26 text frames is reached from its listed name |
| TaggerProperties.DirectFrameInverse | flac2mp3.py:49-76 | `tag_map` sends a name to a frame if and only if that is the frame's listed name, so it is one-to-one |
| TaggerProperties.FreeTextLabelLeftInverse | flac2mp3.py:78-96 | each `text_tag_map` name is the name listed for its description |
| TaggerProperties.FreeTextLabelRightInverse | flac2mp3.py:78-96 | each description is reached from its listed name |
| TaggerProperties.FreeTextLabelInverse | flac2mp3.py:78-96 | `text_tag_map` gives a name a description if and only if that description is listed for the name, so no two names share one |
| TaggerProperties.FieldFrameKey | flac2mp3.py:101-122 | an accepted field adds a frame exactly when its name is not ignored, filed under the key its name determines |
| TaggerProperties.EmittedKeyInjective | flac2mp3.py:49-117 | two field names that add frames never file them under the same key |
| TaggerProperties.FieldResultsKeysDistinct | flac2mp3.py:101-117 | no two fields of a file add frames with the same key |
| TaggerProperties.FieldFrameKind | flac2mp3.py:101-117 | the field loop adds neither RVA2 nor APIC frames |
| TaggerProperties.CollectOutcome | flac2mp3.py:101-122 | the field loop succeeds exactly when every field does, and otherwise fails with the first failure |
| TaggerProperties.UnknownTagFails | flac2mp3.py:118-122 | `tag` fails if and only if some field name has no rule, and then it names the first such field with its values |
| TaggerProperties.TrackTotalIgnored | flac2mp3.py:118-121 | `tracktotal` and `totaltracks` take the ignore branch |
| TaggerProperties.DiscTotalIgnored | flac2mp3.py:118-121 | `disctotal` and `totaldiscs` take the ignore branch |
| TaggerProperties.AlbumGainIgnored | flac2mp3.py:118-121 | the album gain and peak names take the ignore branch |
| TaggerProperties.TrackGainIgnored | flac2mp3.py:118-121 | the track gain and peak names take the ignore branch |
| TaggerProperties.IgnoredAddNothing | flac2mp3.py:118-122 | the eight ignored names are accepted and add no frame |
| TaggerProperties.CollectCount | flac2mp3.py:101-122 | the frames the loop collects under a key are the fields that add a frame under it |
| TaggerProperties.CollectOrigin | flac2mp3.py:101-122 | every collected frame is the frame of some field |
| TaggerProperties.CollectUnique | flac2mp3.py:101-122 | a field's frame is collected and is the only one under its key |
| TaggerProperties.TranslateCount | flac2mp3.py:124-134 | the RVA2 and APIC frames added after the loop leave every other key's count unchanged |
| TaggerProperties.FieldFrameWritten | flac2mp3.py:101-134 | a field's frame is in the output, once under its key |
| TaggerProperties.RouteOfTrackNumber | flac2mp3.py:106 | `tracknumber` takes its own branch |
| TaggerProperties.RouteOfDiscNumber | flac2mp3.py:109 | `discnumber` takes its own branch |
| TaggerProperties.RouteOfTrackId | flac2mp3.py:112 | `musicbrainz_trackid` takes its own branch |
| TaggerProperties.RouteOfProducer | flac2mp3.py:114 | `producer` takes its own branch |
| TaggerProperties.RouteOfPerformer | flac2mp3.py:116 | `performer` takes its own branch |
| TaggerProperties.DirectNamesNotFreeText | flac2mp3.py:49-96 | no `tag_map` name is a `text_tag_map` name |
| TaggerProperties.TablesDisjoint | flac2mp3.py:102-105 | a `text_tag_map` name never reaches the `tag_map` branch |
| TaggerProperties.DirectMapping | flac2mp3.py:102-103 | a `tag_map` field is written as exactly one frame of its mapped kind, with the value list unchanged |
| TaggerProperties.FreeTextMapping | flac2mp3.py:104-105 | a `text_tag_map` field is written as exactly one TXXX frame with the table's description, with the value list unchanged |
| TaggerProperties.TotalOfPair | flac2mp3.py:138-142 | over two names, the first name present wins, and with neither the total is empty |
| TaggerProperties.TrackNumberFrame | flac2mp3.py:106-108 | `tracknumber` becomes the one TRCK frame: first value plus "/" and `tracktotal`'s first value, else `totaltracks`'s, else nothing; other values unchanged |
| TaggerProperties.DiscNumberFrame | flac2mp3.py:109-111 | `discnumber` becomes the one TPOS frame, completed from `disctotal`, else `totaldiscs` |
| TaggerProperties.TrackIdFrame | flac2mp3.py:112-113 | `musicbrainz_trackid` becomes the one UFID frame owned by `http://musicbrainz.org`, carrying the list `flac[...]` returns, which is the field's own value list |
| TaggerProperties.ProducerFrame | flac2mp3.py:114-115 | `producer` becomes the one TIPL frame pairing "producer" with the whole value list |
| TaggerProperties.PerformerFrame | flac2mp3.py:116-117 | `performer` becomes the one TMCL frame built from `_performers` of the values |
| TaggerProperties.PerformerSplit | flac2mp3.py:152-153 | one credit per value, in order: the value with all trailing `)` removed, split at the last " (" into `[name, role]`, or kept whole when it has no " (" |
| TaggerProperties.StripsEveryParenthesis | flac2mp3.py:153 | `rstrip` removes both closing parentheses of a nested role |
| TaggerProperties.LastOpening | flac2mp3.py:153 | `rfind` finds the inner " (" of a nested role |
| TaggerProperties.NestedRoleCredit | flac2mp3.py:153 | `"Jane Doe (Bass (fretless))"` is credited as `["Jane Doe (Bass", "fretless"]` |
| TaggerProperties.ReplayGainSlicing | flac2mp3.py:148-149 | both a gain such as `-7.03 dB` and a peak such as `0.988420` lose their last three characters |
| TaggerLayout.Layout | flac2mp3.py:101-134 | the output is the field frames, which include no RVA2 or APIC frame, then the album RVA2 frame, the track RVA2 frame and the APIC frames |
| TaggerLayout.ReplayGainCount | flac2mp3.py:144-150 | for `album` and `track`, one RVA2 frame of that scope is written if both its gain and peak are present, and none otherwise |
| TaggerLayout.ReplayGainWritten | flac2mp3.py:144-150 | when `tag` succeeds and both fields of the scope are present, its RVA2 frame is written with channel 1 and the first gain and peak values, each short of its last three characters |
| TaggerLayout.KeysWrittenOnce | flac2mp3.py:101-134 | apart from APIC frames, no two written frames share a key, so every `add` files a new key |
| TaggerLayout.FrameOrder | flac2mp3.py:101-134 | field frames come before the album RVA2 frame, which comes before the track RVA2 frame, which comes before every APIC frame |
| TaggerLayout.PicturesLast | flac2mp3.py:127-134 | the last frames are one APIC frame per picture, in order, with mime, type, description and data copied, and no earlier frame is an APIC frame |
| Sync.CoverArt | flac2mp3.py:168 | the pictures list holds only cover-art names, each taken from the listed files, and every cover-art file among them is in it |
| Sync.CoverArtConcat | flac2mp3.py:168 | the selection keeps the listing's order: the cover art of one listing followed by another is the first's cover art followed by the second's |
| PyStrings.EndsWith | flac2mp3.py:156-166 | definition of `endswith`: the last `|suffix|` characters are the suffix; FlacNotCoverArt and Mp3NameNeverInput state what follows for the suffixes used |
| PyStrings.RSplitOnce | flac2mp3.py:153 | definition of `rsplit(sep, 1)` at the last occurrence found by `rfind`; its contract is RSplitOnceParts |
| PyStrings.DropLast | flac2mp3.py:148-149 | definition of the slice `s[:-n]`; its contract is DropLastParts |
| PyStrings.Stem | flac2mp3.py:196 | definition of `os.path.splitext(f)[0]` for a bare name; Mp3NameOfFlac and DotNamesCollide state what it gives for FLAC names |
| Tagger.DirectFrame | flac2mp3.py:49-76 | the `tag_map` table; the DirectFrame inverse lemmas prove it one-to-one, and DirectMapping proves how it is used |
| Tagger.FreeTextLabel | flac2mp3.py:78-96 | the `text_tag_map` table; the FreeTextLabel inverse lemmas prove no two names share a description, and FreeTextMapping proves how it is used |
| Tagger.RouteOf | flac2mp3.py:101-122 | the `if`/`elif` dispatch, in the source's order; the RouteOf lemmas, TablesDisjoint and UnknownTagFails state where each name goes |
| Tagger.FieldFrame | flac2mp3.py:101-122 | one field's outcome: a frame, nothing, or `UnknownTag`; stated by FieldFrameKey, FieldFrameKind and the per-branch mapping lemmas |
| Tagger.PerformerEntry | flac2mp3.py:153 | one credit `x.rstrip(')').rsplit(' (', 1)`; stated by PerformerSplit and NestedRoleCredit |
| Tagger.Performers | flac2mp3.py:152-153 | `_performers`, one credit per value; stated by PerformerSplit |
| Tagger.ReplayGain | flac2mp3.py:144-150 | the optional RVA2 frame of one scope; stated by ReplayGainCount and ReplayGainWritten |
| Tagger.Translate | flac2mp3.py:98-136 | the specification of `tag`; Tag is proved equal to it, and Layout, UnknownTagFails, KeysWrittenOnce, FrameOrder and PicturesLast state its properties |
| Sync.Newer | flac2mp3.py:20-22 | `newer`: the MP3 is missing or older in whole seconds; DecideFresh and DecideAllSkip state its consequences for the walk |
| Sync.IsFlac | flac2mp3.py:156-157 | `is_flac`; FlacNotCoverArt and Mp3NameNeverInput state that it never accepts a picture or an MP3 name |
| Sync.IsCoverArt | flac2mp3.py:161-166 | `is_cover_art`; FlacNotCoverArt and Mp3NameNeverInput state that it never accepts a FLAC or MP3 name |
| Sync.Mp3Name | flac2mp3.py:196 | the MP3 name of a FLAC file; stated by Mp3NameNeverInput, Mp3NameOfFlac, Mp3NameInjective and DotNamesCollide |
| Sync.CopyPictures | flac2mp3.py:170-173 | the `copy2` loop; stated by CopyPicturesTimes and CopyPicturesIdle |
| Sync.Step | flac2mp3.py:192-209 | one iteration of the file loop; stated through Decide's lemmas |
| Sync.Decide | flac2mp3.py:192-209 | the file loop; stated by DecideAppends, DecideCovers, DecideFailsLast, DecideMonotone, DecideLeavesOthers, DecideFresh and DecideAllSkip |
| Sync.Pass | flac2mp3.py:189-209 | the specification of one directory's walk; TranscodeDir is proved equal to it, and PassLog, PassCopiesPictures, PassFresh and SecondPassSkipsAll state its properties |
| FlacTags.Has | flac2mp3.py:140 | `tag in flac` (also at line 147); FlacTags.Lookup states that it holds exactly when some field has the name |
| Tagger.GainTag | flac2mp3.py:145 | the name `replaygain_<scope>_gain`; TaggerLayout.ReplayGainCount and ReplayGainWritten state what its presence decides |
| Tagger.PeakTag | flac2mp3.py:146 | the name `replaygain_<scope>_peak`; TaggerLayout.ReplayGainCount and ReplayGainWritten state what its presence decides |
| Tagger.Collect | flac2mp3.py:101-122 | the field loop's frames so far, or the first raise; stated by CollectOutcome, CollectCount, CollectOrigin, CollectUnique and FailureSticks |
| Tagger.PictureFrame | flac2mp3.py:128-133 | the `APIC(...)` of one picture, UTF-8 with mime, type, description and data copied; stated by TaggerLayout.PicturesLast |
| Tagger.PictureFrames | flac2mp3.py:127-134 | the picture loop's frames, one per picture in order; stated by TaggerLayout.PicturesLast |
| Sync.MTime | flac2mp3.py:21-22 | `os.path.exists` with `int(os.path.getmtime(...))`: the whole-second time, or none for a missing file; used by Newer, and stated through DecideFresh and DecideAllSkip |
| Sync.AfterCopies | flac2mp3.py:189 | the state after `copy_pictures`, where the file loop starts; stated by CopiesLog, CopyPicturesTimes and PassCopiesPictures |
| Sync.StoppedStays | flac2mp3.py:201-205 | after an exception, later files are not looked at |
| Sync.TranscodeDir | flac2mp3.py:189-209 | the walk over one directory, with its loops, produces exactly `Pass`: the copies, the per-file decisions, the MP3 times and whether it finished |
| SyncProperties.FlacNotCoverArt | flac2mp3.py:156-166 | a `.flac` file is never cover art |
| SyncProperties.Mp3NameNeverInput | flac2mp3.py:196 | an MP3 name ends in `.mp3`, so it is neither a FLAC file nor cover art |
| SyncProperties.Mp3NameOfFlac | flac2mp3.py:196 | the MP3 name replaces `.flac` by `.mp3`, except that when only dots precede `.flac` it appends `.mp3` to the whole name |
| SyncProperties.Mp3NameInjective | flac2mp3.py:196 | two ordinary FLAC names never share an MP3 name |
| SyncProperties.DotNamesCollide | flac2mp3.py:196 | `.flac` and `.flac.flac` are both written to `.flac.mp3` |
| SyncProperties.DecideAppends | flac2mp3.py:192-209 | the file loop only appends to the log, and only decisions about FLAC files; each transcode writes the file's MP3 name |
| SyncProperties.DecideCovers | flac2mp3.py:192-209 | the loop decides the FLAC files in order, once each: all of them, or a prefix of them when it stops |
| SyncProperties.DecideFailsLast | flac2mp3.py:201-205 | the loop stops exactly when a decision fails, and the failure is the last entry |
| SyncProperties.DecideMonotone | flac2mp3.py:201-207 | no MP3 time goes down and no file disappears |
| SyncProperties.DecideLeavesOthers | flac2mp3.py:196-207 | only the MP3 names of the listed files change |
| SyncProperties.DecideFresh | flac2mp3.py:20-22 | after a loop that finished, every FLAC file's MP3 exists and is at least as new as the FLAC file |
| SyncProperties.DecideAllSkip | flac2mp3.py:20-22 | when every MP3 is already at least as new, the loop skips every FLAC file and changes nothing |
| SyncProperties.CopiesLog | flac2mp3.py:170-173 | one copy entry per picture, in order |
| SyncProperties.CopyPicturesTimes | flac2mp3.py:170-173 | `copy2` gives each picture its original's time and changes nothing else |
| SyncProperties.CopyPicturesIdle | flac2mp3.py:170-173 | copying pictures that already carry their originals' times changes nothing |
| SyncProperties.PassLog | flac2mp3.py:189-209 | a pass logs the copies first, then the decisions for the FLAC files in order; it finishes exactly when no decision failed |
| SyncProperties.PassCopiesPictures | flac2mp3.py:170-173 | after a pass, every picture carries its original's time |
| SyncProperties.PassFresh | flac2mp3.py:201-207 | after a pass that finished, every FLAC file's MP3 exists and is at least as new as the FLAC file |
| SyncProperties.SecondPassSkipsAll | flac2mp3.py:20-22 | walking the same files again skips every FLAC file, raises nothing, and leaves the MP3 directory as it was |

## Left out

- `transcode` (flac2mp3.py:34-45) spawns the `flac` and `lame` processes. In the walk, the set `failing` is an unconstrained parameter: it stands for the files whose transcode or `tag` raises. That includes a file whose `Translate` is a failure, and one whose replay-gain text `float(...)` rejects. No lemma ties `failing` to `Translate`.
- `mk_tmp_dir`, `os.walk` into subdirectories, `os.mkdir`, `copystat` on directories, and the path joins are filesystem plumbing. The same holds for the write to a temporary file followed by `shutil.move`. One directory is modelled: the list of its files, and each name with its whole-second time.
- `int(os.path.getmtime(...))`: times are given in whole seconds, so the truncation of a floating-point time is not modelled.
- Reading the FLAC file (mutagen's `FLAC`) and `id3.save` are I/O. The field list, with distinct names, values and pictures, is an input, and the output is the frame list.
- `id3.add` is modelled as an append. Mutagen replaces a frame with an equal key.
  - `KeysWrittenOnce` shows that no two non-APIC frames share a key, so for those, append and replace agree.
  - Two pictures with the same description would share an APIC key, and mutagen would keep only the last. The model keeps both.
- ReplayGainWritten: the frame holds the sliced strings. `float(...)` is not modelled, including the `ValueError` it raises on text it cannot parse, which in the source would make `tag` raise.
- Tagger.UnknownTag: the exception carries the field name and its value list. The message text `"%s=%s"`, with Python's rendering of a list, is not modelled.
- The `print` progress lines (flac2mp3.py:171-172, 202, 204, 209) and `main` (flac2mp3.py:212-217) are not modelled. The `Action` log keeps one entry per copied picture and one per FLAC file decided, in the order of the prints. A transcode's two prints, `[transcode]` and `[tag]`, are one `Transcode` entry. An exception, which prints nothing of its own, is a `Fail` entry.
- `value[0] +=` changes the list that `iteritems` handed out. The model builds the new list as a value, and no later step reads the old one.
- `copy_pictures` joins each picture to `src_root` and copies it into the MP3 directory under the same name. The model copies the time under the same name.
