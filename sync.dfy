/** The directory walk of `transcode_dir` for one directory, with the
    filesystem reduced to what the decisions read and write: the whole-second
    modification time of each file name. */
module Sync {

  import opened Wrappers
  import opened PyStrings

  /** A directory: each file name present, with its modification time. */
  type Dir = map<string, int>

  /** `os.path.getmtime` truncated by `int`, or None when the file does not
      exist. */
  function MTime(dir: Dir, name: string): Option<int>
  {
    if name in dir then Some(dir[name]) else None
  }

  /** `newer(f1, f2)`: `f2` is missing, or `f1` was modified in a later
      second. */
  predicate Newer(src: int, dst: Option<int>)
  {
    dst.None? || src > dst.value
  }

  /** `is_flac` */
  predicate IsFlac(f: string)
  {
    EndsWith(f, ".flac")
  }

  /** `is_cover_art` inside `copy_pictures` */
  predicate IsCoverArt(f: string)
  {
    EndsWith(f, ".jpg") || EndsWith(f, ".jpeg") || EndsWith(f, ".png") || EndsWith(f, ".bmp")
  }

  /** `os.path.splitext(flac_file_name)[0] + '.mp3'` */
  function Mp3Name(f: string): string
  {
    Stem(f) + ".mp3"
  }

  /** What the walk does with a file, in the order it does it: copy a
      picture, transcode and tag a FLAC file into an MP3 file, skip an
      up-to-date one, or stop on the one whose transcode or tag raises. */
  datatype Action =
    | Copy(picture: string)
    | Transcode(flac: string, mp3: string)
    | Skip(flac: string)
    | Fail(flac: string)

  /** The actions so far, the MP3 directory, and whether the walk is still
      running (false once an exception has escaped). */
  datatype Outcome = Outcome(log: seq<Action>, mp3Dir: Dir, finished: bool)

  /** Every listed file exists in the source directory. */
  predicate Listed(files: seq<string>, src: Dir)
  {
    forall i :: 0 <= i < |files| ==> files[i] in src
  }

  // ---------------------------------------------------------------------
  // `copy_pictures`

  /** The list comprehension of `copy_pictures`: the cover-art names among
      the first `n` files, in order. */
  function CoverArt(files: seq<string>, n: nat): (pictures: seq<string>)
    requires n <= |files|
    ensures |pictures| <= n
    ensures forall j :: 0 <= j < |pictures| ==> IsCoverArt(pictures[j])
    ensures forall j :: 0 <= j < |pictures| ==> exists i :: 0 <= i < n && files[i] == pictures[j]
    ensures forall i :: 0 <= i < n && IsCoverArt(files[i]) ==> files[i] in pictures
  {
    if n == 0 then []
    else CoverArt(files, n - 1) + if IsCoverArt(files[n - 1]) then [files[n - 1]] else []
  }

  function Copies(pictures: seq<string>, n: nat): seq<Action>
    requires n <= |pictures|
  {
    if n == 0 then [] else Copies(pictures, n - 1) + [Copy(pictures[n - 1])]
  }

  /** `shutil.copy2` of the first `n` pictures: each copy takes the time of
      its original, whatever the destination held. */
  function CopyPictures(pictures: seq<string>, n: nat, src: Dir, dst: Dir): Dir
    requires n <= |pictures| && Listed(pictures, src)
  {
    if n == 0 then dst
    else CopyPictures(pictures, n - 1, src, dst)[pictures[n - 1] := src[pictures[n - 1]]]
  }

  // ---------------------------------------------------------------------
  // The file loop

  /** One iteration of the loop over `files`: nothing for a file that is not
      FLAC or once the walk has stopped; otherwise skip it when its MP3 is up
      to date, stop when its transcode or tag raises, or write the MP3 and
      give it the FLAC file's time (`shutil.copystat`). */
  function Step(prev: Outcome, f: string, src: Dir, failing: set<string>): Outcome
    requires f in src
  {
    if !prev.finished || !IsFlac(f) then prev
    else
      var mp3 := Mp3Name(f);
      if !Newer(src[f], MTime(prev.mp3Dir, mp3)) then Outcome(prev.log + [Skip(f)], prev.mp3Dir, true)
      else if f in failing then Outcome(prev.log + [Fail(f)], prev.mp3Dir, false)
      else Outcome(prev.log + [Transcode(f, mp3)], prev.mp3Dir[mp3 := src[f]], true)
  }

  /** The loop over the first `n` files, from `start`. */
  function Decide(files: seq<string>, n: nat, src: Dir, start: Outcome, failing: set<string>): Outcome
    requires n <= |files| && Listed(files, src)
  {
    if n == 0 then start else Step(Decide(files, n - 1, src, start, failing), files[n - 1], src, failing)
  }

  lemma {:induction false} CoverArtOfPrefix(files: seq<string>, more: seq<string>, n: nat)
    requires n <= |files|
    ensures CoverArt(files + more, n) == CoverArt(files, n)
    decreases n
  {
    if n > 0 {
      CoverArtOfPrefix(files, more, n - 1);
    }
  }

  /** The selection keeps the order of the listing: the cover art of two
      listings one after the other is the cover art of the first followed by
      that of the second. */
  lemma {:induction false} CoverArtConcat(first: seq<string>, second: seq<string>, m: nat)
    requires m <= |second|
    ensures CoverArt(first + second, |first| + m) == CoverArt(first, |first|) + CoverArt(second, m)
    decreases m
  {
    if m == 0 {
      CoverArtOfPrefix(first, second, |first|);
    } else {
      CoverArtConcat(first, second, m - 1);
      assert (first + second)[|first| + m - 1] == second[m - 1];
    }
  }

  lemma CoverArtListed(files: seq<string>, src: Dir)
    requires Listed(files, src)
    ensures Listed(CoverArt(files, |files|), src)
  {
  }

  /** The state after `copy_pictures`, where the file loop starts. */
  function AfterCopies(files: seq<string>, src: Dir, dst: Dir): Outcome
    requires Listed(files, src)
  {
    var pictures := CoverArt(files, |files|);
    CoverArtListed(files, src);
    Outcome(Copies(pictures, |pictures|), CopyPictures(pictures, |pictures|, src, dst), true)
  }

  /** The walk over one directory: the pictures are copied, then each FLAC
      file is decided in turn. `failing` holds the files whose transcode or
      tag raises. */
  function Pass(files: seq<string>, src: Dir, dst: Dir, failing: set<string>): Outcome
    requires Listed(files, src)
  {
    Decide(files, |files|, src, AfterCopies(files, src, dst), failing)
  }

  lemma {:induction false} StoppedStays(files: seq<string>, i: nat, n: nat, src: Dir, start: Outcome, failing: set<string>)
    requires i <= n <= |files| && Listed(files, src)
    requires !Decide(files, i, src, start, failing).finished
    ensures Decide(files, n, src, start, failing) == Decide(files, i, src, start, failing)
    decreases n
  {
    if i < n {
      StoppedStays(files, i, n - 1, src, start, failing);
    }
  }

  /** `transcode_dir` for one directory: copy the pictures, then go through
      the files, returning at the first exception. */
  method TranscodeDir(files: seq<string>, src: Dir, dst: Dir, failing: set<string>)
    returns (log: seq<Action>, mp3Dir: Dir, finished: bool)
    requires Listed(files, src)
    ensures Outcome(log, mp3Dir, finished) == Pass(files, src, dst, failing)
  {
    var pictures := CoverArt(files, |files|);
    CoverArtListed(files, src);
    log, mp3Dir := [], dst;
    for j := 0 to |pictures|
      invariant log == Copies(pictures, j) && mp3Dir == CopyPictures(pictures, j, src, dst)
    {
      var picture := pictures[j];
      log := log + [Copy(picture)];
      mp3Dir := mp3Dir[picture := src[picture]];
    }
    ghost var start := AfterCopies(files, src, dst);
    assert start == Outcome(log, mp3Dir, true);
    for i := 0 to |files|
      invariant Decide(files, i, src, start, failing) == Outcome(log, mp3Dir, true)
    {
      var f := files[i];
      if !IsFlac(f) {
        continue;
      }
      var mp3 := Mp3Name(f);
      if Newer(src[f], MTime(mp3Dir, mp3)) {
        if f in failing {
          StoppedStays(files, i + 1, |files|, src, start, failing);
          return log + [Fail(f)], mp3Dir, false;
        }
        log := log + [Transcode(f, mp3)];
        mp3Dir := mp3Dir[mp3 := src[f]];
      } else {
        log := log + [Skip(f)];
      }
    }
    return log, mp3Dir, true;
  }
}
