/** What the walk promises: which files are transcoded and under what name,
    that every MP3 it leaves is at least as new as its FLAC file, and hence
    that a second walk over unchanged files skips them all. */
module SyncProperties {

  import opened Wrappers
  import opened PyStrings
  import opened Sync

  // ---------------------------------------------------------------------
  // Names

  lemma LastChar(f: string, suffix: string)
    requires EndsWith(f, suffix) && suffix != []
    ensures f[|f| - 1] == suffix[|suffix| - 1]
  {
    assert f[|f| - |suffix|..][|suffix| - 1] == f[|f| - 1];
  }

  /** A FLAC file is never taken for cover art. */
  lemma FlacNotCoverArt(f: string)
    requires IsFlac(f)
    ensures !IsCoverArt(f)
  {
    LastChar(f, ".flac");
    if EndsWith(f, ".jpg") { LastChar(f, ".jpg"); }
    if EndsWith(f, ".jpeg") { LastChar(f, ".jpeg"); }
    if EndsWith(f, ".png") { LastChar(f, ".png"); }
    if EndsWith(f, ".bmp") { LastChar(f, ".bmp"); }
  }

  /** An output name ends in `.mp3`, so it is neither a FLAC file nor cover
      art. */
  lemma Mp3NameNeverInput(f: string)
    ensures EndsWith(Mp3Name(f), ".mp3")
    ensures !IsFlac(Mp3Name(f)) && !IsCoverArt(Mp3Name(f))
  {
    var m := Mp3Name(f);
    assert m[|m| - 4..] == ".mp3";
    LastChar(m, ".mp3");
    if EndsWith(m, ".flac") { LastChar(m, ".flac"); }
    if EndsWith(m, ".jpg") { LastChar(m, ".jpg"); }
    if EndsWith(m, ".jpeg") { LastChar(m, ".jpeg"); }
    if EndsWith(m, ".png") { LastChar(m, ".png"); }
    if EndsWith(m, ".bmp") { LastChar(m, ".bmp"); }
  }

  /** The MP3 name of a FLAC file replaces `.flac` by `.mp3`, except when
      only dots precede `.flac`: `splitext` then finds no extension and
      `.mp3` is appended to the whole name. */
  lemma Mp3NameOfFlac(f: string)
    requires IsFlac(f)
    ensures Mp3Name(f) == (if AllDots(f[..|f| - 5]) then f else f[..|f| - 5]) + ".mp3"
  {
    var n := |f|;
    var ext := f[n - 5..];
    assert ext == ".flac";
    assert OccursAt(f, ".", n - 5) by {
      assert f[n - 5..n - 4] == ext[..1];
    }
    forall j | n - 5 < j
      ensures !OccursAt(f, ".", j)
    {
      if j + 1 <= n {
        assert f[j..j + 1][0] == f[j] == ext[j - (n - 5)];
      }
    }
    assert LastIndexOf(f, ".") == Some(n - 5);
  }

  /** Two FLAC files with names of the ordinary kind (something other than
      dots before `.flac`) never share an MP3 name. */
  lemma Mp3NameInjective(f1: string, f2: string)
    requires IsFlac(f1) && IsFlac(f2)
    requires !AllDots(f1[..|f1| - 5]) && !AllDots(f2[..|f2| - 5])
    requires Mp3Name(f1) == Mp3Name(f2)
    ensures f1 == f2
  {
    Mp3NameOfFlac(f1);
    Mp3NameOfFlac(f2);
    var s1, s2 := f1[..|f1| - 5], f2[..|f2| - 5];
    assert s1 == (s1 + ".mp3")[..|s1|] == (s2 + ".mp3")[..|s2|] == s2;
    assert f1 == s1 + f1[|f1| - 5..];
    assert f2 == s2 + f2[|f2| - 5..];
  }

  /** The exception: `.flac` and `.flac.flac` are both written to
      `.flac.mp3`. */
  lemma DotNamesCollide()
    ensures Mp3Name(".flac") == ".flac.mp3" && Mp3Name(".flac.flac") == ".flac.mp3"
  {
    Mp3NameOfFlac(".flac");
    Mp3NameOfFlac(".flac.flac");
    assert ".flac.flac"[..5] == ".flac";
    assert !AllDots(".flac") by {
      assert ".flac"[1] != '.';
    }
  }

  // ---------------------------------------------------------------------
  // The action log

  /** An entry of the file loop: it concerns a FLAC file, a transcode writes
      that file's MP3 name, and a failure is a file whose transcode or tag
      raises. */
  predicate Decision(a: Action, failing: set<string>)
  {
    && !a.Copy?
    && IsFlac(a.flac)
    && (a.Transcode? ==> a.mp3 == Mp3Name(a.flac))
    && (a.Fail? ==> a.flac in failing)
  }

  /** The file an entry concerns. */
  function Subject(a: Action): string
  {
    if a.Copy? then a.picture else a.flac
  }

  function Subjects(log: seq<Action>): (names: seq<string>)
    ensures |names| == |log|
  {
    if log == [] then [] else Subjects(log[..|log| - 1]) + [Subject(log[|log| - 1])]
  }

  lemma SubjectsSnoc(log: seq<Action>, a: Action)
    ensures Subjects(log + [a]) == Subjects(log) + [Subject(a)]
  {
    assert (log + [a])[..|log|] == log;
  }

  /** The FLAC files among the first `n`, in order. */
  function FlacFiles(files: seq<string>, n: nat): seq<string>
    requires n <= |files|
  {
    if n == 0 then [] else FlacFiles(files, n - 1) + if IsFlac(files[n - 1]) then [files[n - 1]] else []
  }

  /** The file loop only appends to the log, and only decisions about FLAC
      files. */
  lemma {:induction false} DecideAppends(files: seq<string>, n: nat, src: Dir, start: Outcome, failing: set<string>)
    requires n <= |files| && Listed(files, src)
    ensures var o := Decide(files, n, src, start, failing);
      && |start.log| <= |o.log| && o.log[..|start.log|] == start.log
      && forall j :: |start.log| <= j < |o.log| ==> Decision(o.log[j], failing)
    decreases n
  {
    if n > 0 {
      DecideAppends(files, n - 1, src, start, failing);
    }
  }

  /** One iteration extends the decided files by the file it looks at, if
      that is a FLAC file; once stopped, nothing is added. */
  lemma StepCovers(prev: Outcome, f: string, src: Dir, failing: set<string>, before: seq<string>)
    requires f in src && Subjects(prev.log) <= before
    requires prev.finished ==> Subjects(prev.log) == before
    ensures var o := Step(prev, f, src, failing);
      var after := before + if IsFlac(f) then [f] else [];
      && Subjects(o.log) <= after
      && (o.finished ==> Subjects(o.log) == after)
  {
    var o := Step(prev, f, src, failing);
    if prev.finished && IsFlac(f) {
      SubjectsSnoc(prev.log, o.log[|o.log| - 1]);
    }
  }

  /** The loop decides the FLAC files in order, each once: all of them when
      it runs to the end, a prefix of them, up to the failing one, when it
      stops. */
  lemma {:induction false} DecideCovers(files: seq<string>, n: nat, src: Dir, start: Outcome, failing: set<string>)
    requires n <= |files| && Listed(files, src) && start.finished
    ensures var o := Decide(files, n, src, start, failing);
      && Subjects(o.log) <= Subjects(start.log) + FlacFiles(files, n)
      && (o.finished ==> Subjects(o.log) == Subjects(start.log) + FlacFiles(files, n))
    decreases n
  {
    if n > 0 {
      DecideCovers(files, n - 1, src, start, failing);
      var f := files[n - 1];
      var before := Subjects(start.log) + FlacFiles(files, n - 1);
      StepCovers(Decide(files, n - 1, src, start, failing), f, src, failing, before);
      assert Subjects(start.log) + FlacFiles(files, n) == before + if IsFlac(f) then [f] else [];
    } else {
      assert Subjects(start.log) + FlacFiles(files, 0) == Subjects(start.log);
    }
  }

  /** One iteration keeps the loop's stopping rule: it stops exactly when a
      decision after `m` is a failure, and that failure is the last entry. */
  lemma StepFailsLast(prev: Outcome, f: string, src: Dir, failing: set<string>, m: nat)
    requires f in src && m <= |prev.log|
    requires prev.finished <==> forall j :: m <= j < |prev.log| ==> !prev.log[j].Fail?
    requires !prev.finished ==> m < |prev.log| && prev.log[|prev.log| - 1].Fail?
    ensures var o := Step(prev, f, src, failing);
      && m <= |o.log|
      && (o.finished <==> forall j :: m <= j < |o.log| ==> !o.log[j].Fail?)
      && (!o.finished ==> m < |o.log| && o.log[|o.log| - 1].Fail?)
  {
    var o := Step(prev, f, src, failing);
    if prev.finished && IsFlac(f) {
      assert o.log == prev.log + [o.log[|o.log| - 1]];
      assert o.finished <==> !o.log[|o.log| - 1].Fail?;
      assert forall j :: m <= j < |prev.log| ==> o.log[j] == prev.log[j];
    }
  }

  /** The loop stops exactly when a decision is a failure, and that decision
      is the last one. */
  lemma {:induction false} DecideFailsLast(files: seq<string>, n: nat, src: Dir, start: Outcome, failing: set<string>)
    requires n <= |files| && Listed(files, src) && start.finished
    ensures var o := Decide(files, n, src, start, failing);
      && |start.log| <= |o.log|
      && (o.finished <==> forall j :: |start.log| <= j < |o.log| ==> !o.log[j].Fail?)
      && (!o.finished ==> |start.log| < |o.log| && o.log[|o.log| - 1].Fail?)
    decreases n
  {
    if n > 0 {
      DecideFailsLast(files, n - 1, src, start, failing);
      StepFailsLast(Decide(files, n - 1, src, start, failing), files[n - 1], src, failing, |start.log|);
    }
  }

  /** No time in the MP3 directory goes down and no file disappears. */
  lemma {:induction false} DecideMonotone(files: seq<string>, n: nat, src: Dir, start: Outcome, failing: set<string>)
    requires n <= |files| && Listed(files, src)
    ensures var o := Decide(files, n, src, start, failing);
      forall k :: k in start.mp3Dir ==> k in o.mp3Dir && o.mp3Dir[k] >= start.mp3Dir[k]
    decreases n
  {
    if n > 0 {
      DecideMonotone(files, n - 1, src, start, failing);
    }
  }

  /** Only the MP3 names of the listed files are written. */
  lemma {:induction false} DecideLeavesOthers(files: seq<string>, n: nat, src: Dir, start: Outcome, failing: set<string>, k: string)
    requires n <= |files| && Listed(files, src)
    requires forall i :: 0 <= i < n ==> k != Mp3Name(files[i])
    ensures MTime(Decide(files, n, src, start, failing).mp3Dir, k) == MTime(start.mp3Dir, k)
    decreases n
  {
    if n > 0 {
      DecideLeavesOthers(files, n - 1, src, start, failing, k);
    }
  }

  /** After a loop that ran to the end, the MP3 of every FLAC file exists and
      is no older than the FLAC file. */
  lemma {:induction false} DecideFresh(files: seq<string>, n: nat, src: Dir, start: Outcome, failing: set<string>)
    requires n <= |files| && Listed(files, src)
    ensures var o := Decide(files, n, src, start, failing);
      o.finished ==> forall i :: 0 <= i < n && IsFlac(files[i]) ==>
        Mp3Name(files[i]) in o.mp3Dir && o.mp3Dir[Mp3Name(files[i])] >= src[files[i]]
    decreases n
  {
    if n > 0 {
      var prev := Decide(files, n - 1, src, start, failing);
      var o := Decide(files, n, src, start, failing);
      DecideFresh(files, n - 1, src, start, failing);
      if o.finished {
        assert prev.finished;
        forall i | 0 <= i < n && IsFlac(files[i])
          ensures Mp3Name(files[i]) in o.mp3Dir && o.mp3Dir[Mp3Name(files[i])] >= src[files[i]]
        {
          if i < n - 1 {
            var m := Mp3Name(files[i]);
            assert m in prev.mp3Dir && prev.mp3Dir[m] >= src[files[i]];
            assert m in o.mp3Dir && o.mp3Dir[m] >= prev.mp3Dir[m];
          }
        }
      }
    }
  }

  /** From a directory where every MP3 is already at least as new as its
      FLAC file, the loop skips every FLAC file and changes nothing. */
  lemma {:induction false} DecideAllSkip(files: seq<string>, n: nat, src: Dir, start: Outcome, failing: set<string>)
    requires n <= |files| && Listed(files, src) && start.finished
    requires forall i :: 0 <= i < n && IsFlac(files[i]) ==>
      Mp3Name(files[i]) in start.mp3Dir && start.mp3Dir[Mp3Name(files[i])] >= src[files[i]]
    ensures var o := Decide(files, n, src, start, failing);
      && o.finished && o.mp3Dir == start.mp3Dir
      && |start.log| <= |o.log| && o.log[..|start.log|] == start.log
      && forall j :: |start.log| <= j < |o.log| ==> o.log[j].Skip?
    decreases n
  {
    if n > 0 {
      DecideAllSkip(files, n - 1, src, start, failing);
    }
  }

  // ---------------------------------------------------------------------
  // The pictures

  lemma {:induction false} CopiesLog(pictures: seq<string>, n: nat)
    requires n <= |pictures|
    ensures |Copies(pictures, n)| == n
    ensures forall j :: 0 <= j < n ==> Copies(pictures, n)[j] == Copy(pictures[j])
    decreases n
  {
    if n > 0 {
      CopiesLog(pictures, n - 1);
    }
  }

  lemma {:induction false} CopiesSubjects(pictures: seq<string>, n: nat)
    requires n <= |pictures|
    ensures Subjects(Copies(pictures, n)) == pictures[..n]
    decreases n
  {
    if n > 0 {
      CopiesSubjects(pictures, n - 1);
      SubjectsSnoc(Copies(pictures, n - 1), Copy(pictures[n - 1]));
      assert pictures[..n] == pictures[..n - 1] + [pictures[n - 1]];
    }
  }

  /** Every picture is copied with its own time; nothing else changes. */
  lemma {:induction false} CopyPicturesTimes(pictures: seq<string>, n: nat, src: Dir, dst: Dir, k: string)
    requires n <= |pictures| && Listed(pictures, src)
    ensures MTime(CopyPictures(pictures, n, src, dst), k)
      == if k in pictures[..n] then Some(src[k]) else MTime(dst, k)
    decreases n
  {
    if n > 0 {
      CopyPicturesTimes(pictures, n - 1, src, dst, k);
      assert pictures[..n] == pictures[..n - 1] + [pictures[n - 1]];
    }
  }

  /** Each of the first `n` pictures is in `dst` with its original's time. */
  predicate Carries(pictures: seq<string>, n: nat, src: Dir, dst: Dir)
    requires n <= |pictures|
  {
    forall j :: 0 <= j < n ==> pictures[j] in src && pictures[j] in dst && dst[pictures[j]] == src[pictures[j]]
  }

  /** Copying pictures that already carry their originals' times changes
      nothing. */
  lemma {:induction false} CopyPicturesIdle(pictures: seq<string>, n: nat, src: Dir, dst: Dir)
    requires n <= |pictures| && Listed(pictures, src) && Carries(pictures, n, src, dst)
    ensures CopyPictures(pictures, n, src, dst) == dst
    decreases n
  {
    if n > 0 {
      CopyPicturesIdle(pictures, n - 1, src, dst);
    }
  }

  // ---------------------------------------------------------------------
  // One pass over a directory

  /** The log of a pass: one copy per picture, in order, then one decision
      per FLAC file, in order, up to the end or to the first failure, which
      is the last entry. */
  lemma PassLog(files: seq<string>, src: Dir, dst: Dir, failing: set<string>)
    requires Listed(files, src)
    ensures var o := Pass(files, src, dst, failing);
      var pictures := CoverArt(files, |files|);
      && |pictures| <= |o.log|
      && (forall j :: 0 <= j < |pictures| ==> o.log[j] == Copy(pictures[j]))
      && (forall j :: |pictures| <= j < |o.log| ==> Decision(o.log[j], failing))
      && Subjects(o.log) <= pictures + FlacFiles(files, |files|)
      && (o.finished ==> Subjects(o.log) == pictures + FlacFiles(files, |files|))
      && (o.finished <==> forall j :: 0 <= j < |o.log| ==> !o.log[j].Fail?)
  {
    var pictures := CoverArt(files, |files|);
    var start := AfterCopies(files, src, dst);
    CopiesLog(pictures, |pictures|);
    CopiesSubjects(pictures, |pictures|);
    assert pictures[..|pictures|] == pictures;
    DecideAppends(files, |files|, src, start, failing);
    DecideCovers(files, |files|, src, start, failing);
    DecideFailsLast(files, |files|, src, start, failing);
  }

  /** After a pass, every picture holds its original's time: no MP3 name is
      a picture name. */
  lemma PassCopiesPictures(files: seq<string>, src: Dir, dst: Dir, failing: set<string>)
    requires Listed(files, src)
    ensures Carries(CoverArt(files, |files|), |CoverArt(files, |files|)|, src, Pass(files, src, dst, failing).mp3Dir)
  {
    var pictures := CoverArt(files, |files|);
    var start := AfterCopies(files, src, dst);
    CoverArtListed(files, src);
    forall j | 0 <= j < |pictures|
      ensures pictures[j] in Pass(files, src, dst, failing).mp3Dir
      ensures Pass(files, src, dst, failing).mp3Dir[pictures[j]] == src[pictures[j]]
    {
      var p := pictures[j];
      forall i | 0 <= i < |files|
        ensures p != Mp3Name(files[i])
      {
        Mp3NameNeverInput(files[i]);
      }
      DecideLeavesOthers(files, |files|, src, start, failing, p);
      CopyPicturesTimes(pictures, |pictures|, src, dst, p);
      assert p in pictures[..|pictures|];
    }
  }

  /** After a pass that ran to the end, the MP3 of every FLAC file exists and
      is at least as new as the FLAC file. */
  lemma PassFresh(files: seq<string>, src: Dir, dst: Dir, failing: set<string>)
    requires Listed(files, src)
    ensures var o := Pass(files, src, dst, failing);
      o.finished ==> forall i :: 0 <= i < |files| && IsFlac(files[i]) ==>
        Mp3Name(files[i]) in o.mp3Dir && o.mp3Dir[Mp3Name(files[i])] >= src[files[i]]
  {
    DecideFresh(files, |files|, src, AfterCopies(files, src, dst), failing);
  }

  /** Walking the same files again after a pass that ran to the end copies
      the pictures, skips every FLAC file, raises nothing whatever would
      fail, and leaves the MP3 directory as it was. */
  lemma SecondPassSkipsAll(files: seq<string>, src: Dir, dst: Dir, failing: set<string>, failing2: set<string>)
    requires Listed(files, src) && Pass(files, src, dst, failing).finished
    ensures var first := Pass(files, src, dst, failing);
      var second := Pass(files, src, first.mp3Dir, failing2);
      var pictures := CoverArt(files, |files|);
      && second.finished
      && second.mp3Dir == first.mp3Dir
      && |pictures| <= |second.log|
      && forall j :: |pictures| <= j < |second.log| ==> second.log[j].Skip?
  {
    var first := Pass(files, src, dst, failing);
    var pictures := CoverArt(files, |files|);
    CoverArtListed(files, src);
    PassCopiesPictures(files, src, dst, failing);
    PassFresh(files, src, dst, failing);
    CopyPicturesIdle(pictures, |pictures|, src, first.mp3Dir);
    CopiesLog(pictures, |pictures|);
    DecideAllSkip(files, |files|, src, AfterCopies(files, src, first.mp3Dir), failing2);
  }
}
