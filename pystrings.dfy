/** The handful of Python string operations the converter relies on, written
    out with the exact edge cases of the Python built-ins. */
module PyStrings {

  import opened Wrappers

  /** `s.endswith(suffix)` */
  predicate EndsWith(s: string, suffix: string)
  {
    |suffix| <= |s| && s[|s| - |suffix|..] == suffix
  }

  /** `sep` starts at index `j` of `s`. */
  predicate OccursAt(s: string, sep: string, j: int)
  {
    0 <= j && j + |sep| <= |s| && s[j..j + |sep|] == sep
  }

  /** `s` holds no occurrence of `sep` at all. */
  predicate Free(s: string, sep: string)
  {
    forall j :: 0 <= j <= |s| ==> !OccursAt(s, sep, j)
  }

  /** `s.rstrip(c)` for a one-character argument: every trailing `c` is removed,
      not just one. */
  function RStrip(s: string, c: char): (r: string)
    ensures |r| <= |s| && r == s[..|r|]
    ensures forall i :: |r| <= i < |s| ==> s[i] == c
    ensures r == [] || r[|r| - 1] != c
    decreases |s|
  {
    if s != [] && s[|s| - 1] == c then RStrip(s[..|s| - 1], c) else s
  }

  /** The largest index below `n` at which `sep` occurs in `s`. */
  function LastOccurrenceBelow(s: string, sep: string, n: nat): (r: Option<nat>)
    ensures r.Some? ==> r.value < n && OccursAt(s, sep, r.value)
    ensures forall j :: (if r.Some? then r.value < j else 0 <= j) && j < n ==> !OccursAt(s, sep, j)
    decreases n
  {
    if n == 0 then None
    else if OccursAt(s, sep, n - 1) then Some(n - 1)
    else LastOccurrenceBelow(s, sep, n - 1)
  }

  /** `s.rfind(sep)`, with None for Python's -1. */
  function LastIndexOf(s: string, sep: string): (r: Option<nat>)
    ensures r.Some? ==> OccursAt(s, sep, r.value)
    ensures forall j :: (r.None? || r.value < j) ==> !OccursAt(s, sep, j)
  {
    LastOccurrenceBelow(s, sep, |s| + 1)
  }

  /** `s.rsplit(sep, 1)`: split at the last occurrence of `sep`; a one-element
      list when `sep` does not occur.  Python refuses an empty separator. */
  function RSplitOnce(s: string, sep: string): seq<string>
    requires sep != []
  {
    match LastIndexOf(s, sep)
    case None => [s]
    case Some(i) => [s[..i], s[i + |sep|..]]
  }

  /** The slice `s[:-n]` for a positive `n`: the last `n` characters go, and a
      string shorter than that becomes empty. */
  function DropLast(s: string, n: nat): string
    requires n > 0
  {
    if |s| >= n then s[..|s| - n] else ""
  }

  predicate AllDots(s: string)
  {
    forall i :: 0 <= i < |s| ==> s[i] == '.'
  }

  /** `os.path.splitext(name)[0]` for a bare file name (no directory
      separator): the part before the last dot, except that dots leading the
      name do not start an extension, so `.flac` has no extension at all. */
  function Stem(name: string): string
  {
    match LastIndexOf(name, ".")
    case None => name
    case Some(d) => if AllDots(name[..d]) then name else name[..d]
  }

  lemma {:induction false} RSplitOnceParts(s: string, sep: string)
    requires sep != []
    ensures var r := RSplitOnce(s, sep);
      && (|r| == 1 || |r| == 2)
      && (|r| == 1 ==> r[0] == s && Free(s, sep))
      && (|r| == 2 ==> r[0] + sep + r[1] == s && Free(r[1], sep))
      && (|r| == 2 ==> LastIndexOf(s, sep) == Some(|r[0]|))
  {
    match LastIndexOf(s, sep)
    case None =>
    case Some(i) =>
      var tail := s[i + |sep|..];
      assert s[..i] + sep + tail == s by {
        assert s[i..i + |sep|] == sep;
        assert s == s[..i] + s[i..i + |sep|] + tail;
      }
      forall j | OccursAt(tail, sep, j)
        ensures false
      {
        assert tail[j..j + |sep|] == s[i + |sep| + j..i + |sep| + j + |sep|];
        assert OccursAt(s, sep, i + |sep| + j);
      }
  }

  lemma {:induction false} DropLastParts(s: string, n: nat)
    requires n > 0
    ensures |DropLast(s, n)| == if |s| >= n then |s| - n else 0
    ensures |s| >= n ==> DropLast(s, n) + s[|s| - n..] == s
  {
    if |s| >= n {
      assert s[..|s| - n] + s[|s| - n..] == s;
    }
  }
}
