/** The destination side: the ID3v2.4 frames the converter writes (section 4
    of the ID3v2.4.0 frames document), one constructor per frame kind. */
module Id3Frames {

  import FlacTags

  /** The text encoding byte every text-carrying frame is written with:
      3 is UTF-8. */
  const Utf8: int := 3

  /** The text information frames reached by the direct mapping table. */
  datatype TextId =
    | TALB | TBPM | TCMP | TCOM | TCON | TCOP | TDOR | TDRC | TENC | TEXT
    | TIT1 | TIT2 | TIT3 | TLAN | TMED | TMOO | TPE1 | TPE2 | TPE3 | TPE4
    | TPUB | TSOA | TSOP | TSOT | TSRC | TSST

  datatype Frame =
    | Text(encoding: int, id: TextId, text: seq<string>)
    | Txxx(encoding: int, desc: string, text: seq<string>)
    | Trck(encoding: int, text: seq<string>)
    | Tpos(encoding: int, text: seq<string>)
    | Ufid(owner: string, identifier: seq<string>)
      /** TIPL built from the two-element list `[role, value list]`. */
    | Tipl(encoding: int, role: string, names: seq<string>)
      /** TMCL built from a list of `[name, role]` splits. */
    | Tmcl(encoding: int, people: seq<seq<string>>)
      /** RVA2 with the gain and peak kept as the text they are parsed from. */
    | Rva2(desc: string, channel: int, gain: string, peak: string)
    | Apic(encoding: int, mime: string, picType: int, desc: string, data: seq<FlacTags.byte>)

  /** The key under which mutagen's ID3 container files a frame: the frame
      identifier, qualified by the description (TXXX, RVA2, APIC) or owner
      (UFID) for the kinds that may occur more than once. */
  datatype FrameKey =
    | TextKey(id: TextId)
    | TxxxKey(desc: string)
    | TrckKey
    | TposKey
    | UfidKey(owner: string)
    | TiplKey
    | TmclKey
    | Rva2Key(desc: string)
    | ApicKey(desc: string)

  function KeyOf(f: Frame): FrameKey
  {
    match f
    case Text(_, id, _) => TextKey(id)
    case Txxx(_, desc, _) => TxxxKey(desc)
    case Trck(_, _) => TrckKey
    case Tpos(_, _) => TposKey
    case Ufid(owner, _) => UfidKey(owner)
    case Tipl(_, _, _) => TiplKey
    case Tmcl(_, _) => TmclKey
    case Rva2(desc, _, _, _) => Rva2Key(desc)
    case Apic(_, _, _, desc, _) => ApicKey(desc)
  }

  /** How many frames of `frames` are filed under `k`. */
  function Count(frames: seq<Frame>, k: FrameKey): nat
  {
    if frames == [] then 0
    else Count(frames[..|frames| - 1], k) + (if KeyOf(frames[|frames| - 1]) == k then 1 else 0)
  }

  lemma {:induction false} CountAppend(a: seq<Frame>, b: seq<Frame>, k: FrameKey)
    ensures Count(a + b, k) == Count(a, k) + Count(b, k)
    decreases |b|
  {
    if b != [] {
      var n := |b| - 1;
      assert (a + b)[..|a + b| - 1] == a + b[..n];
      CountAppend(a, b[..n], k);
    } else {
      assert a + b == a;
    }
  }

  lemma {:induction false} CountAbsent(frames: seq<Frame>, k: FrameKey)
    requires forall j :: 0 <= j < |frames| ==> KeyOf(frames[j]) != k
    ensures Count(frames, k) == 0
    decreases |frames|
  {
    if frames != [] {
      CountAbsent(frames[..|frames| - 1], k);
    }
  }
}
