/** The source side: a FLAC file's Vorbis-comment tag set, as mutagen's FLAC
    object presents it (distinct field names, each with a list of values),
    and its embedded pictures.  The reader lower-cases the names; the model
    takes any distinct names, so a name with a capital letter is simply one
    no rule knows. */
module FlacTags {

  import opened Wrappers

  newtype byte = x: int | 0 <= x < 256

  datatype Picture = Picture(mime: string, picType: int, desc: string, data: seq<byte>)

  /** One `(tag, value)` item of `flac.iteritems()`. */
  datatype Field = Field(tag: string, value: seq<string>)

  datatype Flac = Flac(fields: seq<Field>, pictures: seq<Picture>)

  predicate DistinctTags(fields: seq<Field>)
  {
    forall i, j :: 0 <= i < j < |fields| ==> fields[i].tag != fields[j].tag
  }

  /** What the reader guarantees: every field name appears once and carries at
      least one value. */
  predicate WellFormed(flac: Flac)
  {
    DistinctTags(flac.fields) && forall i :: 0 <= i < |flac.fields| ==> flac.fields[i].value != []
  }

  /** `flac[tag]`, None where Python raises KeyError. */
  function Lookup(fields: seq<Field>, tag: string): (r: Option<seq<string>>)
    ensures r.None? <==> forall i :: 0 <= i < |fields| ==> fields[i].tag != tag
  {
    if fields == [] then None
    else if fields[|fields| - 1].tag == tag then Some(fields[|fields| - 1].value)
    else Lookup(fields[..|fields| - 1], tag)
  }

  /** `tag in flac` */
  predicate Has(flac: Flac, tag: string)
  {
    Lookup(flac.fields, tag).Some?
  }

  /** `flac[tag]` for a tag that is present. */
  function Get(flac: Flac, tag: string): (r: seq<string>)
    requires Has(flac, tag)
    ensures WellFormed(flac) ==> r != []
  {
    LookupNonEmpty(flac.fields, tag);
    Lookup(flac.fields, tag).value
  }

  /** What the lookup returns is the value list of a field with that name. */
  lemma {:induction false} LookupFound(fields: seq<Field>, tag: string)
    requires Lookup(fields, tag).Some?
    ensures exists i :: 0 <= i < |fields| && fields[i] == Field(tag, Lookup(fields, tag).value)
    decreases |fields|
  {
    var n := |fields| - 1;
    if fields[n].tag != tag {
      LookupFound(fields[..n], tag);
      var i :| 0 <= i < n && fields[..n][i] == Field(tag, Lookup(fields, tag).value);
      assert fields[i] == fields[..n][i];
    }
  }

  lemma {:induction false} LookupNonEmpty(fields: seq<Field>, tag: string)
    requires Lookup(fields, tag).Some?
    ensures (forall i :: 0 <= i < |fields| ==> fields[i].value != []) ==> Lookup(fields, tag).value != []
    decreases |fields|
  {
    if fields[|fields| - 1].tag != tag {
      LookupNonEmpty(fields[..|fields| - 1], tag);
    }
  }

  /** With distinct names, looking a field's own name up finds that field. */
  lemma {:induction false} LookupFindsField(fields: seq<Field>, i: nat)
    requires DistinctTags(fields) && i < |fields|
    ensures Lookup(fields, fields[i].tag) == Some(fields[i].value)
    decreases |fields|
  {
    var n := |fields| - 1;
    if i < n {
      assert fields[n].tag != fields[i].tag;
      assert DistinctTags(fields[..n]);
      assert fields[..n][i] == fields[i];
      LookupFindsField(fields[..n], i);
    }
  }
}
