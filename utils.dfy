/**
 * `dataset_to_dict` inside `dicom_to_json` (tools/utils.py): the projection of
 * a dataset onto JSON-ready data. Every element gives one entry; a sequence
 * becomes the list of its projected items, `None` stays `None`, the Pixel
 * Data bytes become a placeholder giving their length, other bytes are
 * decoded as UTF-8 with invalid bytes dropped, and any other value is copied.
 *
 * The source keys the dictionary by the element's name; the model keys it by
 * the tag, whose `Name()` is that key (the modelled attributes have distinct
 * names, so no two elements compete for one key).
 */
module DicomUtils {
  import opened DataSets
  import opened TextUtil
  import Utf8

  datatype Projected =
    | PNull
    | PStr(s: string)
    | PNum(n: int)
    | PList(items: seq<map<Tag, Projected>>)

  const PlaceholderPrefix := "[Binary data with length "
  const PlaceholderSuffix := " bytes]"

  /** The text that stands for `n` bytes of binary data. */
  function BinaryPlaceholder(n: nat): string {
    PlaceholderPrefix + NatToString(n) + PlaceholderSuffix
  }

  /** The projection of a dataset: one entry per element, nested items projected the same way. */
  function DatasetToDict(ds: DataSet): (r: map<Tag, Projected>)
    requires WellFormed(ds)
    ensures r.Keys == Tags(ds)
    ensures forall t | t in r :: r[t].PList? <==> ds.elements[t].Items?
    ensures forall t | t in r && r[t].PList? :: |r[t].items| == |ds.elements[t].items|
    decreases ds, 2
  {
    map t | t in ds.elements :: ProjectValue(t, ds.elements[t])
  }

  /** The projection of one element's value. */
  function ProjectValue(t: Tag, v: Value): (p: Projected)
    requires ValueWellFormed(t, v)
    ensures p.PList? <==> v.Items?
    ensures p.PList? ==> |p.items| == |v.items|
    ensures p.PList? ==> forall i | 0 <= i < |v.items| :: p.items[i].Keys == Tags(v.items[i])
    decreases v, 1
  {
    if t.Vr() == SQ then
      match v
      case Items(items) => PList(ProjectItems(v, 0))
      case _ => PNull
    else
      match v
      case Bytes(b) =>
        if t.Name() == "Pixel Data" then PStr(BinaryPlaceholder(|b|)) else PStr(Utf8.Decode(b))
      case Str(s) => PStr(s)
      case Num(n) => PNum(n)
      case _ => PNull
  }

  /** The projections of the items of sequence `v` from index `k` on. */
  function ProjectItems(v: Value, k: nat): (r: seq<map<Tag, Projected>>)
    requires v.Items? && k <= |v.items|
    requires forall i | 0 <= i < |v.items| :: WellFormed(v.items[i])
    ensures |r| == |v.items| - k
    ensures forall i | 0 <= i < |r| :: r[i] == DatasetToDict(v.items[k + i])
    decreases v, 0, |v.items| - k
  {
    if k == |v.items| then [] else [DatasetToDict(v.items[k])] + ProjectItems(v, k + 1)
  }

  /** A sequence projects to its items' projections, one for one and in order. */
  lemma SequenceProjection(t: Tag, items: seq<DataSet>)
    requires ValueWellFormed(t, Items(items))
    ensures ProjectValue(t, Items(items)).PList?
    ensures |ProjectValue(t, Items(items)).items| == |items|
    ensures forall i | 0 <= i < |items| :: ProjectValue(t, Items(items)).items[i] == DatasetToDict(items[i])
  {
  }

  /** `None` projects to `None`, whatever the attribute's VR. */
  lemma NoneProjection(t: Tag)
    ensures ProjectValue(t, NoValue) == PNull
  {
  }

  /** Pixel data is never decoded: it becomes a placeholder from which its length reads back. */
  lemma {:induction false} PixelDataPlaceholder(b: seq<byte>)
    ensures ProjectValue(PixelData, Bytes(b)).PStr?
    ensures var s := ProjectValue(PixelData, Bytes(b)).s;
      && |s| > |PlaceholderPrefix| + |PlaceholderSuffix|
      && s[..|PlaceholderPrefix|] == PlaceholderPrefix
      && s[|s| - |PlaceholderSuffix|..] == PlaceholderSuffix
      && var digits := s[|PlaceholderPrefix|..|s| - |PlaceholderSuffix|];
         (forall i | 0 <= i < |digits| :: IsDigit(digits[i])) && DigitsValue(digits) == |b|
  {
    var n := NatToString(|b|);
    var s := BinaryPlaceholder(|b|);
    assert s == PlaceholderPrefix + n + PlaceholderSuffix;
    assert s[..|PlaceholderPrefix|] == PlaceholderPrefix;
    assert s[|s| - |PlaceholderSuffix|..] == PlaceholderSuffix;
    assert s[|PlaceholderPrefix|..|s| - |PlaceholderSuffix|] == n;
    NatToStringValue(|b|);
  }

  /** Other bytes holding UTF-8 text project to that text: nothing is dropped from valid input. */
  lemma TextBytesProjection(t: Tag, text: string)
    requires t.Vr() != SQ && t.Name() != "Pixel Data"
    ensures ProjectValue(t, Bytes(Utf8.Encode(text))) == PStr(text)
  {
    Utf8.DecodeEncode(text);
  }

  /** Strings and numbers are copied unchanged. */
  lemma CopiedProjection(t: Tag, v: Value)
    requires t.Vr() != SQ && (v.Str? || v.Num?)
    ensures v.Str? ==> ProjectValue(t, v) == PStr(v.s)
    ensures v.Num? ==> ProjectValue(t, v) == PNum(v.n)
  {
  }

  /**
   * Projection commutes with assignment: assigning an element and then
   * projecting sets that one entry and leaves the others, so the last
   * assignment to an attribute is the one the dictionary shows.
   */
  lemma ProjectPut(ds: DataSet, t: Tag, v: Value)
    requires WellFormed(ds) && ValueWellFormed(t, v)
    ensures WellFormed(Put(ds, t, v))
    ensures DatasetToDict(Put(ds, t, v)) == DatasetToDict(ds)[t := ProjectValue(t, v)]
  {
    PutWellFormed(ds, t, v);
  }
}
