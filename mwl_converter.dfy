/**
 * The MWL sample converter (tools/mwl_converter.py): `extract_value` and the
 * two builders that turn a worklist request or response text into a DICOM file.
 *
 * `extract_value(content, r"<Label>\s*:\s*(.*)")` is modelled for exactly
 * that pattern shape, not as a regular-expression engine: `re.search` takes
 * the first position where the label is followed by optional whitespace and a
 * colon; the second `\s*` then skips every whitespace character, newlines
 * included, and `(.*)` captures up to the next newline (`.` matches anything
 * but `\n`); the capture is stripped. No match gives `""`.
 *
 * Every label the request converter searches for is the data-dictionary name
 * of the attribute it fills (`Tag.Name()`). Its builders take that reading as a
 * function from attribute to string, and `Reader(content)` is the reading of a
 * text.
 */
module MwlConverter {
  import opened Wrappers
  import opened DataSets
  import opened Uids
  import opened FileFormat

  // ---------------------------------------------------------------------------
  // The label extractor
  // ---------------------------------------------------------------------------

  /** Python's `str.isspace()`; `\s` in a `str` pattern matches the same characters. */
  predicate IsSpace(c: char) {
    || ('\t' <= c <= '\r') || ('\U{1C}' <= c <= ' ') || c == '\U{85}' || c == '\U{A0}'
    || c == '\U{1680}' || ('\U{2000}' <= c <= '\U{200A}') || c == '\U{2028}' || c == '\U{2029}'
    || c == '\U{202F}' || c == '\U{205F}' || c == '\U{3000}'
  }

  /** Every character of `s[i..j]` is whitespace. */
  predicate AllSpaces(s: string, i: nat, j: nat)
    requires i <= j <= |s|
  {
    forall k | i <= k < j :: IsSpace(s[k])
  }

  /** Greedy `\s*` from `i`: the first position at or after `i` that is not whitespace. */
  function SkipSpaces(s: string, i: nat): (j: nat)
    requires i <= |s|
    ensures i <= j <= |s|
    ensures AllSpaces(s, i, j)
    ensures j == |s| || !IsSpace(s[j])
    decreases |s| - i
  {
    if i < |s| && IsSpace(s[i]) then SkipSpaces(s, i + 1) else i
  }

  /** Greedy `.*` from `i`: the first newline at or after `i`, or the end of `s`. */
  function LineEnd(s: string, i: nat): (j: nat)
    requires i <= |s|
    ensures i <= j <= |s|
    ensures forall k | i <= k < j :: s[k] != '\n'
    ensures j == |s| || s[j] == '\n'
    decreases |s| - i
  {
    if i < |s| && s[i] != '\n' then LineEnd(s, i + 1) else i
  }

  /** The label `name` occurs in `s` at position `p`. */
  predicate LabelAt(s: string, name: string, p: nat) {
    p + |name| <= |s| && s[p..p + |name|] == name
  }

  /**
   * The regular-expression reading of `Label\s*:` matching at `p`: the label,
   * then only whitespace up to the colon at `c`.
   */
  predicate PatternAt(s: string, name: string, p: nat, c: nat) {
    && LabelAt(s, name, p)
    && p + |name| <= c < |s|
    && s[c] == ':'
    && AllSpaces(s, p + |name|, c)
  }

  /** Where the capture group starts when the pattern matches at `p`; `None` when it does not match there. */
  function MatchAt(s: string, name: string, p: nat): Option<nat>
    requires p <= |s|
  {
    if !LabelAt(s, name, p) then None
    else
      var colon := SkipSpaces(s, p + |name|);
      if colon < |s| && s[colon] == ':' then Some(SkipSpaces(s, colon + 1)) else None
  }

  /** `re.search`: the first position at or after `p` where the pattern matches. */
  function Search(s: string, name: string, p: nat): (r: Option<nat>)
    requires p <= |s|
    ensures r.Some? ==> p <= r.value <= |s| && MatchAt(s, name, r.value).Some?
    ensures forall q | p <= q <= |s| && (r.None? || q < r.value) :: MatchAt(s, name, q).None?
    decreases |s| - p
  {
    if MatchAt(s, name, p).Some? then Some(p)
    else if p == |s| then None
    else Search(s, name, p + 1)
  }

  /** `str.lstrip()`: the suffix left after dropping leading whitespace. */
  function StripLeading(s: string): (r: string)
    ensures |r| <= |s| && r == s[|s| - |r|..]
    ensures AllSpaces(s, 0, |s| - |r|)
    ensures r == [] || !IsSpace(r[0])
  {
    if s != [] && IsSpace(s[0]) then StripLeading(s[1..]) else s
  }

  /** `str.rstrip()`: the prefix left after dropping trailing whitespace. */
  function StripTrailing(s: string): (r: string)
    ensures |r| <= |s| && r == s[..|r|]
    ensures AllSpaces(s, |r|, |s|)
    ensures r == [] || !IsSpace(r[|r| - 1])
  {
    if s != [] && IsSpace(s[|s| - 1]) then StripTrailing(s[..|s| - 1]) else s
  }

  /** `str.strip()`. */
  function Strip(s: string): string {
    StripTrailing(StripLeading(s))
  }

  /** Neither end of `s` is whitespace. */
  predicate Stripped(s: string) {
    s == [] || (!IsSpace(s[0]) && !IsSpace(s[|s| - 1]))
  }

  /** `extract_value(content, r"<label>\s*:\s*(.*)")`. */
  function ExtractValue(content: string, name: string): string {
    match Search(content, name, 0)
    case None => ""
    case Some(p) =>
      var g := MatchAt(content, name, p).value;
      Strip(content[g..LineEnd(content, g)])
  }

  /** The greedy `\s*` stops at the first non-whitespace character. */
  lemma SkipSpacesAt(s: string, i: nat, j: nat)
    requires i <= j < |s| && AllSpaces(s, i, j) && !IsSpace(s[j])
    ensures SkipSpaces(s, i) == j
  {
  }

  /** The greedy `.*` stops at the first newline. */
  lemma LineEndAt(s: string, i: nat, j: nat)
    requires i <= j <= |s|
    requires forall k | i <= k < j :: s[k] != '\n'
    requires j == |s| || s[j] == '\n'
    ensures LineEnd(s, i) == j
  {
  }

  /**
   * The computed match agrees with the pattern's reading: the pattern matches
   * at `p` exactly when some colon `c` completes `Label\s*:` there, and the
   * capture then starts after the whitespace that follows that colon.
   */
  lemma MatchAtPattern(s: string, name: string, p: nat, c: nat)
    requires p <= |s|
    ensures PatternAt(s, name, p, c) ==> MatchAt(s, name, p) == Some(SkipSpaces(s, c + 1))
    ensures MatchAt(s, name, p).Some? ==> PatternAt(s, name, p, SkipSpaces(s, p + |name|))
  {
    if PatternAt(s, name, p, c) {
      SkipSpacesAt(s, p + |name|, c);
    }
  }

  /** No match anywhere gives `""`. */
  lemma ExtractNoMatch(content: string, name: string)
    requires forall p: nat, c: nat :: !PatternAt(content, name, p, c)
    ensures ExtractValue(content, name) == ""
  {
    match Search(content, name, 0)
    case None =>
    case Some(p) =>
      MatchAtPattern(content, name, p, 0);
  }

  /**
   * The first match decides: when `Label\s*:` first matches at `p` (its colon
   * at `c`), the value is the stripped rest of the line on which the text after
   * the colon's trailing whitespace starts.
   */
  lemma {:induction false} ExtractFirstMatch(content: string, name: string, p: nat, c: nat)
    requires PatternAt(content, name, p, c)
    requires forall q: nat, d: nat | q < p :: !PatternAt(content, name, q, d)
    ensures var g := SkipSpaces(content, c + 1);
      ExtractValue(content, name) == Strip(content[g..LineEnd(content, g)])
  {
    MatchAtPattern(content, name, p, c);
    var r := Search(content, name, 0);
    assert p <= |content|;
    if r.None? || r.value != p {
      assert r.Some? && r.value < p;
      MatchAtPattern(content, name, r.value, 0);
    }
  }

  /** Stripping leaves neither end whitespace. */
  lemma StripStripped(s: string)
    ensures Stripped(Strip(s))
  {
    var l := StripLeading(s);
    var r := StripTrailing(l);
    if r != [] {
      assert r[0] == l[0];
    }
  }

  /** A stripped string is its own strip. */
  lemma StripIdentity(s: string)
    requires Stripped(s)
    ensures Strip(s) == s
  {
  }

  /** The value is one stripped line: no newline, no whitespace at either end. */
  lemma ExtractShape(content: string, name: string)
    ensures Stripped(ExtractValue(content, name))
    ensures '\n' !in ExtractValue(content, name)
  {
    match Search(content, name, 0)
    case None =>
    case Some(p) =>
      var g := MatchAt(content, name, p).value;
      var e := LineEnd(content, g);
      var line := content[g..e];
      assert forall k | 0 <= k < |line| :: line[k] == content[g + k];
      StripStripped(line);
      StripKeepsOut(line, '\n');
  }

  /** Stripping only removes characters, so a character absent from `s` is absent from its strip. */
  lemma StripKeepsOut(s: string, c: char)
    requires c !in s
    ensures c !in Strip(s)
  {
    var l := StripLeading(s);
    assert c !in l;
  }

  /**
   * A labelled line at the start of the text reads back: the label, optional
   * whitespace, the colon, whitespace (newlines included), then the value up to
   * a newline.
   */
  lemma ExtractAtStart(content: string, name: string, c: nat, g: nat, e: nat, v: string)
    requires LabelAt(content, name, 0) && |name| <= c < g <= e < |content|
    requires AllSpaces(content, |name|, c) && content[c] == ':' && AllSpaces(content, c + 1, g)
    requires content[g..e] == v && content[e] == '\n'
    requires v != [] && Stripped(v) && '\n' !in v
    ensures ExtractValue(content, name) == v
  {
    ValueBounds(content, c, g, e, v);
    assert PatternAt(content, name, 0, c);
    ExtractFirstMatch(content, name, 0, c);
    StripIdentity(v);
  }

  /** After the colon at `c`, the whitespace skip ends at `g` and the capture at `e`. */
  lemma ValueBounds(content: string, c: nat, g: nat, e: nat, v: string)
    requires c < g <= e < |content| && AllSpaces(content, c + 1, g)
    requires content[g..e] == v && content[e] == '\n'
    requires v != [] && !IsSpace(v[0]) && '\n' !in v
    ensures SkipSpaces(content, c + 1) == g
    ensures LineEnd(content, g) == e
  {
    assert content[g] == v[0];
    SkipSpacesAt(content, c + 1, g);
    forall k | g <= k < e
      ensures content[k] != '\n'
    {
      assert content[k] == v[k - g];
    }
    LineEndAt(content, g, e);
  }

  /** `Label: value` on the first line reads back as `value`. */
  lemma ExtractLine(name: string, v: string, rest: string)
    requires v != [] && Stripped(v) && '\n' !in v
    ensures ExtractValue(name + ": " + v + "\n" + rest, name) == v
  {
    var head := name + ": ";
    var content := head + v + "\n" + rest;
    var n := |name|;
    assert content == head + (v + ("\n" + rest));
    assert content[..n] == head[..n] == name;
    assert content[n] == head[n] == ':';
    assert content[n + 1] == head[n + 1] == ' ';
    assert content[n + 2..n + 2 + |v|] == v;
    assert content[n + 2 + |v|] == '\n';
    ExtractAtStart(content, name, n, n + 2, n + 2 + |v|, v);
  }

  /**
   * A label with nothing after its colon takes the value of the next line: the
   * whitespace skipped after the colon includes the newline.
   */
  lemma ExtractEmptyReadsNextLine(name: string, v: string, rest: string)
    requires v != [] && Stripped(v) && '\n' !in v
    ensures ExtractValue(name + ":\n" + v + "\n" + rest, name) == v
  {
    var head := name + ":\n";
    var content := head + v + "\n" + rest;
    var n := |name|;
    assert content == head + (v + ("\n" + rest));
    assert content[..n] == head[..n] == name;
    assert content[n] == head[n] == ':';
    assert content[n + 1] == head[n + 1] == '\n';
    assert content[n + 2..n + 2 + |v|] == v;
    assert content[n + 2 + |v|] == '\n';
    ExtractAtStart(content, name, n, n + 2, n + 2 + |v|, v);
  }

  // ---------------------------------------------------------------------------
  // The converters
  // ---------------------------------------------------------------------------

  /**
   * The name both converters assign the performing physician under. It is not
   * a data-dictionary keyword (that is `ScheduledPerformingPhysicianName`), so
   * pydicom keeps it as a plain attribute of the item rather than an element.
   */
  const PhysicianKeyword := "ScheduledPerformingPhysiciansName"

  /** What the request converter reads for each attribute. */
  type Reading = Tag -> string

  /** The reading of the text `content`: `extract_value` on the attribute's name. */
  function Reader(content: string): Reading {
    (t: Tag) => ExtractValue(content, t.Name())
  }

  /**
   * The `FileDataset` both converters start from: a zero preamble and meta
   * information naming the worklist SOP class, the first generated UID and
   * explicit VR little endian. The body starts empty; the meta UIDs are not
   * copied into it.
   */
  function WorklistFile(gen: UidGen, body: DataSet): FileDataSet {
    FileDataSet(ZeroPreamble, FileMeta(WorklistFindSopClass, gen.At(0), ExplicitVRLittleEndian, None),
                body, true, false)
  }

  /** The request's SPS item without the performing physician: six extracted fields and a step ID. */
  function RequestStepElements(field: Reading, gen: UidGen): DataSet {
    var s := Put(Empty, ScheduledStationAETitle, Str(field(ScheduledStationAETitle)));
    var s := Put(s, ScheduledProcedureStepStartDate, Str(field(ScheduledProcedureStepStartDate)));
    var s := Put(s, ScheduledProcedureStepStartTime, Str(field(ScheduledProcedureStepStartTime)));
    var s := Put(s, Modality, Str(field(Modality)));
    var s := Put(s, ScheduledProcedureStepDescription, Str(field(ScheduledProcedureStepDescription)));
    var s := Put(s, ScheduledProcedureStepID, Str(gen.At(1)));
    Put(s, ScheduledStationName, Str(field(ScheduledStationName)))
  }

  /** The request's SPS item as written: the physician goes under the misspelt name. */
  function RequestStep(field: Reading, gen: UidGen): DataSet {
    PutAttr(RequestStepElements(field, gen), PhysicianKeyword,
            Str(field(ScheduledPerformingPhysicianName)))
  }

  /** The request's SPS item with the data-dictionary keyword. */
  function CorrectedRequestStep(field: Reading, gen: UidGen): DataSet {
    Put(RequestStepElements(field, gen), ScheduledPerformingPhysicianName,
        Str(field(ScheduledPerformingPhysicianName)))
  }

  /**
   * The request dataset's elements other than the SPS sequence, assigned in
   * the source's order; every field is set, whether its label is found or not.
   */
  function RequestFields(field: Reading, gen: UidGen): DataSet {
    var ds := Put(Empty, PatientName, Str(field(PatientName)));
    var ds := Put(ds, PatientID, Str(field(PatientID)));
    var ds := Put(ds, PatientBirthDate, Str(field(PatientBirthDate)));
    var ds := Put(ds, PatientSex, Str(field(PatientSex)));
    var ds := Put(ds, RequestedProcedureID, Str(gen.At(2)));
    var ds := Put(ds, RequestedProcedureDescription, Str(field(RequestedProcedureDescription)));
    var ds := Put(ds, AccessionNumber, Str(field(AccessionNumber)));
    var ds := Put(ds, ReferringPhysicianName, Str(field(ReferringPhysicianName)));
    var ds := Put(ds, MedicalAlerts, Str(field(MedicalAlerts)));
    var ds := Put(ds, ContrastAllergies, Str(field(ContrastAllergies)));
    Put(ds, StudyInstanceUID, Str(gen.At(3)))
  }

  /**
   * The request dataset with the one-item SPS sequence `[step]`. The source
   * assigns the sequence fifth; assignments to distinct attributes commute, so
   * it is put last here.
   */
  function RequestBody(field: Reading, gen: UidGen, step: DataSet): DataSet {
    Put(RequestFields(field, gen), ScheduledProcedureStepSequence, Items([step]))
  }

  /** `convert_request_to_dcm` on the text read as `field` (`Reader(content)`), before `save_as`. */
  function ConvertRequestToDcm(field: Reading, gen: UidGen): FileDataSet {
    WorklistFile(gen, RequestBody(field, gen, RequestStep(field, gen)))
  }

  /** `convert_request_to_dcm` with the physician under its data-dictionary keyword. */
  function CorrectedConvertRequestToDcm(field: Reading, gen: UidGen): FileDataSet {
    WorklistFile(gen, RequestBody(field, gen, CorrectedRequestStep(field, gen)))
  }

  /** The response's SPS item without the performing physician: fixed values and a step ID. */
  function ResponseStepElements(gen: UidGen): DataSet {
    var s := Put(Empty, ScheduledStationAETitle, Str("OUMQHUS06"));
    var s := Put(s, ScheduledProcedureStepStartDate, Str("20250430"));
    var s := Put(s, ScheduledProcedureStepStartTime, Str("095939"));
    var s := Put(s, Modality, Str("US"));
    var s := Put(s, ScheduledProcedureStepDescription, Str("Cardiac Echo"));
    var s := Put(s, ScheduledProcedureStepID, Str(gen.At(1)));
    Put(s, ScheduledStationName, Str("OUMQHUS06"))
  }

  /** The response's SPS item as written. */
  function ResponseStep(gen: UidGen): DataSet {
    PutAttr(ResponseStepElements(gen), PhysicianKeyword, Str("REFERRAL"))
  }

  /** The response's SPS item with the data-dictionary keyword. */
  function CorrectedResponseStep(gen: UidGen): DataSet {
    Put(ResponseStepElements(gen), ScheduledPerformingPhysicianName, Str("REFERRAL"))
  }

  /** The response dataset's fixed elements other than the SPS sequence, in the source's order. */
  function ResponseFields(gen: UidGen): DataSet {
    var ds := Put(Empty, PatientName, Str("Patient_Name"));
    var ds := Put(ds, PatientID, Str("488390"));
    var ds := Put(ds, PatientBirthDate, Str("19670416"));
    var ds := Put(ds, PatientSex, Str("M"));
    var ds := Put(ds, PatientSize, Str("1.73"));
    var ds := Put(ds, PatientWeight, Str("78"));
    var ds := Put(ds, RequestedProcedureID, Str(gen.At(2)));
    var ds := Put(ds, RequestedProcedureDescription, Str("Cardiac Echo"));
    var ds := Put(ds, AccessionNumber, Str("5880936"));
    var ds := Put(ds, ReferringPhysicianName, Str("REFERRAL"));
    Put(ds, StudyInstanceUID, Str(gen.At(3)))
  }

  /** The response dataset with the one-item SPS sequence `[step]`, put last as in `RequestBody`. */
  function ResponseBody(gen: UidGen, step: DataSet): DataSet {
    Put(ResponseFields(gen), ScheduledProcedureStepSequence, Items([step]))
  }

  /** `convert_response_to_dcm`: the text it reads does not affect the result. */
  function ConvertResponseToDcm(gen: UidGen): FileDataSet {
    WorklistFile(gen, ResponseBody(gen, ResponseStep(gen)))
  }

  /** `convert_response_to_dcm` with the physician under its data-dictionary keyword. */
  function CorrectedConvertResponseToDcm(gen: UidGen): FileDataSet {
    WorklistFile(gen, ResponseBody(gen, CorrectedResponseStep(gen)))
  }

  // ---------------------------------------------------------------------------
  // What the converters build
  // ---------------------------------------------------------------------------

  /**
   * Both converters frame their file alike: 128 zero bytes, the worklist SOP
   * class, the first UID drawn as instance, explicit VR little endian, and no
   * SOP class or instance element in the body.
   */
  lemma WorklistFileFraming(gen: UidGen, body: DataSet)
    requires !Has(body, SOPClassUID) && !Has(body, SOPInstanceUID)
    ensures var f := WorklistFile(gen, body);
      && ZeroFilledPreamble(f)
      && ExplicitLittleEndian(f)
      && f.meta.mediaStorageSopClassUid == WorklistFindSopClass
      && f.meta.mediaStorageSopInstanceUid == gen.At(0)
      && f.body == body
      && !MetaCopiedIntoBody(f)
  {
  }

  /** The request file's attributes, exactly; none depends on a label being found. */
  lemma RequestTags(field: Reading, gen: UidGen, step: DataSet)
    ensures Tags(RequestBody(field, gen, step)) ==
      {PatientName, PatientID, PatientBirthDate, PatientSex, ScheduledProcedureStepSequence,
       RequestedProcedureID, RequestedProcedureDescription, AccessionNumber, ReferringPhysicianName,
       MedicalAlerts, ContrastAllergies, StudyInstanceUID}
  {
  }

  /** The request dataset holds exactly one SPS item, the one given, and no plain attributes. */
  lemma RequestSequence(field: Reading, gen: UidGen, step: DataSet)
    ensures ItemsOf(RequestBody(field, gen, step), ScheduledProcedureStepSequence) == [step]
    ensures RequestBody(field, gen, step).attrs == map[]
  {
  }

  /** The request's patient fields come from their labels. */
  lemma RequestPatient(field: Reading, gen: UidGen, step: DataSet)
    ensures var ds := RequestBody(field, gen, step);
      && Get(ds, PatientName) == Some(Str(field(PatientName)))
      && Get(ds, PatientID) == Some(Str(field(PatientID)))
      && Get(ds, PatientBirthDate) == Some(Str(field(PatientBirthDate)))
      && Get(ds, PatientSex) == Some(Str(field(PatientSex)))
  {
  }

  /** The request's procedure and service-request fields: labels and generated UIDs. */
  lemma RequestProcedure(field: Reading, gen: UidGen, step: DataSet)
    ensures var ds := RequestBody(field, gen, step);
      && Get(ds, RequestedProcedureID) == Some(Str(gen.At(2)))
      && Get(ds, RequestedProcedureDescription) == Some(Str(field(RequestedProcedureDescription)))
      && Get(ds, AccessionNumber) == Some(Str(field(AccessionNumber)))
      && Get(ds, ReferringPhysicianName) == Some(Str(field(ReferringPhysicianName)))
      && Get(ds, MedicalAlerts) == Some(Str(field(MedicalAlerts)))
      && Get(ds, ContrastAllergies) == Some(Str(field(ContrastAllergies)))
      && Get(ds, StudyInstanceUID) == Some(Str(gen.At(3)))
  {
  }

  /** The request's SPS item: six fields from their labels and a generated step ID. */
  lemma RequestStepContents(field: Reading, gen: UidGen)
    ensures var s := RequestStepElements(field, gen);
      && Tags(s) == {ScheduledStationAETitle, ScheduledProcedureStepStartDate,
                     ScheduledProcedureStepStartTime, Modality, ScheduledProcedureStepDescription,
                     ScheduledProcedureStepID, ScheduledStationName}
      && s.attrs == map[]
      && Get(s, ScheduledStationAETitle) == Some(Str(field(ScheduledStationAETitle)))
      && Get(s, ScheduledProcedureStepStartDate) == Some(Str(field(ScheduledProcedureStepStartDate)))
      && Get(s, ScheduledProcedureStepStartTime) == Some(Str(field(ScheduledProcedureStepStartTime)))
      && Get(s, Modality) == Some(Str(field(Modality)))
      && Get(s, ScheduledProcedureStepDescription) == Some(Str(field(ScheduledProcedureStepDescription)))
      && Get(s, ScheduledProcedureStepID) == Some(Str(gen.At(1)))
      && Get(s, ScheduledStationName) == Some(Str(field(ScheduledStationName)))
  {
  }

  /** A label missing from the text still gives its attribute, with the empty string. */
  lemma RequestMissingLabel(content: string, gen: UidGen, t: Tag)
    requires t in {PatientName, PatientID, PatientBirthDate, PatientSex, RequestedProcedureDescription,
                   AccessionNumber, ReferringPhysicianName, MedicalAlerts, ContrastAllergies}
    requires forall p: nat, c: nat :: !PatternAt(content, t.Name(), p, c)
    ensures Get(ConvertRequestToDcm(Reader(content), gen).body, t) == Some(Str(""))
  {
    var field := Reader(content);
    ExtractNoMatch(content, t.Name());
    assert field(t) == "";
    RequestPatient(field, gen, RequestStep(field, gen));
    RequestProcedure(field, gen, RequestStep(field, gen));
  }

  /** The four UIDs a conversion draws: meta instance, step ID, requested procedure ID, study. */
  lemma ConversionUidsDistinct(gen: UidGen)
    requires Fresh(gen)
    ensures gen.At(0) != gen.At(1) && gen.At(0) != gen.At(2) && gen.At(0) != gen.At(3)
    ensures gen.At(1) != gen.At(2) && gen.At(1) != gen.At(3) && gen.At(2) != gen.At(3)
  {
    assert gen.draw(gen.next) != gen.draw(gen.next + 1);
    assert gen.draw(gen.next) != gen.draw(gen.next + 2);
    assert gen.draw(gen.next) != gen.draw(gen.next + 3);
    assert gen.draw(gen.next + 1) != gen.draw(gen.next + 2);
    assert gen.draw(gen.next + 1) != gen.draw(gen.next + 3);
    assert gen.draw(gen.next + 2) != gen.draw(gen.next + 3);
  }

  /**
   * As written, the request file never carries a Scheduled Performing
   * Physician's Name element, whatever the text says: the extracted name sits
   * in a plain attribute of the item, which writing the file ignores.
   */
  lemma RequestPhysicianDropped(field: Reading, gen: UidGen)
    ensures var items := ItemsOf(ConvertRequestToDcm(field, gen).body, ScheduledProcedureStepSequence);
      && |items| == 1
      && !Has(items[0], ScheduledPerformingPhysicianName)
      && items[0].attrs == map[PhysicianKeyword := Str(field(ScheduledPerformingPhysicianName))]
  {
    RequestSequence(field, gen, RequestStep(field, gen));
    RequestStepContents(field, gen);
  }

  /**
   * With the keyword corrected, the physician's name from the text is an
   * element of the item, and the file differs from the as-written one in that
   * element alone.
   */
  lemma CorrectedRequestPhysician(field: Reading, gen: UidGen)
    ensures var items := ItemsOf(CorrectedConvertRequestToDcm(field, gen).body, ScheduledProcedureStepSequence);
      && |items| == 1
      && Get(items[0], ScheduledPerformingPhysicianName) == Some(Str(field(ScheduledPerformingPhysicianName)))
      && items[0].attrs == map[]
      && items[0].elements == RequestStep(field, gen).elements[ScheduledPerformingPhysicianName := Str(field(ScheduledPerformingPhysicianName))]
    ensures CorrectedConvertRequestToDcm(field, gen).meta == ConvertRequestToDcm(field, gen).meta
    ensures CorrectedConvertRequestToDcm(field, gen).body ==
      Put(ConvertRequestToDcm(field, gen).body, ScheduledProcedureStepSequence, Items([CorrectedRequestStep(field, gen)]))
  {
    RequestSequence(field, gen, CorrectedRequestStep(field, gen));
    RequestStepContents(field, gen);
    RequestBodyStep(field, gen, RequestStep(field, gen), CorrectedRequestStep(field, gen));
  }

  /** The request dataset depends on its SPS item only through the sequence element. */
  lemma RequestBodyStep(field: Reading, gen: UidGen, step: DataSet, other: DataSet)
    ensures RequestBody(field, gen, other) ==
      Put(RequestBody(field, gen, step), ScheduledProcedureStepSequence, Items([other]))
  {
  }

  /** The response file's fixed patient values. */
  lemma ResponseConstants(gen: UidGen, step: DataSet)
    ensures var ds := ResponseBody(gen, step);
      && Get(ds, PatientName) == Some(Str("Patient_Name"))
      && Get(ds, PatientID) == Some(Str("488390"))
      && Get(ds, PatientBirthDate) == Some(Str("19670416"))
      && Get(ds, PatientSex) == Some(Str("M"))
      && Get(ds, PatientSize) == Some(Str("1.73"))
      && Get(ds, PatientWeight) == Some(Str("78"))
  {
  }

  /** The response file's attributes, exactly. */
  lemma ResponseTags(gen: UidGen, step: DataSet)
    ensures Tags(ResponseBody(gen, step)) ==
      {PatientName, PatientID, PatientBirthDate, PatientSex, PatientSize, PatientWeight,
       ScheduledProcedureStepSequence, RequestedProcedureID, RequestedProcedureDescription,
       AccessionNumber, ReferringPhysicianName, StudyInstanceUID}
  {
  }

  /** The response file holds exactly one SPS item, the one given. */
  lemma ResponseSequence(gen: UidGen, step: DataSet)
    ensures ItemsOf(ResponseBody(gen, step), ScheduledProcedureStepSequence) == [step]
  {
  }

  /** The response file's fixed request values and its generated UIDs. */
  lemma ResponseRequest(gen: UidGen, step: DataSet)
    ensures var ds := ResponseBody(gen, step);
      && Get(ds, RequestedProcedureID) == Some(Str(gen.At(2)))
      && Get(ds, RequestedProcedureDescription) == Some(Str("Cardiac Echo"))
      && Get(ds, AccessionNumber) == Some(Str("5880936"))
      && Get(ds, ReferringPhysicianName) == Some(Str("REFERRAL"))
      && Get(ds, StudyInstanceUID) == Some(Str(gen.At(3)))
  {
  }

  /**
   * The response's SPS item: its description is the requested procedure's and
   * its AE title is its station name.
   */
  lemma ResponseStepContents(gen: UidGen)
    ensures var s := ResponseStepElements(gen);
      && Tags(s) == {ScheduledStationAETitle, ScheduledProcedureStepStartDate,
                     ScheduledProcedureStepStartTime, Modality, ScheduledProcedureStepDescription,
                     ScheduledProcedureStepID, ScheduledStationName}
      && Get(s, ScheduledStationAETitle) == Get(s, ScheduledStationName) == Some(Str("OUMQHUS06"))
      && Get(s, ScheduledProcedureStepStartDate) == Some(Str("20250430"))
      && Get(s, ScheduledProcedureStepStartTime) == Some(Str("095939"))
      && Get(s, Modality) == Some(Str("US"))
      && Get(s, ScheduledProcedureStepDescription) ==
         Get(ResponseBody(gen, s), RequestedProcedureDescription) == Some(Str("Cardiac Echo"))
      && Get(s, ScheduledProcedureStepID) == Some(Str(gen.At(1)))
  {
  }

  /** The response file never carries a performing physician element: "REFERRAL" is a plain attribute. */
  lemma ResponsePhysicianDropped(gen: UidGen)
    ensures var items := ItemsOf(ConvertResponseToDcm(gen).body, ScheduledProcedureStepSequence);
      && |items| == 1
      && !Has(items[0], ScheduledPerformingPhysicianName)
      && items[0].attrs == map[PhysicianKeyword := Str("REFERRAL")]
  {
    ResponseSequence(gen, ResponseStep(gen));
    ResponseStepContents(gen);
  }

  /** With the keyword corrected, the response item carries "REFERRAL" as its performing physician. */
  lemma CorrectedResponsePhysician(gen: UidGen)
    ensures var items := ItemsOf(CorrectedConvertResponseToDcm(gen).body, ScheduledProcedureStepSequence);
      && |items| == 1
      && Get(items[0], ScheduledPerformingPhysicianName) == Some(Str("REFERRAL"))
      && items[0].attrs == map[]
    ensures CorrectedConvertResponseToDcm(gen).body ==
      Put(ConvertResponseToDcm(gen).body, ScheduledProcedureStepSequence, Items([CorrectedResponseStep(gen)]))
  {
    ResponseSequence(gen, CorrectedResponseStep(gen));
  }
}
