/**
 * The worklist manager (tools/worklist_manager.py): building a Modality
 * Worklist item from its fields, staging it as a DICOM file and sending it with
 * C-STORE, loading items from a list of JSON objects, and the JSON display of
 * items.
 */
module WorklistManager {
  import opened Wrappers
  import opened TextUtil
  import opened DataSets
  import opened Uids
  import opened FileFormat
  import opened Association
  import opened Matching
  import opened DicomCommunication

  /** `str(v)` of an element value: text as is, numbers in decimal. */
  function Text(v: Value): string {
    match v
    case Str(s) => s
    case Num(n) => IntToString(n)
    case _ => ""
  }

  /**
   * `str(getattr(ds, keyword, default))`: the default for an absent element,
   * otherwise the stored text, or the decimal rendering of a stored number.
   */
  function Attr(ds: DataSet, t: Tag, default: string): (s: string)
    ensures !Has(ds, t) ==> s == default
    ensures Has(ds, t) && ds.elements[t].Str? ==> s == ds.elements[t].s
    ensures Has(ds, t) && ds.elements[t].Num? ==> s == IntToString(ds.elements[t].n)
    ensures Has(ds, t) && !ds.elements[t].Str? && !ds.elements[t].Num? ==> s == ""
  {
    match Get(ds, t)
    case None => default
    case Some(v) => Text(v)
  }

  /**
   * A Scheduled Procedure Step item with its eight attributes: station AE
   * title, start date and time, modality, performing physician, description,
   * step ID and station name.
   */
  function StepItem(aeTitle: string, date: string, time: string, modality: string,
                    physician: string, description: string, stepId: string, stationName: string): (sps: DataSet)
    ensures sps == DataSet(map[ScheduledStationAETitle := Str(aeTitle),
                               ScheduledProcedureStepStartDate := Str(date),
                               ScheduledProcedureStepStartTime := Str(time),
                               Modality := Str(modality),
                               ScheduledPerformingPhysicianName := Str(physician),
                               ScheduledProcedureStepDescription := Str(description),
                               ScheduledProcedureStepID := Str(stepId),
                               ScheduledStationName := Str(stationName)], map[])
  {
    var sps := Put(Empty, ScheduledStationAETitle, Str(aeTitle));
    var sps := Put(sps, ScheduledProcedureStepStartDate, Str(date));
    var sps := Put(sps, ScheduledProcedureStepStartTime, Str(time));
    var sps := Put(sps, Modality, Str(modality));
    var sps := Put(sps, ScheduledPerformingPhysicianName, Str(physician));
    var sps := Put(sps, ScheduledProcedureStepDescription, Str(description));
    var sps := Put(sps, ScheduledProcedureStepID, Str(stepId));
    Put(sps, ScheduledStationName, Str(stationName))
  }

  /** The arguments of `create_worklist_item`, with its defaults. */
  datatype ItemRequest = ItemRequest(
    patientName: string,
    patientId: string,
    accessionNumber: string,
    startDate: string,
    startTime: string,
    modality: string := "US",
    description: string := "Ultrasound",
    stationName: string := "STATION1",
    stationAeTitle: string := "STATION1",
    referringPhysician: string := "",
    birthDate: string := "",
    sex: string := "",
    medicalAlerts: string := "",
    contrastAllergies: string := "")

  /** A built item and the UID generator after the calls it made. */
  datatype Built = Built(ds: DataSet, gen: UidGen)

  /** The value an optional field `if x:` assigns: present exactly when the argument is non-empty. */
  function IfNonEmpty(s: string): Option<Value> {
    if s != "" then Some(Str(s)) else None
  }

  /** The attributes `create_worklist_item` always sets. */
  const CreatedAlways: set<Tag> := {SpecificCharacterSet, PatientName, PatientID,
                                    ScheduledProcedureStepSequence, RequestedProcedureID,
                                    RequestedProcedureDescription, AccessionNumber, StudyInstanceUID}
  /** The attributes it sets only when given a non-empty value. */
  const CreatedOptionalTags: set<Tag> := {PatientBirthDate, PatientSex, ReferringPhysicianName,
                                          MedicalAlerts, ContrastAllergies}

  /** `if x: ds.Keyword = x`, with `None` for a condition that does not hold. */
  function PutOpt(ds: DataSet, t: Tag, v: Option<Value>): DataSet {
    if v.Some? then Put(ds, t, v.value) else ds
  }

  /**
   * The five attributes the item builders set conditionally, on a fresh
   * dataset: each is present exactly when its value is given.
   */
  function OptionalAttributes(birthDate: Option<Value>, sex: Option<Value>, referringPhysician: Option<Value>,
                              medicalAlerts: Option<Value>, contrastAllergies: Option<Value>): (ds: DataSet)
    ensures Get(ds, PatientBirthDate) == birthDate
    ensures Get(ds, PatientSex) == sex
    ensures Get(ds, ReferringPhysicianName) == referringPhysician
    ensures Get(ds, MedicalAlerts) == medicalAlerts
    ensures Get(ds, ContrastAllergies) == contrastAllergies
    ensures Tags(ds) <= CreatedOptionalTags
    ensures ds.attrs == map[]
  {
    var ds := PutOpt(Empty, PatientBirthDate, birthDate);
    var ds := PutOpt(ds, PatientSex, sex);
    var ds := PutOpt(ds, ReferringPhysicianName, referringPhysician);
    var ds := PutOpt(ds, MedicalAlerts, medicalAlerts);
    PutOpt(ds, ContrastAllergies, contrastAllergies)
  }

  /**
   * `create_worklist_item`. Every assignment is to a distinct attribute, so
   * their order does not change the result; the model makes the five
   * conditional assignments first and the unconditional ones after them, each
   * group in the source's order. The lemmas below state what the item holds.
   */
  function CreateWorklistItem(rq: ItemRequest, gen: UidGen): Built {
    var ds := OptionalAttributes(IfNonEmpty(rq.birthDate), IfNonEmpty(rq.sex), IfNonEmpty(rq.referringPhysician),
                                 IfNonEmpty(rq.medicalAlerts), IfNonEmpty(rq.contrastAllergies));
    var ds := Put(ds, SpecificCharacterSet, Str("ISO_IR 100"));
    var ds := Put(ds, PatientName, Str(rq.patientName));
    var ds := Put(ds, PatientID, Str(rq.patientId));
    var sps := StepItem(rq.stationAeTitle, rq.startDate, rq.startTime, rq.modality, "",
                        rq.description, gen.At(0), rq.stationName);
    var ds := Put(ds, ScheduledProcedureStepSequence, Items([sps]));
    var ds := Put(ds, RequestedProcedureID, Str(gen.At(1)));
    var ds := Put(ds, RequestedProcedureDescription, Str(rq.description));
    var ds := Put(ds, AccessionNumber, Str(rq.accessionNumber));
    var ds := Put(ds, StudyInstanceUID, Str(gen.At(2)));
    Built(ds, gen.Skip(3))
  }

  /**
   * A created item always holds the character set `ISO_IR 100`, the patient's
   * name and ID, the accession number and the requested procedure description
   * as given, and the second and third generated UIDs as requested procedure ID
   * and study instance UID; three UIDs are drawn.
   */
  lemma CreatedAttributes(rq: ItemRequest, gen: UidGen)
    ensures var r := CreateWorklistItem(rq, gen);
      && Get(r.ds, SpecificCharacterSet) == Some(Str("ISO_IR 100"))
      && Get(r.ds, PatientName) == Some(Str(rq.patientName))
      && Get(r.ds, PatientID) == Some(Str(rq.patientId))
      && Get(r.ds, AccessionNumber) == Some(Str(rq.accessionNumber))
      && Get(r.ds, RequestedProcedureDescription) == Some(Str(rq.description))
      && Get(r.ds, RequestedProcedureID) == Some(Str(gen.At(1)))
      && Get(r.ds, StudyInstanceUID) == Some(Str(gen.At(2)))
      && r.ds.attrs == map[]
      && r.gen == gen.Skip(3)
  {
  }

  /**
   * A created item has exactly one scheduled step: AE title and station name
   * from their own arguments, no performing physician, the requested procedure
   * description, and the first generated UID as step ID.
   */
  lemma CreatedStep(rq: ItemRequest, gen: UidGen)
    ensures Sps(CreateWorklistItem(rq, gen).ds) ==
      [StepItem(rq.stationAeTitle, rq.startDate, rq.startTime, rq.modality, "",
                rq.description, gen.At(0), rq.stationName)]
  {
  }

  /** A created item holds the always-set attributes, the optional ones, and nothing else. */
  lemma CreatedTags(rq: ItemRequest, gen: UidGen)
    ensures CreatedAlways <= Tags(CreateWorklistItem(rq, gen).ds) <= CreatedAlways + CreatedOptionalTags
  {
  }

  /** The patient's birth date and sex are present exactly when given non-empty. */
  lemma CreatedOptionalPatient(rq: ItemRequest, gen: UidGen)
    ensures var ds := CreateWorklistItem(rq, gen).ds;
      && Get(ds, PatientBirthDate) == IfNonEmpty(rq.birthDate)
      && Get(ds, PatientSex) == IfNonEmpty(rq.sex)
  {
  }

  /** The referring physician, medical alerts and contrast allergies are present exactly when given non-empty. */
  lemma CreatedOptionalRequest(rq: ItemRequest, gen: UidGen)
    ensures var ds := CreateWorklistItem(rq, gen).ds;
      && Get(ds, ReferringPhysicianName) == IfNonEmpty(rq.referringPhysician)
      && Get(ds, MedicalAlerts) == IfNonEmpty(rq.medicalAlerts)
      && Get(ds, ContrastAllergies) == IfNonEmpty(rq.contrastAllergies)
  {
  }

  /** With a generator that never repeats, the three identifiers of a created item are distinct. */
  lemma CreatedIdentifiers(rq: ItemRequest, gen: UidGen)
    requires Fresh(gen)
    ensures var ds := CreateWorklistItem(rq, gen).ds;
      && Get(ds, RequestedProcedureID) != Get(ds, StudyInstanceUID)
      && forall sps | sps in Sps(ds) ::
           && Get(sps, ScheduledProcedureStepID) != Get(ds, RequestedProcedureID)
           && Get(sps, ScheduledProcedureStepID) != Get(ds, StudyInstanceUID)
  {
    CreatedAttributes(rq, gen);
    CreatedStep(rq, gen);
    assert gen.draw(gen.next) != gen.draw(gen.next + 1);
    assert gen.draw(gen.next) != gen.draw(gen.next + 2);
    assert gen.draw(gen.next + 1) != gen.draw(gen.next + 2);
  }

  // ---------------------------------------------------------------------------
  // display_worklist, JSON branch

  /** The JSON object of the first scheduled step: `ScheduledDate`, `ScheduledTime`, `Modality`, `StationName`, `StationAETitle`. */
  datatype DisplayedStep = DisplayedStep(scheduledDate: string, scheduledTime: string, modality: string,
                                         stationName: string, stationAeTitle: string)

  /**
   * The JSON object of one item: `PatientName`, `PatientID`, `AccessionNumber`,
   * `RequestedProcedureDescription`, `StudyInstanceUID` and, when there is a
   * scheduled step, the step's five keys.
   */
  datatype DisplayedItem = DisplayedItem(patientName: string, patientId: string, accessionNumber: string,
                                         requestedProcedureDescription: string, studyInstanceUid: string,
                                         step: Option<DisplayedStep>)

  /**
   * One JSON item: five top-level attributes, each `N/A` when absent, and, when
   * the Scheduled Procedure Step Sequence is present and not empty, five
   * attributes of its first item.
   */
  function JsonItem(item: DataSet): (j: DisplayedItem)
    ensures j.step.Some? <==> |Sps(item)| > 0
    ensures !Has(item, PatientName) ==> j.patientName == "N/A"
    ensures !Has(item, PatientID) ==> j.patientId == "N/A"
    ensures !Has(item, AccessionNumber) ==> j.accessionNumber == "N/A"
    ensures !Has(item, RequestedProcedureDescription) ==> j.requestedProcedureDescription == "N/A"
    ensures !Has(item, StudyInstanceUID) ==> j.studyInstanceUid == "N/A"
  {
    var step :=
      if |Sps(item)| > 0 then
        var sps := Sps(item)[0];
        Some(DisplayedStep(Attr(sps, ScheduledProcedureStepStartDate, "N/A"),
                           Attr(sps, ScheduledProcedureStepStartTime, "N/A"),
                           Attr(sps, Modality, "N/A"),
                           Attr(sps, ScheduledStationName, "N/A"),
                           Attr(sps, ScheduledStationAETitle, "N/A")))
      else None;
    DisplayedItem(Attr(item, PatientName, "N/A"), Attr(item, PatientID, "N/A"),
                  Attr(item, AccessionNumber, "N/A"), Attr(item, RequestedProcedureDescription, "N/A"),
                  Attr(item, StudyInstanceUID, "N/A"), step)
  }

  /** The JSON items of a list of items, one for one and in order. */
  function JsonItems(items: seq<DataSet>): (js: seq<DisplayedItem>)
    ensures |js| == |items|
    ensures forall i | 0 <= i < |items| :: js[i] == JsonItem(items[i])
  {
    if items == [] then []
    else
      var init := items[..|items| - 1];
      assert forall i | 0 <= i < |init| :: init[i] == items[i];
      JsonItems(init) + [JsonItem(items[|items| - 1])]
  }

  /**
   * `display_worklist(items, 'json')`: nothing is output for an empty list,
   * otherwise the list of JSON items.
   */
  method DisplayJson(items: seq<DataSet>) returns (output: Option<seq<DisplayedItem>>)
    ensures items == [] <==> output.None?
    ensures output.Some? ==> output.value == JsonItems(items)
  {
    if items == [] {
      return None;
    }
    var jsonItems := [];
    for i := 0 to |items|
      invariant jsonItems == JsonItems(items[..i])
    {
      jsonItems := jsonItems + [JsonItem(items[i])];
      assert items[..i + 1][..i] == items[..i];
    }
    assert items[..|items|] == items;
    output := Some(jsonItems);
  }

  /** An item with these five attributes and this one scheduled step is displayed with them. */
  lemma DisplayedFrom(item: DataSet, name: string, id: string, accession: string, description: string,
                      study: string, aeTitle: string, date: string, time: string, modality: string,
                      physician: string, stepDescription: string, stepId: string, stationName: string)
    requires Get(item, PatientName) == Some(Str(name)) && Get(item, PatientID) == Some(Str(id))
    requires Get(item, AccessionNumber) == Some(Str(accession))
    requires Get(item, RequestedProcedureDescription) == Some(Str(description))
    requires Get(item, StudyInstanceUID) == Some(Str(study))
    requires Sps(item) == [StepItem(aeTitle, date, time, modality, physician, stepDescription, stepId, stationName)]
    ensures JsonItem(item) == DisplayedItem(name, id, accession, description, study,
                                            Some(DisplayedStep(date, time, modality, stationName, aeTitle)))
  {
  }

  /** Displaying a created item shows the fields it was created from. */
  lemma DisplayCreated(rq: ItemRequest, gen: UidGen)
    ensures JsonItem(CreateWorklistItem(rq, gen).ds) ==
      DisplayedItem(rq.patientName, rq.patientId, rq.accessionNumber, rq.description, gen.At(2),
                    Some(DisplayedStep(rq.startDate, rq.startTime, rq.modality, rq.stationName, rq.stationAeTitle)))
  {
    CreatedAttributes(rq, gen);
    CreatedStep(rq, gen);
    DisplayedFrom(CreateWorklistItem(rq, gen).ds, rq.patientName, rq.patientId, rq.accessionNumber, rq.description,
                  gen.At(2), rq.stationAeTitle, rq.startDate, rq.startTime, rq.modality, "", rq.description,
                  gen.At(0), rq.stationName);
  }

  /** A created item is found by the date-range query exactly when its start date lies in the range. */
  lemma {:induction false} CreatedMatchesDateRange(rq: ItemRequest, gen: UidGen, start: string, end: string)
    requires start != "" && end != "" && '-' !in start
    ensures QueryMatches(DefaultQuery(None, Some(start), Some(end), None), CreateWorklistItem(rq, gen).ds) <==>
      LexLe(start, rq.startDate) && LexLe(rq.startDate, end)
  {
    var d := CreateWorklistItem(rq, gen).ds;
    CreatedStep(rq, gen);
    DateRangeQueryMatches(start, end, d);
    assert Get(Sps(d)[0], ScheduledProcedureStepStartDate) == Some(Str(rq.startDate));
  }

  /** A created item is found by the modality query exactly when it was created for that modality. */
  lemma {:induction false} CreatedMatchesModality(rq: ItemRequest, gen: UidGen, modality: string)
    requires modality != "" && !HasWildcard(modality)
    ensures QueryMatches(DefaultQuery(None, None, None, Some(modality)), CreateWorklistItem(rq, gen).ds) <==>
      rq.modality == modality
  {
    var d := CreateWorklistItem(rq, gen).ds;
    CreatedStep(rq, gen);
    ModalityQueryMatches(modality, d);
    assert Get(Sps(d)[0], Modality) == Some(Str(rq.modality));
  }

  // ---------------------------------------------------------------------------
  // send_worklist_item

  /**
   * The file `send_worklist_item` stages: a zero preamble, meta information for
   * the Modality Worklist SOP class with instance `instanceUid` in explicit VR
   * little endian, and the dataset with the two SOP UIDs added.
   */
  function WorklistFile(ds: DataSet, instanceUid: string): FileDataSet {
    var meta := FileMeta(WorklistFindSopClass, instanceUid, ExplicitVRLittleEndian, None);
    var body := Put(Put(ds, SOPClassUID, Str(meta.mediaStorageSopClassUid)),
                    SOPInstanceUID, Str(meta.mediaStorageSopInstanceUid));
    FileDataSet(ZeroPreamble, meta, body, true, false)
  }

  /**
   * The staged file has a zero preamble, explicit VR little endian, the meta
   * UIDs repeated in the body, and otherwise exactly the dataset's attributes.
   */
  lemma WorklistFileContents(ds: DataSet, instanceUid: string)
    ensures var f := WorklistFile(ds, instanceUid);
      && ZeroFilledPreamble(f) && ExplicitLittleEndian(f) && MetaCopiedIntoBody(f)
      && f.meta.mediaStorageSopClassUid == WorklistFindSopClass
      && f.meta.mediaStorageSopInstanceUid == instanceUid
      && (forall t | t != SOPClassUID && t != SOPInstanceUID :: Get(f.body, t) == Get(ds, t))
      && Tags(f.body) == Tags(ds) + {SOPClassUID, SOPInstanceUID}
  {
  }

  const StagingPrefix := "worklist/worklist_"
  const StagingSuffix := ".dcm"

  /** The patient name part of the file name: the name (`Unknown` when absent) with each `^` made `_`. */
  function NamePart(ds: DataSet): string {
    ReplaceChar(Attr(ds, PatientName, "Unknown"), '^', '_')
  }

  /**
   * `worklist/worklist_<name>_<accession>.dcm`, the accession number being the
   * time stamp `now` when the dataset has none.
   */
  function StagedPath(ds: DataSet, now: string): string {
    StagingPrefix + NamePart(ds) + "_" + Attr(ds, AccessionNumber, now) + StagingSuffix
  }

  /** A concatenation of five parts reads back as its parts. */
  lemma Concat5(a: string, b: string, c: string, d: string, e: string)
    ensures var p := a + b + c + d + e;
      && p[..|a|] == a
      && p[|a|..|a| + |b|] == b
      && p[|a| + |b|..|a| + |b| + |c|] == c
      && p[|a| + |b| + |c|..|p| - |e|] == d
      && p[|p| - |e|..] == e
  {
    var p := a + b + c + d + e;
    assert p == a + (b + (c + (d + e)));
    assert p[|a|..] == b + (c + (d + e));
    assert p[|a| + |b|..] == c + (d + e);
    assert p[|a| + |b| + |c|..] == d + e;
  }

  /**
   * The staged path reads back as `worklist/worklist_`, the name part, `_`, the
   * accession number (`now` when the dataset has none) and `.dcm`.
   */
  lemma StagedPathParts(ds: DataSet, now: string)
    ensures var p := StagedPath(ds, now); var n := NamePart(ds);
      && p[..|StagingPrefix|] == StagingPrefix
      && p[|StagingPrefix|..|StagingPrefix| + |n|] == n
      && p[|StagingPrefix| + |n|] == '_'
      && p[|StagingPrefix| + |n| + 1..|p| - |StagingSuffix|] == Attr(ds, AccessionNumber, now)
      && p[|p| - |StagingSuffix|..] == StagingSuffix
  {
    Concat5(StagingPrefix, NamePart(ds), "_", Attr(ds, AccessionNumber, now), StagingSuffix);
    var p := StagedPath(ds, now);
    var n := NamePart(ds);
    assert p[|StagingPrefix| + |n|] == p[|StagingPrefix| + |n|..|StagingPrefix| + |n| + 1][0];
  }

  /** The name part is the patient's name with every `^` replaced by `_`, and nothing else changed. */
  lemma NamePartReplaces(ds: DataSet)
    ensures var name := Attr(ds, PatientName, "Unknown");
      && |NamePart(ds)| == |name|
      && (forall i | 0 <= i < |name| :: NamePart(ds)[i] == (if name[i] == '^' then '_' else name[i]))
      && '^' !in NamePart(ds)
  {
    ReplaceCharAt(Attr(ds, PatientName, "Unknown"), '^', '_');
  }

  /** A staged worklist file and where it was written. */
  datatype Staged = Staged(path: string, file: FileDataSet)

  /**
   * The network part of `send_worklist_item`: associate with the file's SOP
   * class as the requested context, send one C-STORE and release. The result
   * is True exactly when the association is established and the store status is 0.
   */
  method StoreFile(peer: Peer, file: FileDataSet, address: string, port: int, remoteAe: string, localAe: string)
    returns (result: bool, trace: seq<Request>)
    ensures result <==> peer.accepts && peer.storeStatus == Some(0)
    ensures |trace| > 0 &&
      trace[0] == AssociateRq(localAe, address, port, Some(remoteAe), file.meta.mediaStorageSopClassUid)
    ensures !peer.accepts ==> |trace| == 1
    ensures peer.accepts ==> trace == [trace[0], StoreRq(file), ReleaseRq]
    ensures Releases(trace) == (if peer.accepts then 1 else 0)
  {
    var assoc := new Association.Associate(peer, localAe, address, port, Some(remoteAe),
                                           file.meta.mediaStorageSopClassUid);
    if !assoc.isEstablished {
      return false, assoc.sent;
    }
    var status := assoc.SendCStore(file);
    if status.Some? {
      result := status.value == 0;
    } else {
      result := false;
    }
    assoc.Release();
    trace := assoc.sent;
  }

  /**
   * `send_worklist_item`: stage the file (a failure of the file system, given
   * by `saveOk`, makes the call return False before any network request), then
   * store it on the remote AE. `instanceUid` is the generated UID and `now`
   * the time stamp of the call.
   *
   * The file dataset is built over the caller's own element dictionary, so the
   * SOP class and instance UIDs it is given are added to the caller's dataset
   * too, before the save is attempted. `shared` is the caller's dataset after
   * the call: the body of the framed file, whether or not the save succeeds.
   */
  method SendWorklistItem(peer: Peer, dataset: DataSet, address: string, port: int, remoteAe: string,
                          localAe: string, instanceUid: string, now: string, saveOk: bool)
    returns (result: bool, staged: Option<Staged>, shared: DataSet, trace: seq<Request>)
    ensures shared == WorklistFile(dataset, instanceUid).body
    ensures Get(shared, SOPClassUID) == Some(Str(WorklistFindSopClass))
    ensures Get(shared, SOPInstanceUID) == Some(Str(instanceUid))
    ensures staged.Some? ==> staged.value.file.body == shared
    ensures result <==> saveOk && peer.accepts && peer.storeStatus == Some(0)
    ensures !saveOk ==> staged == None && trace == []
    ensures saveOk ==> staged == Some(Staged(StagedPath(dataset, now), WorklistFile(dataset, instanceUid)))
    ensures saveOk ==>
      |trace| > 0 && trace[0] == AssociateRq(localAe, address, port, Some(remoteAe), WorklistFindSopClass)
    ensures saveOk && !peer.accepts ==> |trace| == 1
    ensures saveOk && peer.accepts ==>
      trace == [trace[0], StoreRq(WorklistFile(dataset, instanceUid)), ReleaseRq]
    ensures Releases(trace) == (if saveOk && peer.accepts then 1 else 0)
  {
    var file := WorklistFile(dataset, instanceUid);
    shared := file.body;
    if !saveOk {
      return false, None, shared, [];
    }
    staged := Some(Staged(StagedPath(dataset, now), file));
    result, trace := StoreFile(peer, file, address, port, remoteAe, localAe);
  }

  // ---------------------------------------------------------------------------
  // load_sample_worklists

  /** One entry of the JSON list: an object of string values, or any other JSON value. */
  datatype JsonEntry = Object(fields: map<string, string>) | NotObject

  /** `item_data.get(key, default)`. */
  function Lookup(e: map<string, string>, key: string, default: string): string {
    if key in e then e[key] else default
  }

  /** The value an optional field `if key in item_data:` assigns: present exactly when the key is. */
  function IfKey(e: map<string, string>, key: string): Option<Value> {
    if key in e then Some(Str(e[key])) else None
  }

  /**
   * One loaded item (one pass of the loop of `load_sample_worklists`). As in
   * `CreateWorklistItem`, the conditional assignments come first. The lemmas
   * below state what the item holds.
   */
  function SampleItem(e: map<string, string>, gen: UidGen): DataSet {
    var ds := OptionalAttributes(IfKey(e, "birth_date"), IfKey(e, "sex"), IfKey(e, "physician"),
                                 IfKey(e, "alerts"), IfKey(e, "allergies"));
    var ds := Put(ds, PatientName, Str(Lookup(e, "patient_name", "")));
    var ds := Put(ds, PatientID, Str(Lookup(e, "patient_id", "")));
    var sps := StepItem(Lookup(e, "station", "STATION1"), Lookup(e, "date", ""),
                        Lookup(e, "time", ""), Lookup(e, "modality", "US"),
                        Lookup(e, "physician", ""), Lookup(e, "description", ""),
                        gen.At(0), Lookup(e, "station", "STATION1"));
    var ds := Put(ds, ScheduledProcedureStepSequence, Items([sps]));
    var ds := Put(ds, RequestedProcedureID, Str(gen.At(1)));
    var ds := Put(ds, RequestedProcedureDescription, Str(Lookup(e, "description", "")));
    var ds := Put(ds, AccessionNumber, Str(Lookup(e, "accession_number", "")));
    Put(ds, StudyInstanceUID, Str(gen.At(2)))
  }

  /**
   * A loaded item holds the patient's name and ID, the accession number and the
   * description from the entry, each empty when missing.
   */
  lemma SampleAttributes(e: map<string, string>, gen: UidGen)
    ensures var ds := SampleItem(e, gen);
      && Get(ds, PatientName) == Some(Str(Lookup(e, "patient_name", "")))
      && Get(ds, PatientID) == Some(Str(Lookup(e, "patient_id", "")))
      && Get(ds, AccessionNumber) == Some(Str(Lookup(e, "accession_number", "")))
      && Get(ds, RequestedProcedureDescription) == Some(Str(Lookup(e, "description", "")))
  {
  }

  /** A loaded item has the second and third generated UIDs and, unlike a created one, no character set. */
  lemma SampleIdentifiers(e: map<string, string>, gen: UidGen)
    ensures var ds := SampleItem(e, gen);
      && Get(ds, RequestedProcedureID) == Some(Str(gen.At(1)))
      && Get(ds, StudyInstanceUID) == Some(Str(gen.At(2)))
      && !Has(ds, SpecificCharacterSet)
  {
  }

  /**
   * A loaded item has exactly one scheduled step. The station (default
   * `STATION1`) is both its AE title and its station name, the modality
   * defaults to `US`, and the physician is the performing physician.
   */
  lemma SampleStep(e: map<string, string>, gen: UidGen)
    ensures Sps(SampleItem(e, gen)) ==
      [StepItem(Lookup(e, "station", "STATION1"), Lookup(e, "date", ""), Lookup(e, "time", ""),
                Lookup(e, "modality", "US"), Lookup(e, "physician", ""), Lookup(e, "description", ""),
                gen.At(0), Lookup(e, "station", "STATION1"))]
  {
  }

  /** The birth date and sex are present exactly when their keys are, even with an empty value. */
  lemma SampleOptionalPatient(e: map<string, string>, gen: UidGen)
    ensures var ds := SampleItem(e, gen);
      && Get(ds, PatientBirthDate) == IfKey(e, "birth_date")
      && Get(ds, PatientSex) == IfKey(e, "sex")
  {
  }

  /** The referring physician, alerts and allergies are present exactly when their keys are. */
  lemma SampleOptionalRequest(e: map<string, string>, gen: UidGen)
    ensures var ds := SampleItem(e, gen);
      && Get(ds, ReferringPhysicianName) == IfKey(e, "physician")
      && Get(ds, MedicalAlerts) == IfKey(e, "alerts")
      && Get(ds, ContrastAllergies) == IfKey(e, "allergies")
  {
  }

  /** What the loader builds one item from: an entry's fields and the generator. */
  type ItemBuilder = (map<string, string>, UidGen) -> DataSet

  /**
   * The result of the loader's loop over a parsed list with item builder
   * `build`: `None` when some entry is not an object (reading it raises),
   * otherwise one item per entry, each pass drawing three UIDs.
   */
  function LoadEach(build: ItemBuilder, data: seq<JsonEntry>, gen: UidGen): Option<seq<DataSet>>
  {
    if data == [] then Some([])
    else if data[0].NotObject? then None
    else
      match LoadEach(build, data[1..], gen.Skip(3))
      case None => None
      case Some(rest) => Some([build(data[0].fields, gen)] + rest)
  }

  /** What `load_sample_worklists` computes from a parsed list. */
  function Loaded(data: seq<JsonEntry>, gen: UidGen): Option<seq<DataSet>> {
    LoadEach(SampleItem, data, gen)
  }

  /** The objects of a list that holds nothing else. */
  predicate AllObjects(data: seq<JsonEntry>) {
    forall i | 0 <= i < |data| :: data[i].Object?
  }

  /** The loop succeeds exactly when every entry is an object. */
  lemma {:induction false} LoadEachSucceeds(build: ItemBuilder, data: seq<JsonEntry>, gen: UidGen)
    ensures LoadEach(build, data, gen).Some? <==> AllObjects(data)
  {
    if data != [] {
      LoadEachSucceeds(build, data[1..], gen.Skip(3));
      assert forall i | 1 <= i < |data| :: data[1..][i - 1] == data[i];
    }
  }

  /** A successful loop gives as many items as entries. */
  lemma {:induction false} LoadEachLength(build: ItemBuilder, data: seq<JsonEntry>, gen: UidGen)
    requires LoadEach(build, data, gen).Some?
    ensures |LoadEach(build, data, gen).value| == |data|
  {
    if data != [] {
      LoadEachLength(build, data[1..], gen.Skip(3));
    }
  }

  /** Item `i` of a successful loop is built from entry `i` with the generator after `3 * i` draws. */
  lemma {:induction false} LoadEachItemAt(build: ItemBuilder, data: seq<JsonEntry>, gen: UidGen, i: nat)
    requires LoadEach(build, data, gen).Some? && i < |data|
    ensures data[i].Object?
    ensures i < |LoadEach(build, data, gen).value|
    ensures LoadEach(build, data, gen).value[i] == build(data[i].fields, gen.Skip(3 * i))
  {
    if i > 0 {
      LoadEachItemAt(build, data[1..], gen.Skip(3), i - 1);
      assert data[1..][i - 1] == data[i];
      SkipSkip(gen, 3, 3 * (i - 1));
    }
  }

  /**
   * Loading succeeds exactly when every entry is an object, and then gives one
   * sample item per entry, in order, with fresh UIDs per item.
   */
  lemma LoadedItems(data: seq<JsonEntry>, gen: UidGen)
    ensures Loaded(data, gen).Some? <==> AllObjects(data)
    ensures Loaded(data, gen).Some? ==>
      && |Loaded(data, gen).value| == |data|
      && forall i | 0 <= i < |data| :: data[i].Object? &&
           Loaded(data, gen).value[i] == SampleItem(data[i].fields, gen.Skip(3 * i))
  {
    LoadEachSucceeds(SampleItem, data, gen);
    if Loaded(data, gen).Some? {
      LoadEachLength(SampleItem, data, gen);
      forall i | 0 <= i < |data|
        ensures data[i].Object? && Loaded(data, gen).value[i] == SampleItem(data[i].fields, gen.Skip(3 * i))
      {
        LoadEachItemAt(SampleItem, data, gen, i);
      }
    }
  }

  /**
   * With a generator that never repeats itself, two loaded items never share a
   * requested procedure ID or a study instance UID: each pass draws its own three.
   */
  lemma LoadedUidsDistinct(data: seq<JsonEntry>, gen: UidGen, i: nat, j: nat)
    requires Fresh(gen) && Loaded(data, gen).Some? && i < j < |Loaded(data, gen).value|
    ensures var items := Loaded(data, gen).value;
      && Get(items[i], RequestedProcedureID) != Get(items[j], RequestedProcedureID)
      && Get(items[i], StudyInstanceUID) != Get(items[j], StudyInstanceUID)
  {
    LoadEachLength(SampleItem, data, gen);
    LoadEachItemAt(SampleItem, data, gen, i);
    LoadEachItemAt(SampleItem, data, gen, j);
    SampleIdentifiers(data[i].fields, gen.Skip(3 * i));
    SampleIdentifiers(data[j].fields, gen.Skip(3 * j));
    SkipAt(gen, 3 * i, 1);
    SkipAt(gen, 3 * i, 2);
    SkipFresh(gen, 3 * j);
    assert gen.Skip(3 * j).At(1) != gen.At(3 * i + 1);
    assert gen.Skip(3 * j).At(2) != gen.At(3 * i + 2);
  }

  /** `Some(prefix + r)` for `Some(r)`, `None` for `None`. */
  function Prefixed(prefix: seq<DataSet>, r: Option<seq<DataSet>>): Option<seq<DataSet>> {
    match r
    case None => None
    case Some(rest) => Some(prefix + rest)
  }

  /**
   * `load_sample_worklists`: `data` is the parsed file, `None` when it cannot
   * be read or parsed. Any failure gives the empty list; otherwise the items in
   * the order of the entries.
   */
  method LoadSampleWorklists(data: Option<seq<JsonEntry>>, gen: UidGen) returns (items: seq<DataSet>)
    ensures data.None? ==> items == []
    ensures data.Some? ==> items == Loaded(data.value, gen).GetOr([])
  {
    if data.None? {
      return [];
    }
    var entries := data.value;
    var build: ItemBuilder := SampleItem;
    items := [];
    var g := gen;
    assert entries[0..] == entries;
    assert Prefixed([], Loaded(entries, gen)) == Loaded(entries, gen) by {
      match Loaded(entries, gen)
      case None =>
      case Some(r) => assert [] + r == r;
    }
    for i := 0 to |entries|
      invariant g == gen.Skip(3 * i)
      invariant LoadEach(build, entries, gen) == Prefixed(items, LoadEach(build, entries[i..], g))
    {
      LoadEachStep(build, entries, i, g);
      if entries[i].NotObject? {
        return [];
      }
      var ds := build(entries[i].fields, g);
      PrefixedAppend(items, ds, LoadEach(build, entries[i + 1..], g.Skip(3)));
      items := items + [ds];
      g := g.Skip(3);
    }
    assert entries[|entries|..] == [];
  }

  /** One pass of the loop: the entry at `i` either fails the load or contributes its item. */
  lemma LoadEachStep(build: ItemBuilder, entries: seq<JsonEntry>, i: nat, g: UidGen)
    requires i < |entries|
    ensures LoadEach(build, entries[i..], g) ==
      if entries[i].NotObject? then None
      else Prefixed([build(entries[i].fields, g)], LoadEach(build, entries[i + 1..], g.Skip(3)))
  {
    assert entries[i..][1..] == entries[i + 1..];
  }

  lemma PrefixedAppend(items: seq<DataSet>, ds: DataSet, r: Option<seq<DataSet>>)
    ensures Prefixed(items, Prefixed([ds], r)) == Prefixed(items + [ds], r)
  {
    if r.Some? {
      assert items + ([ds] + r.value) == (items + [ds]) + r.value;
    }
  }

  /** Displaying a loaded item shows the entry's values, with the loader's defaults for missing keys. */
  lemma DisplaySample(e: map<string, string>, gen: UidGen)
    ensures JsonItem(SampleItem(e, gen)) ==
      DisplayedItem(Lookup(e, "patient_name", ""), Lookup(e, "patient_id", ""),
                    Lookup(e, "accession_number", ""), Lookup(e, "description", ""), gen.At(2),
                    Some(DisplayedStep(Lookup(e, "date", ""), Lookup(e, "time", ""),
                                       Lookup(e, "modality", "US"), Lookup(e, "station", "STATION1"),
                                       Lookup(e, "station", "STATION1"))))
  {
    SampleAttributes(e, gen);
    SampleIdentifiers(e, gen);
    SampleStep(e, gen);
    var station := Lookup(e, "station", "STATION1");
    DisplayedFrom(SampleItem(e, gen), Lookup(e, "patient_name", ""), Lookup(e, "patient_id", ""),
                  Lookup(e, "accession_number", ""), Lookup(e, "description", ""), gen.At(2),
                  station, Lookup(e, "date", ""), Lookup(e, "time", ""), Lookup(e, "modality", "US"),
                  Lookup(e, "physician", ""), Lookup(e, "description", ""), gen.At(0), station);
  }
}
