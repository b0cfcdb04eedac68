/**
 * The Orthanc REST client (worklist.py): its own copy of the worklist item
 * builder, the upload of an item, the date-range worklist query with the
 * simplified items it returns, and the lookup of one item. The HTTP server is
 * an oracle that answers each request; as in the source, a failed call gives a
 * dictionary with `error` (and `status_code` when the server answered).
 */
module OrthancRest {
  import opened Wrappers
  import opened TextUtil
  import opened DataSets
  import opened Uids
  import opened Matching
  import opened DicomCommunication
  import WorklistManager

  // ---------------------------------------------------------------------------
  // create_worklist_item

  /** The arguments of this copy of `create_worklist_item`, with its defaults; it has no AE title argument. */
  datatype RestItemRequest = RestItemRequest(
    patientName: string,
    patientId: string,
    accessionNumber: string,
    startDate: string,
    startTime: string,
    modality: string := "US",
    description: string := "Ultrasound",
    stationName: string := "STATION1",
    referringPhysician: string := "",
    birthDate: string := "",
    sex: string := "",
    medicalAlerts: string := "",
    contrastAllergies: string := "")

  /**
   * `create_worklist_item` of the REST client. The station name is both the
   * scheduled station AE title and the station name; the optional fields are
   * set only when non-empty. As in the manager's copy, the assignments are to
   * distinct attributes and the conditional ones are made first.
   */
  function CreateWorklistItem(rq: RestItemRequest, gen: UidGen): WorklistManager.Built {
    var ds := WorklistManager.OptionalAttributes(
      WorklistManager.IfNonEmpty(rq.birthDate), WorklistManager.IfNonEmpty(rq.sex),
      WorklistManager.IfNonEmpty(rq.referringPhysician), WorklistManager.IfNonEmpty(rq.medicalAlerts),
      WorklistManager.IfNonEmpty(rq.contrastAllergies));
    var ds := Put(ds, SpecificCharacterSet, Str("ISO_IR 100"));
    var ds := Put(ds, PatientName, Str(rq.patientName));
    var ds := Put(ds, PatientID, Str(rq.patientId));
    var sps := WorklistManager.StepItem(rq.stationName, rq.startDate, rq.startTime, rq.modality, "",
                                        rq.description, gen.At(0), rq.stationName);
    var ds := Put(ds, ScheduledProcedureStepSequence, Items([sps]));
    var ds := Put(ds, RequestedProcedureID, Str(gen.At(1)));
    var ds := Put(ds, RequestedProcedureDescription, Str(rq.description));
    var ds := Put(ds, AccessionNumber, Str(rq.accessionNumber));
    var ds := Put(ds, StudyInstanceUID, Str(gen.At(2)));
    WorklistManager.Built(ds, gen.Skip(3))
  }

  /** The manager's arguments that give the same item: the station name doubles as the AE title. */
  function AsManagerRequest(rq: RestItemRequest): WorklistManager.ItemRequest {
    WorklistManager.ItemRequest(rq.patientName, rq.patientId, rq.accessionNumber, rq.startDate, rq.startTime,
                                rq.modality, rq.description, rq.stationName, rq.stationName,
                                rq.referringPhysician, rq.birthDate, rq.sex, rq.medicalAlerts,
                                rq.contrastAllergies)
  }

  /**
   * The two copies of `create_worklist_item` differ in one point only: this one
   * has no AE title argument and uses the station name for it.
   */
  lemma SameAsManager(rq: RestItemRequest, gen: UidGen)
    ensures CreateWorklistItem(rq, gen) == WorklistManager.CreateWorklistItem(AsManagerRequest(rq), gen)
  {
  }

  /**
   * A created item has exactly one scheduled step, whose AE title and station
   * name are both the station name, with no performing physician, the
   * description and the first generated UID.
   */
  lemma CreatedStep(rq: RestItemRequest, gen: UidGen)
    ensures Sps(CreateWorklistItem(rq, gen).ds) ==
      [WorklistManager.StepItem(rq.stationName, rq.startDate, rq.startTime, rq.modality, "",
                                rq.description, gen.At(0), rq.stationName)]
    ensures var sps := Sps(CreateWorklistItem(rq, gen).ds)[0];
      Get(sps, ScheduledStationAETitle) == Get(sps, ScheduledStationName)
  {
    SameAsManager(rq, gen);
    WorklistManager.CreatedStep(AsManagerRequest(rq), gen);
  }

  /**
   * The always-set attributes, and the five optional ones present exactly when
   * given non-empty; with a generator that never repeats, the three UIDs differ.
   */
  lemma CreatedContents(rq: RestItemRequest, gen: UidGen)
    ensures var r := CreateWorklistItem(rq, gen);
      && Get(r.ds, SpecificCharacterSet) == Some(Str("ISO_IR 100"))
      && Get(r.ds, PatientName) == Some(Str(rq.patientName))
      && Get(r.ds, PatientID) == Some(Str(rq.patientId))
      && Get(r.ds, AccessionNumber) == Some(Str(rq.accessionNumber))
      && Get(r.ds, RequestedProcedureDescription) == Some(Str(rq.description))
      && Get(r.ds, RequestedProcedureID) == Some(Str(gen.At(1)))
      && Get(r.ds, StudyInstanceUID) == Some(Str(gen.At(2)))
      && r.gen == gen.Skip(3)
    ensures var ds := CreateWorklistItem(rq, gen).ds;
      && Get(ds, PatientBirthDate) == WorklistManager.IfNonEmpty(rq.birthDate)
      && Get(ds, PatientSex) == WorklistManager.IfNonEmpty(rq.sex)
      && Get(ds, ReferringPhysicianName) == WorklistManager.IfNonEmpty(rq.referringPhysician)
      && Get(ds, MedicalAlerts) == WorklistManager.IfNonEmpty(rq.medicalAlerts)
      && Get(ds, ContrastAllergies) == WorklistManager.IfNonEmpty(rq.contrastAllergies)
  {
    SameAsManager(rq, gen);
    WorklistManager.CreatedAttributes(AsManagerRequest(rq), gen);
    WorklistManager.CreatedOptionalPatient(AsManagerRequest(rq), gen);
    WorklistManager.CreatedOptionalRequest(AsManagerRequest(rq), gen);
  }

  // ---------------------------------------------------------------------------
  // HTTP

  /** `auth = (username, password) if username and password else None`. */
  function AuthFor(username: Option<string>, password: Option<string>): (auth: Option<(string, string)>)
    ensures auth.Some? <==> Present(username) && Present(password)
    ensures auth.Some? ==> auth.value == (username.value, password.value)
  {
    if Present(username) && Present(password) then Some((username.value, password.value)) else None
  }

  /** The C-FIND query of the REST API: a level and the query's keys. */
  datatype StepQuery = StepQuery(scheduledProcedureStepStartDate: string)
  /** The value of the sequence key: an object whose `Sequence` member lists the item keys. */
  datatype SequenceQuery = SequenceQuery(sequence: seq<StepQuery>)
  datatype RestQuery = RestQuery(
    level: string,
    scheduledProcedureStepSequence: SequenceQuery,
    patientName: string,
    patientId: string,
    accessionNumber: string,
    requestedProcedureDescription: string,
    studyInstanceUid: string)

  /** What a request carries. */
  datatype Body =
    | DicomPayload(ds: DataSet, littleEndian: bool, implicitVr: bool)
    | JsonQuery(query: RestQuery)

  datatype HttpRequest =
    | HttpPost(url: string, body: Body, auth: Option<(string, string)>)
    | HttpGet(url: string, auth: Option<(string, string)>)

  /**
   * What a call observes: a response with its status code, its body as JSON
   * and its text, or an exception (from the call or from decoding the body).
   */
  datatype Reply<T> = Response(statusCode: int, body: T, text: string) | Raised(message: string)

  /** A JSON object of string values. */
  type JsonObject = map<string, string>

  /** The server: its answers to uploads, worklist queries and instance lookups. */
  datatype Orthanc = Orthanc(
    upload: HttpRequest -> Reply<JsonObject>,
    findWorklist: HttpRequest -> Reply<seq<string>>,
    instance: HttpRequest -> Reply<JsonObject>)

  /** What the functions return: the value, or `{"error": ..., "status_code": ...}` (no status code after an exception). */
  datatype RestOutcome<T> = Success(value: T) | ErrorDict(error: string, statusCode: Option<int>)

  /** The result of a call: its parsed body on 200, else an error dictionary. */
  function FromReply<T>(reply: Reply<T>): (r: RestOutcome<T>)
    ensures r.Success? <==> reply.Response? && reply.statusCode == 200
    ensures r.Success? ==> r.value == reply.body
    ensures r.ErrorDict? && reply.Response? ==> r == ErrorDict(reply.text, Some(reply.statusCode))
    ensures reply.Raised? ==> r == ErrorDict(reply.message, None)
  {
    match reply
    case Raised(m) => ErrorDict(m, None)
    case Response(code, body, text) => if code == 200 then Success(body) else ErrorDict(text, Some(code))
  }

  function UploadUrl(orthancUrl: string): string {
    orthancUrl + "/instances"
  }

  function FindUrl(orthancUrl: string, modalityName: string): string {
    orthancUrl + "/modalities/" + modalityName + "/find-worklist"
  }

  function InstanceUrl(orthancUrl: string, id: string): string {
    orthancUrl + "/instances/" + id
  }

  // ---------------------------------------------------------------------------
  // upload_worklist_to_orthanc

  /** The request `upload_worklist_to_orthanc` sends: the dataset in explicit VR little endian. */
  function UploadRequest(ds: DataSet, orthancUrl: string, username: Option<string>, password: Option<string>): HttpRequest {
    HttpPost(UploadUrl(orthancUrl), DicomPayload(ds, true, false), AuthFor(username, password))
  }

  /**
   * `upload_worklist_to_orthanc`: post the dataset to `/instances`; the server's
   * JSON on 200, otherwise an error dictionary. `modality_name` is unused.
   */
  function UploadWorklistToOrthanc(ds: DataSet, orthancUrl: string, username: Option<string>,
                                   password: Option<string>, server: Orthanc): (r: RestOutcome<JsonObject>)
    ensures var reply := server.upload(UploadRequest(ds, orthancUrl, username, password));
      && (r.Success? <==> reply.Response? && reply.statusCode == 200)
      && (r.Success? ==> r.value == reply.body)
      && (reply.Response? && reply.statusCode != 200 ==> r == ErrorDict(reply.text, Some(reply.statusCode)))
      && (reply.Raised? ==> r == ErrorDict(reply.message, None))
  {
    FromReply(server.upload(UploadRequest(ds, orthancUrl, username, password)))
  }

  /** The upload sends the dataset itself, as explicit VR little endian, with credentials exactly when both are given. */
  lemma UploadSends(ds: DataSet, orthancUrl: string, username: Option<string>, password: Option<string>)
    ensures var rq := UploadRequest(ds, orthancUrl, username, password);
      && rq.HttpPost? && rq.body.DicomPayload?
      && rq.body.ds == ds && rq.body.littleEndian && !rq.body.implicitVr
      && rq.url == orthancUrl + "/instances"
      && (rq.auth.Some? <==> Present(username) && Present(password))
  {
  }

  // ---------------------------------------------------------------------------
  // get_worklists_by_date_range

  /** The query of `get_worklists_by_date_range`: level `WorkList`, one step with the range `start-end`, five universal keys. */
  function RangeQuery(startDate: string, endDate: string): RestQuery {
    RestQuery("WorkList", SequenceQuery([StepQuery(startDate + "-" + endDate)]), "", "", "", "", "")
  }

  /** The items of the query's step sequence as matching keys. */
  function StepKeys(steps: seq<StepQuery>): (items: seq<DataSet>)
    ensures |items| == |steps|
    ensures forall i | 0 <= i < |steps| ::
      items[i] == DataSet(map[ScheduledProcedureStepStartDate := Str(steps[i].scheduledProcedureStepStartDate)], map[])
  {
    if steps == [] then []
    else [DataSet(map[ScheduledProcedureStepStartDate := Str(steps[0].scheduledProcedureStepStartDate)], map[])]
         + StepKeys(steps[1..])
  }

  /**
   * The C-FIND identifier a REST query stands for: each key as the attribute of
   * the same keyword. The members of the sequence key's `Sequence` list are
   * read as the items of a sequence attribute; this reading is the server's,
   * and the model takes it as given.
   */
  function QueryIdentifier(q: RestQuery): DataSet {
    var ds := Put(Empty, PatientName, Str(q.patientName));
    var ds := Put(ds, PatientID, Str(q.patientId));
    var ds := Put(ds, AccessionNumber, Str(q.accessionNumber));
    var ds := Put(ds, RequestedProcedureDescription, Str(q.requestedProcedureDescription));
    var ds := Put(ds, StudyInstanceUID, Str(q.studyInstanceUid));
    Put(ds, ScheduledProcedureStepSequence, Items(StepKeys(q.scheduledProcedureStepSequence.sequence)))
  }

  /** The item key of the range query: only the start date `start-end`. */
  function RangeItem(startDate: string, endDate: string): DataSet {
    DataSet(map[ScheduledProcedureStepStartDate := Str(startDate + "-" + endDate)], map[])
  }

  /** The range query reduces to its sequence key; its five other keys are universal. */
  lemma RangeQueryKeys(startDate: string, endDate: string, d: DataSet)
    ensures QueryMatches(QueryIdentifier(RangeQuery(startDate, endDate)), d) <==>
      KeyMatches(ScheduledProcedureStepSequence, Items([RangeItem(startDate, endDate)]),
                 Get(d, ScheduledProcedureStepSequence))
  {
    var q := QueryIdentifier(RangeQuery(startDate, endDate));
    assert StepKeys(RangeQuery(startDate, endDate).scheduledProcedureStepSequence.sequence) ==
      [RangeItem(startDate, endDate)];
    assert Universal("");
    assert q.elements == map[PatientName := Str(""), PatientID := Str(""), AccessionNumber := Str(""),
                             RequestedProcedureDescription := Str(""), StudyInstanceUID := Str(""),
                             ScheduledProcedureStepSequence := Items([RangeItem(startDate, endDate)])];
  }

  /**
   * With both dates given, the REST range query selects exactly the items the
   * C-FIND query of `get_worklist(start_date, end_date)` selects: its other
   * keys are universal in both.
   */
  lemma {:induction false} RangeQueryAsGetWorklist(startDate: string, endDate: string, d: DataSet)
    requires startDate != "" && endDate != ""
    ensures QueryMatches(QueryIdentifier(RangeQuery(startDate, endDate)), d) <==>
      QueryMatches(DefaultQuery(None, Some(startDate), Some(endDate), None), d)
  {
    var item := RangeItem(startDate, endDate);
    RangeQueryKeys(startDate, endDate, d);
    DefaultQueryKeys(None, Some(startDate), Some(endDate), None, d);
    assert Universal("*");
    SequenceKeyMatches(item, d);
    SequenceKeyMatches(SpsKeys(Some(startDate), Some(endDate), None), d);
    forall i | 0 <= i < |Sps(d)|
      ensures QueryMatches(item, Sps(d)[i]) <==> QueryMatches(SpsKeys(Some(startDate), Some(endDate), None), Sps(d)[i])
    {
      RangeItemAsSpsKeys(startDate, endDate, Sps(d)[i]);
    }
  }

  /** The range item matches the same steps as the item key of `get_worklist`, whose other keys are universal. */
  lemma RangeItemAsSpsKeys(startDate: string, endDate: string, x: DataSet)
    requires startDate != "" && endDate != ""
    ensures QueryMatches(RangeItem(startDate, endDate), x) <==>
      QueryMatches(SpsKeys(Some(startDate), Some(endDate), None), x)
  {
    SpsKeysMatch(Some(startDate), Some(endDate), None, x);
    assert Universal("");
  }

  /** With dates without `-`, the range query selects the items with a step starting between the two dates. */
  lemma RangeQuerySelects(startDate: string, endDate: string, d: DataSet)
    requires startDate != "" && endDate != "" && '-' !in startDate
    ensures QueryMatches(QueryIdentifier(RangeQuery(startDate, endDate)), d) <==>
      exists i | 0 <= i < |Sps(d)| ::
        RangeMatches(Between(startDate, endDate), Get(Sps(d)[i], ScheduledProcedureStepStartDate))
  {
    RangeQueryAsGetWorklist(startDate, endDate, d);
    DateRangeQueryMatches(startDate, endDate, d);
  }

  /** The simplified item: the identifier and seven fields of the instance's JSON, each `""` when missing. */
  datatype Simplified = Simplified(id: string, patientName: string, patientId: string, accessionNumber: string,
                                   scheduledDate: string, scheduledTime: string, modality: string,
                                   description: string)

  /** `instance_data.get(key, "")`. */
  function Field(data: JsonObject, key: string): (v: string)
    ensures key in data ==> v == data[key]
    ensures key !in data ==> v == ""
  {
    if key in data then data[key] else ""
  }

  function Simplify(id: string, data: JsonObject): Simplified {
    Simplified(id, Field(data, "PatientName"), Field(data, "PatientID"), Field(data, "AccessionNumber"),
               Field(data, "ScheduledProcedureStepStartDate"), Field(data, "ScheduledProcedureStepStartTime"),
               Field(data, "Modality"), Field(data, "RequestedProcedureDescription"))
  }

  /** The answer to the lookup of one instance. */
  type Fetch = string -> Reply<JsonObject>

  /** `Some(prefix + r)`-like gluing of the items collected so far onto the rest of the loop's result. */
  function Prefixed(prefix: seq<Simplified>, r: RestOutcome<seq<Simplified>>): RestOutcome<seq<Simplified>> {
    match r
    case Success(rest) => Success(prefix + rest)
    case ErrorDict(e, c) => ErrorDict(e, c)
  }

  /**
   * The loop over the identifiers Orthanc returned: a lookup that raises ends
   * the call with its message; a lookup answered 200 gives one simplified item;
   * any other status skips the identifier.
   */
  function Collected(fetch: Fetch, ids: seq<string>): RestOutcome<seq<Simplified>> {
    if ids == [] then Success([])
    else
      match fetch(ids[0])
      case Raised(m) => ErrorDict(m, None)
      case Response(code, data, _) =>
        Prefixed(if code == 200 then [Simplify(ids[0], data)] else [], Collected(fetch, ids[1..]))
  }

  /** A lookup answered 200. */
  predicate Fetched(fetch: Fetch, id: string) {
    fetch(id).Response? && fetch(id).statusCode == 200
  }

  /** The loop succeeds exactly when no lookup raises. */
  lemma {:induction false} CollectedSucceeds(fetch: Fetch, ids: seq<string>)
    ensures Collected(fetch, ids).Success? <==> forall i | 0 <= i < |ids| :: fetch(ids[i]).Response?
  {
    if ids != [] {
      CollectedSucceeds(fetch, ids[1..]);
      assert forall i | 1 <= i < |ids| :: ids[1..][i - 1] == ids[i];
    }
  }

  /** At most one item per identifier. */
  lemma {:induction false} CollectedLength(fetch: Fetch, ids: seq<string>)
    requires Collected(fetch, ids).Success?
    ensures |Collected(fetch, ids).value| <= |ids|
  {
    if ids != [] {
      CollectedLength(fetch, ids[1..]);
    }
  }

  /** Collecting over two lists of identifiers is collecting over each, in order. */
  lemma {:induction false} CollectedAppend(fetch: Fetch, s: seq<string>, t: seq<string>)
    requires Collected(fetch, s).Success?
    ensures Collected(fetch, s + t) == Prefixed(Collected(fetch, s).value, Collected(fetch, t))
  {
    if s == [] {
      assert s + t == t;
      match Collected(fetch, t)
      case Success(r) => assert [] + r == r;
      case ErrorDict(_, _) =>
    } else {
      assert (s + t)[0] == s[0];
      assert (s + t)[1..] == s[1..] + t;
      CollectedAppend(fetch, s[1..], t);
      var head := if Fetched(fetch, s[0]) then [Simplify(s[0], fetch(s[0]).body)] else [];
      match Collected(fetch, t)
      case Success(r) =>
        assert head + (Collected(fetch, s[1..]).value + r) == (head + Collected(fetch, s[1..]).value) + r;
      case ErrorDict(_, _) =>
    }
  }

  /** An item is collected for every identifier answered 200, and only for those. */
  lemma {:induction false} CollectedMembers(fetch: Fetch, ids: seq<string>, x: Simplified)
    requires Collected(fetch, ids).Success?
    ensures x in Collected(fetch, ids).value <==>
      exists i | 0 <= i < |ids| :: Fetched(fetch, ids[i]) && x == Simplify(ids[i], fetch(ids[i]).body)
  {
    if ids != [] {
      CollectedMembers(fetch, ids[1..], x);
      var rest := Collected(fetch, ids[1..]).value;
      if exists i | 1 <= i < |ids| :: Fetched(fetch, ids[i]) && x == Simplify(ids[i], fetch(ids[i]).body) {
        var i :| 1 <= i < |ids| && Fetched(fetch, ids[i]) && x == Simplify(ids[i], fetch(ids[i]).body);
        assert ids[1..][i - 1] == ids[i];
      }
      if x in rest {
        var i :| 0 <= i < |ids[1..]| && Fetched(fetch, ids[1..][i]) && x == Simplify(ids[1..][i], fetch(ids[1..][i]).body);
        assert ids[1..][i] == ids[i + 1];
      }
    }
  }

  /** When every lookup is answered 200, item `i` is the simplified instance of identifier `i`. */
  lemma {:induction false} CollectedAllFetched(fetch: Fetch, ids: seq<string>)
    requires forall i | 0 <= i < |ids| :: fetch(ids[i]).Response? && fetch(ids[i]).statusCode == 200
    ensures Collected(fetch, ids).Success?
    ensures |Collected(fetch, ids).value| == |ids|
    ensures forall i | 0 <= i < |ids| :: Collected(fetch, ids).value[i] == Simplify(ids[i], fetch(ids[i]).body)
  {
    if ids != [] {
      assert forall i | 1 <= i < |ids| :: ids[1..][i - 1] == ids[i];
      CollectedAllFetched(fetch, ids[1..]);
    }
  }

  /** The lookups of the server with the given base URL and credentials. */
  function Lookups(server: Orthanc, orthancUrl: string, auth: Option<(string, string)>): Fetch {
    id => server.instance(HttpGet(InstanceUrl(orthancUrl, id), auth))
  }

  /** The request of `get_worklists_by_date_range`. */
  function FindRequest(startDate: string, endDate: string, orthancUrl: string, username: Option<string>,
                       password: Option<string>, modalityName: string): HttpRequest {
    HttpPost(FindUrl(orthancUrl, modalityName), JsonQuery(RangeQuery(startDate, endDate)), AuthFor(username, password))
  }

  /**
   * `get_worklists_by_date_range`: post the range query; on 200 look up each
   * returned identifier in order and keep the simplified items of the lookups
   * answered 200; another status or an exception gives an error dictionary.
   */
  method GetWorklistsByDateRange(startDate: string, endDate: string, orthancUrl: string,
                                 username: Option<string>, password: Option<string>, modalityName: string,
                                 server: Orthanc)
    returns (r: RestOutcome<seq<Simplified>>, sent: seq<HttpRequest>)
    ensures |sent| >= 1 && sent[0] == FindRequest(startDate, endDate, orthancUrl, username, password, modalityName)
    ensures var reply := server.findWorklist(sent[0]);
      && (reply.Raised? ==> r == ErrorDict(reply.message, None) && |sent| == 1)
      && (reply.Response? && reply.statusCode != 200 ==>
            r == ErrorDict(reply.text, Some(reply.statusCode)) && |sent| == 1)
      && (reply.Response? && reply.statusCode == 200 ==>
            && r == Collected(Lookups(server, orthancUrl, AuthFor(username, password)), reply.body)
            && |sent| <= 1 + |reply.body|
            && (r.Success? ==> |sent| == 1 + |reply.body|)
            && forall k | 1 <= k < |sent| ::
                 sent[k] == HttpGet(InstanceUrl(orthancUrl, reply.body[k - 1]), AuthFor(username, password)))
  {
    var auth := AuthFor(username, password);
    var request := FindRequest(startDate, endDate, orthancUrl, username, password, modalityName);
    sent := [request];
    var reply := server.findWorklist(request);
    if reply.Raised? {
      return ErrorDict(reply.message, None), sent;
    }
    if reply.statusCode != 200 {
      return ErrorDict(reply.text, Some(reply.statusCode)), sent;
    }
    var results := reply.body;
    var fetch := Lookups(server, orthancUrl, auth);
    var worklists := [];
    assert results[0..] == results;
    PrefixedAssoc([], [], Collected(fetch, results));
    for i := 0 to |results|
      invariant |sent| == 1 + i && sent[0] == request
      invariant forall k | 1 <= k < |sent| :: sent[k] == HttpGet(InstanceUrl(orthancUrl, results[k - 1]), auth)
      invariant Collected(fetch, results) == Prefixed(worklists, Collected(fetch, results[i..]))
    {
      CollectedStep(fetch, results, i);
      var instanceRequest := HttpGet(InstanceUrl(orthancUrl, results[i]), auth);
      sent := sent + [instanceRequest];
      var instanceReply := server.instance(instanceRequest);
      assert fetch(results[i]) == instanceReply;
      if instanceReply.Raised? {
        return ErrorDict(instanceReply.message, None), sent;
      }
      var added := if instanceReply.statusCode == 200 then [Simplify(results[i], instanceReply.body)] else [];
      PrefixedAssoc(worklists, added, Collected(fetch, results[i + 1..]));
      worklists := worklists + added;
    }
    assert results[|results|..] == [];
    assert worklists + [] == worklists;
    r := Success(worklists);
  }

  /** One pass of the loop: the lookup of identifier `i` ends the call or contributes its item, if any. */
  lemma CollectedStep(fetch: Fetch, ids: seq<string>, i: nat)
    requires i < |ids|
    ensures Collected(fetch, ids[i..]) ==
      match fetch(ids[i])
      case Raised(m) => ErrorDict(m, None)
      case Response(code, data, _) =>
        Prefixed(if code == 200 then [Simplify(ids[i], data)] else [], Collected(fetch, ids[i + 1..]))
  {
    assert ids[i..][1..] == ids[i + 1..];
  }

  lemma PrefixedAssoc(a: seq<Simplified>, b: seq<Simplified>, r: RestOutcome<seq<Simplified>>)
    ensures Prefixed(a, Prefixed(b, r)) == Prefixed(a + b, r)
    ensures Prefixed([], r) == r
  {
    if r.Success? {
      assert a + (b + r.value) == (a + b) + r.value;
      assert [] + r.value == r.value;
    }
  }

  // ---------------------------------------------------------------------------
  // get_worklist_details

  /** `get_worklist_details`: the instance's JSON on 200, otherwise an error dictionary. */
  function GetWorklistDetails(id: string, orthancUrl: string, username: Option<string>, password: Option<string>,
                              server: Orthanc): (r: RestOutcome<JsonObject>)
    ensures var reply := server.instance(HttpGet(InstanceUrl(orthancUrl, id), AuthFor(username, password)));
      && (r.Success? <==> reply.Response? && reply.statusCode == 200)
      && (r.Success? ==> r.value == reply.body)
      && (reply.Response? && reply.statusCode != 200 ==> r == ErrorDict(reply.text, Some(reply.statusCode)))
      && (reply.Raised? ==> r == ErrorDict(reply.message, None))
  {
    FromReply(server.instance(HttpGet(InstanceUrl(orthancUrl, id), AuthFor(username, password))))
  }
}
