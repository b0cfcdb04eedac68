/**
 * The Orthanc worklist command line (worklist_cli.py). The `create`, `list`,
 * `get` and `batch` handlers call the REST client of worklist.py
 * (`OrthancRest`) and reduce its results to a success flag; `main` turns that
 * flag into the exit code. Printing the results is left out.
 */
module WorklistCli {
  import opened Wrappers
  import opened TextUtil
  import opened DataSets
  import opened Uids
  import opened OrthancRest
  import WorklistManager

  /** The options every command shares, with argparse's defaults. */
  datatype Common = Common(
    orthancUrl: string := "http://localhost:8042",
    username: Option<string> := None,
    password: Option<string> := None,
    modality: string := "orthanc")

  /** The clock readings `create` falls back on: tomorrow's date and the current time. */
  datatype Now = Now(tomorrowDate: string, time: string)

  /** `create`'s options: `None` for an option not given. */
  datatype CreateArgs = CreateArgs(
    patientName: string,
    patientId: string,
    accession: string,
    date: Option<string> := None,
    time: Option<string> := None,
    modalityType: string := "US",
    description: string := "Ultrasound",
    station: string := "STATION1",
    physician: Option<string> := None,
    birthDate: Option<string> := None,
    sex: Option<string> := None,
    alerts: Option<string> := None,
    allergies: Option<string> := None)

  /** `list`'s options. */
  datatype ListArgs = ListArgs(startDate: string, endDate: string)

  /** What reading the batch file gives: a failure, JSON that is not a list, or the list's entries. */
  datatype BatchInput = ReadFailed | NotAList | ItemList(items: seq<WorklistManager.JsonEntry>)

  /** The command chosen on the command line. */
  datatype Command =
    | Create(create: CreateArgs)
    | List(list: ListArgs)
    | Get(id: string)
    | Batch(input: BatchInput)
    | NoCommand

  /** `x if x else default` for an option that may be absent. */
  function OrDefault(x: Option<string>, default: string): string {
    if Present(x) then x.value else default
  }

  /** `"error" in result` on a dictionary result: an error dictionary, or a server answer with an "error" key. */
  predicate HasError(r: RestOutcome<JsonObject>) {
    r.ErrorDict? || "error" in r.value
  }

  /**
   * The server answered 200 with a body without an "error" key: the condition
   * under which a dictionary result has no error.
   */
  predicate CleanReply(reply: Reply<JsonObject>) {
    reply.Response? && reply.statusCode == 200 && "error" !in reply.body
  }

  // ---------------------------------------------------------------------------
  // create

  /** The arguments `create` passes to `create_worklist_item`. */
  function CreateRequest(args: CreateArgs, now: Now): RestItemRequest {
    RestItemRequest(args.patientName, args.patientId, args.accession,
                    OrDefault(args.date, now.tomorrowDate), OrDefault(args.time, now.time),
                    args.modalityType, args.description, args.station,
                    OrDefault(args.physician, ""), OrDefault(args.birthDate, ""), OrDefault(args.sex, ""),
                    OrDefault(args.alerts, ""), OrDefault(args.allergies, ""))
  }

  /**
   * An empty or missing date or time falls back on the clock; an optional
   * option not given is passed as `""`, so the created item lacks exactly the
   * optional attributes whose options are missing or empty.
   */
  lemma CreateRequestDefaults(args: CreateArgs, now: Now, gen: UidGen)
    ensures var rq := CreateRequest(args, now);
      && rq.startDate == (if Present(args.date) then args.date.value else now.tomorrowDate)
      && rq.startTime == (if Present(args.time) then args.time.value else now.time)
      && rq.referringPhysician == args.physician.GetOr("")
      && rq.birthDate == args.birthDate.GetOr("")
      && rq.sex == args.sex.GetOr("")
      && rq.medicalAlerts == args.alerts.GetOr("")
      && rq.contrastAllergies == args.allergies.GetOr("")
    ensures var ds := CreateWorklistItem(CreateRequest(args, now), gen).ds;
      && (Has(ds, ReferringPhysicianName) <==> Present(args.physician))
      && (Has(ds, PatientBirthDate) <==> Present(args.birthDate))
      && (Has(ds, PatientSex) <==> Present(args.sex))
      && (Has(ds, MedicalAlerts) <==> Present(args.alerts))
      && (Has(ds, ContrastAllergies) <==> Present(args.allergies))
  {
    CreatedContents(CreateRequest(args, now), gen);
  }

  /** What `create` reports as success: the upload's result has no "error" key. */
  predicate CreateSucceeds(common: Common, args: CreateArgs, now: Now, gen: UidGen, server: Orthanc) {
    !HasError(UploadWorklistToOrthanc(CreateWorklistItem(CreateRequest(args, now), gen).ds,
                                      common.orthancUrl, common.username, common.password, server))
  }

  /** `create` succeeds exactly when the server answers the upload with 200 and a body without "error". */
  lemma CreateSucceedsIff(common: Common, args: CreateArgs, now: Now, gen: UidGen, server: Orthanc)
    ensures var item := CreateWorklistItem(CreateRequest(args, now), gen).ds;
      CreateSucceeds(common, args, now, gen, server) <==>
      CleanReply(server.upload(UploadRequest(item, common.orthancUrl, common.username, common.password)))
  {
  }

  /** `create_worklist_command`: build the item from the options and the clock, upload it, report the outcome. */
  method CreateWorklistCommand(common: Common, args: CreateArgs, now: Now, gen: UidGen, server: Orthanc)
    returns (ok: bool, item: DataSet)
    ensures item == CreateWorklistItem(CreateRequest(args, now), gen).ds
    ensures ok <==> CreateSucceeds(common, args, now, gen, server)
  {
    var date := args.date;
    if !Present(date) {
      date := Some(now.tomorrowDate);
    }
    var time := args.time;
    if !Present(time) {
      time := Some(now.time);
    }
    var rq := RestItemRequest(args.patientName, args.patientId, args.accession, date.value, time.value,
                              args.modalityType, args.description, args.station,
                              OrDefault(args.physician, ""), OrDefault(args.birthDate, ""),
                              OrDefault(args.sex, ""), OrDefault(args.alerts, ""),
                              OrDefault(args.allergies, ""));
    item := CreateWorklistItem(rq, gen).ds;
    var result := UploadWorklistToOrthanc(item, common.orthancUrl, common.username, common.password, server);
    if HasError(result) {
      return false, item;
    }
    ok := true;
  }

  // ---------------------------------------------------------------------------
  // list

  /** The query `list` posts. */
  function ListRequest(common: Common, args: ListArgs): HttpRequest {
    FindRequest(args.startDate, args.endDate, common.orthancUrl, common.username, common.password, common.modality)
  }

  /**
   * What `list` reports as success: the query is answered 200 and no instance
   * lookup raises. Lookups answered otherwise are skipped, and an empty list
   * is a success.
   */
  predicate ListSucceeds(common: Common, args: ListArgs, server: Orthanc) {
    var reply := server.findWorklist(ListRequest(common, args));
    var fetch := Lookups(server, common.orthancUrl, AuthFor(common.username, common.password));
    && reply.Response? && reply.statusCode == 200
    && forall i | 0 <= i < |reply.body| :: fetch(reply.body[i]).Response?
  }

  /** `list_worklists_command`: false only for an error dictionary. */
  method ListWorklistsCommand(common: Common, args: ListArgs, server: Orthanc)
    returns (ok: bool, worklists: RestOutcome<seq<Simplified>>)
    ensures ok <==> worklists.Success?
    ensures ok <==> ListSucceeds(common, args, server)
  {
    var sent;
    worklists, sent := GetWorklistsByDateRange(args.startDate, args.endDate, common.orthancUrl, common.username,
                                               common.password, common.modality, server);
    // The reply the query above received: the server is a function of the
    // request, so this names that same reply and is not a second request.
    ghost var reply := server.findWorklist(ListRequest(common, args));
    if reply.Response? && reply.statusCode == 200 {
      CollectedSucceeds(Lookups(server, common.orthancUrl, AuthFor(common.username, common.password)), reply.body);
    }
    ok := !worklists.ErrorDict?;
  }

  // ---------------------------------------------------------------------------
  // get

  /** What `get` reports as success: the details have no "error" key. */
  predicate GetSucceeds(common: Common, id: string, server: Orthanc) {
    !HasError(GetWorklistDetails(id, common.orthancUrl, common.username, common.password, server))
  }

  /** `get` succeeds exactly when the lookup is answered 200 with a body without "error". */
  lemma GetSucceedsIff(common: Common, id: string, server: Orthanc)
    ensures GetSucceeds(common, id, server) <==>
      CleanReply(server.instance(HttpGet(InstanceUrl(common.orthancUrl, id), AuthFor(common.username, common.password))))
  {
  }

  /** `get_worklist_command`: false for an error dictionary, including a server answer carrying "error". */
  method GetWorklistCommand(common: Common, id: string, server: Orthanc) returns (ok: bool)
    ensures ok <==> GetSucceeds(common, id, server)
  {
    var details := GetWorklistDetails(id, common.orthancUrl, common.username, common.password, server);
    if HasError(details) {
      return false;
    }
    ok := true;
  }

  // ---------------------------------------------------------------------------
  // batch

  /** The arguments `batch` passes for one entry: `item.get(key, default)` for each. */
  function BatchRequest(item: map<string, string>): RestItemRequest {
    RestItemRequest(
      WorklistManager.Lookup(item, "patient_name", ""),
      WorklistManager.Lookup(item, "patient_id", ""),
      WorklistManager.Lookup(item, "accession_number", ""),
      WorklistManager.Lookup(item, "date", ""),
      WorklistManager.Lookup(item, "time", ""),
      WorklistManager.Lookup(item, "modality", "US"),
      WorklistManager.Lookup(item, "description", "Ultrasound"),
      WorklistManager.Lookup(item, "station", "STATION1"),
      WorklistManager.Lookup(item, "physician", ""),
      WorklistManager.Lookup(item, "birth_date", ""),
      WorklistManager.Lookup(item, "sex", ""),
      WorklistManager.Lookup(item, "alerts", ""),
      WorklistManager.Lookup(item, "allergies", ""))
  }

  /**
   * An entry without a key gets `create_worklist_item`'s own default for it:
   * the empty entry gives the function's defaults, and a key present is passed
   * through.
   */
  lemma BatchDefaults(item: map<string, string>)
    ensures BatchRequest(map[]) == RestItemRequest("", "", "", "", "")
    ensures "modality" in item ==> BatchRequest(item).modality == item["modality"]
    ensures "description" in item ==> BatchRequest(item).description == item["description"]
    ensures "station" in item ==> BatchRequest(item).stationName == item["station"]
    ensures "modality" !in item && "description" !in item && "station" !in item ==>
      && BatchRequest(item).modality == RestItemRequest("", "", "", "", "").modality
      && BatchRequest(item).description == RestItemRequest("", "", "", "", "").description
      && BatchRequest(item).stationName == RestItemRequest("", "", "", "", "").stationName
  {
  }

  /** Building and uploading the item for one entry, with the generator at that point. */
  type Attempt = (map<string, string>, UidGen) -> RestOutcome<JsonObject>

  /** The attempt `batch` makes for an entry. */
  function BatchUpload(common: Common, server: Orthanc): Attempt {
    (item: map<string, string>, g: UidGen) =>
      UploadWorklistToOrthanc(CreateWorklistItem(BatchRequest(item), g).ds,
                              common.orthancUrl, common.username, common.password, server)
  }

  /**
   * The entries uploaded without error. An entry that is not an object makes
   * `item.get` raise before any UID is drawn; the loop catches that and moves
   * on. Each object draws three UIDs.
   */
  function Successes(attempt: Attempt, items: seq<WorklistManager.JsonEntry>, g: UidGen): (n: nat)
    ensures n <= Objects(items)
  {
    if items == [] then 0
    else match items[0]
      case NotObject => Successes(attempt, items[1..], g)
      case Object(fields) =>
        (if HasError(attempt(fields, g)) then 0 else 1) + Successes(attempt, items[1..], g.Skip(3))
  }

  /** The entries that are objects, the ones the loop uploads. */
  function Objects(items: seq<WorklistManager.JsonEntry>): (n: nat)
    ensures n <= |items|
  {
    if items == [] then 0 else (if items[0].Object? then 1 else 0) + Objects(items[1..])
  }

  /** Every entry that is an object and uploads cleanly is counted; with all clean, every object is. */
  lemma {:induction false} SuccessesAllClean(attempt: Attempt, items: seq<WorklistManager.JsonEntry>, g: UidGen)
    requires forall fields: map<string, string>, h: UidGen :: !HasError(attempt(fields, h))
    ensures Successes(attempt, items, g) == Objects(items)
  {
    if items != [] {
      match items[0]
      case NotObject => SuccessesAllClean(attempt, items[1..], g);
      case Object(fields) => SuccessesAllClean(attempt, items[1..], g.Skip(3));
    }
  }

  /**
   * `batch_create_command`: false when the file cannot be read or is not a
   * list, with nothing uploaded; otherwise one upload per object entry, a
   * count of those without error, and true whatever the count.
   */
  method BatchCreateCommand(common: Common, input: BatchInput, gen: UidGen, server: Orthanc)
    returns (ok: bool, successCount: nat, attempted: nat)
    ensures ok <==> input.ItemList?
    ensures !input.ItemList? ==> successCount == 0 && attempted == 0
    ensures input.ItemList? ==>
      && successCount == Successes(BatchUpload(common, server), input.items, gen)
      && attempted == Objects(input.items)
    ensures successCount <= attempted
  {
    if !input.ItemList? {
      return false, 0, 0;
    }
    var items := input.items;
    var attempt := BatchUpload(common, server);
    var g := gen;
    var i := 0;
    successCount, attempted := 0, 0;
    assert items[0..] == items;
    while i < |items|
      invariant 0 <= i <= |items|
      invariant Successes(attempt, items, gen) == successCount + Successes(attempt, items[i..], g)
      invariant Objects(items) == attempted + Objects(items[i..])
    {
      assert items[i..][1..] == items[i + 1..];
      match items[i] {
        case NotObject =>
        case Object(fields) =>
          var worklist := CreateWorklistItem(BatchRequest(fields), g).ds;
          var result := UploadWorklistToOrthanc(worklist, common.orthancUrl, common.username, common.password,
                                                server);
          assert result == attempt(fields, g);
          attempted := attempted + 1;
          if !HasError(result) {
            successCount := successCount + 1;
          }
          g := g.Skip(3);
      }
      i := i + 1;
    }
    ok := true;
  }

  // ---------------------------------------------------------------------------
  // main

  /**
   * `main`: the chosen handler's flag as exit code, 0 for true and 1 for
   * false; no command prints the help and exits with 1.
   */
  method Run(common: Common, command: Command, now: Now, gen: UidGen, server: Orthanc) returns (code: int)
    ensures code == 0 || code == 1
    ensures command.NoCommand? ==> code == 1
    ensures command.Create? ==> (code == 0 <==> CreateSucceeds(common, command.create, now, gen, server))
    ensures command.List? ==> (code == 0 <==> ListSucceeds(common, command.list, server))
    ensures command.Get? ==> (code == 0 <==> GetSucceeds(common, command.id, server))
    ensures command.Batch? ==> (code == 0 <==> command.input.ItemList?)
  {
    var success;
    match command {
      case Create(args) =>
        var item;
        success, item := CreateWorklistCommand(common, args, now, gen, server);
      case List(args) =>
        var worklists;
        success, worklists := ListWorklistsCommand(common, args, server);
      case Get(id) =>
        success := GetWorklistCommand(common, id, server);
      case Batch(input) =>
        var count, attempted;
        success, count, attempted := BatchCreateCommand(common, input, gen, server);
      case NoCommand =>
        return 1;
    }
    code := if success then 0 else 1;
  }
}
