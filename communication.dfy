/**
 * The C-ECHO and C-FIND client operations (tools/dicom_communication.py): the
 * default Modality Worklist query template, the collection of C-FIND responses,
 * and the association sequence around each operation.
 */
module DicomCommunication {
  import opened Wrappers
  import opened TextUtil
  import opened DataSets
  import opened FileFormat
  import opened Association
  import opened Matching

  /** The calling AE title the functions default to. */
  const DefaultLocalAe := "MERCURE"

  /** The items of the Scheduled Procedure Step Sequence. */
  function Sps(ds: DataSet): seq<DataSet> {
    ItemsOf(ds, ScheduledProcedureStepSequence)
  }

  /** The date key: `start-end` when both are given, `start` alone when only it is, else universal. */
  function DateKey(startDate: Option<string>, endDate: Option<string>): string {
    if Present(startDate) && Present(endDate) then startDate.value + "-" + endDate.value
    else if Present(startDate) then startDate.value
    else ""
  }

  /** The modality key: the modality when one is given, else universal. */
  function ModalityKey(modality: Option<string>): string {
    if Present(modality) then modality.value else ""
  }

  /**
   * The Scheduled Procedure Step item of the default query: the date key, a
   * universal start time and the modality key, and nothing else.
   */
  function SpsKeys(startDate: Option<string>, endDate: Option<string>, modality: Option<string>): (sps: DataSet)
    ensures sps == DataSet(map[ScheduledProcedureStepStartDate := Str(DateKey(startDate, endDate)),
                               ScheduledProcedureStepStartTime := Str(""),
                               Modality := Str(ModalityKey(modality))], map[])
    ensures Present(startDate) && Present(endDate) ==>
      Get(sps, ScheduledProcedureStepStartDate) == Some(Str(startDate.value + "-" + endDate.value))
    ensures Present(startDate) && !Present(endDate) ==>
      Get(sps, ScheduledProcedureStepStartDate) == Some(Str(startDate.value))
    ensures !Present(startDate) ==> Get(sps, ScheduledProcedureStepStartDate) == Some(Str(""))
  {
    var sps := Put(Empty, ScheduledProcedureStepStartDate, Str(DateKey(startDate, endDate)));
    var sps := Put(sps, ScheduledProcedureStepStartTime, Str(""));
    Put(sps, Modality, Str(ModalityKey(modality)))
  }

  /** The patient name key: `*` (match any) when no name is given, the given name verbatim otherwise. */
  function NameKey(patientName: Option<string>): string {
    if patientName.None? then "*" else patientName.value
  }

  /**
   * The C-FIND identifier `get_worklist` builds: the WORKLIST level, the patient
   * name key, four universal return keys and a sequence of exactly one
   * Scheduled Procedure Step item; Modality is only inside the item.
   */
  function DefaultQuery(patientName: Option<string>, startDate: Option<string>,
                        endDate: Option<string>, modality: Option<string>): (q: DataSet)
    ensures q == DataSet(map[QueryRetrieveLevel := Str("WORKLIST"),
                             PatientName := Str(NameKey(patientName)),
                             PatientID := Str(""),
                             AccessionNumber := Str(""),
                             RequestedProcedureDescription := Str(""),
                             StudyInstanceUID := Str(""),
                             ScheduledProcedureStepSequence := Items([SpsKeys(startDate, endDate, modality)])],
                         map[])
    ensures !Has(q, Modality)
    ensures |Sps(q)| == 1
  {
    var q := Put(Empty, QueryRetrieveLevel, Str("WORKLIST"));
    var q := Put(q, PatientName, Str(NameKey(patientName)));
    var q := Put(q, PatientID, Str(""));
    var q := Put(q, AccessionNumber, Str(""));
    var q := Put(q, RequestedProcedureDescription, Str(""));
    var q := Put(q, StudyInstanceUID, Str(""));
    Put(q, ScheduledProcedureStepSequence, Items([SpsKeys(startDate, endDate, modality)]))
  }

  /** An end date without a start date is ignored. */
  lemma EndDateAloneIgnored(patientName: Option<string>, startDate: Option<string>,
                            endDate: Option<string>, modality: Option<string>)
    requires !Present(startDate)
    ensures DefaultQuery(patientName, startDate, endDate, modality) == DefaultQuery(patientName, None, None, modality)
  {
  }

  /** The default query reduces to its patient name key and its sequence key; the rest match universally. */
  lemma DefaultQueryKeys(patientName: Option<string>, startDate: Option<string>,
                         endDate: Option<string>, modality: Option<string>, d: DataSet)
    ensures QueryMatches(DefaultQuery(patientName, startDate, endDate, modality), d) <==>
      && KeyMatches(PatientName, Str(NameKey(patientName)), Get(d, PatientName))
      && KeyMatches(ScheduledProcedureStepSequence, Items([SpsKeys(startDate, endDate, modality)]),
                    Get(d, ScheduledProcedureStepSequence))
  {
    var q := DefaultQuery(patientName, startDate, endDate, modality);
    assert Universal("");
    assert forall t | t in q.elements && t !in {PatientName, ScheduledProcedureStepSequence} ::
      Control(t) || q.elements[t] == Str("");
  }

  /** A one-item sequence key matches when some item of the candidate's sequence matches the item. */
  lemma SequenceKeyMatches(item: DataSet, d: DataSet)
    ensures KeyMatches(ScheduledProcedureStepSequence, Items([item]), Get(d, ScheduledProcedureStepSequence)) <==>
      exists i | 0 <= i < |Sps(d)| :: QueryMatches(item, Sps(d)[i])
  {
    var c := Get(d, ScheduledProcedureStepSequence);
    assert [item][0] == item;
    if c.Some? && c.value.Items? {
      assert Sps(d) == c.value.items;
    }
  }

  /** The item key reduces to its start date key and its modality key. */
  lemma SpsKeysMatch(startDate: Option<string>, endDate: Option<string>, modality: Option<string>, x: DataSet)
    ensures QueryMatches(SpsKeys(startDate, endDate, modality), x) <==>
      && KeyMatches(ScheduledProcedureStepStartDate, Str(DateKey(startDate, endDate)),
                    Get(x, ScheduledProcedureStepStartDate))
      && KeyMatches(Modality, Str(ModalityKey(modality)), Get(x, Modality))
  {
    assert Universal("");
  }

  /** The item of the unfiltered query matches every item. */
  lemma UnfilteredItemMatches(x: DataSet)
    ensures QueryMatches(SpsKeys(None, None, None), x)
  {
    SpsKeysMatch(None, None, None, x);
    assert Universal("");
  }

  /** The item of a date-range query matches exactly the items whose start date lies in the range. */
  lemma DateRangeItemMatches(start: string, end: string, x: DataSet)
    requires start != "" && end != "" && '-' !in start
    ensures QueryMatches(SpsKeys(Some(start), Some(end), None), x) <==>
      RangeMatches(Between(start, end), Get(x, ScheduledProcedureStepStartDate))
  {
    SpsKeysMatch(Some(start), Some(end), None, x);
    DateKeyRange(start, end, Get(x, ScheduledProcedureStepStartDate));
    assert Universal("");
  }

  /** The joined key `start-end` on the start date is a range key. */
  lemma DateKeyRange(start: string, end: string, cand: Option<Value>)
    requires start != "" && end != "" && '-' !in start
    ensures KeyMatches(ScheduledProcedureStepStartDate, Str(start + "-" + end), cand) <==>
      RangeMatches(Between(start, end), cand)
  {
    ParseRangeJoin(start, end);
    var key := start + "-" + end;
    assert key[|start|] == '-';
  }

  /** The item of a modality query matches exactly the items on that modality. */
  lemma ModalityItemMatches(modality: string, x: DataSet)
    requires modality != "" && !HasWildcard(modality)
    ensures QueryMatches(SpsKeys(None, None, Some(modality)), x) <==>
      Get(x, Modality) == Some(Str(modality))
  {
    SpsKeysMatch(None, None, Some(modality), x);
    assert modality[0] != '*';
    assert Universal("");
    var cand := Get(x, Modality);
    if cand.Some? && cand.value.Str? {
      LiteralMatch(modality, cand.value.s);
    }
  }

  /** With no filters the default query matches every item with a scheduled procedure step. */
  lemma {:induction false} UnfilteredQueryMatchesAll(d: DataSet)
    ensures QueryMatches(DefaultQuery(None, None, None, None), d) <==> |Sps(d)| > 0
  {
    DefaultQueryKeys(None, None, None, None, d);
    SequenceKeyMatches(SpsKeys(None, None, None), d);
    assert Universal("*");
    if |Sps(d)| > 0 {
      UnfilteredItemMatches(Sps(d)[0]);
    }
  }

  /**
   * A query for dates `start` to `end` (dates without `-`) matches exactly the
   * items with a scheduled step whose start date lies in that range.
   */
  lemma {:induction false} DateRangeQueryMatches(start: string, end: string, d: DataSet)
    requires start != "" && end != "" && '-' !in start
    ensures QueryMatches(DefaultQuery(None, Some(start), Some(end), None), d) <==>
      exists i | 0 <= i < |Sps(d)| :: RangeMatches(Between(start, end), Get(Sps(d)[i], ScheduledProcedureStepStartDate))
  {
    DefaultQueryKeys(None, Some(start), Some(end), None, d);
    SequenceKeyMatches(SpsKeys(Some(start), Some(end), None), d);
    assert Universal("*");
    forall i | 0 <= i < |Sps(d)|
      ensures QueryMatches(SpsKeys(Some(start), Some(end), None), Sps(d)[i]) <==>
        RangeMatches(Between(start, end), Get(Sps(d)[i], ScheduledProcedureStepStartDate))
    {
      DateRangeItemMatches(start, end, Sps(d)[i]);
    }
  }

  /** A query for one modality (no wildcards) matches exactly the items with a step on that modality. */
  lemma {:induction false} ModalityQueryMatches(modality: string, d: DataSet)
    requires modality != "" && !HasWildcard(modality)
    ensures QueryMatches(DefaultQuery(None, None, None, Some(modality)), d) <==>
      exists i | 0 <= i < |Sps(d)| :: Get(Sps(d)[i], Modality) == Some(Str(modality))
  {
    DefaultQueryKeys(None, None, None, Some(modality), d);
    SequenceKeyMatches(SpsKeys(None, None, Some(modality)), d);
    assert Universal("*");
    forall i | 0 <= i < |Sps(d)|
      ensures QueryMatches(SpsKeys(None, None, Some(modality)), Sps(d)[i]) <==>
        Get(Sps(d)[i], Modality) == Some(Str(modality))
    {
      ModalityItemMatches(modality, Sps(d)[i]);
    }
  }

  /** A query for one patient name (no wildcards) matches exactly that patient's scheduled items. */
  lemma {:induction false} PatientQueryMatches(name: string, d: DataSet)
    requires name != "" && !HasWildcard(name)
    ensures QueryMatches(DefaultQuery(Some(name), None, None, None), d) <==>
      Get(d, PatientName) == Some(Str(name)) && |Sps(d)| > 0
  {
    DefaultQueryKeys(Some(name), None, None, None, d);
    SequenceKeyMatches(SpsKeys(None, None, None), d);
    assert name[0] != '*';
    var cand := Get(d, PatientName);
    if cand.Some? && cand.value.Str? {
      LiteralMatch(name, cand.value.s);
    }
    if |Sps(d)| > 0 {
      UnfilteredItemMatches(Sps(d)[0]);
    }
  }

  /** The query `get_worklist_dataset` sends: the caller's dataset unchanged, else the default. */
  function QueryFor(dataset: Option<DataSet>, patientName: Option<string>, startDate: Option<string>,
                    endDate: Option<string>, modality: Option<string>): (q: DataSet)
    ensures dataset.Some? ==> q == dataset.value
    ensures dataset.None? ==> q == DefaultQuery(patientName, startDate, endDate, modality)
  {
    if dataset.Some? then dataset.value else DefaultQuery(patientName, startDate, endDate, modality)
  }

  /** A response is kept when its status is truthy and its identifier is a non-empty dataset. */
  predicate Kept(r: FindResponse) {
    r.statusOk && r.identifier.Some? && Truthy(r.identifier.value)
  }

  /** The identifiers of the kept responses, in arrival order. */
  function Found(stream: seq<FindResponse>): (found: seq<DataSet>)
    ensures |found| <= |stream|
    ensures forall d | d in found :: Truthy(d)
  {
    if stream == [] then []
    else
      var last := stream[|stream| - 1];
      Found(stream[..|stream| - 1]) + (if Kept(last) then [last.identifier.value] else [])
  }

  /** Collecting distributes over concatenation: responses are kept in the order they arrive. */
  lemma {:induction false} FoundAppend(s: seq<FindResponse>, t: seq<FindResponse>)
    ensures Found(s + t) == Found(s) + Found(t)
    decreases |t|
  {
    if t != [] {
      var t' := t[..|t| - 1];
      assert (s + t)[..|s + t| - 1] == s + t';
      FoundAppend(s, t');
    } else {
      assert s + t == s;
    }
  }

  /** A dataset is collected exactly when some kept response carries it. */
  lemma {:induction false} FoundMembers(stream: seq<FindResponse>, d: DataSet)
    ensures d in Found(stream) <==>
      exists i | 0 <= i < |stream| :: Kept(stream[i]) && stream[i].identifier == Some(d)
    decreases |stream|
  {
    if stream != [] {
      var init := stream[..|stream| - 1];
      FoundMembers(init, d);
      if d in Found(init) {
        var i :| 0 <= i < |init| && Kept(init[i]) && init[i].identifier == Some(d);
        assert stream[i] == init[i];
      }
      if exists i | 0 <= i < |stream| :: Kept(stream[i]) && stream[i].identifier == Some(d) {
        var i :| 0 <= i < |stream| && Kept(stream[i]) && stream[i].identifier == Some(d);
        if i < |init| {
          assert init[i] == stream[i];
        }
      }
    }
  }

  /**
   * When every response is kept (pending responses each carrying a match, the
   * final one carrying none and so dropped aside), the result is exactly the
   * identifiers in order.
   */
  lemma {:induction false} FoundAllKept(stream: seq<FindResponse>)
    requires forall i | 0 <= i < |stream| :: Kept(stream[i])
    ensures |Found(stream)| == |stream|
    ensures forall i | 0 <= i < |stream| :: stream[i].identifier == Some(Found(stream)[i])
    decreases |stream|
  {
    if stream != [] {
      FoundAllKept(stream[..|stream| - 1]);
    }
  }

  /** The response loop of `get_worklist` and `get_worklist_dataset`. */
  method CollectFound(stream: seq<FindResponse>) returns (found: seq<DataSet>)
    ensures found == Found(stream)
  {
    found := [];
    for i := 0 to |stream|
      invariant found == Found(stream[..i])
    {
      var response := stream[i];
      if response.statusOk {
        if response.identifier.Some? && Truthy(response.identifier.value) {
          found := found + [response.identifier.value];
        }
      }
      assert stream[..i + 1][..i] == stream[..i];
    }
    assert stream[..|stream|] == stream;
  }

  /**
   * `c_echo`: associate with the Verification context (without a called AE
   * title when `remoteAe` is empty), send one C-ECHO, and on a truthy status
   * release and return its Status. A falsy status raises without releasing.
   */
  method CEcho(peer: Peer, address: string, port: int, remoteAe: string, localAe: string)
    returns (r: Outcome<int>, trace: seq<Request>)
    ensures |trace| > 0
    ensures trace[0] == AssociateRq(localAe, address, port,
                                    if remoteAe == "" then None else Some(remoteAe),
                                    VerificationSopClass)
    ensures !peer.accepts ==> r == Raised(AssociationFailed(address, port, remoteAe)) && |trace| == 1
    ensures peer.accepts && peer.echoStatus.None? ==>
      r == Raised(EchoFailed) && trace == [trace[0], EchoRq]
    ensures peer.accepts && peer.echoStatus.Some? ==>
      r == Returned(peer.echoStatus.value) && trace == [trace[0], EchoRq, ReleaseRq]
    ensures Releases(trace) == (if r.Returned? then 1 else 0)
  {
    var assoc := new Association.Associate(peer, localAe, address, port,
                                           if remoteAe == "" then None else Some(remoteAe),
                                           VerificationSopClass);
    if assoc.isEstablished {
      var status := assoc.SendCEcho();
      if status.None? {
        r, trace := Raised(EchoFailed), assoc.sent;
        return;
      }
      assoc.Release();
      r, trace := Returned(status.value), assoc.sent;
    } else {
      r, trace := Raised(AssociationFailed(address, port, remoteAe)), assoc.sent;
    }
  }

  /**
   * `get_worklist`: an association that is not established raises before any
   * C-FIND; otherwise the default query is sent, the kept identifiers are
   * collected, and the association is released once.
   */
  method GetWorklist(peer: Peer, address: string, port: int, remoteAe: string, localAe: string,
                     startDate: Option<string>, endDate: Option<string>,
                     patientName: Option<string>, modality: Option<string>)
    returns (r: Outcome<seq<DataSet>>, trace: seq<Request>)
    ensures |trace| > 0
    ensures trace[0] == AssociateRq(localAe, address, port, Some(remoteAe), WorklistFindSopClass)
    ensures !peer.accepts ==> r == Raised(AssociationFailed(address, port, remoteAe)) && |trace| == 1
    ensures peer.accepts ==>
      var q := DefaultQuery(patientName, startDate, endDate, modality);
      && r == Returned(Found(peer.find(q)))
      && trace == [trace[0], FindRq(q, WorklistFindSopClass), ReleaseRq]
  {
    r, trace := FindWith(peer, address, port, remoteAe, localAe,
                         None, startDate, endDate, patientName, modality);
  }

  /**
   * `get_worklist_dataset`: as `get_worklist`, but a caller-supplied dataset is
   * sent unchanged in place of the default query.
   */
  method GetWorklistDataset(peer: Peer, address: string, port: int, remoteAe: string, localAe: string,
                            dataset: Option<DataSet>, startDate: Option<string>, endDate: Option<string>,
                            patientName: Option<string>, modality: Option<string>)
    returns (r: Outcome<seq<DataSet>>, trace: seq<Request>)
    ensures |trace| > 0
    ensures trace[0] == AssociateRq(localAe, address, port, Some(remoteAe), WorklistFindSopClass)
    ensures !peer.accepts ==> r == Raised(AssociationFailed(address, port, remoteAe)) && |trace| == 1
    ensures peer.accepts ==>
      var q := QueryFor(dataset, patientName, startDate, endDate, modality);
      && r == Returned(Found(peer.find(q)))
      && trace == [trace[0], FindRq(q, WorklistFindSopClass), ReleaseRq]
    ensures peer.accepts && dataset.Some? ==> trace[1] == FindRq(dataset.value, WorklistFindSopClass)
  {
    r, trace := FindWith(peer, address, port, remoteAe, localAe,
                         dataset, startDate, endDate, patientName, modality);
  }

  /** The association sequence the two C-FIND functions share. */
  method FindWith(peer: Peer, address: string, port: int, remoteAe: string, localAe: string,
                  dataset: Option<DataSet>, startDate: Option<string>, endDate: Option<string>,
                  patientName: Option<string>, modality: Option<string>)
    returns (r: Outcome<seq<DataSet>>, trace: seq<Request>)
    ensures |trace| > 0
    ensures trace[0] == AssociateRq(localAe, address, port, Some(remoteAe), WorklistFindSopClass)
    ensures !peer.accepts ==> r == Raised(AssociationFailed(address, port, remoteAe)) && |trace| == 1
    ensures peer.accepts ==>
      var q := QueryFor(dataset, patientName, startDate, endDate, modality);
      && r == Returned(Found(peer.find(q)))
      && trace == [trace[0], FindRq(q, WorklistFindSopClass), ReleaseRq]
  {
    var assoc := new Association.Associate(peer, localAe, address, port, Some(remoteAe),
                                           WorklistFindSopClass);
    if !assoc.isEstablished {
      r, trace := Raised(AssociationFailed(address, port, remoteAe)), assoc.sent;
      return;
    }
    var query := QueryFor(dataset, patientName, startDate, endDate, modality);
    var stream := assoc.SendCFind(query, WorklistFindSopClass);
    var responses := CollectFound(stream);
    assoc.Release();
    r, trace := Returned(responses), assoc.sent;
  }
}
