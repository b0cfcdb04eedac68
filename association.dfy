/**
 * The association with a remote application entity, against an abstract peer.
 * pynetdicom's transport and DIMSE machinery are replaced by `Peer`, which says
 * whether the association is accepted and what the peer answers. The association
 * object records every request the local side sends, so the operations can state
 * which requests go out and when `release` is called.
 */
module Association {
  import opened Wrappers
  import opened DataSets
  import opened FileFormat

  /** One C-FIND response as pynetdicom yields it: status truthiness and identifier. */
  datatype FindResponse = FindResponse(statusOk: bool, identifier: Option<DataSet>)

  /**
   * The peer. `echoStatus` and `storeStatus` are the status pynetdicom returns:
   * `None` for the empty (falsy) status dataset it returns when no valid
   * response arrives, otherwise the value of its `Status` element. `find` is the
   * response stream the peer produces for a query.
   */
  datatype Peer = Peer(
    accepts: bool,
    echoStatus: Option<int>,
    storeStatus: Option<int>,
    find: DataSet -> seq<FindResponse>)

  /** The requests the local side sends, in order. */
  datatype Request =
    | AssociateRq(callingAe: string, address: string, port: int, calledAe: Option<string>, context: string)
    | EchoRq
    | FindRq(query: DataSet, model: string)
    | StoreRq(file: FileDataSet)
    | ReleaseRq

  /** Failures the operations raise, with the context the source's messages carry. */
  datatype Error =
    | AssociationFailed(address: string, port: int, remoteAe: string)
    | EchoFailed

  /** A Python call that either returns a value or raises. */
  datatype Outcome<T> = Returned(value: T) | Raised(error: Error)

  /** An association opened by `ae.associate(...)`. */
  class Association {
    const peer: Peer
    var isEstablished: bool
    /** Every request sent on this association so far, the association request first. */
    var sent: seq<Request>

    /**
     * `AE(ae_title=callingAe)`, `add_requested_context(context)` and
     * `associate(address, port[, ae_title=calledAe])`; `calledAe == None` leaves
     * pynetdicom's default called AE title.
     */
    constructor Associate(peer: Peer, callingAe: string, address: string, port: int,
                          calledAe: Option<string>, context: string)
      ensures this.peer == peer
      ensures isEstablished == peer.accepts
      ensures sent == [AssociateRq(callingAe, address, port, calledAe, context)]
    {
      this.peer := peer;
      isEstablished := peer.accepts;
      sent := [AssociateRq(callingAe, address, port, calledAe, context)];
    }

    method SendCEcho() returns (status: Option<int>)
      requires isEstablished
      modifies this
      ensures isEstablished
      ensures status == peer.echoStatus
      ensures sent == old(sent) + [EchoRq]
    {
      sent := sent + [EchoRq];
      status := peer.echoStatus;
    }

    method SendCFind(query: DataSet, model: string) returns (responses: seq<FindResponse>)
      requires isEstablished
      modifies this
      ensures isEstablished
      ensures responses == peer.find(query)
      ensures sent == old(sent) + [FindRq(query, model)]
    {
      sent := sent + [FindRq(query, model)];
      responses := peer.find(query);
    }

    method SendCStore(file: FileDataSet) returns (status: Option<int>)
      requires isEstablished
      modifies this
      ensures isEstablished
      ensures status == peer.storeStatus
      ensures sent == old(sent) + [StoreRq(file)]
    {
      sent := sent + [StoreRq(file)];
      status := peer.storeStatus;
    }

    method Release()
      requires isEstablished
      modifies this
      ensures !isEstablished
      ensures sent == old(sent) + [ReleaseRq]
    {
      sent := sent + [ReleaseRq];
      isEstablished := false;
    }
  }

  /** How many times `release` occurs in a request trace. */
  function Releases(trace: seq<Request>): (n: nat)
    ensures n <= |trace|
    ensures n == 0 <==> ReleaseRq !in trace
  {
    if trace == [] then 0
    else (if trace[0] == ReleaseRq then 1 else 0) + Releases(trace[1..])
  }
}
