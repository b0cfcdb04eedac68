/**
 * The tools script (dicom_tools.py). Its `extract_value`,
 * `convert_request_to_dcm` and `convert_response_to_dcm` are the same code as
 * those of tools/mwl_converter.py and are modelled once, in `MwlConverter`. Its
 * `c_echo` is the same code as that of tools/dicom_communication.py
 * (`DicomCommunication.CEcho`), apart from having no default calling AE title.
 * What is its own is `main`: the command-line defaults and the exit code.
 */
module DicomTools {
  import opened Wrappers
  import opened FileFormat
  import opened Association
  import DicomCommunication

  /** `main`'s arguments, with argparse's defaults. */
  datatype ToolsArgs = ToolsArgs(
    convert: bool := false,
    echo: bool := false,
    serverIp: string := "10.10.0.1",
    serverPort: int := 4242,
    serverAe: string := "MERCURE",
    clientAe: string := "BEXA")

  /** The association request `c_echo` opens with the arguments' server and AE titles. */
  function EchoAssociation(args: ToolsArgs): Request {
    AssociateRq(args.clientAe, args.serverIp, args.serverPort,
                if args.serverAe == "" then None else Some(args.serverAe), VerificationSopClass)
  }

  /** `c_echo` raises: the association is refused or the echo gets no status. */
  predicate EchoRaises(peer: Peer) {
    !peer.accepts || peer.echoStatus.None?
  }

  /**
   * `main`'s exit code and the requests it sends: 1 exactly when an echo was
   * asked for and `c_echo` raised; a nonzero echo status is only logged, so it
   * still exits with 0.
   */
  method Run(args: ToolsArgs, peer: Peer) returns (code: int, trace: seq<Request>)
    ensures code == (if args.echo && EchoRaises(peer) then 1 else 0)
    ensures !args.echo ==> trace == []
    ensures args.echo ==> |trace| > 0 && trace[0] == EchoAssociation(args)
    ensures args.echo ==> Releases(trace) == (if EchoRaises(peer) then 0 else 1)
  {
    trace := [];
    if args.echo {
      var outcome;
      outcome, trace := DicomCommunication.CEcho(peer, args.serverIp, args.serverPort, args.serverAe, args.clientAe);
      if outcome.Raised? {
        return 1, trace;
      }
    }
    code := 0;
  }
}
