/** The HCI LE commands the beacon issues (Bluetooth Core Specification,
    Vol 4, Part E, section 7.8), the replies a controller gives, how a
    reply is judged, and what running a fixed sequence of commands with
    abort-on-first-failure does. */
module Hci {
  import opened Wrappers
  import opened Bytes

  const OGF_LE_CTL := 0x08
  const OCF_LE_SET_ADVERTISING_PARAMETERS := 0x0006
  const OCF_LE_SET_ADVERTISING_DATA := 0x0008
  const OCF_LE_SET_ADVERTISE_ENABLE := 0x000A

  const LE_SET_ADVERTISING_PARAMETERS_CP_SIZE := 15
  const LE_SET_ADVERTISE_ENABLE_CP_SIZE := 1
  const LE_SET_ADVERTISING_DATA_CP_SIZE := 32

  const HCI_EVENT_PKT: byte := 0x04
  const EVT_LE_META_EVENT: byte := 0x3E

  /** Advertising interval bounds recommended for the beacon, in milliseconds. */
  const MIN_INTERVAL_MS := 200
  const MAX_INTERVAL_MS := 270

  /** Range the controller accepts for an advertising interval, in 0.625 ms ticks. */
  const ADV_INTERVAL_MIN_TICKS := 0x0020
  const ADV_INTERVAL_MAX_TICKS := 0x4000

  /** Converts milliseconds to 0.625 ms controller ticks (ms / 0.625 == ms * 8 / 5),
      dropping any fraction as the conversion of the quotient to uint16_t does. */
  function MsToTicks(ms: nat): (t: nat)
    ensures t * 5 <= ms * 8 < t * 5 + 5
  {
    ms * 8 / 5
  }

  /** Converts 0.625 ms ticks back to whole milliseconds. */
  function TicksToMs(t: nat): (ms: nat)
    ensures ms * 8 <= t * 5 < ms * 8 + 8
  {
    t * 5 / 8
  }

  /** Command parameters of LE Set Advertising Parameters (section 7.8.5). */
  datatype AdvertisingParameters = AdvertisingParameters(
    minInterval: uint16,
    maxInterval: uint16,
    advType: byte,
    ownAddrType: byte,
    directAddrType: byte,
    directAddr: seq<byte>,
    chanMap: byte,
    filter: byte)

  /** The parameter block a request carries. */
  datatype CommandParams =
    | AdvParams(params: AdvertisingParameters)   // section 7.8.5
    | AdvData(length: byte, data: seq<byte>)     // section 7.8.7
    | AdvEnable(enable: byte)                    // section 7.8.9

  /** A request sent with `hci_send_req`: opcode group, opcode field, parameters
      and their size on the wire. */
  datatype HciRequest = HciRequest(ogf: int, ocf: int, cparam: CommandParams, clen: nat)

  /** Command parameters of LE Set Scan Parameters (section 7.8.10). */
  datatype ScanParameters = ScanParameters(
    scanType: byte,
    interval: uint16,
    window: uint16,
    ownAddrType: byte,
    filterPolicy: byte)

  /** One step the beacon takes on its device handle. */
  datatype Command =
    | Request(rq: HciRequest)                        // through the beacon's own request helper
    | SetScanEnable(enable: byte, filterDup: byte)   // LE Set Scan Enable, section 7.8.11
    | SetSocketFilter(ptype: byte, event: byte)      // event filter on the HCI socket
    | SetScanParameters(params: ScanParameters)      // LE Set Scan Parameters, section 7.8.10

  /** What a step gets back: the call's result code and, for a request, the one
      status byte of its Command Complete event. */
  datatype Reply = Reply(ret: int, status: byte)

  /** No answer within the wait: the call reports a negative result. */
  const TIMEOUT := Reply(-1, 0)

  /** The replies a controller gives, in the order the steps reach it. */
  datatype Script = Script(replies: seq<Reply>)

  datatype BeaconError =
    | SendFailed                          // "Could not send HCI request"
    | HciStatus(ocf: int, status: byte)   // "HCI error during <ocf>: <status>"
    | ScanEnableFailed                    // "Could not enable LE scan." (also on disable)
    | FilterFailed                        // "Could not set filter on socket."
    | ScanParametersFailed                // "Could not set LE scan parameters."
    | PollFailed                          // "Error during poll."

  /** How a request helper judges the reply to `rq`: a negative result is a
      transport failure, a non-zero status a controller error naming the OCF. */
  function RequestFailure(rq: HciRequest, reply: Reply): (e: Option<BeaconError>)
    ensures e == None <==> reply.ret >= 0 && reply.status == 0
    ensures reply.ret < 0 ==> e == Some(SendFailed)
    ensures reply.ret >= 0 && reply.status != 0 ==> e == Some(HciStatus(rq.ocf, reply.status))
  {
    if reply.ret < 0 then Some(SendFailed)
    else if reply.status != 0 then Some(HciStatus(rq.ocf, reply.status))
    else None
  }

  /** How each kind of step judges its reply. The library calls report a
      controller's non-zero status through their own result code, so only that
      code is looked at. */
  function StepFailure(cmd: Command, reply: Reply): (e: Option<BeaconError>)
    ensures cmd.Request? ==> e == RequestFailure(cmd.rq, reply)
    ensures !cmd.Request? ==> (e == None <==> reply.ret >= 0)
    ensures e.Some? && !cmd.Request? ==> e.value != SendFailed && !e.value.HciStatus?
  {
    match cmd
    case Request(rq) => RequestFailure(rq, reply)
    case SetScanEnable(_, _) => if reply.ret < 0 then Some(ScanEnableFailed) else None
    case SetSocketFilter(_, _) => if reply.ret < 0 then Some(FilterFailed) else None
    case SetScanParameters(_) => if reply.ret < 0 then Some(ScanParametersFailed) else None
  }

  /** The `i`-th reply of a script; an exhausted script times out. */
  function ReplyAt(script: Script, i: nat): Reply
  {
    if i < |script.replies| then script.replies[i] else TIMEOUT
  }

  /** The replies still to come once `n` have been consumed. */
  function Drop(script: Script, n: nat): Script
  {
    if n <= |script.replies| then Script(script.replies[n..]) else Script([])
  }

  /** Step `i` of `cmds` succeeds when it gets the `i`-th reply. */
  predicate StepSucceeds(cmds: seq<Command>, script: Script, i: nat)
    requires i < |cmds|
  {
    StepFailure(cmds[i], ReplyAt(script, i)) == None
  }

  /** Dropping the first step and its reply shifts every later step down by one. */
  lemma StepSucceedsShift(cmds: seq<Command>, script: Script)
    requires cmds != []
    ensures forall i :: 1 <= i < |cmds| ==>
      (StepSucceeds(cmds, script, i) <==> StepSucceeds(cmds[1..], Drop(script, 1), i - 1))
    ensures forall j :: 0 <= j < |cmds| - 1 ==>
      (StepSucceeds(cmds[1..], Drop(script, 1), j) <==> StepSucceeds(cmds, script, j + 1))
  {
    forall i | 1 <= i < |cmds|
      ensures ReplyAt(script, i) == ReplyAt(Drop(script, 1), i - 1)
    {
    }
  }

  /** How many steps of a sequence were issued, and how it ended. */
  datatype Run = Run(issued: nat, outcome: Outcome<BeaconError>)

  /** Issues `cmds` in order, giving the k-th issued step the k-th reply, and
      stops at the first step that fails. */
  function RunSteps(cmds: seq<Command>, script: Script): (r: Run)
    decreases |cmds|
    ensures r.issued <= |cmds|
    ensures cmds != [] ==> 1 <= r.issued
    ensures forall i :: 0 <= i < r.issued - 1 ==> StepSucceeds(cmds, script, i)
    ensures r.outcome.Pass? <==> r.issued == |cmds| && forall i :: 0 <= i < |cmds| ==> StepSucceeds(cmds, script, i)
    ensures r.outcome.Fail? ==> !StepSucceeds(cmds, script, r.issued - 1)
    ensures r.outcome.Fail? ==>
      StepFailure(cmds[r.issued - 1], ReplyAt(script, r.issued - 1)) == Some(r.outcome.error)
  {
    if cmds == [] then Run(0, Pass)
    else
      match StepFailure(cmds[0], ReplyAt(script, 0))
      case Some(e) =>
        assert !StepSucceeds(cmds, script, 0);
        Run(1, Fail(e))
      case None =>
        var rest := RunSteps(cmds[1..], Drop(script, 1));
        StepSucceedsShift(cmds, script);
        Run(rest.issued + 1, rest.outcome)
  }

  /** A sequence stops at its first failing step: that step is the last one
      issued and its failure is the outcome. */
  lemma RunStepsFirstFailure(cmds: seq<Command>, script: Script, k: nat)
    requires k < |cmds|
    requires forall i :: 0 <= i < k ==> StepSucceeds(cmds, script, i)
    requires !StepSucceeds(cmds, script, k)
    ensures RunSteps(cmds, script) == Run(k + 1, Fail(StepFailure(cmds[k], ReplyAt(script, k)).value))
  {
  }

  /** A sequence in which every step succeeds is issued in full and passes. */
  lemma RunStepsAllSucceed(cmds: seq<Command>, script: Script)
    requires forall i :: 0 <= i < |cmds| ==> StepSucceeds(cmds, script, i)
    ensures RunSteps(cmds, script) == Run(|cmds|, Pass)
  {
  }

  /** The reply a step gets once `n` replies have been consumed. */
  lemma ReplyAfter(script: Script, n: nat, i: nat)
    ensures ReplyAt(Drop(script, n), i) == ReplyAt(script, n + i)
    ensures Drop(Drop(script, n), i) == Drop(script, n + i)
  {
  }
}
