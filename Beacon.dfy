/** The beacon object: it drives the controller behind its device handle
    through the advertising and scanning command sequences and reads
    advertising reports from it. Every HCI command and library call it makes
    on the handle is recorded in a ghost trace; the poll and the read of
    `log_to_stream` are not. */
module Beacon {
  import opened Wrappers
  import opened Bytes
  import opened Hci
  import AdPacket
  import AdReport

  /** LE Set Advertising Parameters: 200-270 ms, non-connectable undirected
      advertising (ADV_NONCONN_IND), random own address, all three channels;
      the other fields stay zero. */
  function AdvertisingParams(): (p: AdvertisingParameters)
    ensures p.minInterval as int == MsToTicks(MIN_INTERVAL_MS)
    ensures p.maxInterval as int == MsToTicks(MAX_INTERVAL_MS)
  {
    AdvertisingParameters(
      minInterval := MsToTicks(MIN_INTERVAL_MS) as uint16,
      maxInterval := MsToTicks(MAX_INTERVAL_MS) as uint16,
      advType := 0x03,
      ownAddrType := 0x01,
      directAddrType := 0,
      directAddr := [0, 0, 0, 0, 0, 0],
      chanMap := 0x07,
      filter := 0)
  }

  /** Both interval bounds are whole numbers of ticks (320 and 432), in order,
      and inside the range the controller accepts. */
  lemma AdvertisingIntervals()
    ensures AdvertisingParams().minInterval == 320 && AdvertisingParams().maxInterval == 432
    ensures AdvertisingParams().minInterval as int * 5 == MIN_INTERVAL_MS * 8
    ensures AdvertisingParams().maxInterval as int * 5 == MAX_INTERVAL_MS * 8
    ensures ADV_INTERVAL_MIN_TICKS <= AdvertisingParams().minInterval as int
         <= AdvertisingParams().maxInterval as int <= ADV_INTERVAL_MAX_TICKS
  {
  }

  /** LE Set Advertising Parameters, opcode group 0x08 and field 0x0006,
      carrying the 15-byte parameter block. */
  function AdvParamsRequest(): (rq: HciRequest)
    ensures rq.ogf == OGF_LE_CTL && rq.ocf == OCF_LE_SET_ADVERTISING_PARAMETERS
    ensures rq.cparam.AdvParams? && rq.clen == LE_SET_ADVERTISING_PARAMETERS_CP_SIZE
    ensures rq.cparam.params.advType == 0x03 && rq.cparam.params.ownAddrType == 0x01
    ensures rq.cparam.params.chanMap == 0x07 && rq.cparam.params.filter == 0
    ensures rq.cparam.params.minInterval == 320 && rq.cparam.params.maxInterval == 432
  {
    HciRequest(OGF_LE_CTL, OCF_LE_SET_ADVERTISING_PARAMETERS, AdvParams(AdvertisingParams()),
               LE_SET_ADVERTISING_PARAMETERS_CP_SIZE)
  }

  /** LE Set Advertise Enable, opcode field 0x000A, with its one-byte parameter. */
  function AdvEnableRequest(enable: byte): (rq: HciRequest)
    ensures rq.ogf == OGF_LE_CTL && rq.ocf == OCF_LE_SET_ADVERTISE_ENABLE
    ensures rq.cparam == AdvEnable(enable) && rq.clen == LE_SET_ADVERTISE_ENABLE_CP_SIZE
  {
    HciRequest(OGF_LE_CTL, OCF_LE_SET_ADVERTISE_ENABLE, AdvEnable(enable), LE_SET_ADVERTISE_ENABLE_CP_SIZE)
  }

  /** The 31-byte data field of LE Set Advertising Data: the payload for the
      first 16 bytes of `rpi`, then zeros. */
  function AdvertisingData(rpi: seq<byte>): (data: seq<byte>)
    requires AdPacket.RPI_LEN <= |rpi|
    ensures |data| == AdPacket.ADV_DATA_MAX
    ensures data[..AdPacket.CT_PACKET_LEN] == AdPacket.CtPacket(rpi[..AdPacket.RPI_LEN])
    ensures AdPacket.ExtractRpi(data[..AdPacket.CT_PACKET_LEN]) == rpi[..AdPacket.RPI_LEN]
    ensures forall i :: AdPacket.CT_PACKET_LEN <= i < |data| ==> data[i] == 0
  {
    AdPacket.ExtractRpiRoundTrip(rpi[..AdPacket.RPI_LEN]);
    AdPacket.CtPacket(rpi[..AdPacket.RPI_LEN]) + [0, 0, 0, 0]
  }

  /** LE Set Advertising Data, opcode field 0x0008: significant length 27,
      then the 31-byte data field, 32 parameter bytes in all. */
  function AdvDataRequest(rpi: seq<byte>): (rq: HciRequest)
    requires AdPacket.RPI_LEN <= |rpi|
    ensures rq.ogf == OGF_LE_CTL && rq.ocf == OCF_LE_SET_ADVERTISING_DATA
    ensures rq.cparam.AdvData? && rq.cparam.length as int == AdPacket.CT_PACKET_LEN
    ensures rq.clen == 1 + |rq.cparam.data| == LE_SET_ADVERTISING_DATA_CP_SIZE
    ensures rq.cparam.data[..AdPacket.CT_PACKET_LEN] == AdPacket.CtPacket(rpi[..AdPacket.RPI_LEN])
  {
    HciRequest(OGF_LE_CTL, OCF_LE_SET_ADVERTISING_DATA,
               AdvData(AdPacket.CT_PACKET_LEN as byte, AdvertisingData(rpi)),
               LE_SET_ADVERTISING_DATA_CP_SIZE)
  }

  /** The advertising sequence: parameters, then enable, then data. */
  function StartAdvertisingCommands(rpi: seq<byte>): (cmds: seq<Command>)
    requires AdPacket.RPI_LEN <= |rpi|
    ensures |cmds| == 3 && forall i :: 0 <= i < |cmds| ==> cmds[i].Request?
    ensures cmds[0].rq.ocf == OCF_LE_SET_ADVERTISING_PARAMETERS
    ensures cmds[1].rq.ocf == OCF_LE_SET_ADVERTISE_ENABLE && cmds[1].rq.cparam == AdvEnable(0x01)
    ensures cmds[2].rq.ocf == OCF_LE_SET_ADVERTISING_DATA
  {
    [Request(AdvParamsRequest()), Request(AdvEnableRequest(0x01)), Request(AdvDataRequest(rpi))]
  }

  /** `stop_advertising`: LE Set Advertise Enable with its parameter left zero. */
  function StopAdvertisingCommand(): (c: Command)
    ensures c.Request? && c.rq.ocf == OCF_LE_SET_ADVERTISE_ENABLE && c.rq.cparam == AdvEnable(0x00)
  {
    Request(AdvEnableRequest(0x00))
  }

  /** Passive scanning, interval 0x40 and window 0x30 ticks, random own address,
      accept all advertisements not directed elsewhere. */
  function PassiveScan(): (p: ScanParameters)
    ensures p.scanType == 0x00 && p.ownAddrType == 0x01 && p.filterPolicy == 0x00
    ensures p.interval == 0x40 && p.window == 0x30
  {
    ScanParameters(0x00, 0x40, 0x30, 0x01, 0x00)
  }

  /** The scan interval and window are 40 ms and 30 ms, and the window fits the interval. */
  lemma ScanTiming()
    ensures TicksToMs(PassiveScan().interval as int) == 40
    ensures TicksToMs(PassiveScan().window as int) == 30
    ensures PassiveScan().window <= PassiveScan().interval
  {
  }

  /** The listening sequence: stop any scan, filter the socket to LE Meta
      events, set passive scan parameters, scan with duplicate filtering. */
  function StartListeningCommands(): (cmds: seq<Command>)
    ensures |cmds| == 4
    ensures cmds[0] == SetScanEnable(0x00, 0x00) && cmds[3] == SetScanEnable(0x01, 0x01)
    ensures cmds[1] == SetSocketFilter(HCI_EVENT_PKT, EVT_LE_META_EVENT)
    ensures cmds[2] == SetScanParameters(PassiveScan())
  {
    [SetScanEnable(0x00, 0x00),
     SetSocketFilter(HCI_EVENT_PKT, EVT_LE_META_EVENT),
     SetScanParameters(PassiveScan()),
     SetScanEnable(0x01, 0x01)]
  }

  /** `stop_listening`: LE Set Scan Enable with scanning and duplicate filtering
      off, the same call that opens the listening sequence. */
  function StopListeningCommand(): (c: Command)
    ensures c == StartListeningCommands()[0]
    ensures c.SetScanEnable? && c.enable == 0x00
  {
    SetScanEnable(0x00, 0x00)
  }

  /** A controller whose first reply reports status 0x0C (Command Disallowed)
      stops the advertising sequence after its first command, with that status. */
  lemma StartAdvertisingDisallowed(rpi: seq<byte>, script: Script)
    requires AdPacket.RPI_LEN <= |rpi|
    requires ReplyAt(script, 0) == Reply(0, 0x0C)
    ensures RunSteps(StartAdvertisingCommands(rpi), script)
         == Run(1, Fail(HciStatus(OCF_LE_SET_ADVERTISING_PARAMETERS, 0x0C)))
  {
  }

  /** Where the advertising sequence stops: at the first request whose reply
      `do_req` rejects, with that rejection as the outcome. */
  lemma AdvertisingRun(rpi: seq<byte>, script: Script)
    requires AdPacket.RPI_LEN <= |rpi|
    ensures var f0 := RequestFailure(AdvParamsRequest(), ReplyAt(script, 0));
            var f1 := RequestFailure(AdvEnableRequest(0x01), ReplyAt(script, 1));
            var f2 := RequestFailure(AdvDataRequest(rpi), ReplyAt(script, 2));
      RunSteps(StartAdvertisingCommands(rpi), script)
      == if f0.Some? then Run(1, Fail(f0.value))
         else if f1.Some? then Run(2, Fail(f1.value))
         else if f2.Some? then Run(3, Fail(f2.value))
         else Run(3, Pass)
  {
    var cmds := StartAdvertisingCommands(rpi);
    if !StepSucceeds(cmds, script, 0) {
      RunStepsFirstFailure(cmds, script, 0);
    } else if !StepSucceeds(cmds, script, 1) {
      RunStepsFirstFailure(cmds, script, 1);
    } else if !StepSucceeds(cmds, script, 2) {
      RunStepsFirstFailure(cmds, script, 2);
    } else {
      RunStepsAllSucceed(cmds, script);
    }
  }

  /** Where the listening sequence stops: at the first call with a negative
      result, with that call's error; a filter that cannot be set means no
      scan parameters and no scan enable are sent. */
  lemma ListeningRun(script: Script)
    ensures RunSteps(StartListeningCommands(), script)
      == if ReplyAt(script, 0).ret < 0 then Run(1, Fail(ScanEnableFailed))
         else if ReplyAt(script, 1).ret < 0 then Run(2, Fail(FilterFailed))
         else if ReplyAt(script, 2).ret < 0 then Run(3, Fail(ScanParametersFailed))
         else if ReplyAt(script, 3).ret < 0 then Run(4, Fail(ScanEnableFailed))
         else Run(4, Pass)
  {
    if ReplyAt(script, 0).ret < 0 {
      RunStepsFirstFailure(StartListeningCommands(), script, 0);
    } else if ReplyAt(script, 1).ret < 0 {
      RunStepsFirstFailure(StartListeningCommands(), script, 1);
    } else if ReplyAt(script, 2).ret < 0 {
      RunStepsFirstFailure(StartListeningCommands(), script, 2);
    } else if ReplyAt(script, 3).ret < 0 {
      RunStepsFirstFailure(StartListeningCommands(), script, 3);
    } else {
      RunStepsAllSucceed(StartListeningCommands(), script);
    }
  }

  /** A controller that has stopped answering fails every sequence at its
      first step with a transport failure or, for the library calls, the
      matching error of that call. */
  lemma SilentController(rpi: seq<byte>)
    requires AdPacket.RPI_LEN <= |rpi|
    ensures RunSteps(StartAdvertisingCommands(rpi), Script([])) == Run(1, Fail(SendFailed))
    ensures RunSteps([StopAdvertisingCommand()], Script([])) == Run(1, Fail(SendFailed))
    ensures RunSteps(StartListeningCommands(), Script([])) == Run(1, Fail(ScanEnableFailed))
    ensures RunSteps([StopListeningCommand()], Script([])) == Run(1, Fail(ScanEnableFailed))
  {
  }

  /** What one poll of the event channel came to: the value returned (0 when
      nothing was ready, 1 after a read) and the bytes written to the stream. */
  datatype LogOutcome = Logged(code: int, written: seq<byte>) | LogFailed(error: BeaconError)

  /** The controller on the other side of the device handle. Its replies are
      scripted: each step taken on the handle consumes the next one, and once
      the script is exhausted every step times out. */
  class Controller {
    var script: Script

    constructor (replies: seq<Reply>)
      ensures script == Script(replies)
    {
      script := Script(replies);
    }

    method Send(cmd: Command) returns (reply: Reply)
      modifies this
      ensures reply == ReplyAt(old(script), 0)
      ensures script == Drop(old(script), 1)
    {
      reply := ReplyAt(script, 0);
      script := Drop(script, 1);
    }
  }

  class CtBeacon {
    const dev: Controller
    /** Every HCI command and library call made on the device handle, oldest
        first (the poll and the read are not recorded). */
    ghost var trace: seq<Command>

    constructor (dev: Controller)
      ensures this.dev == dev && trace == []
    {
      this.dev := dev;
      trace := [];
    }

    /** Sends `rq` expecting a one-byte status; fails on a negative result or a
        non-zero status. */
    method DoReq(rq: HciRequest) returns (r: Outcome<BeaconError>)
      modifies this, dev
      ensures trace == old(trace) + [Request(rq)]
      ensures dev.script == Drop(old(dev.script), 1)
      ensures r == (match RequestFailure(rq, ReplyAt(old(dev.script), 0))
                    case None => Pass
                    case Some(e) => Fail(e))
    {
      var reply := dev.Send(Request(rq));
      trace := trace + [Request(rq)];
      if reply.ret < 0 {
        return Fail(SendFailed);
      } else if reply.status != 0 {
        return Fail(HciStatus(rq.ocf, reply.status));
      }
      return Pass;
    }

    /** One call of a library routine on the handle; returns its result code. */
    method Call(cmd: Command) returns (ret: int)
      modifies this, dev
      ensures trace == old(trace) + [cmd]
      ensures dev.script == Drop(old(dev.script), 1)
      ensures ret == ReplyAt(old(dev.script), 0).ret
    {
      var reply := dev.Send(cmd);
      trace := trace + [cmd];
      ret := reply.ret;
    }

    method StartAdvertising(rpi: seq<byte>) returns (r: Outcome<BeaconError>)
      requires AdPacket.RPI_LEN <= |rpi|
      modifies this, dev
      ensures var run := RunSteps(StartAdvertisingCommands(rpi), old(dev.script));
        && trace == old(trace) + StartAdvertisingCommands(rpi)[..run.issued]
        && dev.script == Drop(old(dev.script), run.issued)
        && r == run.outcome
    {
      ghost var cmds := StartAdvertisingCommands(rpi);
      ghost var script := dev.script;
      AdvertisingRun(rpi, script);
      ReplyAfter(script, 0, 0);
      r := DoReq(AdvParamsRequest());
      if r.Fail? {
        return;
      }
      ReplyAfter(script, 1, 0);
      r := DoReq(AdvEnableRequest(0x01));
      if r.Fail? {
        assert cmds[..2] == cmds[..1] + [cmds[1]];
        return;
      }
      ReplyAfter(script, 1, 1);
      ReplyAfter(script, 2, 0);
      var data := new byte[AdPacket.ADV_DATA_MAX](_ => 0);
      assert data[AdPacket.CT_PACKET_LEN..] == [0, 0, 0, 0];
      var length := AdPacket.BuildCtPacket(data, rpi);
      assert data[AdPacket.CT_PACKET_LEN..] == [0, 0, 0, 0];
      assert data[..] == data[..AdPacket.CT_PACKET_LEN] + data[AdPacket.CT_PACKET_LEN..];
      r := DoReq(HciRequest(OGF_LE_CTL, OCF_LE_SET_ADVERTISING_DATA, AdvData(length, data[..]),
                            LE_SET_ADVERTISING_DATA_CP_SIZE));
      ReplyAfter(script, 2, 1);
      assert cmds[..3] == cmds;
    }

    method StopAdvertising() returns (r: Outcome<BeaconError>)
      modifies this, dev
      ensures trace == old(trace) + [StopAdvertisingCommand()]
      ensures dev.script == Drop(old(dev.script), 1)
      ensures r == RunSteps([StopAdvertisingCommand()], old(dev.script)).outcome
    {
      r := DoReq(AdvEnableRequest(0x00));
    }

    method StartListening() returns (r: Outcome<BeaconError>)
      modifies this, dev
      ensures var run := RunSteps(StartListeningCommands(), old(dev.script));
        && trace == old(trace) + StartListeningCommands()[..run.issued]
        && dev.script == Drop(old(dev.script), run.issued)
        && r == run.outcome
    {
      ghost var script := dev.script;
      ListeningRun(script);
      ReplyAfter(script, 0, 0);
      var ret := Call(SetScanEnable(0x00, 0x00));
      if ret < 0 {
        return Fail(ScanEnableFailed);
      }
      ReplyAfter(script, 1, 0);
      ret := Call(SetSocketFilter(HCI_EVENT_PKT, EVT_LE_META_EVENT));
      if ret < 0 {
        assert StartListeningCommands()[..2] == StartListeningCommands()[..1] + [StartListeningCommands()[1]];
        return Fail(FilterFailed);
      }
      ReplyAfter(script, 1, 1);
      ReplyAfter(script, 2, 0);
      ret := Call(SetScanParameters(PassiveScan()));
      if ret < 0 {
        assert StartListeningCommands()[..3] == StartListeningCommands()[..2] + [StartListeningCommands()[2]];
        return Fail(ScanParametersFailed);
      }
      ReplyAfter(script, 2, 1);
      ReplyAfter(script, 3, 0);
      ret := Call(SetScanEnable(0x01, 0x01));
      ReplyAfter(script, 3, 1);
      assert StartListeningCommands()[..4] == StartListeningCommands();
      if ret < 0 {
        return Fail(ScanEnableFailed);
      }
      return Pass;
    }

    method StopListening() returns (r: Outcome<BeaconError>)
      modifies this, dev
      ensures trace == old(trace) + [StopListeningCommand()]
      ensures dev.script == Drop(old(dev.script), 1)
      ensures r == RunSteps([StopListeningCommand()], old(dev.script)).outcome
    {
      var ret := Call(StopListeningCommand());
      if ret < 0 {
        return Fail(ScanEnableFailed);
      }
      return Pass;
    }

    /** Waits once for the event channel and handles at most one event.
        `pollResult` is what the poll returned, `received` what the read
        delivered (`None` when it failed) and `stale` what the event buffer
        held before the read. */
    method LogToStream(pollResult: int, received: Option<seq<byte>>, stale: seq<byte>)
      returns (r: LogOutcome)
      requires |stale| == AdReport.HCI_MAX_EVENT_SIZE
      requires received.Some? ==> |received.value| <= AdReport.HCI_MAX_EVENT_SIZE
      ensures r.LogFailed? <==> pollResult < 0
      ensures r.LogFailed? ==> r.error == PollFailed
      ensures pollResult == 0 ==> r == Logged(0, [])
      ensures pollResult > 0 ==> r.Logged? && r.code == 1
      ensures r.Logged? && r.written != [] ==>
        && received.Some?
        && AdReport.ReadInto(stale, received.value)[AdReport.SUBEVENT_OFFSET] == AdReport.EVT_LE_ADVERTISING_REPORT
        && AdReport.ReportData(received.value) == Some(r.written)
      ensures pollResult > 0 && received.Some? && AdReport.ReportData(received.value).Some?
           && received.value[AdReport.SUBEVENT_OFFSET] == AdReport.EVT_LE_ADVERTISING_REPORT
          ==> r.written == AdReport.ReportData(received.value).value
    {
      if pollResult < 0 {
        return LogFailed(PollFailed);
      }
      if pollResult > 0 {
        var buf := new byte[AdReport.HCI_MAX_EVENT_SIZE](i requires 0 <= i < |stale| => stale[i]);
        var len := -1;
        if received.Some? {
          var bytes := received.value;
          forall i | 0 <= i < |bytes| {
            buf[i] := bytes[i];
          }
          len := |bytes|;
          assert buf[..] == AdReport.ReadInto(stale, bytes);
          assert buf[..len] == bytes;
        }
        var written := [];
        if buf[AdReport.SUBEVENT_OFFSET] == AdReport.EVT_LE_ADVERTISING_REPORT && 0 <= len {
          var data := AdReport.ReportData(buf[..len]);
          if data.Some? {
            written := data.value;
          }
        }
        return Logged(1, written);
      }
      return Logged(0, []);
    }
  }
}
