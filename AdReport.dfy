/** The offset arithmetic `log_to_stream` does on one event read from the HCI
    socket: an LE Meta event whose subevent is the LE Advertising Report
    (Bluetooth Core Specification, Vol 4, Part E, section 7.7.65.2). */
module AdReport {
  import opened Wrappers
  import opened Bytes
  import opened Hci
  import AdPacket

  const HCI_MAX_EVENT_SIZE := 260
  const HCI_EVENT_HDR_SIZE := 2
  const EVT_LE_ADVERTISING_REPORT: byte := 0x02

  /** The subevent code follows the packet indicator and the event header. */
  const SUBEVENT_OFFSET := 1 + HCI_EVENT_HDR_SIZE
  /** The first report follows the subevent code and the number of reports. */
  const REPORT_OFFSET := SUBEVENT_OFFSET + 2
  /** The report's length byte follows its event type, address type and 6-byte address. */
  const REPORT_LENGTH_OFFSET := REPORT_OFFSET + 8
  /** The report's advertising data follows its length byte. */
  const REPORT_DATA_OFFSET := REPORT_LENGTH_OFFSET + 1

  /** The event buffer after a read: the bytes received, then whatever the
      buffer held before (it is never initialised). */
  function ReadInto(stale: seq<byte>, received: seq<byte>): (buf: seq<byte>)
    requires |stale| == HCI_MAX_EVENT_SIZE
    requires |received| <= HCI_MAX_EVENT_SIZE
    ensures |buf| == HCI_MAX_EVENT_SIZE
    ensures buf[..|received|] == received
    ensures buf[|received|..] == stale[|received|..]
  {
    received + stale[|received|..]
  }

  /** The bytes `log_to_stream` hands to the stream for an advertising report, as
      the code is written: `len - 5` bytes starting at the report data, offset 14,
      where `len` is the read's result. A non-positive count writes nothing;
      `None` stands for a range that leaves the 260-byte buffer. */
  function AsWrittenCopy(buf: seq<byte>, len: int): (w: Option<seq<byte>>)
    requires |buf| == HCI_MAX_EVENT_SIZE
    ensures len <= REPORT_OFFSET ==> w == Some([])
    ensures w.Some? && len > REPORT_OFFSET ==> |w.value| == len - REPORT_OFFSET
    ensures w.Some? && len > REPORT_OFFSET ==>
      REPORT_DATA_OFFSET + len - REPORT_OFFSET <= HCI_MAX_EVENT_SIZE &&
      w.value == buf[REPORT_DATA_OFFSET..REPORT_DATA_OFFSET + len - REPORT_OFFSET]
    ensures w.None? <==> REPORT_DATA_OFFSET + (len - REPORT_OFFSET) > HCI_MAX_EVENT_SIZE
  {
    var count := len - REPORT_OFFSET;
    if count <= 0 then Some([])
    else if REPORT_DATA_OFFSET + count > HCI_MAX_EVENT_SIZE then None
    else Some(buf[REPORT_DATA_OFFSET..REPORT_DATA_OFFSET + count])
  }

  /** As written, whenever the copy is not empty it ends nine bytes past the
      `len` bytes read, and its length does not depend on the report's own
      length byte. */
  lemma AsWrittenCopyOverreads(buf: seq<byte>, len: int, reportLength: byte)
    requires |buf| == HCI_MAX_EVENT_SIZE
    requires REPORT_OFFSET < len <= HCI_MAX_EVENT_SIZE - 9
    ensures AsWrittenCopy(buf, len) == Some(buf[REPORT_DATA_OFFSET..len + 9])
    ensures REPORT_DATA_OFFSET <= len ==>
      AsWrittenCopy(buf[REPORT_LENGTH_OFFSET := reportLength], len).value[..len - REPORT_DATA_OFFSET]
        == buf[REPORT_DATA_OFFSET..len]
    ensures |AsWrittenCopy(buf[REPORT_LENGTH_OFFSET := reportLength], len).value| == |AsWrittenCopy(buf, len).value|
  {
  }

  /** As written, a read of 6 to 13 bytes, too short to reach the report data,
      still writes `len - 5` bytes, all of them left over from before the read. */
  lemma AsWrittenCopyOfShortRead(stale: seq<byte>, received: seq<byte>)
    requires |stale| == HCI_MAX_EVENT_SIZE
    requires REPORT_OFFSET < |received| < REPORT_DATA_OFFSET
    ensures AsWrittenCopy(ReadInto(stale, received), |received|)
         == Some(stale[REPORT_DATA_OFFSET..|received| + 9])
  {
    var buf, n := ReadInto(stale, received), |received|;
    forall k | REPORT_DATA_OFFSET <= k < n + 9
      ensures buf[k] == stale[k]
    {
      assert buf[k] == buf[n..][k - n];
    }
    assert buf[REPORT_DATA_OFFSET..n + 9] == stale[REPORT_DATA_OFFSET..n + 9];
    assert AsWrittenCopy(buf, n) == Some(buf[REPORT_DATA_OFFSET..n + 9]);
  }

  /** The advertising data of the first report in the bytes `received`: the
      report's own length byte says how many bytes follow it, and all of them
      must have been received. */
  function ReportData(received: seq<byte>): (d: Option<seq<byte>>)
    ensures d.Some? <==>
      (REPORT_DATA_OFFSET <= |received| &&
       REPORT_DATA_OFFSET + received[REPORT_LENGTH_OFFSET] as int <= |received|)
    ensures d.Some? ==> REPORT_DATA_OFFSET + |d.value| <= |received|
    ensures d.Some? ==> |d.value| == received[REPORT_LENGTH_OFFSET] as int
    ensures d.Some? ==> d.value == received[REPORT_DATA_OFFSET..REPORT_DATA_OFFSET + |d.value|]
  {
    if |received| < REPORT_DATA_OFFSET then None
    else
      var n := received[REPORT_LENGTH_OFFSET] as int;
      if REPORT_DATA_OFFSET + n > |received| then None
      else Some(received[REPORT_DATA_OFFSET..REPORT_DATA_OFFSET + n])
  }

  /** One advertising report as a controller delivers it. */
  datatype AdvertisingInfo = AdvertisingInfo(
    evtType: byte,
    addrType: byte,
    addr: seq<byte>,
    data: seq<byte>,
    rssi: byte)

  predicate WellFormedInfo(a: AdvertisingInfo)
  {
    |a.addr| == 6 && |a.data| <= AdPacket.ADV_DATA_MAX
  }

  /** The HCI event packet carrying the single report `a`: packet indicator,
      event code and parameter length, subevent code, number of reports, then
      the report and its RSSI. */
  function ReportEvent(a: AdvertisingInfo): (e: seq<byte>)
    requires WellFormedInfo(a)
    ensures |e| == REPORT_DATA_OFFSET + |a.data| + 1 <= HCI_MAX_EVENT_SIZE
  {
    [HCI_EVENT_PKT, EVT_LE_META_EVENT, (12 + |a.data|) as byte,
     EVT_LE_ADVERTISING_REPORT, 1, a.evtType, a.addrType]
    + a.addr + [|a.data| as byte] + a.data + [a.rssi]
  }

  /** Slicing the report data out of an event gives back the advertised data. */
  lemma ReportDataRoundTrip(a: AdvertisingInfo)
    requires WellFormedInfo(a)
    ensures ReportEvent(a)[SUBEVENT_OFFSET] == EVT_LE_ADVERTISING_REPORT
    ensures ReportData(ReportEvent(a)) == Some(a.data)
  {
    var e := ReportEvent(a);
    assert e[REPORT_LENGTH_OFFSET] as int == |a.data|;
    assert e[REPORT_DATA_OFFSET..REPORT_DATA_OFFSET + |a.data|] == a.data;
  }

  /** An observed beacon report yields the identifier it advertises. */
  lemma ObservedIdentifierRoundTrip(rpi: seq<byte>, a: AdvertisingInfo)
    requires |rpi| == AdPacket.RPI_LEN
    requires WellFormedInfo(a) && a.data == AdPacket.CtPacket(rpi)
    ensures ReportData(ReportEvent(a)).Some?
    ensures |ReportData(ReportEvent(a)).value| == AdPacket.CT_PACKET_LEN
    ensures AdPacket.ExtractRpi(ReportData(ReportEvent(a)).value) == rpi
  {
    ReportDataRoundTrip(a);
    AdPacket.ExtractRpiRoundTrip(rpi);
  }

  /** As written, the 42-byte event of an observed beacon gives 37 bytes to the
      stream instead of its 27-byte payload: the payload, the RSSI and nine
      bytes of the buffer that the read never filled. */
  lemma AsWrittenCopyOfBeaconReport(rpi: seq<byte>, a: AdvertisingInfo, stale: seq<byte>)
    requires |rpi| == AdPacket.RPI_LEN
    requires WellFormedInfo(a) && a.data == AdPacket.CtPacket(rpi)
    requires |stale| == HCI_MAX_EVENT_SIZE
    ensures |ReportEvent(a)| == 42
    ensures AsWrittenCopy(ReadInto(stale, ReportEvent(a)), 42)
         == Some(AdPacket.CtPacket(rpi) + [a.rssi] + stale[42..51])
  {
    AdPacket.CtPacketLayout(rpi);
    var e := ReportEvent(a);
    var buf := ReadInto(stale, e);
    assert buf[REPORT_DATA_OFFSET..42] == a.data + [a.rssi];
    assert buf[42..51] == stale[42..51];
    assert buf[REPORT_DATA_OFFSET..51] == buf[REPORT_DATA_OFFSET..42] + buf[42..51];
  }
}
