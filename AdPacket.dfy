/** The exposure-notification advertising payload that `build_ct_packet`
    writes: three AD structures (Bluetooth Core Specification, Vol 3,
    Part C, section 11) carrying the Flags, the 16-bit service UUID 0xFD6F
    and the service data with the 16-byte rotating identifier. */
module AdPacket {
  import opened Wrappers
  import opened Bytes

  // AD types used by the frame
  const FLAGS_TYPE: byte := 0x01
  const SERVICE_UUID16_TYPE: byte := 0x03
  const SERVICE_DATA16_TYPE: byte := 0x16

  // 0x02 LE General Discoverable | 0x08 and 0x10 simultaneous LE and BR/EDR (controller, host);
  // bit 0x04, BR/EDR Not Supported, is clear
  const CT_FLAGS: byte := 0x1A
  const CT_SERVICE_UUID16: uint16 := 0xFD6F

  const RPI_LEN := 16
  const RPI_OFFSET := 11
  const CT_PACKET_LEN := 27
  /** Size of the `data` field of the LE Set Advertising Data command parameters. */
  const ADV_DATA_MAX := 31

  /** The eleven bytes in front of the identifier, as a peer sees them on air. */
  const CT_HEADER: seq<byte> := [0x02, 0x01, 0x1A, 0x03, 0x03, 0x6F, 0xFD, 0x13, 0x16, 0x6F, 0xFD]

  /** One AD structure: a length byte, then the AD type, then `data`. */
  datatype AdStructure = AdStructure(adType: byte, data: seq<byte>)

  /** The length byte counts the type byte plus the data, so it must fit a byte. */
  predicate Encodable(s: AdStructure)
  {
    |s.data| < 0xFF
  }

  predicate AllEncodable(ads: seq<AdStructure>)
  {
    forall i :: 0 <= i < |ads| ==> Encodable(ads[i])
  }

  function EncodeAd(s: AdStructure): (b: seq<byte>)
    requires Encodable(s)
    ensures |b| == |s.data| + 2
  {
    [(|s.data| + 1) as byte, s.adType] + s.data
  }

  /** The structures one after another; each opens with its length byte and type. */
  function EncodeAds(ads: seq<AdStructure>): (b: seq<byte>)
    requires AllEncodable(ads)
    ensures b == [] <==> ads == []
    ensures ads != [] ==> 2 <= |b| && b[0] as int == |ads[0].data| + 1 && b[1] == ads[0].adType
  {
    if ads == [] then [] else EncodeAd(ads[0]) + EncodeAds(ads[1..])
  }

  /** The three AD structures of the frame, in the order they are written. */
  function CtAdStructures(rpi: seq<byte>): (ads: seq<AdStructure>)
    requires |rpi| == RPI_LEN
    ensures AllEncodable(ads)
  {
    [ AdStructure(FLAGS_TYPE, [CT_FLAGS]),
      AdStructure(SERVICE_UUID16_TYPE, LittleEndian16(CT_SERVICE_UUID16)),
      AdStructure(SERVICE_DATA16_TYPE, LittleEndian16(CT_SERVICE_UUID16) + rpi) ]
  }

  /** Encoding the three structures gives the fixed header, then the identifier. */
  lemma CtAdStructuresEncoding(rpi: seq<byte>)
    requires |rpi| == RPI_LEN
    ensures EncodeAds(CtAdStructures(rpi)) == CT_HEADER + rpi
  {
    var ads := CtAdStructures(rpi);
    assert LittleEndian16(CT_SERVICE_UUID16) == [0x6F, 0xFD];
    assert ads[1..][1..][1..] == [];
    assert EncodeAds(ads[1..][1..]) == EncodeAd(ads[2]) == [0x13, 0x16, 0x6F, 0xFD] + rpi;
    assert EncodeAds(ads[1..]) == [0x03, 0x03, 0x6F, 0xFD] + EncodeAd(ads[2]);
  }

  /** The advertising payload for identifier `rpi`, defined by its AD structures;
      byte for byte it is the fixed header followed by the identifier. */
  function CtPacket(rpi: seq<byte>): (p: seq<byte>)
    requires |rpi| == RPI_LEN
    ensures p == CT_HEADER + rpi
  {
    CtAdStructuresEncoding(rpi);
    EncodeAds(CtAdStructures(rpi))
  }

  /** 27 bytes in all, which fits the 31-byte advertising data field, with the
      service UUID stored low byte first at offsets 5-6 and 9-10. */
  lemma CtPacketLayout(rpi: seq<byte>)
    requires |rpi| == RPI_LEN
    ensures |CtPacket(rpi)| == CT_PACKET_LEN <= ADV_DATA_MAX
    ensures CtPacket(rpi)[RPI_OFFSET..] == rpi
    ensures FromLittleEndian16(CtPacket(rpi)[5..7]) == CT_SERVICE_UUID16
    ensures FromLittleEndian16(CtPacket(rpi)[9..11]) == CT_SERVICE_UUID16
  {
  }

  /** Slices the identifier back out of a payload. */
  function ExtractRpi(p: seq<byte>): (rpi: seq<byte>)
    requires |p| == CT_PACKET_LEN
    ensures |rpi| == RPI_LEN
  {
    p[RPI_OFFSET..CT_PACKET_LEN]
  }

  lemma ExtractRpiRoundTrip(rpi: seq<byte>)
    requires |rpi| == RPI_LEN
    ensures ExtractRpi(CtPacket(rpi)) == rpi
  {
    CtPacketLayout(rpi);
  }

  /** Walks `frame` from `pos` as length-prefixed AD structures and returns the
      offset of each structure. A zero length byte ends the significant part
      early; a structure running past the end makes the frame malformed. */
  function AdStarts(frame: seq<byte>, pos: nat): (r: Option<seq<nat>>)
    decreases |frame| - pos
    ensures r.Some? ==> forall k :: 0 <= k < |r.value| ==> pos <= r.value[k] < |frame|
  {
    if pos > |frame| then None
    else if pos == |frame| || frame[pos] == 0 then Some([])
    else
      match AdStarts(frame, pos + 1 + frame[pos] as int)
      case None => None
      case Some(rest) => Some([pos] + rest)
  }

  /** Where the structures of an encoding start, when it is placed at `pos`. */
  function Starts(ads: seq<AdStructure>, pos: nat): seq<nat>
  {
    if ads == [] then [] else [pos] + Starts(ads[1..], pos + |ads[0].data| + 2)
  }

  /** Walking an encoding lands on the start of every structure and then exactly
      on its end: each length byte counts the type byte plus the data. */
  lemma {:induction false} AdStartsEncoded(prefix: seq<byte>, ads: seq<AdStructure>)
    requires AllEncodable(ads)
    ensures AdStarts(prefix + EncodeAds(ads), |prefix|) == Some(Starts(ads, |prefix|))
    decreases |ads|
  {
    if ads == [] {
      assert prefix + EncodeAds(ads) == prefix;
    } else {
      var head := EncodeAd(ads[0]);
      var next := prefix + head;
      var frame := prefix + EncodeAds(ads);
      assert frame == next + EncodeAds(ads[1..]);
      assert frame[|prefix|] == head[0];
      assert |prefix| + 1 + frame[|prefix|] as int == |next|;
      AdStartsEncoded(next, ads[1..]);
      assert AdStarts(frame, |next|) == Some(Starts(ads[1..], |next|));
    }
  }

  /** The payload walks as structures at offsets 0, 3 and 7 and ends exactly at 27. */
  lemma CtPacketWalk(rpi: seq<byte>)
    requires |rpi| == RPI_LEN
    ensures AdStarts(CtPacket(rpi), 0) == Some([0, 3, 7])
  {
    var ads := CtAdStructures(rpi);
    var empty: seq<byte> := [];
    AdStartsEncoded(empty, ads);
    assert empty + EncodeAds(ads) == CtPacket(rpi);
    assert AdStarts(CtPacket(rpi), 0) == Some(Starts(ads, 0));
    assert ads[1..][1..][1..] == [];
    assert |ads[0].data| == 1 && |ads[1].data| == 2;
    assert Starts(ads[1..][1..], 7) == [7];
    assert Starts(ads[1..], 3) == [3, 7];
    assert Starts(ads, 0) == [0, 3, 7];
  }

  /** Writes the payload for the first 16 bytes of `rpi` into `packet` and
      returns its length; nothing at index 27 or beyond is touched. */
  method BuildCtPacket(packet: array<byte>, rpi: seq<byte>) returns (len: byte)
    requires CT_PACKET_LEN <= packet.Length
    requires RPI_LEN <= |rpi|
    modifies packet
    ensures len as int == CT_PACKET_LEN
    ensures packet[..CT_PACKET_LEN] == CtPacket(rpi[..RPI_LEN])
    ensures packet[CT_PACKET_LEN..] == old(packet[CT_PACKET_LEN..])
  {
    // Flags structure: length 2, type, value
    packet[0] := 0x02;
    packet[1] := FLAGS_TYPE;
    packet[2] := CT_FLAGS;
    // complete list of 16-bit service UUIDs: length 3, type, UUID low byte first
    packet[3] := 0x03;
    packet[4] := SERVICE_UUID16_TYPE;
    var uuid := LittleEndian16(CT_SERVICE_UUID16);
    packet[5], packet[6] := uuid[0], uuid[1];
    // service data: length 19, type, UUID, then the identifier
    packet[7] := 0x13;
    packet[8] := SERVICE_DATA16_TYPE;
    packet[9], packet[10] := uuid[0], uuid[1];
    for i := 0 to RPI_LEN
      invariant packet[..RPI_OFFSET] == CT_HEADER
      invariant forall k :: 0 <= k < i ==> packet[RPI_OFFSET + k] == rpi[k]
      invariant packet[CT_PACKET_LEN..] == old(packet[CT_PACKET_LEN..])
    {
      packet[RPI_OFFSET + i] := rpi[i];
    }
    CtPacketLayout(rpi[..RPI_LEN]);
    assert packet[..CT_PACKET_LEN] == CT_HEADER + rpi[..RPI_LEN];
    return CT_PACKET_LEN as byte;
  }
}
