/**
 * The raw-frame feature parser: a fixed-offset decode of an Ethernet II header, an IPv4
 * header (section 3.1 of RFC 791) and a TCP header (section 3.1 of RFC 793) into a vector
 * of ten numbers, and the window aggregate built from such vectors.
 *
 * Each header is read with big-endian `struct.unpack`, which fails unless it is handed
 * exactly as many bytes as its format needs; a slice past the end of the frame is short,
 * so a short frame fails precisely there and the whole extraction yields `None`.
 */
module PacketAnalysis {
  import opened Wrappers
  import opened PySeq
  import opened Packets
  import opened Statistics

  /** The statistics of the window aggregate, in block order. */
  const AnalyzerStats: seq<StatKind> := [Mean, Std, Maximum, Minimum, Median]

  /** The IPv4 protocol number of TCP. */
  const TcpProtocol: int := 6

  // ---------------------------------------------------------------------------
  // Big-endian integers (struct format characters `H` and `L` after `!`)
  // ---------------------------------------------------------------------------

  function U16(hi: byte, lo: byte): (v: int)
    ensures 0 <= v < 0x1_0000
  {
    hi as int * 0x100 + lo as int
  }

  function U32(b0: byte, b1: byte, b2: byte, b3: byte): (v: int)
    ensures 0 <= v < 0x1_0000_0000
  {
    U16(b0, b1) * 0x1_0000 + U16(b2, b3)
  }

  /** The two bytes of a 16-bit value, most significant first (`struct.pack('!H', v)`). */
  function Bytes16(v: int): (b: seq<byte>)
    requires 0 <= v < 0x1_0000
    ensures |b| == 2 && U16(b[0], b[1]) == v
  {
    [(v / 0x100) as byte, (v % 0x100) as byte]
  }

  /** The four bytes of a 32-bit value, most significant first (`struct.pack('!L', v)`). */
  function Bytes32(v: int): (b: seq<byte>)
    requires 0 <= v < 0x1_0000_0000
    ensures |b| == 4 && U32(b[0], b[1], b[2], b[3]) == v
  {
    Bytes16(v / 0x1_0000) + Bytes16(v % 0x1_0000)
  }

  /**
   * `socket.ntohs` on a little-endian host: the two bytes of the value swap places.
   * The extractor applies it to a value that `struct.unpack('!...H')` has already read
   * in network order.
   */
  function Ntohs(v: int): (r: int)
    requires 0 <= v < 0x1_0000
    ensures 0 <= r < 0x1_0000
  {
    (v % 0x100) * 0x100 + v / 0x100
  }

  lemma NtohsSwaps(hi: byte, lo: byte)
    ensures Ntohs(U16(hi, lo)) == U16(lo, hi)
  {
    var v := U16(hi, lo);
    assert v == hi as int * 0x100 + lo as int;
    assert v / 0x100 == hi as int;
    assert v % 0x100 == lo as int;
  }

  // ---------------------------------------------------------------------------
  // Headers, as `struct.unpack` returns them
  // ---------------------------------------------------------------------------

  /** `struct.unpack('!6s6sH', ...)`: destination address, source address, EtherType. */
  datatype EthernetHeader = EthernetHeader(dst: seq<byte>, src: seq<byte>, etherType: int)

  /** `struct.unpack('!BBHHHBBH4s4s', ...)`: the fixed 20-byte IPv4 header of RFC 791. */
  datatype Ipv4Header = Ipv4Header(
    versionIhl: byte, tos: byte, totalLength: int, identification: int,
    flagsFragment: int, ttl: byte, protocol: byte, checksum: int,
    src: seq<byte>, dst: seq<byte>)

  /** `struct.unpack('!HHLLBBHHH', ...)`: the fixed 20-byte TCP header of RFC 793. */
  datatype TcpHeader = TcpHeader(
    srcPort: int, dstPort: int, seqNumber: int, ackNumber: int,
    dataOffset: byte, flags: byte, window: int, checksum: int, urgent: int)

  predicate ValidEthernet(h: EthernetHeader) {
    |h.dst| == 6 && |h.src| == 6 && 0 <= h.etherType < 0x1_0000
  }

  predicate ValidIpv4(h: Ipv4Header) {
    0 <= h.totalLength < 0x1_0000 && 0 <= h.identification < 0x1_0000 &&
    0 <= h.flagsFragment < 0x1_0000 && 0 <= h.checksum < 0x1_0000 &&
    |h.src| == 4 && |h.dst| == 4
  }

  predicate ValidTcp(h: TcpHeader) {
    0 <= h.srcPort < 0x1_0000 && 0 <= h.dstPort < 0x1_0000 &&
    0 <= h.seqNumber < 0x1_0000_0000 && 0 <= h.ackNumber < 0x1_0000_0000 &&
    0 <= h.window < 0x1_0000 && 0 <= h.checksum < 0x1_0000 && 0 <= h.urgent < 0x1_0000
  }

  /** Unpacking fails unless the buffer has exactly the 14 bytes of the format. */
  function UnpackEthernet(b: seq<byte>): (h: Option<EthernetHeader>)
    ensures h.Some? <==> |b| == 14
    ensures h.Some? ==> ValidEthernet(h.value)
  {
    if |b| != 14 then None
    else Some(EthernetHeader(b[0..6], b[6..12], U16(b[12], b[13])))
  }

  /** Unpacking fails unless the buffer has exactly the 20 bytes of the format. */
  function UnpackIpv4(b: seq<byte>): (h: Option<Ipv4Header>)
    ensures h.Some? <==> |b| == 20
    ensures h.Some? ==> ValidIpv4(h.value)
  {
    if |b| != 20 then None
    else Some(Ipv4Header(b[0], b[1], U16(b[2], b[3]), U16(b[4], b[5]), U16(b[6], b[7]),
                         b[8], b[9], U16(b[10], b[11]), b[12..16], b[16..20]))
  }

  /** Unpacking fails unless the buffer has exactly the 20 bytes of the format. */
  function UnpackTcp(b: seq<byte>): (h: Option<TcpHeader>)
    ensures h.Some? <==> |b| == 20
    ensures h.Some? ==> ValidTcp(h.value)
  {
    if |b| != 20 then None
    else Some(TcpHeader(U16(b[0], b[1]), U16(b[2], b[3]), U32(b[4], b[5], b[6], b[7]),
                        U32(b[8], b[9], b[10], b[11]), b[12], b[13], U16(b[14], b[15]),
                        U16(b[16], b[17]), U16(b[18], b[19])))
  }

  /** `struct.pack('!6s6sH', ...)`, the inverse of `UnpackEthernet`. */
  function PackEthernet(h: EthernetHeader): (b: seq<byte>)
    requires ValidEthernet(h)
    ensures |b| == 14
  {
    h.dst + h.src + Bytes16(h.etherType)
  }

  /** `struct.pack('!BBHHHBBH4s4s', ...)`, the inverse of `UnpackIpv4`. */
  function PackIpv4(h: Ipv4Header): (b: seq<byte>)
    requires ValidIpv4(h)
    ensures |b| == 20
  {
    [h.versionIhl, h.tos] + Bytes16(h.totalLength) + Bytes16(h.identification) +
    Bytes16(h.flagsFragment) + [h.ttl, h.protocol] + Bytes16(h.checksum) + h.src + h.dst
  }

  /** `struct.pack('!HHLLBBHHH', ...)`, the inverse of `UnpackTcp`. */
  function PackTcp(h: TcpHeader): (b: seq<byte>)
    requires ValidTcp(h)
    ensures |b| == 20
  {
    Bytes16(h.srcPort) + Bytes16(h.dstPort) + Bytes32(h.seqNumber) + Bytes32(h.ackNumber) +
    [h.dataOffset, h.flags] + Bytes16(h.window) + Bytes16(h.checksum) + Bytes16(h.urgent)
  }

  lemma EthernetRoundTrip(h: EthernetHeader)
    requires ValidEthernet(h)
    ensures UnpackEthernet(PackEthernet(h)) == Some(h)
  {
    var b := PackEthernet(h);
    assert b[0..6] == h.dst && b[6..12] == h.src;
  }

  lemma Ipv4RoundTrip(h: Ipv4Header)
    requires ValidIpv4(h)
    ensures UnpackIpv4(PackIpv4(h)) == Some(h)
  {
    var b := PackIpv4(h);
    assert b[12..16] == h.src && b[16..20] == h.dst;
  }

  lemma TcpRoundTrip(h: TcpHeader)
    requires ValidTcp(h)
    ensures UnpackTcp(PackTcp(h)) == Some(h)
  {
  }

  /** Packing what 14 bytes unpack to gives the bytes back, so the Ethernet codec is a bijection. */
  lemma EthernetBytesRoundTrip(b: seq<byte>)
    requires |b| == 14
    ensures PackEthernet(UnpackEthernet(b).value) == b
  {
  }

  /** The two bytes of a big-endian 16-bit value are the bytes it was read from. */
  lemma Bytes16OfU16(hi: byte, lo: byte)
    ensures Bytes16(U16(hi, lo)) == [hi, lo]
  {
    var v := U16(hi, lo);
    assert v / 0x100 == hi as int && v % 0x100 == lo as int;
  }

  /** The four bytes of a big-endian 32-bit value are the bytes it was read from. */
  lemma Bytes32OfU32(b0: byte, b1: byte, b2: byte, b3: byte)
    ensures Bytes32(U32(b0, b1, b2, b3)) == [b0, b1, b2, b3]
  {
    var v := U32(b0, b1, b2, b3);
    assert v / 0x1_0000 == U16(b0, b1) && v % 0x1_0000 == U16(b2, b3);
    Bytes16OfU16(b0, b1);
    Bytes16OfU16(b2, b3);
  }

  /** Packing what 20 bytes unpack to gives the bytes back, so the IPv4 codec is a bijection. */
  lemma Ipv4BytesRoundTrip(b: seq<byte>)
    requires |b| == 20
    ensures PackIpv4(UnpackIpv4(b).value) == b
  {
    Bytes16OfU16(b[2], b[3]);
    Bytes16OfU16(b[4], b[5]);
    Bytes16OfU16(b[6], b[7]);
    Bytes16OfU16(b[10], b[11]);
    assert b == [b[0], b[1]] + [b[2], b[3]] + [b[4], b[5]] + [b[6], b[7]] + [b[8], b[9]] +
                [b[10], b[11]] + b[12..16] + b[16..20];
  }

  /** Packing what 20 bytes unpack to gives the bytes back, so the TCP codec is a bijection. */
  lemma TcpBytesRoundTrip(b: seq<byte>)
    requires |b| == 20
    ensures PackTcp(UnpackTcp(b).value) == b
  {
    Bytes16OfU16(b[0], b[1]);
    Bytes16OfU16(b[2], b[3]);
    Bytes32OfU32(b[4], b[5], b[6], b[7]);
    Bytes32OfU32(b[8], b[9], b[10], b[11]);
    Bytes16OfU16(b[14], b[15]);
    Bytes16OfU16(b[16], b[17]);
    Bytes16OfU16(b[18], b[19]);
    assert b == [b[0], b[1]] + [b[2], b[3]] + [b[4], b[5], b[6], b[7]] + [b[8], b[9], b[10], b[11]] +
                [b[12], b[13]] + [b[14], b[15]] + [b[16], b[17]] + [b[18], b[19]];
  }

  // ---------------------------------------------------------------------------
  // The feature vector of one frame
  // ---------------------------------------------------------------------------

  /** Bit mask `& 0x1FFF` of a 16-bit field: its low 13 bits, the IPv4 fragment offset. */
  function FragmentOffset(flagsFragment: int): int {
    flagsFragment % 0x2000
  }

  /**
   * The ten entries: packet size, protocol, TTL, TCP flags, source port, destination port,
   * window, urgent pointer, fragment offset and type of service. A header that was not
   * parsed leaves zeros.
   */
  function Vector(size: int, ip: Option<Ipv4Header>, tcp: Option<TcpHeader>): (v: seq<int>)
    ensures |v| == Width
  {
    [ size,
      if ip.Some? then ip.value.protocol as int else 0,
      if ip.Some? then ip.value.ttl as int else 0,
      if tcp.Some? then tcp.value.flags as int else 0,
      if tcp.Some? then tcp.value.srcPort else 0,
      if tcp.Some? then tcp.value.dstPort else 0,
      if tcp.Some? then tcp.value.window else 0,
      if tcp.Some? then tcp.value.urgent else 0,
      if ip.Some? then FragmentOffset(ip.value.flagsFragment) else 0,
      if ip.Some? then ip.value.tos as int else 0 ]
  }

  /**
   * The decode of one raw frame. The Ethernet header is bytes 0-13; when its EtherType,
   * after `ntohs`, equals 8 the IPv4 header is bytes 14-33; when the IPv4 protocol is TCP
   * and the frame is longer than 34 bytes the TCP header is bytes 34-53, at that fixed
   * offset whatever the IPv4 header length says.
   */
  function FeaturesOf(raw: seq<byte>): (r: Option<seq<int>>)
    ensures |raw| < 14 ==> r.None?
    ensures r.Some? ==> |r.value| == Width && r.value[0] == |raw|
  {
    match UnpackEthernet(Slice(raw, 0, 14))
    case None => None
    case Some(eth) =>
      if Ntohs(eth.etherType) != 8 then Some(Vector(|raw|, None, None))
      else
        match UnpackIpv4(Slice(raw, 14, 34))
        case None => None
        case Some(ip) =>
          if ip.protocol as int == TcpProtocol && |raw| > 34 then
            match UnpackTcp(Slice(raw, 34, 54))
            case None => None
            case Some(tcp) => Some(Vector(|raw|, Some(ip), Some(tcp)))
          else Some(Vector(|raw|, Some(ip), None))
  }

  /** A packet without `raw_data` raises `KeyError`, which the extractor turns into `None`. */
  function PacketFeatures(packet: PacketRecord): Option<seq<int>> {
    if packet.rawData.None? then None else FeaturesOf(packet.rawData.value)
  }

  /** The IPv4 entries of `extract_features`: protocol, TTL, TOS and fragment offset. */
  method WriteIpv4(features: array<int>, ip: Ipv4Header)
    requires features.Length == Width && features[..] == Vector(features[0], None, None)
    modifies features
    ensures features[..] == Vector(old(features[0]), Some(ip), None)
  {
    features[1] := ip.protocol as int;
    features[2] := ip.ttl as int;
    features[9] := ip.tos as int;
    features[8] := FragmentOffset(ip.flagsFragment);
  }

  /** The TCP entries of `extract_features`: flags, both ports, window and urgent pointer. */
  method WriteTcp(features: array<int>, ip: Ipv4Header, tcp: TcpHeader)
    requires features.Length == Width && features[..] == Vector(features[0], Some(ip), None)
    modifies features
    ensures features[..] == Vector(old(features[0]), Some(ip), Some(tcp))
  {
    features[3] := tcp.flags as int;
    features[4] := tcp.srcPort;
    features[5] := tcp.dstPort;
    features[6] := tcp.window;
    features[7] := tcp.urgent;
  }

  /**
   * `extract_features`: fills a fresh zero vector entry by entry as the headers are
   * unpacked; a failed unpack abandons the vector and yields `None`.
   */
  method ExtractFeatures(packet: PacketRecord) returns (r: Option<seq<int>>)
    ensures r == PacketFeatures(packet)
  {
    if packet.rawData.None? {
      return None;
    }
    var raw := packet.rawData.value;
    var eth := UnpackEthernet(Slice(raw, 0, 14));
    if eth.None? {
      return None;
    }
    var ethProtocol := Ntohs(eth.value.etherType);
    var features := new int[Width](_ => 0);
    features[0] := |raw|;
    assert features[..] == Vector(|raw|, None, None);
    if ethProtocol == 8 {
      var iph := UnpackIpv4(Slice(raw, 14, 34));
      if iph.None? {
        return None;
      }
      var ip := iph.value;
      WriteIpv4(features, ip);
      if ip.protocol as int == TcpProtocol && |raw| > 34 {
        var tcph := UnpackTcp(Slice(raw, 34, 54));
        if tcph.None? {
          return None;
        }
        WriteTcp(features, ip, tcph.value);
      }
    }
    return Some(features[..]);
  }

  // ---------------------------------------------------------------------------
  // What the decode reads, by byte offset
  // ---------------------------------------------------------------------------

  /** Bytes 12-13 hold EtherType 0x0800 (IPv4, RFC 894). */
  predicate IsIpv4Frame(raw: seq<byte>) {
    |raw| >= 14 && raw[12] == 0x08 && raw[13] == 0x00
  }

  /** On a little-endian host the IPv4 branch is taken exactly for EtherType 0x0800. */
  lemma Ipv4BranchIffEtherType(raw: seq<byte>)
    requires |raw| >= 14
    ensures Ntohs(U16(raw[12], raw[13])) == 8 <==> IsIpv4Frame(raw)
  {
    NtohsSwaps(raw[12], raw[13]);
  }

  /** Any frame of at least 14 bytes that is not IPv4 gives its length and nine zeros. */
  lemma NonIpv4Frame(raw: seq<byte>)
    requires |raw| >= 14 && !IsIpv4Frame(raw)
    ensures FeaturesOf(raw) == Some([|raw|, 0, 0, 0, 0, 0, 0, 0, 0, 0])
  {
    Ipv4BranchIffEtherType(raw);
    assert Slice(raw, 0, 14)[12..14] == raw[12..14];
  }

  /** One hundred zero bytes decode to a vector: EtherType 0 is not IPv4. */
  lemma ZeroFrame()
    ensures FeaturesOf(seq(100, _ => 0 as byte)) == Some([100, 0, 0, 0, 0, 0, 0, 0, 0, 0])
  {
    NonIpv4Frame(seq(100, _ => 0 as byte));
  }

  /** An IPv4 frame shorter than 34 bytes cannot hold its IPv4 header. */
  lemma ShortIpv4Frame(raw: seq<byte>)
    requires IsIpv4Frame(raw) && |raw| < 34
    ensures FeaturesOf(raw).None?
  {
    Ipv4BranchIffEtherType(raw);
  }

  /** The IPv4 entries come from the header bytes that RFC 791 assigns to them. */
  lemma Ipv4Fields(raw: seq<byte>)
    requires IsIpv4Frame(raw) && |raw| >= 34 && FeaturesOf(raw).Some?
    ensures var v := FeaturesOf(raw).value;
      v[9] == raw[15] as int &&
      v[2] == raw[22] as int &&
      v[1] == raw[23] as int &&
      v[8] == U16(raw[20], raw[21]) % 0x2000 && 0 <= v[8] < 8192
  {
    Ipv4BranchIffEtherType(raw);
    assert Slice(raw, 14, 34) == raw[14..34];
  }

  /** An IPv4 frame of at least 34 bytes decodes unless it is TCP and cut short of the TCP header. */
  lemma Ipv4FrameDecodes(raw: seq<byte>)
    requires IsIpv4Frame(raw) && |raw| >= 34
    ensures FeaturesOf(raw).Some? <==> !(raw[23] as int == TcpProtocol && 34 < |raw| < 54)
  {
    Ipv4BranchIffEtherType(raw);
    assert Slice(raw, 14, 34) == raw[14..34];
  }

  /** A TCP-over-IPv4 frame of 35 to 53 bytes has a truncated TCP header. */
  lemma ShortTcpFrame(raw: seq<byte>)
    requires IsIpv4Frame(raw) && 35 <= |raw| < 54 && raw[23] as int == TcpProtocol
    ensures FeaturesOf(raw).None?
  {
    Ipv4FrameDecodes(raw);
  }

  /** The TCP entries come from fixed offset 34 on, as RFC 793 lays out the header. */
  lemma TcpFields(raw: seq<byte>)
    requires IsIpv4Frame(raw) && |raw| >= 54 && raw[23] as int == TcpProtocol
    ensures FeaturesOf(raw).Some?
    ensures var v := FeaturesOf(raw).value;
      v[4] == U16(raw[34], raw[35]) &&
      v[5] == U16(raw[36], raw[37]) &&
      v[3] == raw[47] as int &&
      v[6] == U16(raw[48], raw[49]) &&
      v[7] == U16(raw[52], raw[53])
  {
    Ipv4BranchIffEtherType(raw);
    assert Slice(raw, 14, 34) == raw[14..34];
    assert Slice(raw, 34, 54) == raw[34..54];
  }

  /** When the TCP branch is not taken, the five TCP entries stay zero. */
  lemma NoTcpFields(raw: seq<byte>)
    requires IsIpv4Frame(raw) && |raw| >= 34 && !(raw[23] as int == TcpProtocol && |raw| > 34)
    ensures FeaturesOf(raw).Some? && FeaturesOf(raw).value[3..8] == [0, 0, 0, 0, 0]
  {
    Ipv4BranchIffEtherType(raw);
    assert Slice(raw, 14, 34) == raw[14..34];
  }

  // ---------------------------------------------------------------------------
  // The window aggregate
  // ---------------------------------------------------------------------------

  /** numpy holds the vectors as floating-point numbers. */
  function ToReals(v: seq<int>): (r: seq<real>)
    ensures |r| == |v|
  {
    seq(|v|, i requires 0 <= i < |v| => v[i] as real)
  }

  /** The vectors of the packets that decode, in packet order; the others are skipped. */
  function ParsedRows(packets: seq<PacketRecord>): (rows: seq<seq<real>>)
    ensures Rectangular(rows) && |rows| <= |packets|
  {
    if packets == [] then []
    else
      var rest := ParsedRows(packets[..|packets| - 1]);
      match PacketFeatures(packets[|packets| - 1])
      case None => rest
      case Some(v) => rest + [ToReals(v)]
  }

  /** An undecodable packet contributes nothing to the window. */
  lemma SkipsUndecodable(packets: seq<PacketRecord>, p: PacketRecord)
    requires PacketFeatures(p).None?
    ensures ParsedRows(packets + [p]) == ParsedRows(packets)
  {
    assert (packets + [p])[..|packets|] == packets;
  }

  /** A decodable packet contributes its vector at the end. */
  lemma AppendsDecodable(packets: seq<PacketRecord>, p: PacketRecord)
    requires PacketFeatures(p).Some?
    ensures ParsedRows(packets + [p]) == ParsedRows(packets) + [ToReals(PacketFeatures(p).value)]
  {
    assert (packets + [p])[..|packets|] == packets;
  }

  /**
   * `create_traffic_features` of the analyzer: `None` for no packets or when none decodes,
   * otherwise five blocks of ten: mean, std, max, min and median of each column.
   */
  function TrafficFeatures(packets: seq<PacketRecord>, stat: Statistic): (r: Option<seq<real>>)
    ensures r.None? <==> packets == [] || ParsedRows(packets) == []
    ensures r.Some? ==> |r.value| == 50
    ensures r.Some? ==> forall k :: 0 <= k < |AnalyzerStats| ==>
      r.value[Width * k..Width * (k + 1)] == StatBlock(ParsedRows(packets), AnalyzerStats[k], stat)
  {
    if |packets| == 0 then None
    else
      var rows := ParsedRows(packets);
      if |rows| == 0 then None else Some(Aggregate(rows, AnalyzerStats, stat))
  }

  /**
   * The loop of `create_traffic_features`: decode each packet, keep the vectors that
   * decode, then aggregate. `windowSize` is accepted and never consulted.
   */
  method CreateTrafficFeatures(packets: seq<PacketRecord>, windowSize: int, stat: Statistic)
    returns (r: Option<seq<real>>)
    ensures r == TrafficFeatures(packets, stat)
  {
    if |packets| == 0 {
      return None;
    }
    var features: seq<seq<real>> := [];
    var i := 0;
    while i < |packets|
      invariant 0 <= i <= |packets|
      invariant features == ParsedRows(packets[..i])
    {
      var feat := ExtractFeatures(packets[i]);
      assert packets[..i + 1] == packets[..i] + [packets[i]];
      if feat.Some? {
        AppendsDecodable(packets[..i], packets[i]);
        features := features + [ToReals(feat.value)];
      } else {
        SkipsUndecodable(packets[..i], packets[i]);
      }
      i := i + 1;
    }
    assert packets[..i] == packets;
    if |features| == 0 {
      return None;
    }
    return Some(Aggregate(features, AnalyzerStats, stat));
  }
}
