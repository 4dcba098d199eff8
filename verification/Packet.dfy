/** Parsing of uplink packets into flow and fragment keys. */
module Packet {
  import opened Checksum
  import opened Wrappers

  const ICMP: Byte := 1
  const TCP: Byte := 6
  const UDP: Byte := 17
  const MIN_HEADER := 20

  /** The largest payload end an IPv4 fragment may reach. */
  const MAX_PAYLOAD_END := 65535 - 20

  datatype FlowKey = FlowKey(atype: Byte, proto: Byte, src: seq<Byte>, sport: Word, dst: seq<Byte>, dport: Word)

  /** Identification is scoped to one source, destination and protocol (section 3.2 of RFC 791). */
  datatype FragmentKey = FragmentKey(src: seq<Byte>, dst: seq<Byte>, proto: Byte, id: Word)

  datatype PacketInfo = PacketInfo(
    key: FlowKey, srcPort: Word, dstPort: Word, proto: Byte,
    fragment: FragmentKey, offset: nat, payloadBytes: nat, more: bool)
  {
    predicate Fragmented() {
      more || offset != 0
    }
  }

  const NO_INFO := PacketInfo(FlowKey(0, 0, [0, 0, 0, 0], 0, [0, 0, 0, 0], 0), 0, 0, 0,
                              FragmentKey([0, 0, 0, 0], [0, 0, 0, 0], 0, 0), 0, 0, false)

  datatype ParseError =
    | NotIPv4Header | BadLength | ReservedFlag | BadFragmentLayout
    | BadTCPHeader | BadUDPHeader | BadICMPHeader | UnsupportedProtocol

  /** The info read so far comes back with an error too: the caller drops the fragment
      association it names. */
  datatype Parsed = Parsed(info: PacketInfo, error: Option<ParseError>)

  /** The fields of the IPv4 header, before any length is checked. */
  function HeaderInfo(pkt: seq<Byte>): PacketInfo
    requires |pkt| >= MIN_HEADER
  {
    var flags := U16(pkt, 6);
    PacketInfo(FlowKey(4, pkt[9], pkt[12..16], 0, pkt[16..20], 0), 0, 0, pkt[9],
               FragmentKey(pkt[12..16], pkt[16..20], pkt[9], U16(pkt, 4)),
               flags % 0x2000 * 8, 0, flags / 0x2000 % 2 == 1)
  }

  predicate SupportedLayout(p: PacketInfo, ihl: nat, dontFragment: bool) {
    && ihl == 20 && !dontFragment && p.payloadBytes != 0
    && (p.more ==> p.payloadBytes % 8 == 0)
    && p.offset + p.payloadBytes <= MAX_PAYLOAD_END
    && (p.proto == TCP || p.proto == UDP)
  }

  function ParsePacket(pkt: seq<Byte>): Parsed {
    if |pkt| < MIN_HEADER || pkt[0] / 16 != 4 then Parsed(NO_INFO, Some(NotIPv4Header))
    else
      var ihl := pkt[0] % 16 * 4;
      var total := U16(pkt, 2);
      var flags := U16(pkt, 6);
      var p := HeaderInfo(pkt);
      if ihl < 20 || total != |pkt| || total < ihl then Parsed(p, Some(BadLength))
      else
        var p := p.(payloadBytes := total - ihl);
        if flags / 0x8000 != 0 then Parsed(p, Some(ReservedFlag))
        else if p.Fragmented() && !SupportedLayout(p, ihl, flags / 0x4000 % 2 == 1) then
          Parsed(p, Some(BadFragmentLayout))
        else if p.offset != 0 then Parsed(p, None)
        else ParseTransport(p, pkt[ihl..])
  }

  function ParseTransport(p: PacketInfo, payload: seq<Byte>): Parsed {
    if p.proto == TCP then
      if |payload| < 20 || payload[12] / 16 * 4 < 20 || payload[12] / 16 * 4 > |payload| then
        Parsed(p, Some(BadTCPHeader))
      else Parsed(WithPorts(p, payload), None)
    else if p.proto == UDP then
      if |payload| < 8 then Parsed(p, Some(BadUDPHeader))
      else
        var n := U16(payload, 4);
        if n < 8 || (!p.more && n != |payload|) || (p.more && n < |payload|) then Parsed(p, Some(BadUDPHeader))
        else Parsed(WithPorts(p, payload), None)
    else if p.proto == ICMP then
      if |payload| < 8 then Parsed(p, Some(BadICMPHeader)) else Parsed(p, None)
    else Parsed(p, Some(UnsupportedProtocol))
  }

  function WithPorts(p: PacketInfo, payload: seq<Byte>): PacketInfo
    requires |payload| >= 4
  {
    var sport, dport := U16(payload, 0), U16(payload, 2);
    p.(srcPort := sport, dstPort := dport, key := p.key.(sport := sport, dport := dport))
  }

  // ---- The same, read off the bytes

  function HeaderLength(pkt: seq<Byte>): nat
    requires pkt != []
  {
    pkt[0] % 16 * 4
  }

  /** A transport header that is whole and whose own length field agrees with the packet. */
  predicate TransportFits(pkt: seq<Byte>, at: nat, more: bool)
    requires MIN_HEADER <= at <= |pkt|
  {
    var size := |pkt| - at;
    match pkt[9] as int
    case 6 => size >= 20 && 20 <= pkt[at + 12] / 16 * 4 <= size
    case 17 => size >= 8 && U16(pkt, at + 4) >= 8 && if more then U16(pkt, at + 4) >= size else U16(pkt, at + 4) == size
    case 1 => size >= 8
    case _ => false
  }

  /** An IPv4 packet the tunnel carries: one that fills the buffer, whole or a fragment without
      options of a TCP or UDP datagram, with a whole transport header if it begins one. */
  predicate Acceptable(pkt: seq<Byte>) {
    && |pkt| >= 20 && pkt[0] / 16 == 4 && 20 <= HeaderLength(pkt) <= |pkt| && U16(pkt, 2) == |pkt|
    && pkt[6] < 0x80
    && var at, offset, more := HeaderLength(pkt), U16(pkt, 6) % 0x2000 * 8, pkt[6] / 0x20 % 2 == 1;
       && (more || offset != 0 ==>
             && at == 20 && pkt[6] / 0x40 % 2 == 0 && |pkt| > 20 && (more ==> (|pkt| - 20) % 8 == 0)
             && offset + |pkt| - 20 <= 65515 && (pkt[9] == 6 || pkt[9] == 17))
       && (offset == 0 ==> TransportFits(pkt, at, more))
  }

  /** What is known of a packet once its header is read, whatever else is wrong with it. */
  predicate ReadFrom(p: PacketInfo, pkt: seq<Byte>) {
    |pkt| >= 20 && pkt[0] / 16 == 4 ==>
      && p.key.atype == 4 && p.proto == p.key.proto == p.fragment.proto == pkt[9]
      && p.key.src == p.fragment.src == pkt[12..16] && p.key.dst == p.fragment.dst == pkt[16..20]
      && p.fragment.id == U16(pkt, 4)
      && p.offset == U16(pkt, 6) % 0x2000 * 8 && (p.more <==> pkt[6] / 0x20 % 2 == 1)
  }

  /** The whole description of an acceptable packet.  Ports are zero where there are none. */
  predicate Describes(p: PacketInfo, pkt: seq<Byte>)
    requires Acceptable(pkt)
  {
    var at := HeaderLength(pkt);
    var ported := U16(pkt, 6) % 0x2000 == 0 && pkt[9] != 1;
    && ReadFrom(p, pkt) && p.payloadBytes == |pkt| - at
    && p.srcPort == p.key.sport == (if ported then U16(pkt, at) else 0)
    && p.dstPort == p.key.dport == (if ported then U16(pkt, at + 2) else 0)
  }

  lemma FlagBits(pkt: seq<Byte>)
    requires |pkt| >= 20
    ensures var flags := U16(pkt, 6);
            && (flags / 0x8000 == 0 <==> pkt[6] < 0x80)
            && flags / 0x4000 % 2 == pkt[6] / 0x40 % 2 && flags / 0x2000 % 2 == pkt[6] / 0x20 % 2
  {
  }

  lemma TransportExact(pkt: seq<Byte>, p: PacketInfo)
    requires |pkt| >= 20 && 20 <= HeaderLength(pkt) <= |pkt| && p.proto == pkt[9]
    ensures var at := HeaderLength(pkt);
            var parsed := ParseTransport(p, pkt[at..]);
            && (parsed.error.None? <==> TransportFits(pkt, at, p.more))
            && (parsed.error.None? ==>
                  parsed.info == if pkt[9] == 1 then p
                                 else p.(srcPort := U16(pkt, at), dstPort := U16(pkt, at + 2),
                                         key := p.key.(sport := U16(pkt, at), dport := U16(pkt, at + 2))))
            && (parsed.error.Some? ==> parsed.info == p)
  {
  }

  /** Parsing accepts exactly the acceptable packets, and reads every field from its place. */
  lemma ParsesFromBytes(pkt: seq<Byte>)
    ensures ParsePacket(pkt).error.None? <==> Acceptable(pkt)
    ensures ReadFrom(ParsePacket(pkt).info, pkt)
    ensures Acceptable(pkt) ==> Describes(ParsePacket(pkt).info, pkt)
  {
    hide ParseTransport, TransportFits;
    if |pkt| >= 20 {
      FlagBits(pkt);
      if 20 <= HeaderLength(pkt) <= |pkt| {
        TransportExact(pkt, HeaderInfo(pkt).(payloadBytes := |pkt| - HeaderLength(pkt)));
      }
    }
  }

  /** What an accepted packet promises to the flow table. */
  predicate WellFormed(p: PacketInfo) {
    && p.fragment.src == p.key.src && p.fragment.dst == p.key.dst && p.fragment.proto == p.key.proto
    && p.proto == p.key.proto && p.dstPort == p.key.dport && p.srcPort == p.key.sport
    && (p.Fragmented() ==>
          && p.payloadBytes > 0 && p.offset % 8 == 0 && (p.more ==> p.payloadBytes % 8 == 0)
          && p.offset + p.payloadBytes <= MAX_PAYLOAD_END
          && (p.proto == TCP || p.proto == UDP))
  }

  /** A packet is accepted only with consistent keys and, if it is a fragment, a layout that can
      be tiled in units of eight bytes inside one datagram. */
  lemma AcceptedIsWellFormed(pkt: seq<Byte>)
    ensures ParsePacket(pkt).error.None? ==>
              WellFormed(ParsePacket(pkt).info) && MIN_HEADER <= |pkt| <= 0xFFFF && ParsePacket(pkt).info.payloadBytes <= |pkt|
  {
  }
}
