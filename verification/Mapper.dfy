/** The address mapper between the peer's address and the campus tunnel address.

    The functions say which bytes of a packet a rewrite replaces; the lemmas say what
    that does to every checksum covering those bytes; the methods rewrite a buffer in
    place and are proved to leave exactly the bytes the functions describe.
 */
module Mapper {
  import opened Checksum
  import opened Wrappers

  type Addr = a: seq<Byte> | |a| == 4 witness [0, 0, 0, 0]

  const NO_ADDR: Addr := [0, 0, 0, 0]

  const MIN_HEADER := 20
  const SRC := 12
  const DST := 16
  const HEADER_CHECKSUM := 10
  const TCP_CHECKSUM := 16
  const UDP_CHECKSUM := 6
  const ICMP_MIN := 8
  const ICMP_CHECKSUM := 2
  const EMBEDDED := 8
  const TCP: Byte := 6
  const UDP: Byte := 17
  const ICMP: Byte := 1

  datatype Header = Header(headerLen: nat, totalLen: Word, protocol: Byte, fragField: Word) {
    function FragmentOffset(): nat {
      fragField % 0x2000
    }
  }

  datatype Error =
    | TooShort
    | NotIPv4(version: nat)
    | BadHeaderLength(length: nat)
    | SourceNotPeer
    | DestinationNotTunnel
    | NoTunnelAddress

  // ---- Parsing

  function ParseIPv4(b: seq<Byte>): (r: Result<Header, Error>)
    ensures r.Success? ==> MIN_HEADER <= r.value.headerLen <= |b| && r.value.headerLen % 4 == 0
    ensures r.Success? ==> r.value.headerLen <= 60 && b[0] != 0
  {
    if |b| < MIN_HEADER then Failure(TooShort)
    else if b[0] / 16 != 4 then Failure(NotIPv4(b[0] / 16))
    else
      var headerLen := b[0] % 16 * 4;
      if headerLen < MIN_HEADER || |b| < headerLen then Failure(BadHeaderLength(headerLen))
      else Success(Header(headerLen, U16(b, 2), b[9], U16(b, 6)))
  }

  predicate AddrAt(b: seq<Byte>, at: nat, a: Addr) {
    at + 4 <= |b| && b[at] == a[0] && b[at + 1] == a[1] && b[at + 2] == a[2] && b[at + 3] == a[3]
  }

  /** ICMP messages that embed the packet they report on. */
  predicate CarriesOriginal(icmpType: Byte) {
    icmpType in {3, 4, 5, 11, 12}
  }

  // ---- The rewrite

  function PutAddr(b: seq<Byte>, at: nat, a: Addr): (r: seq<Byte>)
    requires at + 4 <= |b|
    ensures |r| == |b| && AddrAt(r, at, a)
    ensures forall k | 0 <= k < |b| && !(at <= k < at + 4) :: r[k] == b[k]
  {
    Put16(Put16(b, at, U16(a, 0)), at + 2, U16(a, 2))
  }

  function AddrSum(a: Addr): nat {
    U16(a, 0) + U16(a, 2)
  }

  function UpdatedAddr(checksum: Word, before: Addr, after: Addr): Word {
    Updated(Updated(checksum, U16(before, 0), U16(after, 0)), U16(before, 2), U16(after, 2))
  }

  /** RFC 768: a computed zero goes on the wire as all ones. */
  function NonZero(w: Word): Word {
    if w == 0 then 0xFFFF else w
  }

  function RewriteAddr(b: seq<Byte>, h: Header, at: nat, before: Addr, after: Addr): (r: seq<Byte>)
    requires MIN_HEADER <= h.headerLen <= |b| && at in {SRC, DST}
    ensures |r| == |b|
  {
    RewriteTransport(RewriteHeader(b, at, before, after), h, before, after)
  }

  function RewriteHeader(b: seq<Byte>, at: nat, before: Addr, after: Addr): (r: seq<Byte>)
    requires MIN_HEADER <= |b| && at in {SRC, DST}
    ensures |r| == |b|
    ensures r[0] == b[0] && forall k | MIN_HEADER <= k < |b| :: r[k] == b[k]
  {
    var moved := PutAddr(b, at, after);
    Put16(moved, HEADER_CHECKSUM, UpdatedAddr(U16(moved, HEADER_CHECKSUM), before, after))
  }

  function RewriteTransport(b: seq<Byte>, h: Header, before: Addr, after: Addr): (r: seq<Byte>)
    requires MIN_HEADER <= h.headerLen <= |b|
    ensures |r| == |b|
  {
    if h.FragmentOffset() != 0 then b
    else if h.protocol == TCP then
      var off := h.headerLen + TCP_CHECKSUM;
      if |b| < off + 2 then b
      else Put16(b, off, NonZero(UpdatedAddr(U16(b, off), before, after)))
    else if h.protocol == UDP then
      var off := h.headerLen + UDP_CHECKSUM;
      if |b| < off + 2 || U16(b, off) == 0 then b
      else Put16(b, off, NonZero(UpdatedAddr(U16(b, off), before, after)))
    else if h.protocol == ICMP then RewriteICMPInner(b, h, before, after)
    else b
  }

  /** The embedded header of an ICMP error, when there is one to rewrite. */
  function EmbeddedHeader(b: seq<Byte>, icmp: nat): Option<Header> {
    if |b| < icmp + ICMP_MIN + MIN_HEADER || !CarriesOriginal(b[icmp]) then None
    else ParseIPv4(b[icmp + EMBEDDED..]).ToOption()
  }

  function ReplaceAddr(b: seq<Byte>, at: nat, before: Addr, after: Addr): (r: seq<Byte>)
    ensures |r| == |b|
    ensures forall k | 0 <= k < |b| && !(at <= k < at + 4) :: r[k] == b[k]
  {
    if AddrAt(b, at, before) then PutAddr(b, at, after) else b
  }

  /** The inner header with its checksum recomputed. */
  function Resealed(b: seq<Byte>, inner: nat, headerLen: nat): (r: seq<Byte>)
    requires MIN_HEADER <= headerLen && inner + headerLen <= |b|
    ensures |r| == |b|
    ensures forall k | 0 <= k < |b| && k != inner + 10 && k != inner + 11 :: r[k] == b[k]
  {
    var cleared := Put16(b, inner + HEADER_CHECKSUM, 0);
    Put16(cleared, inner + HEADER_CHECKSUM, Complement(WordSum(cleared[inner..inner + headerLen])))
  }

  function UpdatedIf(changed: bool, checksum: Word, before: Addr, after: Addr): Word {
    if changed then UpdatedAddr(checksum, before, after) else checksum
  }

  /** Both inner addresses mapped, wherever they are the mapped one. */
  function Moved(b: seq<Byte>, inner: nat, before: Addr, after: Addr): (r: seq<Byte>)
    ensures |r| == |b|
    ensures forall k | 0 <= k < |b| && !(inner + SRC <= k < inner + DST + 4) :: r[k] == b[k]
  {
    ReplaceAddr(ReplaceAddr(b, inner + SRC, before, after), inner + DST, before, after)
  }

  function MovedSum(b: seq<Byte>, inner: nat, checksum: Word, before: Addr, after: Addr): Word {
    UpdatedIf(AddrAt(b, inner + DST, before),
              UpdatedIf(AddrAt(b, inner + SRC, before), checksum, before, after), before, after)
  }

  /** An ICMP error whose embedded header, innerLen bytes long, is mapped. */
  function Mapped(b: seq<Byte>, icmp: nat, innerLen: nat, before: Addr, after: Addr): (r: seq<Byte>)
    requires MIN_HEADER <= innerLen && icmp + EMBEDDED + innerLen <= |b|
    ensures |r| == |b|
  {
    var inner := icmp + EMBEDDED;
    var moved := Moved(b, inner, before, after);
    var sealed := Resealed(moved, inner, innerLen);
    Put16(sealed, icmp + ICMP_CHECKSUM,
          Updated(MovedSum(b, inner, U16(b, icmp + ICMP_CHECKSUM), before, after),
                  U16(moved, inner + HEADER_CHECKSUM), U16(sealed, inner + HEADER_CHECKSUM)))
  }

  predicate MapsInner(b: seq<Byte>, h: Header, before: Addr) {
    && h.FragmentOffset() == 0
    && EmbeddedHeader(b, h.headerLen).Some?
    && (AddrAt(b, h.headerLen + EMBEDDED + SRC, before) || AddrAt(b, h.headerLen + EMBEDDED + DST, before))
  }

  function RewriteICMPInner(b: seq<Byte>, h: Header, before: Addr, after: Addr): (r: seq<Byte>)
    requires MIN_HEADER <= h.headerLen <= |b|
    ensures |r| == |b|
  {
    if MapsInner(b, h, before) then
      Mapped(b, h.headerLen, EmbeddedHeader(b, h.headerLen).value.headerLen, before, after)
    else b
  }

  // ---- Sums over a region of the packet, continued by bytes not in the buffer

  /** The word sum of b[lo..hi] followed by bytes that travel in other fragments. */
  function RegionSum(b: seq<Byte>, lo: nat, hi: nat, unseen: seq<Byte>): nat
    requires lo <= hi <= |b|
  {
    WordSum(b[lo..hi] + unseen)
  }

  lemma RegionPut(b: seq<Byte>, lo: nat, hi: nat, unseen: seq<Byte>, off: nat, w: Word)
    requires lo <= off && off + 2 <= hi <= |b| && (off - lo) % 2 == 0
    ensures RegionSum(Put16(b, off, w), lo, hi, unseen) == RegionSum(b, lo, hi, unseen) - U16(b, off) + w
  {
    var s := b[lo..hi] + unseen;
    assert Put16(b, off, w)[lo..hi] + unseen == Put16(s, off - lo, w);
    WordSumPut(s, off - lo, w);
  }

  lemma RegionAtLeast(b: seq<Byte>, lo: nat, hi: nat, unseen: seq<Byte>)
    requires lo + 2 <= hi <= |b|
    ensures U16(b, lo) <= RegionSum(b, lo, hi, unseen)
  {
    WordSumAtLeast(b[lo..hi] + unseen, 0);
  }

  lemma RegionPutAddr(b: seq<Byte>, lo: nat, hi: nat, unseen: seq<Byte>, at: nat, before: Addr, after: Addr)
    requires lo <= at && at + 4 <= hi <= |b| && (at - lo) % 2 == 0 && AddrAt(b, at, before)
    ensures RegionSum(PutAddr(b, at, after), lo, hi, unseen)
         == RegionSum(b, lo, hi, unseen) - AddrSum(before) + AddrSum(after)
  {
    var once := Put16(b, at, U16(after, 0));
    RegionPut(b, lo, hi, unseen, at, U16(after, 0));
    RegionPut(once, lo, hi, unseen, at + 2, U16(after, 2));
  }

  lemma UpdatedAddrBalances(checksum: Word, before: Addr, after: Addr)
    ensures Congruent(UpdatedAddr(checksum, before, after) + AddrSum(after), checksum + AddrSum(before))
    ensures checksum != 0xFFFF ==> UpdatedAddr(checksum, before, after) != 0xFFFF
  {
    var once := Updated(checksum, U16(before, 0), U16(after, 0));
    UpdatedBalances(checksum, U16(before, 0), U16(after, 0));
    UpdatedBalances(once, U16(before, 2), U16(after, 2));
    CongruentChain(checksum, U16(before, 0), U16(after, 0), once, U16(before, 2), U16(after, 2),
                   UpdatedAddr(checksum, before, after));
  }

  /** Two totals that differ by a congruent exchange are equally valid. */
  lemma Exchange(total: nat, total': nat, out_: int, in_: int)
    requires total' == total - out_ + in_ && Congruent(out_, in_)
    ensures Congruent(total, total')
    ensures total != 0 && total' != 0 ==> (Verifies(total) <==> Verifies(total'))
  {
  }

  // ---- What the rewrite keeps

  /** The IPv4 header verifies after the rewrite exactly when it did before. */
  lemma HeaderStaysValid(b: seq<Byte>, at: nat, headerLen: nat, before: Addr, after: Addr)
    requires MIN_HEADER <= headerLen <= |b| && at in {SRC, DST} && b[0] != 0 && AddrAt(b, at, before)
    ensures var r := RewriteHeader(b, at, before, after);
            Verifies(WordSum(b[..headerLen])) <==> Verifies(WordSum(r[..headerLen]))
  {
    var r := RewriteHeader(b, at, before, after);
    HeaderExchange(b, at, headerLen, before, after);
    assert b[0..headerLen] + [] == b[..headerLen] && r[0..headerLen] + [] == r[..headerLen];
    RegionAtLeast(b, 0, headerLen, []);
    RegionAtLeast(r, 0, headerLen, []);
  }

  lemma HeaderExchange(b: seq<Byte>, at: nat, headerLen: nat, before: Addr, after: Addr)
    requires MIN_HEADER <= headerLen <= |b| && at in {SRC, DST} && AddrAt(b, at, before)
    ensures var r := RewriteHeader(b, at, before, after);
            && Congruent(RegionSum(b, 0, headerLen, []), RegionSum(r, 0, headerLen, []))
            && (RegionSum(b, 0, headerLen, []) != 0 && RegionSum(r, 0, headerLen, []) != 0 ==>
                  (Verifies(RegionSum(b, 0, headerLen, [])) <==> Verifies(RegionSum(r, 0, headerLen, []))))
  {
    var moved := PutAddr(b, at, after);
    var c := U16(b, HEADER_CHECKSUM);
    var c' := UpdatedAddr(c, before, after);
    RegionPutAddr(b, 0, headerLen, [], at, before, after);
    RegionPut(moved, 0, headerLen, [], HEADER_CHECKSUM, c');
    UpdatedAddrBalances(c, before, after);
    Exchange(RegionSum(b, 0, headerLen, []), RegionSum(RewriteHeader(b, at, before, after), 0, headerLen, []),
             c + AddrSum(before), c' + AddrSum(after));
  }

  /** The header checksum recomputed from scratch. */
  function HeaderChecksum(b: seq<Byte>, headerLen: nat): Word
    requires MIN_HEADER <= headerLen <= |b|
  {
    Complement(WordSum(Put16(b[..headerLen], HEADER_CHECKSUM, 0)))
  }

  lemma HeaderSumSplit(b: seq<Byte>, headerLen: nat)
    requires MIN_HEADER <= headerLen <= |b| && b[0] != 0
    ensures var rest := WordSum(Put16(b[..headerLen], HEADER_CHECKSUM, 0));
            rest != 0 && RegionSum(b, 0, headerLen, []) == rest + U16(b, HEADER_CHECKSUM)
  {
    assert b[0..headerLen] + [] == b[..headerLen];
    WordSumPut(b[..headerLen], HEADER_CHECKSUM, 0);
    WordSumAtLeast(Put16(b[..headerLen], HEADER_CHECKSUM, 0), 0);
  }

  /** The incremental update agrees with full recomputation. */
  lemma HeaderStaysExact(b: seq<Byte>, at: nat, headerLen: nat, before: Addr, after: Addr)
    requires MIN_HEADER <= headerLen <= |b| && at in {SRC, DST} && b[0] != 0 && AddrAt(b, at, before)
    requires U16(b, HEADER_CHECKSUM) == HeaderChecksum(b, headerLen)
    ensures var r := RewriteHeader(b, at, before, after);
            U16(r, HEADER_CHECKSUM) == HeaderChecksum(r, headerLen)
  {
    var r := RewriteHeader(b, at, before, after);
    var rest := WordSum(Put16(b[..headerLen], HEADER_CHECKSUM, 0));
    HeaderSumSplit(b, headerLen);
    HeaderSumSplit(r, headerLen);
    ComplementBalances(rest);
    UpdatedAddrBalances(U16(b, HEADER_CHECKSUM), before, after);
    HeaderExchange(b, at, headerLen, before, after);
    ComplementUnique(WordSum(Put16(r[..headerLen], HEADER_CHECKSUM, 0)), U16(r, HEADER_CHECKSUM));
  }

  lemma TransportLeavesHeader(b: seq<Byte>, h: Header, before: Addr, after: Addr)
    ensures MIN_HEADER <= h.headerLen <= |b| ==>
              RewriteTransport(b, h, before, after)[..h.headerLen] == b[..h.headerLen]
  {
  }

  // ---- TCP and UDP

  /** The address words, protocol and length a TCP or UDP checksum also covers. */
  function PseudoSum(b: seq<Byte>, protocol: Byte, length: nat): nat
    requires MIN_HEADER <= |b|
  {
    U16(b, SRC) + U16(b, SRC + 2) + U16(b, DST) + U16(b, DST + 2) + protocol + length
  }

  lemma PseudoExchange(b: seq<Byte>, at: nat, before: Addr, after: Addr, protocol: Byte, length: nat)
    requires MIN_HEADER <= |b| && at in {SRC, DST} && AddrAt(b, at, before)
    ensures PseudoSum(RewriteHeader(b, at, before, after), protocol, length)
         == PseudoSum(b, protocol, length) - AddrSum(before) + AddrSum(after)
  {
  }

  lemma NonZeroCongruent(w: Word)
    ensures Congruent(NonZero(w), w) && NonZero(w) != 0
  {
  }

  /** The checksum field of a transport header that the mapper maintains. */
  function TransportChecksum(protocol: Byte): Option<nat> {
    if protocol == TCP then Some(TCP_CHECKSUM) else if protocol == UDP then Some(UDP_CHECKSUM) else None
  }

  lemma FieldBalances(c: Word, before: Addr, after: Addr)
    ensures Congruent(c + AddrSum(before), NonZero(UpdatedAddr(c, before, after)) + AddrSum(after))
  {
    UpdatedAddrBalances(c, before, after);
    NonZeroCongruent(UpdatedAddr(c, before, after));
    CongruentShift(NonZero(UpdatedAddr(c, before, after)), UpdatedAddr(c, before, after), AddrSum(after));
  }

  lemma SegmentExchange(b: seq<Byte>, at: nat, before: Addr, after: Addr, lo: nat, hi: nat, unseen: seq<Byte>,
                        off: nat, w: Word, protocol: Byte, length: nat)
    requires MIN_HEADER <= lo <= off && off + 2 <= hi <= |b| && (off - lo) % 2 == 0
    requires at in {SRC, DST} && AddrAt(b, at, before)
    ensures var r := Put16(RewriteHeader(b, at, before, after), off, w);
            PseudoSum(r, protocol, length) + RegionSum(r, lo, hi, unseen)
              == PseudoSum(b, protocol, length) + RegionSum(b, lo, hi, unseen)
                 - (U16(b, off) + AddrSum(before)) + (w + AddrSum(after))
  {
    var mid := RewriteHeader(b, at, before, after);
    HeaderOutside(b, lo, hi, unseen, at, before, after);
    RegionPut(mid, lo, hi, unseen, off, w);
    PseudoExchange(b, at, before, after, protocol, length);
    assert U16(mid, off) == U16(b, off);
  }

  /** For any payload, also one that continues in later fragments, the transport checksum
      verifies after the rewrite exactly when it did before. */
  lemma SegmentStaysValid(b: seq<Byte>, h: Header, at: nat, before: Addr, after: Addr,
                          hi: nat, unseen: seq<Byte>, length: nat)
    requires MIN_HEADER <= h.headerLen && at in {SRC, DST} && AddrAt(b, at, before)
    requires h.FragmentOffset() == 0 && TransportChecksum(h.protocol).Some?
    requires h.headerLen + TransportChecksum(h.protocol).value + 2 <= hi <= |b|
    requires h.protocol == UDP ==> U16(b, h.headerLen + UDP_CHECKSUM) != 0
    ensures var r := RewriteAddr(b, h, at, before, after);
            Verifies(PseudoSum(b, h.protocol, length) + RegionSum(b, h.headerLen, hi, unseen)) <==>
            Verifies(PseudoSum(r, h.protocol, length) + RegionSum(r, h.headerLen, hi, unseen))
  {
    hide Updated, UpdatedAddr, RegionSum, Congruent, Verifies, RewriteHeader;
    var off := h.headerLen + TransportChecksum(h.protocol).value;
    var mid := RewriteHeader(b, at, before, after);
    var r := RewriteAddr(b, h, at, before, after);
    var c := U16(b, off);
    assert U16(mid, off) == c;
    var c' := NonZero(UpdatedAddr(c, before, after));
    assert r == Put16(mid, off, c');
    SegmentExchange(b, at, before, after, h.headerLen, hi, unseen, off, c', h.protocol, length);
    FieldBalances(c, before, after);
    Exchange(PseudoSum(b, h.protocol, length) + RegionSum(b, h.headerLen, hi, unseen),
             PseudoSum(r, h.protocol, length) + RegionSum(r, h.headerLen, hi, unseen),
             c + AddrSum(before), c' + AddrSum(after));
  }

  /** Where the checksum of a transport message lies. */
  function FieldAt(h: Header): nat
    requires TransportChecksum(h.protocol).Some?
  {
    h.headerLen + TransportChecksum(h.protocol).value
  }

  /** The message stops before its checksum field, which travels in a later fragment: the
      rewrite moves the pseudo header and leaves the message alone. */
  lemma UnseenFieldExchange(b: seq<Byte>, h: Header, at: nat, before: Addr, after: Addr,
                            hi: nat, unseen: seq<Byte>, length: nat)
    requires MIN_HEADER <= h.headerLen <= hi <= |b| && at in {SRC, DST} && AddrAt(b, at, before)
    requires h.FragmentOffset() == 0 && TransportChecksum(h.protocol).Some?
    requires hi <= FieldAt(h) || |b| < FieldAt(h) + 2
    ensures var r := RewriteAddr(b, h, at, before, after);
            PseudoSum(r, h.protocol, length) + RegionSum(r, h.headerLen, hi, unseen)
              == PseudoSum(b, h.protocol, length) + RegionSum(b, h.headerLen, hi, unseen)
                 - AddrSum(before) + AddrSum(after)
  {
    hide UpdatedAddr, WordSum, RewriteHeader;
    var mid, r := RewriteHeader(b, at, before, after), RewriteAddr(b, h, at, before, after);
    HeaderOutside(b, h.headerLen, hi, unseen, at, before, after);
    PseudoExchange(b, at, before, after, h.protocol, length);
    assert r[h.headerLen..hi] == mid[h.headerLen..hi];
    TransportLeavesHeader(mid, h, before, after);
    assert forall k | 0 <= k < MIN_HEADER :: r[k] == r[..h.headerLen][k] == mid[k];
  }

  /** What becomes of a transport checksum, wherever the message ends: one that verified goes
      on verifying exactly if its field is part of the message in the buffer, or the two
      addresses have the same sum modulo 65535.  Under that condition no verdict changes. */
  lemma SegmentVerdictExact(b: seq<Byte>, h: Header, at: nat, before: Addr, after: Addr,
                            hi: nat, unseen: seq<Byte>, length: nat)
    requires MIN_HEADER <= h.headerLen <= hi <= |b| && at in {SRC, DST} && AddrAt(b, at, before)
    requires h.FragmentOffset() == 0 && TransportChecksum(h.protocol).Some? && WholeField(b, h, hi)
    requires h.protocol == UDP && FieldAt(h) + 2 <= hi ==> U16(b, FieldAt(h)) != 0
    ensures var r := RewriteAddr(b, h, at, before, after);
            var total, total' := PseudoSum(b, h.protocol, length) + RegionSum(b, h.headerLen, hi, unseen),
                                 PseudoSum(r, h.protocol, length) + RegionSum(r, h.headerLen, hi, unseen);
            && (KeepsSegments(h, hi, before, after) ==> (Verifies(total) <==> Verifies(total')))
            && (Verifies(total) ==> (Verifies(total') <==> KeepsSegments(h, hi, before, after)))
  {
    hide RewriteAddr, RegionSum, AddrSum, PseudoSum, Verifies, Congruent;
    if FieldAt(h) + 2 <= hi {
      SegmentStaysValid(b, h, at, before, after, hi, unseen, length);
    } else {
      var r := RewriteAddr(b, h, at, before, after);
      UnseenFieldExchange(b, h, at, before, after, hi, unseen, length);
      PseudoPositive(b, h.protocol, length);
      PseudoPositive(r, h.protocol, length);
      OneSided(PseudoSum(b, h.protocol, length) + RegionSum(b, h.headerLen, hi, unseen),
               PseudoSum(r, h.protocol, length) + RegionSum(r, h.headerLen, hi, unseen),
               AddrSum(before), AddrSum(after));
    }
  }

  lemma PseudoPositive(b: seq<Byte>, protocol: Byte, length: nat)
    ensures MIN_HEADER <= |b| && TransportChecksum(protocol).Some? ==> PseudoSum(b, protocol, length) > 0
  {
  }

  /** A sum in which a part was exchanged and no checksum made up for it. */
  lemma OneSided(total: nat, total': nat, out_: nat, in_: nat)
    requires total > 0 && total' > 0 && total' == total - out_ + in_
    ensures Congruent(out_, in_) ==> (Verifies(total) <==> Verifies(total'))
    ensures Verifies(total) ==> (Verifies(total') <==> Congruent(out_, in_))
  {
  }

  /** The end of the message does not cut its checksum field in two while the buffer goes on. */
  predicate WholeField(b: seq<Byte>, h: Header, hi: nat)
    requires TransportChecksum(h.protocol).Some?
  {
    hi == FieldAt(h) + 1 ==> hi == |b|
  }

  /** A caller can tell in advance: the field is in hand, or the addresses weigh the same. */
  ghost predicate KeepsSegments(h: Header, hi: nat, before: Addr, after: Addr)
    requires TransportChecksum(h.protocol).Some?
  {
    FieldAt(h) + 2 <= hi || Congruent(AddrSum(before), AddrSum(after))
  }

  const PEER: Addr := [10, 66, 66, 2]
  const CAMPUS: Addr := [172, 29, 56, 18]

  /** The first fragment of a TCP segment to the campus address, with eight bytes of payload. */
  const SHORT_FRAGMENT: seq<Byte> :=
    [0x45, 0, 0, 28, 0, 1, 0x20, 0, 64, 6, 0, 0] + [192, 0, 2, 1] + CAMPUS + [0, 80, 0x1F, 0x90, 0, 0, 0, 0]

  /** The rest of its segment, from the acknowledgement number on. */
  const LATER_FRAGMENT: seq<Byte> := [0, 0, 0, 0, 0x50, 0x10, 0, 0, 0xE9, 0xC3, 0, 0]

  lemma HeaderOutside(b: seq<Byte>, lo: nat, hi: nat, unseen: seq<Byte>, at: nat, before: Addr, after: Addr)
    requires MIN_HEADER <= lo <= hi <= |b| && at in {SRC, DST}
    ensures RegionSum(RewriteHeader(b, at, before, after), lo, hi, unseen) == RegionSum(b, lo, hi, unseen)
  {
    assert RewriteHeader(b, at, before, after)[lo..hi] == b[lo..hi];
  }

  /** A UDP checksum of zero means "not computed": it stays zero, and no other becomes zero. */
  lemma UDPZeroMeaning(b: seq<Byte>, h: Header, at: nat, before: Addr, after: Addr)
    requires MIN_HEADER <= h.headerLen && h.headerLen + UDP_CHECKSUM + 2 <= |b| && at in {SRC, DST}
    requires h.protocol == UDP
    ensures U16(RewriteAddr(b, h, at, before, after), h.headerLen + UDP_CHECKSUM) == 0
       <==> U16(b, h.headerLen + UDP_CHECKSUM) == 0
  {
    assert U16(RewriteHeader(b, at, before, after), h.headerLen + UDP_CHECKSUM)
        == U16(b, h.headerLen + UDP_CHECKSUM);
    if U16(b, h.headerLen + UDP_CHECKSUM) != 0 {
      NonZeroCongruent(UpdatedAddr(U16(b, h.headerLen + UDP_CHECKSUM), before, after));
    }
  }

  /** The rewrite puts the new address in place.  Of the other bytes of the header only the
      checksum changes, and of a TCP or UDP segment only its checksum; a later fragment and any
      other protocol but ICMP keep their payload. */
  lemma RewriteFrame(b: seq<Byte>, h: Header, at: nat, before: Addr, after: Addr)
    requires MIN_HEADER <= h.headerLen <= |b| && at in {SRC, DST}
    ensures var r := RewriteAddr(b, h, at, before, after);
            && AddrAt(r, at, after)
            && (forall k | 0 <= k < h.headerLen && !(at <= k < at + 4) && k !in {10, 11} :: r[k] == b[k])
            && (h.protocol != ICMP || h.FragmentOffset() != 0 ==>
                  forall k | h.headerLen <= k < |b| && !InTransportChecksum(h, k) :: r[k] == b[k])
  {
    hide UpdatedAddr;
    var mid := RewriteHeader(b, at, before, after);
    var r := RewriteAddr(b, h, at, before, after);
    TransportLeavesHeader(mid, h, before, after);
    assert forall k | 0 <= k < h.headerLen :: r[k] == r[..h.headerLen][k] == mid[..h.headerLen][k] == mid[k];
  }

  /** The checksum of a TCP segment or a UDP datagram that begins here. */
  predicate InTransportChecksum(h: Header, k: nat) {
    && h.fragField % 0x2000 == 0
    && (|| (h.protocol == 6 && k in {h.headerLen + 16, h.headerLen + 17})
        || (h.protocol == 17 && k in {h.headerLen + 6, h.headerLen + 7}))
  }

  /** Mapping an exact header there and back gives the same bytes again. */
  lemma HeaderRoundTrip(b: seq<Byte>, at: nat, headerLen: nat, before: Addr, after: Addr)
    requires MIN_HEADER <= headerLen <= |b| && at in {SRC, DST} && b[0] != 0 && AddrAt(b, at, before)
    requires U16(b, HEADER_CHECKSUM) == HeaderChecksum(b, headerLen)
    ensures RewriteHeader(RewriteHeader(b, at, before, after), at, after, before) == b
  {
    hide UpdatedAddr, Complement, WordSum;
    var there := RewriteHeader(b, at, before, after);
    var back := RewriteHeader(there, at, after, before);
    HeaderStaysExact(b, at, headerLen, before, after);
    HeaderStaysExact(there, at, headerLen, after, before);
    assert forall k | 0 <= k < |b| && k !in {10, 11} :: back[k] == b[k];
    assert Put16(back[..headerLen], HEADER_CHECKSUM, 0) == Put16(b[..headerLen], HEADER_CHECKSUM, 0);
    assert U16(back, HEADER_CHECKSUM) == U16(b, HEADER_CHECKSUM);
    SameWord(back, b, HEADER_CHECKSUM);
  }

  lemma SameWord(a: seq<Byte>, b: seq<Byte>, i: nat)
    ensures i + 2 <= |a| && i + 2 <= |b| && U16(a, i) == U16(b, i) ==> a[i] == b[i] && a[i + 1] == b[i + 1]
  {
  }

  // ---- ICMP errors

  lemma RegionReplaceAddr(b: seq<Byte>, lo: nat, hi: nat, unseen: seq<Byte>, at: nat, before: Addr, after: Addr,
                          checksum: Word)
    requires lo <= at && at + 4 <= hi <= |b| && (at - lo) % 2 == 0
    ensures Congruent(RegionSum(ReplaceAddr(b, at, before, after), lo, hi, unseen)
                        + UpdatedIf(AddrAt(b, at, before), checksum, before, after),
                      RegionSum(b, lo, hi, unseen) + checksum)
  {
    if AddrAt(b, at, before) {
      RegionPutAddr(b, lo, hi, unseen, at, before, after);
      UpdatedAddrBalances(checksum, before, after);
      CongruentShift(UpdatedAddr(checksum, before, after) + AddrSum(after), checksum + AddrSum(before),
                     RegionSum(b, lo, hi, unseen) - AddrSum(before));
    }
  }

  lemma RegionReseal(b: seq<Byte>, lo: nat, hi: nat, unseen: seq<Byte>, inner: nat, headerLen: nat, checksum: Word)
    requires MIN_HEADER <= headerLen && inner + headerLen <= |b|
    requires lo <= inner && inner + MIN_HEADER <= hi <= |b| && (inner - lo) % 2 == 0
    ensures var r := Resealed(b, inner, headerLen);
            Congruent(RegionSum(r, lo, hi, unseen)
                        + Updated(checksum, U16(b, inner + HEADER_CHECKSUM), U16(r, inner + HEADER_CHECKSUM)),
                      RegionSum(b, lo, hi, unseen) + checksum)
  {
    var r := Resealed(b, inner, headerLen);
    var at := inner + HEADER_CHECKSUM;
    var w0, w1 := U16(b, at), U16(r, at);
    assert r == Put16(b, at, w1);
    RegionPut(b, lo, hi, unseen, at, w1);
    UpdatedBalances(checksum, w0, w1);
    CongruentShift(Updated(checksum, w0, w1) + w1, checksum + w0, RegionSum(b, lo, hi, unseen) - w0);
  }

  lemma MovedExchange(b: seq<Byte>, lo: nat, hi: nat, unseen: seq<Byte>, inner: nat, before: Addr, after: Addr,
                      checksum: Word)
    requires lo <= inner && inner + MIN_HEADER <= hi <= |b| && (inner - lo) % 2 == 0
    ensures Congruent(RegionSum(Moved(b, inner, before, after), lo, hi, unseen)
                        + MovedSum(b, inner, checksum, before, after),
                      RegionSum(b, lo, hi, unseen) + checksum)
  {
    hide Congruent, UpdatedIf, RegionSum;
    var once := ReplaceAddr(b, inner + SRC, before, after);
    RegionReplaceAddr(b, lo, hi, unseen, inner + SRC, before, after, checksum);
    var c := UpdatedIf(AddrAt(b, inner + SRC, before), checksum, before, after);
    assert AddrAt(once, inner + DST, before) == AddrAt(b, inner + DST, before);
    RegionReplaceAddr(once, lo, hi, unseen, inner + DST, before, after, c);
    CongruentTrans(RegionSum(Moved(b, inner, before, after), lo, hi, unseen)
                     + MovedSum(b, inner, checksum, before, after),
                   RegionSum(once, lo, hi, unseen) + c,
                   RegionSum(b, lo, hi, unseen) + checksum);
  }

  lemma MappedExchange(b: seq<Byte>, icmp: nat, innerLen: nat, before: Addr, after: Addr, hi: nat, unseen: seq<Byte>)
    requires MIN_HEADER <= innerLen && icmp + EMBEDDED + innerLen <= |b|
    requires icmp + ICMP_MIN + MIN_HEADER <= hi <= |b|
    ensures Congruent(RegionSum(Mapped(b, icmp, innerLen, before, after), icmp, hi, unseen),
                      RegionSum(b, icmp, hi, unseen))
  {
    hide Congruent, Updated, MovedSum, RegionSum, Moved, Resealed, Put16;
    var inner := icmp + EMBEDDED;
    var c := U16(b, icmp + ICMP_CHECKSUM);
    var moved := Moved(b, inner, before, after);
    var sum := MovedSum(b, inner, c, before, after);
    var sealed := Resealed(moved, inner, innerLen);
    MovedExchange(b, icmp, hi, unseen, inner, before, after, c);
    RegionReseal(moved, icmp, hi, unseen, inner, innerLen, sum);
    var c' := Updated(sum, U16(moved, inner + HEADER_CHECKSUM), U16(sealed, inner + HEADER_CHECKSUM));
    assert sealed[icmp + 2] == moved[icmp + 2] == b[icmp + 2];
    assert sealed[icmp + 3] == moved[icmp + 3] == b[icmp + 3];
    RegionPut(sealed, icmp, hi, unseen, icmp + ICMP_CHECKSUM, c');
    CongruentTrans(RegionSum(sealed, icmp, hi, unseen) + c', RegionSum(moved, icmp, hi, unseen) + sum,
                   RegionSum(b, icmp, hi, unseen) + c);
    CongruentShift(RegionSum(sealed, icmp, hi, unseen) + c', RegionSum(b, icmp, hi, unseen) + c, -(c as int));
    assert RegionSum(b, icmp, hi, unseen) + c + -(c as int) == RegionSum(b, icmp, hi, unseen);
  }

  /** The message is all the buffer holds, or long enough to embed a header. */
  predicate WholeMessage(b: seq<Byte>, h: Header, hi: nat) {
    hi == |b| || h.headerLen + ICMP_MIN + MIN_HEADER <= hi
  }

  /** Whatever part of an ICMP error is in the buffer, the whole message verifies after the
      rewrite exactly when it did before. */
  lemma ICMPStaysValid(b: seq<Byte>, h: Header, before: Addr, after: Addr, hi: nat, unseen: seq<Byte>)
    requires MIN_HEADER <= h.headerLen <= hi <= |b| && WholeMessage(b, h, hi)
    ensures var r := RewriteICMPInner(b, h, before, after);
            Verifies(RegionSum(b, h.headerLen, hi, unseen)) <==> Verifies(RegionSum(r, h.headerLen, hi, unseen))
  {
    var r := RewriteICMPInner(b, h, before, after);
    if MapsInner(b, h, before) {
      MappedExchange(b, h.headerLen, EmbeddedHeader(b, h.headerLen).value.headerLen, before, after, hi, unseen);
      RegionAtLeast(b, h.headerLen, hi, unseen);
      RegionAtLeast(r, h.headerLen, hi, unseen);
      assert r[h.headerLen] == b[h.headerLen] != 0;
    }
  }

  /** A resealed header verifies: its checksum is the recomputed one. */
  lemma ResealedVerifies(b: seq<Byte>, inner: nat, headerLen: nat)
    requires MIN_HEADER <= headerLen && inner + headerLen <= |b|
    ensures Verifies(WordSum(Resealed(b, inner, headerLen)[inner..inner + headerLen]))
  {
    var cleared := Put16(b, inner + HEADER_CHECKSUM, 0);
    var s := cleared[inner..inner + headerLen];
    var c := Complement(WordSum(s));
    assert Put16(cleared, inner + HEADER_CHECKSUM, c)[inner..inner + headerLen] == Put16(s, HEADER_CHECKSUM, c);
    WordSumPut(s, HEADER_CHECKSUM, c);
    ComplementBalances(WordSum(s));
  }

  /** A rewritten inner header verifies. */
  lemma ICMPInnerVerifies(b: seq<Byte>, h: Header, before: Addr, after: Addr)
    requires MIN_HEADER <= h.headerLen <= |b| && MapsInner(b, h, before)
    ensures var r := RewriteICMPInner(b, h, before, after);
            var inner, n := h.headerLen + EMBEDDED, EmbeddedHeader(b, h.headerLen).value.headerLen;
            inner + n <= |b| && Verifies(WordSum(r[inner..inner + n]))
  {
    hide Updated, Complement, WordSum, Moved, MovedSum, Verifies;
    var r := RewriteICMPInner(b, h, before, after);
    var inner, n := h.headerLen + EMBEDDED, EmbeddedHeader(b, h.headerLen).value.headerLen;
    var moved := Moved(b, inner, before, after);
    assert r[inner..inner + n] == Resealed(moved, inner, n)[inner..inner + n];
    ResealedVerifies(moved, inner, n);
  }

  /** Outside the two inner addresses and the two checksum fields nothing changes. */
  lemma ICMPFrame(b: seq<Byte>, h: Header, before: Addr, after: Addr, k: nat)
    requires MIN_HEADER <= h.headerLen <= |b| && k < |b|
    requires var icmp, inner := h.headerLen, h.headerLen + EMBEDDED;
             && k !in {icmp + 2, icmp + 3, inner + 10, inner + 11}
             && !(inner + SRC <= k < inner + SRC + 4 && AddrAt(b, inner + SRC, before))
             && !(inner + DST <= k < inner + DST + 4 && AddrAt(b, inner + DST, before))
    ensures RewriteICMPInner(b, h, before, after)[k] == b[k]
  {
    hide Updated, MovedSum, Resealed, WordSum;
    var inner := h.headerLen + EMBEDDED;
    assert Moved(b, inner, before, after)[k] == b[k];
  }

  lemma MovedMaps(b: seq<Byte>, inner: nat, before: Addr, after: Addr)
    ensures AddrAt(b, inner + SRC, before) ==> AddrAt(Moved(b, inner, before, after), inner + SRC, after)
    ensures AddrAt(b, inner + DST, before) ==> AddrAt(Moved(b, inner, before, after), inner + DST, after)
  {
  }

  /** An inner address that was the mapped one is mapped. */
  lemma ICMPMapsAddresses(b: seq<Byte>, h: Header, before: Addr, after: Addr)
    requires MIN_HEADER <= h.headerLen <= |b| && MapsInner(b, h, before)
    ensures var r := RewriteICMPInner(b, h, before, after);
            var inner := h.headerLen + EMBEDDED;
            && (AddrAt(b, inner + SRC, before) ==> AddrAt(r, inner + SRC, after))
            && (AddrAt(b, inner + DST, before) ==> AddrAt(r, inner + DST, after))
  {
    hide Updated, Resealed, MovedSum, Moved, Put16;
    var inner := h.headerLen + EMBEDDED;
    MovedMaps(b, inner, before, after);
  }

  // ---- Uplink and downlink

  function CurrentPublic(public: Option<Addr>): Result<Addr, Error> {
    if public.None? || public.value == NO_ADDR then Failure(NoTunnelAddress) else Success(public.value)
  }

  // ---- Packets by their bytes

  /** An IPv4 header that lies inside the buffer. */
  predicate Parses(b: seq<Byte>) {
    |b| >= 20 && b[0] / 16 == 4 && 20 <= b[0] % 16 * 4 <= |b|
  }

  function HeaderOf(b: seq<Byte>): Header
    requires |b| >= 20
  {
    Header(b[0] % 16 * 4, U16(b, 2), b[9], U16(b, 6))
  }

  lemma ParsesByBytes(b: seq<Byte>)
    ensures ParseIPv4(b).Success? <==> Parses(b)
    ensures Parses(b) ==> ParseIPv4(b) == Success(HeaderOf(b))
  {
  }

  /** The first fragment, or the whole, of an ICMP error with a header in it that carries the
      address. */
  predicate Embeds(b: seq<Byte>, icmp: nat, fragField: Word, a: Addr) {
    && fragField % 0x2000 == 0 && |b| >= icmp + 28 && b[icmp] in {3, 4, 5, 11, 12}
    && b[icmp + 8] / 16 == 4 && 20 <= b[icmp + 8] % 16 * 4 <= |b| - icmp - 8
    && (AddrAt(b, icmp + 20, a) || AddrAt(b, icmp + 24, a))
  }

  lemma MapsInnerByBytes(b: seq<Byte>, h: Header, before: Addr)
    requires MIN_HEADER <= h.headerLen <= |b|
    ensures MapsInner(b, h, before) <==> Embeds(b, h.headerLen, h.fragField, before)
    ensures MapsInner(b, h, before) ==>
              && EmbeddedHeader(b, h.headerLen).Some? && h.FragmentOffset() == 0 && |b| >= h.headerLen + 28
              && EmbeddedHeader(b, h.headerLen).value.headerLen == b[h.headerLen + 8] % 16 * 4
  {
    if |b| >= h.headerLen + 28 {
      var tail := b[h.headerLen + EMBEDDED..];
      assert tail[0] == b[h.headerLen + 8];
      ParsesByBytes(tail);
    }
  }

  lemma SixWords(s: seq<Byte>)
    requires |s| == 12
    ensures WordSum(s) == U16(s, 0) + U16(s, 2) + U16(s, 4) + U16(s, 6) + U16(s, 8) + U16(s, 10)
  {
    var s2, s4 := s[2..], s[4..];
    assert s2[2..] == s4 && s4[2..] == s[6..] && s[6..][2..] == s[8..] && s[8..][2..] == s[10..] && s[10..][2..] == [];
    assert WordSum(s[10..]) == U16(s, 10);
    assert WordSum(s[8..]) == U16(s, 8) + WordSum(s[10..]);
    assert WordSum(s[6..]) == U16(s, 6) + WordSum(s[8..]);
    assert WordSum(s4) == U16(s, 4) + WordSum(s[6..]);
  }

  lemma FourWords(s: seq<Byte>)
    requires |s| == 8
    ensures WordSum(s) == U16(s, 0) + U16(s, 2) + U16(s, 4) + U16(s, 6)
  {
    assert s[2..][2..] == s[4..] && s[4..][2..] == s[6..] && s[6..][2..] == [];
    assert WordSum(s[6..]) == U16(s, 6);
    assert WordSum(s[4..]) == U16(s, 4) + WordSum(s[6..]);
  }

  lemma ShortFragmentParses()
    ensures |SHORT_FRAGMENT| == 28 && Parses(SHORT_FRAGMENT) && AddrAt(SHORT_FRAGMENT, DST, CAMPUS)
    ensures HeaderOf(SHORT_FRAGMENT) == Header(20, 28, TCP, 0x2000)
    ensures PseudoSum(SHORT_FRAGMENT, TCP, 20) == 0x1A64A
    ensures SHORT_FRAGMENT[20..28] == [0, 80, 0x1F, 0x90, 0, 0, 0, 0]
  {
  }

  lemma ShortFragmentTotal()
    ensures WordSum([0, 80, 0x1F, 0x90, 0, 0, 0, 0] + LATER_FRAGMENT) == 0x159B3
  {
    var first: seq<Byte> := [0, 80, 0x1F, 0x90, 0, 0, 0, 0];
    hide WordSum;
    WordSumConcat(first, LATER_FRAGMENT);
    FourWords(first);
    SixWords(LATER_FRAGMENT);
  }

  /** Everything a receiver can check about a packet: the header checksum, and the checksum
      of the transport message in b[h.headerLen..hi], of which `unseen` may still be on its way. */
  ghost predicate SameVerdicts(b: seq<Byte>, r: seq<Byte>, h: Header, before: Addr, after: Addr) {
    && |r| == |b| && MIN_HEADER <= h.headerLen <= |b|
    && (Verifies(WordSum(b[..h.headerLen])) <==> Verifies(WordSum(r[..h.headerLen])))
    && (U16(b, HEADER_CHECKSUM) == HeaderChecksum(b, h.headerLen) ==>
          U16(r, HEADER_CHECKSUM) == HeaderChecksum(r, h.headerLen))
    && (h.FragmentOffset() == 0 && TransportChecksum(h.protocol).Some? ==>
          forall hi: nat, unseen: seq<Byte>, length: nat ::
            h.headerLen <= hi <= |b| && WholeField(b, h, hi) ==> SameSegment(b, r, h, hi, unseen, length, before, after))
    && (h.FragmentOffset() == 0 && h.protocol == ICMP ==>
          forall hi: nat, unseen: seq<Byte> ::
            h.headerLen <= hi <= |b| && WholeMessage(b, h, hi) ==> SameMessage(b, r, h, hi, unseen))
  }

  ghost predicate SameSegment(b: seq<Byte>, r: seq<Byte>, h: Header, hi: nat, unseen: seq<Byte>, length: nat,
                              before: Addr, after: Addr)
    requires |r| == |b| && MIN_HEADER <= h.headerLen <= hi <= |b| && TransportChecksum(h.protocol).Some?
  {
    var off := FieldAt(h);
    var total, total' := PseudoSum(b, h.protocol, length) + RegionSum(b, h.headerLen, hi, unseen),
                         PseudoSum(r, h.protocol, length) + RegionSum(r, h.headerLen, hi, unseen);
    if off + 2 <= hi && h.protocol == UDP && U16(b, off) == 0 then U16(r, off) == 0
    else
      && (off + 2 <= hi ==> U16(r, off) != 0)
      && (KeepsSegments(h, hi, before, after) ==> (Verifies(total) <==> Verifies(total')))
      && (Verifies(total) ==> (Verifies(total') <==> KeepsSegments(h, hi, before, after)))
  }

  ghost predicate SameMessage(b: seq<Byte>, r: seq<Byte>, h: Header, hi: nat, unseen: seq<Byte>)
    requires |r| == |b| && h.headerLen <= hi <= |b|
  {
    Verifies(RegionSum(b, h.headerLen, hi, unseen)) <==> Verifies(RegionSum(r, h.headerLen, hi, unseen))
  }

  /** What a rewrite leaves alone, and what it puts in place. */
  predicate Framed(b: seq<Byte>, r: seq<Byte>, h: Header, at: nat, before: Addr, after: Addr) {
    && |r| == |b| && MIN_HEADER <= h.headerLen <= |b| && AddrAt(r, at, after)
    && (forall k | 0 <= k < h.headerLen && !(at <= k < at + 4) && k !in {10, 11} :: r[k] == b[k])
    && (forall k | h.headerLen <= k < |b| && !InTransportChecksum(h, k) && !InEmbedded(b, h, before, k) :: r[k] == b[k])
  }

  /** The checksum of an ICMP error, and the checksum and mapped addresses of the header in it. */
  predicate InEmbedded(b: seq<Byte>, h: Header, before: Addr, k: nat) {
    var icmp := h.headerLen;
    && h.protocol == 1 && Embeds(b, icmp, h.fragField, before)
    && (|| k in {icmp + 2, icmp + 3, icmp + 18, icmp + 19}
        || (icmp + 20 <= k < icmp + 24 && AddrAt(b, icmp + 20, before))
        || (icmp + 24 <= k < icmp + 28 && AddrAt(b, icmp + 24, before)))
  }

  /** The header embedded in an ICMP error is mapped like the outer one, and verifies. */
  ghost predicate EmbeddedMapped(b: seq<Byte>, r: seq<Byte>, h: Header, before: Addr, after: Addr) {
    h.protocol == 1 && Embeds(b, h.headerLen, h.fragField, before) ==>
      var icmp, n := h.headerLen, b[h.headerLen + 8] % 16 * 4;
      && icmp + 8 + n <= |r| && Verifies(WordSum(r[icmp + 8..icmp + 8 + n]))
      && (AddrAt(b, icmp + 20, before) ==> AddrAt(r, icmp + 20, after))
      && (AddrAt(b, icmp + 24, before) ==> AddrAt(r, icmp + 24, after))
  }

  /** What a mapped packet is to the one it came from, told by bytes alone. */
  ghost predicate Rewritten(b: seq<Byte>, r: seq<Byte>, at: nat, before: Addr, after: Addr) {
    && Parses(b) && Framed(b, r, HeaderOf(b), at, before, after)
    && EmbeddedMapped(b, r, HeaderOf(b), before, after) && SameVerdicts(b, r, HeaderOf(b), before, after)
  }

  /** A fragment the downlink accepts and whose segment stops verifying, whatever it is made
      into: the checksum is in the next fragment, where nobody corrects it. */
  lemma ShortFragmentBreaks(r: seq<Byte>)
    requires Rewritten(SHORT_FRAGMENT, r, DST, CAMPUS, PEER)
    ensures |SHORT_FRAGMENT| == |r| == 28 && Parses(SHORT_FRAGMENT) && AddrAt(SHORT_FRAGMENT, DST, CAMPUS)
    ensures Verifies(PseudoSum(SHORT_FRAGMENT, TCP, 20) + RegionSum(SHORT_FRAGMENT, 20, 28, LATER_FRAGMENT))
    ensures !Verifies(PseudoSum(r, TCP, 20) + RegionSum(r, 20, 28, LATER_FRAGMENT))
  {
    hide PseudoSum, WordSum, AddrAt, Framed, EmbeddedMapped, SHORT_FRAGMENT;
    ShortFragmentParses();
    ShortFragmentTotal();
    var h := Header(20, 28, TCP, 0x2000);
    assert SameSegment(SHORT_FRAGMENT, r, h, 28, LATER_FRAGMENT, 20, CAMPUS, PEER);
  }

  lemma FrameHolds(b: seq<Byte>, h: Header, at: nat, before: Addr, after: Addr)
    requires MIN_HEADER <= h.headerLen <= |b| && at in {SRC, DST}
    ensures Framed(b, RewriteAddr(b, h, at, before, after), h, at, before, after)
  {
    hide RewriteAddr, InEmbedded, InTransportChecksum, AddrAt;
    RewriteFrame(b, h, at, before, after);
    if h.protocol == ICMP && h.FragmentOffset() == 0 {
      forall k | h.headerLen <= k < |b| && !InEmbedded(b, h, before, k)
        ensures RewriteAddr(b, h, at, before, after)[k] == b[k]
      {
        EmbeddedFrame(b, h, at, before, after, k);
      }
    }
  }

  lemma EmbeddedFrame(b: seq<Byte>, h: Header, at: nat, before: Addr, after: Addr, k: nat)
    requires MIN_HEADER <= h.headerLen <= k < |b| && at in {SRC, DST}
    requires h.protocol == ICMP && h.FragmentOffset() == 0 && !InEmbedded(b, h, before, k)
    ensures RewriteAddr(b, h, at, before, after)[k] == b[k]
  {
    hide RewriteHeader, Mapped, EmbeddedHeader, AddrAt, MapsInner, Embeds;
    var mid := RewriteHeader(b, at, before, after);
    SameEmbedded(b, h, at, before, after);
    MapsInnerByBytes(b, h, before);
    if MapsInner(b, h, before) {
      ICMPFrame(mid, h, before, after, k);
    }
  }

  /** Rewriting the outer header changes nothing the embedded one depends on. */
  lemma SameEmbedded(b: seq<Byte>, h: Header, at: nat, before: Addr, after: Addr)
    requires MIN_HEADER <= h.headerLen <= |b| && at in {SRC, DST}
    ensures var mid, inner := RewriteHeader(b, at, before, after), h.headerLen + EMBEDDED;
            && EmbeddedHeader(mid, h.headerLen) == EmbeddedHeader(b, h.headerLen)
            && (MapsInner(mid, h, before) <==> MapsInner(b, h, before))
            && (AddrAt(mid, inner + SRC, before) <==> AddrAt(b, inner + SRC, before))
            && (AddrAt(mid, inner + DST, before) <==> AddrAt(b, inner + DST, before))
  {
    hide ParseIPv4;
    var mid, inner := RewriteHeader(b, at, before, after), h.headerLen + EMBEDDED;
    if inner <= |b| {
      assert mid[inner..] == b[inner..];
    }
  }

  lemma EmbeddedHolds(b: seq<Byte>, h: Header, at: nat, before: Addr, after: Addr)
    requires MIN_HEADER <= h.headerLen <= |b| && at in {SRC, DST}
    ensures EmbeddedMapped(b, RewriteAddr(b, h, at, before, after), h, before, after)
  {
    hide Verifies, WordSum, RewriteHeader, RewriteICMPInner, Embeds, MapsInner, EmbeddedHeader;
    SameEmbedded(b, h, at, before, after);
    MapsInnerByBytes(b, h, before);
    var mid := RewriteHeader(b, at, before, after);
    if h.protocol == ICMP && MapsInner(b, h, before) {
      ICMPInnerVerifies(mid, h, before, after);
      ICMPMapsAddresses(mid, h, before, after);
    }
  }

  /** For every packet that parses: the address is in place and only what must change does, a
      mapped inner header verifies, and no checksum changes its verdict but that of a segment
      whose field is out of reach between addresses of different weight. */
  lemma RewriteKeepsVerdicts(b: seq<Byte>, h: Header, at: nat, before: Addr, after: Addr)
    requires ParseIPv4(b) == Success(h) && at in {SRC, DST} && AddrAt(b, at, before)
    ensures var r := RewriteAddr(b, h, at, before, after);
            Framed(b, r, h, at, before, after) && EmbeddedMapped(b, r, h, before, after)
            && SameVerdicts(b, r, h, before, after)
  {
    hide Verifies, WordSum, Complement, Updated, PseudoSum, RewriteHeader, RewriteTransport, Framed, EmbeddedMapped;
    var r := RewriteAddr(b, h, at, before, after);
    FrameHolds(b, h, at, before, after);
    EmbeddedHolds(b, h, at, before, after);
    HeaderVerdict(b, h, at, before, after);
    if h.FragmentOffset() == 0 && TransportChecksum(h.protocol).Some? {
      forall hi: nat, unseen: seq<Byte>, length: nat | h.headerLen <= hi <= |b| && WholeField(b, h, hi)
        ensures SameSegment(b, r, h, hi, unseen, length, before, after)
      {
        SegmentVerdict(b, h, at, before, after, hi, unseen, length);
      }
    }
    if h.FragmentOffset() == 0 && h.protocol == ICMP {
      forall hi: nat, unseen: seq<Byte> | h.headerLen <= hi <= |b| && WholeMessage(b, h, hi)
        ensures SameMessage(b, r, h, hi, unseen)
      {
        MessageVerdict(b, h, at, before, after, hi, unseen);
      }
    }
  }

  lemma RewriteIsRewritten(b: seq<Byte>, at: nat, before: Addr, after: Addr)
    requires Parses(b) && at in {SRC, DST} && AddrAt(b, at, before)
    ensures Rewritten(b, RewriteAddr(b, HeaderOf(b), at, before, after), at, before, after)
  {
    hide RewriteAddr, Framed, EmbeddedMapped, SameVerdicts;
    ParsesByBytes(b);
    RewriteKeepsVerdicts(b, HeaderOf(b), at, before, after);
  }

  lemma HeaderVerdict(b: seq<Byte>, h: Header, at: nat, before: Addr, after: Addr)
    requires ParseIPv4(b) == Success(h) && at in {SRC, DST} && AddrAt(b, at, before)
    ensures var r := RewriteAddr(b, h, at, before, after);
            && (Verifies(WordSum(b[..h.headerLen])) <==> Verifies(WordSum(r[..h.headerLen])))
            && (U16(b, HEADER_CHECKSUM) == HeaderChecksum(b, h.headerLen) ==>
                  U16(r, HEADER_CHECKSUM) == HeaderChecksum(r, h.headerLen))
  {
    hide Verifies, WordSum, Complement, Updated, RewriteHeader, Mapped;
    var r := RewriteAddr(b, h, at, before, after);
    var mid := RewriteHeader(b, at, before, after);
    HeaderStaysValid(b, at, h.headerLen, before, after);
    TransportLeavesHeader(mid, h, before, after);
    assert r[10] == r[..h.headerLen][10] && r[11] == r[..h.headerLen][11];
    if U16(b, HEADER_CHECKSUM) == HeaderChecksum(b, h.headerLen) {
      HeaderStaysExact(b, at, h.headerLen, before, after);
      assert mid[10] == mid[..h.headerLen][10] && mid[11] == mid[..h.headerLen][11];
    }
  }

  lemma MessageVerdict(b: seq<Byte>, h: Header, at: nat, before: Addr, after: Addr, hi: nat, unseen: seq<Byte>)
    requires MIN_HEADER <= h.headerLen <= hi <= |b| && at in {SRC, DST} && AddrAt(b, at, before)
    requires h.FragmentOffset() == 0 && h.protocol == ICMP && WholeMessage(b, h, hi)
    ensures SameMessage(b, RewriteAddr(b, h, at, before, after), h, hi, unseen)
  {
    hide Verifies, WordSum, RewriteHeader, RewriteICMPInner;
    HeaderOutside(b, h.headerLen, hi, unseen, at, before, after);
    ICMPStaysValid(RewriteHeader(b, at, before, after), h, before, after, hi, unseen);
  }

  lemma SegmentVerdict(b: seq<Byte>, h: Header, at: nat, before: Addr, after: Addr,
                       hi: nat, unseen: seq<Byte>, length: nat)
    requires MIN_HEADER <= h.headerLen <= hi <= |b| && at in {SRC, DST} && AddrAt(b, at, before)
    requires h.FragmentOffset() == 0 && TransportChecksum(h.protocol).Some? && WholeField(b, h, hi)
    ensures SameSegment(b, RewriteAddr(b, h, at, before, after), h, hi, unseen, length, before, after)
  {
    hide Verifies, WordSum, Updated, PseudoSum, RewriteHeader, RegionSum;
    var off := FieldAt(h);
    if h.protocol == UDP && off + 2 <= hi {
      UDPZeroMeaning(b, h, at, before, after);
    }
    if !(h.protocol == UDP && off + 2 <= hi && U16(b, off) == 0) {
      SegmentVerdictExact(b, h, at, before, after, hi, unseen, length);
    }
  }

  // ---- In place

  method StoreWord(buf: array<Byte>, i: nat, w: Word)
    requires i + 2 <= buf.Length
    modifies buf
    ensures buf[..] == Put16(old(buf[..]), i, w)
  {
    buf[i] := w / 0x100;
    buf[i + 1] := w % 0x100;
  }

  method StoreAddr(buf: array<Byte>, at: nat, a: Addr)
    requires at + 4 <= buf.Length
    modifies buf
    ensures buf[..] == PutAddr(old(buf[..]), at, a)
  {
    StoreWord(buf, at, U16(a, 0));
    StoreWord(buf, at + 2, U16(a, 2));
  }

  method UpdateForAddr(checksum: Word, before: Addr, after: Addr) returns (r: Word)
    ensures r == UpdatedAddr(checksum, before, after)
  {
    r := UpdateChecksum(checksum, U16(before, 0), U16(after, 0));
    r := UpdateChecksum(r, U16(before, 2), U16(after, 2));
  }

  method ReplaceAddrInPlace(buf: array<Byte>, at: nat, before: Addr, after: Addr) returns (changed: bool)
    modifies buf
    ensures changed == AddrAt(old(buf[..]), at, before)
    ensures buf[..] == ReplaceAddr(old(buf[..]), at, before, after)
    ensures !changed ==> buf[..] == old(buf[..])
  {
    changed := AddrAt(buf[..], at, before);
    if changed {
      StoreAddr(buf, at, after);
    }
  }

  method RewriteICMPInnerInPlace(buf: array<Byte>, h: Header, before: Addr, after: Addr)
    requires MIN_HEADER <= h.headerLen <= buf.Length
    modifies buf
    ensures buf[..] == RewriteICMPInner(old(buf[..]), h, before, after)
  {
    hide Mapped, ParseIPv4, ReplaceAddr;
    ghost var b := buf[..];
    if h.FragmentOffset() != 0 { return; }
    var icmp := h.headerLen;
    if buf.Length < icmp + ICMP_MIN + MIN_HEADER { return; }
    if !CarriesOriginal(buf[icmp]) { return; }
    var inner := icmp + EMBEDDED;
    var parsed := ParseIPv4(buf[inner..]);
    assert buf[inner..] == b[inner..];
    if parsed.Failure? { return; }
    var n := parsed.value.headerLen;
    var srcChanged := ReplaceAddrInPlace(buf, inner + SRC, before, after);
    var dstChanged := ReplaceAddrInPlace(buf, inner + DST, before, after);
    if !srcChanged && !dstChanged { return; }
    SealAndUpdate(buf, b, icmp, n, srcChanged, dstChanged, before, after);
  }

  /** The second half: reseal the inner header, then fold every change into the outer sum. */
  method SealAndUpdate(buf: array<Byte>, ghost b: seq<Byte>, icmp: nat, n: nat,
                       srcChanged: bool, dstChanged: bool, before: Addr, after: Addr)
    requires MIN_HEADER <= n <= 60 && icmp + EMBEDDED + n <= buf.Length == |b|
    requires buf[..] == Moved(b, icmp + EMBEDDED, before, after)
    requires srcChanged == AddrAt(b, icmp + EMBEDDED + SRC, before)
    requires dstChanged == AddrAt(b, icmp + EMBEDDED + DST, before)
    modifies buf
    ensures buf[..] == Mapped(b, icmp, n, before, after)
  {
    hide Updated, Complement, UpdatedAddr, WordSum, Moved;
    var inner := icmp + EMBEDDED;
    ghost var moved := buf[..];
    var oldInner := U16(buf[..], inner + HEADER_CHECKSUM);
    StoreWord(buf, inner + HEADER_CHECKSUM, 0);
    WordSumBound(buf[inner..inner + n]);
    var newInner := Checksum16(buf[inner..inner + n]);
    StoreWord(buf, inner + HEADER_CHECKSUM, newInner);
    assert buf[..] == Resealed(moved, inner, n);
    var sum := U16(buf[..], icmp + ICMP_CHECKSUM);
    assert sum == U16(b, icmp + ICMP_CHECKSUM);
    if srcChanged {
      sum := UpdateForAddr(sum, before, after);
    }
    if dstChanged {
      sum := UpdateForAddr(sum, before, after);
    }
    sum := UpdateChecksum(sum, oldInner, newInner);
    StoreWord(buf, icmp + ICMP_CHECKSUM, sum);
  }

  method RewriteAddrInPlace(buf: array<Byte>, h: Header, at: nat, before: Addr, after: Addr)
    requires MIN_HEADER <= h.headerLen <= buf.Length && at in {SRC, DST}
    modifies buf
    ensures buf[..] == RewriteAddr(old(buf[..]), h, at, before, after)
  {
    hide Updated, UpdatedAddr, Mapped;
    StoreAddr(buf, at, after);
    var csum := UpdateForAddr(U16(buf[..], HEADER_CHECKSUM), before, after);
    StoreWord(buf, HEADER_CHECKSUM, csum);
    if h.FragmentOffset() != 0 { return; }
    if h.protocol == TCP {
      var off := h.headerLen + TCP_CHECKSUM;
      if buf.Length < off + 2 { return; }
      var c := UpdateForAddr(U16(buf[..], off), before, after);
      StoreWord(buf, off, NonZero(c));
    } else if h.protocol == UDP {
      var off := h.headerLen + UDP_CHECKSUM;
      if buf.Length < off + 2 { return; }
      var c := U16(buf[..], off);
      if c == 0 { return; }
      c := UpdateForAddr(c, before, after);
      StoreWord(buf, off, NonZero(c));
    } else if h.protocol == ICMP {
      RewriteICMPInnerInPlace(buf, h, before, after);
    }
  }

  /** Why a packet is not mapped: the header first, then the address, then the tunnel. */
  predicate RefusedFor(b: seq<Byte>, error: Error) {
    match error
    case TooShort => |b| < 20
    case NotIPv4(version) => |b| >= 20 && b[0] / 16 == version != 4
    case BadHeaderLength(length) => |b| >= 20 && b[0] / 16 == 4 && b[0] % 16 * 4 == length && !(20 <= length <= |b|)
    case _ => Parses(b)
  }

  predicate HasTunnel(public: Option<Addr>) {
    public.Some? && public.value != [0, 0, 0, 0]
  }

  method Uplink(buf: array<Byte>, peer: Addr, public: Option<Addr>) returns (error: Option<Error>)
    modifies buf
    ensures error.None? <==> Parses(old(buf[..])) && AddrAt(old(buf[..]), 12, peer) && HasTunnel(public)
    ensures error.None? ==> Rewritten(old(buf[..]), buf[..], 12, peer, public.value)
    ensures error.Some? ==> buf[..] == old(buf[..]) && RefusedFor(old(buf[..]), error.value)
    ensures error == Some(SourceNotPeer) ==> !AddrAt(old(buf[..]), 12, peer)
    ensures error == Some(NoTunnelAddress) ==> AddrAt(old(buf[..]), 12, peer)
    ensures error != Some(DestinationNotTunnel)
  {
    hide RewriteAddr, Rewritten;
    ghost var b := buf[..];
    ParsesByBytes(b);
    var parsed := ParseIPv4(buf[..]);
    if parsed.Failure? { return Some(parsed.error); }
    if !AddrAt(buf[..], SRC, peer) { return Some(SourceNotPeer); }
    var current := CurrentPublic(public);
    if current.Failure? { return Some(current.error); }
    RewriteAddrInPlace(buf, parsed.value, SRC, peer, current.value);
    RewriteIsRewritten(b, SRC, peer, current.value);
    return None;
  }

  method Downlink(buf: array<Byte>, peer: Addr, public: Option<Addr>) returns (error: Option<Error>)
    modifies buf
    ensures error.None? <==> Parses(old(buf[..])) && HasTunnel(public) && AddrAt(old(buf[..]), 16, public.value)
    ensures error.None? ==> Rewritten(old(buf[..]), buf[..], 16, public.value, peer)
    ensures error.Some? ==> buf[..] == old(buf[..]) && RefusedFor(old(buf[..]), error.value)
    ensures error == Some(NoTunnelAddress) ==> !HasTunnel(public)
    ensures error == Some(DestinationNotTunnel) ==> HasTunnel(public)
    ensures error != Some(SourceNotPeer)
  {
    hide RewriteAddr, Rewritten;
    ghost var b := buf[..];
    ParsesByBytes(b);
    var parsed := ParseIPv4(buf[..]);
    if parsed.Failure? { return Some(parsed.error); }
    var current := CurrentPublic(public);
    if current.Failure? { return Some(current.error); }
    if !AddrAt(buf[..], DST, current.value) { return Some(DestinationNotTunnel); }
    RewriteAddrInPlace(buf, parsed.value, DST, current.value, peer);
    RewriteIsRewritten(b, DST, current.value, peer);
    return None;
  }
}
