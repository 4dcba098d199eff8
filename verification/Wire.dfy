/** The tunnel's wire format: re-splitting the downlink byte stream, and the client frames
    against the server's own decoder. */
module Wire {
  import opened Checksum
  import opened Wrappers

  type Bytes = seq<Byte>

  datatype Error = NotIPv4 | BadPacketLength | BufferFull | BadToken | BadCount | FrameTooLong | BadVersion
    | UnknownFrame | Truncated

  const VERSION: Byte := 0x05
  const AUTH_REQ: Byte := 0x13
  const DATA_REQ: Byte := 0x14
  const HEARTBEAT_REQ: Byte := 0x15
  const MAX_STREAM := 4 * 0xFFFF
  const BATCH := 32

  // ---- Splitting the downlink stream into packets

  datatype Split = Split(pkts: seq<Bytes>, rest: Bytes) | Bad(error: Error)

  function SplitPackets(stream: Bytes): Split
    decreases |stream|
  {
    if stream == [] then Split([], [])
    else if stream[0] / 16 != 4 then Bad(NotIPv4)
    else if |stream| < 4 then Split([], stream)
    else
      var n := U16(stream, 2);
      if n < 20 then Bad(BadPacketLength)
      else if |stream| < n then Split([], stream)
      else Prepend([stream[..n]], SplitPackets(stream[n..]))
  }

  function Prepend(pkts: seq<Bytes>, s: Split): Split {
    if s.Bad? then s else Split(pkts + s.pkts, s.rest)
  }

  lemma PrependTwice(a: seq<Bytes>, b: seq<Bytes>, s: Split)
    ensures Prepend(a, Prepend(b, s)) == Prepend(a + b, s)
  {
    if s.Split? {
      assert a + (b + s.pkts) == a + b + s.pkts;
    }
  }

  lemma PrependNone(s: Split)
    ensures Prepend([], s) == s
  {
    if s.Split? {
      assert [] + s.pkts == s.pkts;
    }
  }

  /** A whole packet is at the front of the stream. */
  predicate Whole(stream: Bytes) {
    |stream| >= 4 && stream[0] / 16 == 4 && 20 <= U16(stream, 2) <= |stream|
  }

  lemma WholeFirst(a: Bytes, b: Bytes)
    requires Whole(a)
    ensures var n := U16(a, 2);
            && Whole(a + b) && U16(a + b, 2) == n
            && (a + b)[..n] == a[..n] && (a + b)[n..] == a[n..] + b
  {
  }

  lemma SplitWhole(stream: Bytes)
    requires Whole(stream)
    ensures SplitPackets(stream) == Prepend([stream[..U16(stream, 2)]], SplitPackets(stream[U16(stream, 2)..]))
  {
  }

  lemma SplitPartial(a: Bytes, b: Bytes)
    requires !Whole(a)
    ensures SplitPackets(a).Split? ==> SplitPackets(a).pkts == [] && SplitPackets(a).rest == a
    ensures SplitPackets(a).Bad? ==> SplitPackets(a + b) == SplitPackets(a)
  {
    if |a| >= 4 {
      assert U16(a + b, 2) == U16(a, 2);
    }
  }

  /** Splitting more of the stream picks up where the last split stopped. */
  lemma {:induction false} SplitContinues(a: Bytes, b: Bytes)
    ensures SplitPackets(a).Split? ==>
              SplitPackets(a + b) == Prepend(SplitPackets(a).pkts, SplitPackets(SplitPackets(a).rest + b))
    ensures SplitPackets(a).Bad? ==> SplitPackets(a + b) == SplitPackets(a)
    decreases |a|
  {
    hide SplitPackets;
    if Whole(a) {
      var n := U16(a, 2);
      WholeFirst(a, b);
      SplitWhole(a);
      SplitWhole(a + b);
      SplitContinues(a[n..], b);
      var s := SplitPackets(a[n..]);
      if s.Split? {
        PrependTwice([a[..n]], s.pkts, SplitPackets(s.rest + b));
      }
    } else {
      SplitPartial(a, b);
      PrependNone(SplitPackets(a + b));
    }
  }

  /** A packet is never longer than its 16-bit length field allows. */
  lemma {:induction false} RestIsShort(stream: Bytes)
    ensures SplitPackets(stream).Split? ==> |SplitPackets(stream).rest| < 0xFFFF
    decreases |stream|
  {
    if |stream| >= 4 && stream[0] / 16 == 4 && 20 <= U16(stream, 2) <= |stream| {
      RestIsShort(stream[U16(stream, 2)..]);
    }
  }

  function Join(parts: seq<Bytes>): Bytes {
    if parts == [] then [] else Join(parts[..|parts| - 1]) + parts[|parts| - 1]
  }

  /** No byte is invented, lost or reordered. */
  lemma {:induction false} SplitIsFaithful(stream: Bytes)
    ensures SplitPackets(stream).Split? ==> Join(SplitPackets(stream).pkts) + SplitPackets(stream).rest == stream
    decreases |stream|
  {
    if |stream| >= 4 && stream[0] / 16 == 4 && 20 <= U16(stream, 2) <= |stream| {
      var n := U16(stream, 2);
      SplitIsFaithful(stream[n..]);
      var s := SplitPackets(stream[n..]);
      if s.Split? {
        JoinAfter(stream[..n], s.pkts);
        assert stream == stream[..n] + stream[n..];
      }
    }
  }

  lemma {:induction false} JoinAfter(first: Bytes, parts: seq<Bytes>)
    ensures Join([first] + parts) == first + Join(parts)
    decreases |parts|
  {
    var all := [first] + parts;
    if parts == [] {
      assert all[..|all| - 1] == [];
    } else {
      assert all[..|all| - 1] == [first] + parts[..|parts| - 1];
      JoinAfter(first, parts[..|parts| - 1]);
    }
  }

  // ---- What the split means

  /** A complete IPv4 packet, as long as its own length field says. */
  predicate IsPacket(p: Bytes) {
    |p| >= 20 && p[0] / 16 == 4 && U16(p, 2) == |p|
  }

  /** Nothing, or the beginning of a packet. */
  predicate IsBeginning(rest: Bytes) {
    rest == [] || (rest[0] / 16 == 4 && (|rest| < 4 || (20 <= U16(rest, 2) && |rest| < U16(rest, 2))))
  }

  /** The stream is these packets and something that does not begin with another. */
  predicate Parsed(stream: Bytes, pkts: seq<Bytes>, rest: Bytes) {
    Join(pkts) + rest == stream && !Whole(rest) && forall i | 0 <= i < |pkts| :: IsPacket(pkts[i])
  }

  /** Every stream is so in one way, and splitting finds it: the packets and the beginning of
      the next, or the reason why what follows them is no beginning. */
  lemma {:induction false} SplitMeans(stream: Bytes, pkts: seq<Bytes>, rest: Bytes)
    requires Parsed(stream, pkts, rest)
    ensures SplitPackets(stream) == if IsBeginning(rest) then Split(pkts, rest)
                                    else if rest[0] / 16 != 4 then Bad(NotIPv4) else Bad(BadPacketLength)
    decreases |pkts|
  {
    if pkts == [] {
      assert stream == rest;
    } else {
      var first, others := pkts[0], pkts[1..];
      assert [first] + others == pkts;
      JoinAfter(first, others);
      var tail := Join(others) + rest;
      assert stream == first + tail;
      SplitMeans(tail, others, rest);
      WholeFirst(first, tail);
      hide SplitPackets;
      SplitWhole(stream);
    }
  }

  lemma {:induction false} EveryStreamParses(stream: Bytes) returns (pkts: seq<Bytes>, rest: Bytes)
    ensures Parsed(stream, pkts, rest)
    decreases |stream|
  {
    if Whole(stream) {
      var n := U16(stream, 2);
      var others;
      others, rest := EveryStreamParses(stream[n..]);
      pkts := [stream[..n]] + others;
      JoinAfter(stream[..n], others);
      assert stream[..n] + stream[n..] == stream;
    } else {
      pkts, rest := [], stream;
    }
  }

  method SplitStream(stream: Bytes) returns (r: Split)
    ensures r == SplitPackets(stream)
  {
    var s := stream;
    var pkts: seq<Bytes> := [];
    while |s| > 0
      invariant SplitPackets(stream) == Prepend(pkts, SplitPackets(s))
      decreases |s|
    {
      if s[0] / 16 != 4 { return Bad(NotIPv4); }
      if |s| < 4 { return Split(pkts, s); }
      var n := U16(s, 2);
      if n < 20 { return Bad(BadPacketLength); }
      if |s| < n { return Split(pkts, s); }
      pkts := pkts + [s[..n]];
      s := s[n..];
    }
    return Split(pkts, []);
  }

  // ---- The downlink reader

  datatype Reader = Open(stream: Bytes, delivered: seq<Bytes>) | Closed(delivered: seq<Bytes>)

  function AppendStream(stream: Bytes, payload: Bytes): Result<Bytes, Error> {
    if |payload| > MAX_STREAM - |stream| then Failure(BufferFull) else Success(stream + payload)
  }

  function Receive(r: Reader, payload: Bytes): Reader {
    if r.Closed? then r
    else
      var s := AppendStream(r.stream, payload);
      if s.Failure? then Closed(r.delivered)
      else
        match SplitPackets(s.value)
        case Bad(_) => Closed(r.delivered)
        case Split(pkts, rest) => Open(rest, r.delivered + pkts)
  }

  function ReceiveAll(payloads: seq<Bytes>): Reader {
    if payloads == [] then Open([], []) else Receive(ReceiveAll(payloads[..|payloads| - 1]), payloads[|payloads| - 1])
  }

  /** However the server cuts the stream into frames, the packets delivered and the bytes kept
      are those of one split of the whole stream; the reader fails exactly when that split does,
      and its buffer cap never comes into play. */
  lemma {:induction false} ChunkingIrrelevant(payloads: seq<Bytes>)
    requires forall i | 0 <= i < |payloads| :: |payloads[i]| <= 0xFFFF
    ensures match SplitPackets(Join(payloads))
            case Split(pkts, rest) => ReceiveAll(payloads) == Open(rest, pkts)
            case Bad(_) => ReceiveAll(payloads).Closed?
    decreases |payloads|
  {
    if payloads != [] {
      var init, last := payloads[..|payloads| - 1], payloads[|payloads| - 1];
      ChunkingIrrelevant(init);
      SplitContinues(Join(init), last);
      RestIsShort(Join(init));
    }
  }

  method ReadLoop(payloads: seq<Bytes>) returns (r: Reader)
    ensures r == ReceiveAll(payloads)
  {
    var stream: Bytes := [];
    var delivered: seq<Bytes> := [];
    for i := 0 to |payloads|
      invariant ReceiveAll(payloads[..i]) == Open(stream, delivered)
    {
      assert payloads[..i + 1][..i] == payloads[..i];
      var appended := AppendStream(stream, payloads[i]);
      if appended.Failure? {
        ClosedStays(payloads, i + 1);
        return Closed(delivered);
      }
      var split := SplitStream(appended.value);
      if split.Bad? {
        ClosedStays(payloads, i + 1);
        return Closed(delivered);
      }
      stream := split.rest;
      delivered := delivered + split.pkts;
    }
    assert payloads[..|payloads|] == payloads;
    return Open(stream, delivered);
  }

  lemma {:induction false} ClosedStays(payloads: seq<Bytes>, i: nat)
    requires i <= |payloads| && ReceiveAll(payloads[..i]).Closed?
    ensures ReceiveAll(payloads) == ReceiveAll(payloads[..i])
    decreases |payloads| - i
  {
    if i == |payloads| {
      assert payloads[..i] == payloads;
    } else {
      assert payloads[..i + 1][..i] == payloads[..i];
      ClosedStays(payloads, i + 1);
    }
  }

  // ---- Client frames

  function Word16(n: nat): Bytes
    requires n < 0x1_0000
  {
    [n / 0x100, n % 0x100]
  }

  function LengthPrefixed(pkts: seq<Bytes>): Bytes
    requires forall i | 0 <= i < |pkts| :: |pkts[i]| <= 0xFFFF
  {
    if pkts == [] then [] else LengthPrefixed(pkts[..|pkts| - 1]) + Word16(|pkts[|pkts| - 1]|) + pkts[|pkts| - 1]
  }

  datatype ClientFrame = Heartbeat | Auth(body: Bytes) | Data(token: Bytes, pkts: seq<Bytes>)

  /** What the encoders accept. */
  predicate Encodable(f: ClientFrame) {
    match f
    case Heartbeat => true
    case Auth(body) => |body| <= 0xFFFF
    case Data(token, pkts) =>
      && 0 < |token| <= 255 && 0 < |pkts| <= 255 && forall i | 0 <= i < |pkts| :: 0 < |pkts[i]| <= 0xFFFF
  }

  function Encode(f: ClientFrame): Bytes
    requires Encodable(f)
  {
    match f
    case Heartbeat => [VERSION, HEARTBEAT_REQ, 0, 0]
    case Auth(body) => [VERSION, AUTH_REQ] + Word16(|body|) + body
    case Data(token, pkts) => [VERSION, DATA_REQ, |token|] + token + [0, 0, |pkts|] + LengthPrefixed(pkts)
  }

  function EncodeError(token: Bytes, pkts: seq<Bytes>): Error {
    if |token| == 0 || |token| > 255 then BadToken
    else if |pkts| == 0 || |pkts| > 255 then BadCount
    else BadPacketLength
  }

  method EncodeDataFrame(token: Bytes, pkts: seq<Bytes>) returns (r: Result<Bytes, Error>)
    ensures r == if Encodable(Data(token, pkts)) then Success(Encode(Data(token, pkts)))
                 else Failure(EncodeError(token, pkts))
    ensures r.Success? <==> 0 < |token| < 256 && 0 < |pkts| < 256 && forall i | 0 <= i < |pkts| :: 0 < |pkts[i]| < 0x1_0000
    ensures r == Failure(BadToken) <==> |token| == 0 || |token| >= 256
    ensures r == Failure(BadCount) <==> 0 < |token| < 256 && (|pkts| == 0 || |pkts| >= 256)
  {
    if |token| == 0 || |token| > 255 { return Failure(BadToken); }
    if |pkts| == 0 || |pkts| > 255 { return Failure(BadCount); }
    for i := 0 to |pkts|
      invariant forall j | 0 <= j < i :: 0 < |pkts[j]| <= 0xFFFF
    {
      if |pkts[i]| == 0 || |pkts[i]| > 0xFFFF { return Failure(BadPacketLength); }
    }
    var out := [VERSION, DATA_REQ, |token|] + token + [0, 0, |pkts|];
    ghost var head := out;
    for i := 0 to |pkts|
      invariant out == head + LengthPrefixed(pkts[..i])
    {
      assert pkts[..i + 1][..i] == pkts[..i];
      out := out + Word16(|pkts[i]|) + pkts[i];
    }
    assert pkts[..|pkts|] == pkts;
    return Success(out);
  }

  method EncodeAuthRequest(body: Bytes) returns (r: Result<Bytes, Error>)
    ensures r == if Encodable(Auth(body)) then Success(Encode(Auth(body))) else Failure(FrameTooLong)
  {
    if |body| > 0xFFFF { return Failure(FrameTooLong); }
    var out := [VERSION, AUTH_REQ, 0, 0];
    out := Put16(out, 2, |body|);
    assert out == [VERSION, AUTH_REQ] + Word16(|body|);
    return Success(out + body);
  }

  // ---- The server's decoder

  datatype ServerFrame = ServerFrame(cmd: Byte, payload: Bytes)

  /** Reads `count` length-prefixed packets: the packets and the bytes they take. */
  function TakePackets(input: Bytes, count: nat): Option<(seq<Bytes>, nat)> {
    if count == 0 then Some(([], 0))
    else if |input| < 2 then None
    else
      var n := U16(input, 0);
      if |input| < 2 + n then None
      else
        var more := TakePackets(input[2 + n..], count - 1);
        if more.None? then None
        else Some(([input[2..2 + n]] + more.value.0, 2 + n + more.value.1))
  }

  lemma {:induction false} TakeFits(input: Bytes, count: nat)
    ensures TakePackets(input, count).Some? ==> TakePackets(input, count).value.1 <= |input|
    decreases count
  {
    if count > 0 && |input| >= 2 && |input| >= 2 + U16(input, 0) {
      TakeFits(input[2 + U16(input, 0)..], count - 1);
    }
  }

  /** readServerFrame on a byte stream: one frame, and the stream behind it. */
  function ReadServerFrame(input: Bytes): Result<(ServerFrame, Bytes), Error> {
    if |input| < 2 then Failure(Truncated)
    else if input[0] != VERSION then Failure(BadVersion)
    else if input[1] == HEARTBEAT_REQ then
      if |input| < 4 then Failure(Truncated) else Success((ServerFrame(HEARTBEAT_REQ, []), input[4..]))
    else if input[1] == AUTH_REQ then
      if |input| < 4 || |input| < 4 + U16(input, 2) then Failure(Truncated)
      else Success((ServerFrame(AUTH_REQ, input[4..4 + U16(input, 2)]), input[4 + U16(input, 2)..]))
    else if input[1] == DATA_REQ then
      if |input| < 3 || |input| < 3 + input[2] as int + 3 then Failure(Truncated)
      else
        var at := 3 + input[2] as int + 3;
        TakeFits(input[at..], input[at - 1] as int);
        var taken := TakePackets(input[at..], input[at - 1] as int);
        if taken.None? then Failure(Truncated)
        else Success((ServerFrame(DATA_REQ, input[2..at + taken.value.1]), input[at + taken.value.1..]))
    else Failure(UnknownFrame)
  }

  /** parseClientDataFrame on the payload of a data frame. */
  function ParseClientData(payload: Bytes): Option<seq<Bytes>> {
    if |payload| < 4 || |payload| < 1 + payload[0] as int + 3 then None
    else
      var at := 1 + payload[0] as int;
      var taken := TakePackets(payload[at + 3..], payload[at + 2] as int);
      if taken.None? then None else Some(taken.value.0)
  }

  /** What the server makes of a frame it read. */
  function Interpret(f: ServerFrame): Option<ClientFrame> {
    if f.cmd == HEARTBEAT_REQ then Some(Heartbeat)
    else if f.cmd == AUTH_REQ then Some(Auth(f.payload))
    else
      var pkts := ParseClientData(f.payload);
      if pkts.None? || |f.payload| < 1 + f.payload[0] as int then None
      else Some(Data(f.payload[1..1 + f.payload[0] as int], pkts.value))
  }

  lemma Regroup(a: Bytes, b: Bytes, c: Bytes, d: Bytes, e: Bytes)
    ensures (a + b + c) + d + e == a + b + (c + d + e)
  {
  }

  lemma RegroupLast(a: Bytes, b: Bytes, c: Bytes, d: Bytes)
    ensures (a + b + c) + d == a + b + (c + d)
  {
  }

  lemma {:induction false} LengthPrefixedFirst(pkts: seq<Bytes>)
    requires pkts != [] && forall i | 0 <= i < |pkts| :: |pkts[i]| <= 0xFFFF
    ensures LengthPrefixed(pkts) == Word16(|pkts[0]|) + pkts[0] + LengthPrefixed(pkts[1..])
    decreases |pkts|
  {
    if |pkts| == 1 {
      assert pkts[..0] == [] && pkts[1..] == [];
    } else {
      hide Word16;
      var init, last := pkts[..|pkts| - 1], pkts[|pkts| - 1];
      LengthPrefixedFirst(init);
      var tail := pkts[1..];
      assert init[1..] == tail[..|tail| - 1] && last == tail[|tail| - 1] && init[0] == pkts[0];
      Regroup(Word16(|pkts[0]|), pkts[0], LengthPrefixed(init[1..]), Word16(|last|), last);
    }
  }

  lemma Parts(a: Bytes, b: Bytes, c: Bytes)
    ensures (a + b + c)[..|a|] == a
    ensures (a + b + c)[|a|..|a| + |b|] == b
    ensures (a + b + c)[|a| + |b|..] == c
  {
  }

  lemma TakeFirst(pkt: Bytes, rest: Bytes, count: nat)
    requires |pkt| <= 0xFFFF && count > 0
    ensures var more := TakePackets(rest, count - 1);
            TakePackets(Word16(|pkt|) + pkt + rest, count) ==
              if more.None? then None else Some(([pkt] + more.value.0, 2 + |pkt| + more.value.1))
  {
    var input := Word16(|pkt|) + pkt + rest;
    Parts(Word16(|pkt|), pkt, rest);
    assert U16(input, 0) == |pkt|;
  }

  /** A length-prefixed packet in front of others that are taken whole. */
  lemma TakeFront(first: Bytes, tail: Bytes, rest: Bytes, others: seq<Bytes>)
    requires |first| <= 0xFFFF && TakePackets(tail + rest, |others|) == Some((others, |tail|))
    ensures var all := Word16(|first|) + first + tail;
            TakePackets(all + rest, |others| + 1) == Some(([first] + others, |all|))
  {
    hide TakePackets;
    TakeFirst(first, tail + rest, |others| + 1);
    RegroupLast(Word16(|first|), first, tail, rest);
  }

  lemma {:induction false} TakeBack(pkts: seq<Bytes>, rest: Bytes)
    requires forall i | 0 <= i < |pkts| :: |pkts[i]| <= 0xFFFF
    ensures TakePackets(LengthPrefixed(pkts) + rest, |pkts|) == Some((pkts, |LengthPrefixed(pkts)|))
    decreases |pkts|
  {
    hide Word16, TakePackets, LengthPrefixed;
    if pkts == [] {
      TakeNone(rest);
    } else {
      LengthPrefixedFirst(pkts);
      TakeBack(pkts[1..], rest);
      TakeFront(pkts[0], LengthPrefixed(pkts[1..]), rest, pkts[1..]);
      assert [pkts[0]] + pkts[1..] == pkts;
    }
  }

  lemma TakeNone(rest: Bytes)
    ensures LengthPrefixed([]) == [] && TakePackets([] + rest, 0) == Some(([], 0))
  {
  }

  /** The payload the server keeps of a client frame. */
  function Kept(f: ClientFrame): ServerFrame
    requires Encodable(f)
  {
    match f
    case Heartbeat => ServerFrame(HEARTBEAT_REQ, [])
    case Auth(body) => ServerFrame(AUTH_REQ, body)
    case Data(_, _) => ServerFrame(DATA_REQ, Encode(f)[2..])
  }

  lemma ReadsData(token: Bytes, pkts: seq<Bytes>, rest: Bytes)
    requires Encodable(Data(token, pkts))
    ensures ReadServerFrame(Encode(Data(token, pkts)) + rest) == Success((Kept(Data(token, pkts)), rest))
  {
    hide TakePackets, LengthPrefixed;
    var frame, head, body := Encode(Data(token, pkts)), [VERSION, DATA_REQ, |token|] + token + [0, 0, |pkts|],
                             LengthPrefixed(pkts);
    var input, at := frame + rest, 3 + |token| + 3;
    DataHead(token, |pkts|, body + rest);
    assert input == head + (body + rest) && |head| == at;
    assert input[at..] == body + rest;
    TakeBack(pkts, rest);
    Parts(frame, rest, []);
    assert input == frame + rest + [] && |frame| == at + |body|;
    assert input[2..|frame|] == input[..|frame|][2..];
  }

  lemma DataHead(token: Bytes, count: Byte, rest: Bytes)
    requires |token| <= 255
    ensures var input := [VERSION, DATA_REQ, |token|] + token + [0, 0, count] + rest;
            && input[0] == VERSION && input[1] == DATA_REQ && input[2] == |token|
            && input[3 + |token| + 2] == count
  {
  }

  /** One read consumes exactly one encoded frame, whatever follows it. */
  lemma ReadsOneFrame(f: ClientFrame, rest: Bytes)
    requires Encodable(f)
    ensures ReadServerFrame(Encode(f) + rest) == Success((Kept(f), rest))
  {
    match f
    case Heartbeat =>
      Parts(Encode(f), rest, []);
      assert Encode(f) + rest == Encode(f) + rest + [];
    case Auth(body) =>
      var input := Encode(f) + rest;
      assert input == [VERSION, AUTH_REQ] + Word16(|body|) + body + rest;
      Parts([VERSION, AUTH_REQ] + Word16(|body|), body, rest);
      assert input[0] == VERSION && input[1] == AUTH_REQ && U16(input, 2) == |body|;
    case Data(token, pkts) =>
      ReadsData(token, pkts, rest);
  }

  /** The parts of a data frame's payload, as the server finds them. */
  lemma PayloadParts(token: Bytes, count: Byte, body: Bytes)
    requires 0 < |token| <= 255
    ensures var n := |token|;
            var payload := ([VERSION, DATA_REQ, n] + token + [0, 0, count] + body)[2..];
            && |payload| == 1 + n + 3 + |body| && payload[0] == n && payload[1..1 + n] == token
            && payload[1 + n + 2] == count && payload[1 + n + 3..] == body
  {
    var n := |token|;
    var payload := ([VERSION, DATA_REQ, n] + token + [0, 0, count] + body)[2..];
    assert payload == [n] + token + ([0, 0, count] + body);
    Parts([n], token, [0, 0, count] + body);
    assert payload[1 + n..] == [0, 0, count] + body;
  }

  lemma InterpretsBack(f: ClientFrame)
    requires Encodable(f)
    ensures Interpret(Kept(f)) == Some(f)
  {
    hide TakePackets, LengthPrefixed;
    if f.Data? {
      var body := LengthPrefixed(f.pkts);
      PayloadParts(f.token, |f.pkts|, body);
      assert body + [] == body;
      TakeBack(f.pkts, []);
    }
  }

  function EncodeAll(fs: seq<ClientFrame>): Bytes
    requires forall i | 0 <= i < |fs| :: Encodable(fs[i])
  {
    if fs == [] then [] else Encode(fs[0]) + EncodeAll(fs[1..])
  }

  /** The server's loop over a stream that ends at a frame boundary. */
  function DecodeAll(input: Bytes): Option<seq<ClientFrame>>
    decreases |input|
  {
    if input == [] then Some([])
    else
      match ReadServerFrame(input)
      case Failure(_) => None
      case Success((f, rest)) =>
        if |rest| >= |input| || Interpret(f).None? then None
        else
          var more := DecodeAll(rest);
          if more.None? then None else Some([Interpret(f).value] + more.value)
  }

  /** Any concatenation of client frames decodes to the same frames and packets. */
  lemma {:induction false} FramesRoundTrip(fs: seq<ClientFrame>)
    requires forall i | 0 <= i < |fs| :: Encodable(fs[i])
    ensures DecodeAll(EncodeAll(fs)) == Some(fs)
    decreases |fs|
  {
    if fs != [] {
      ReadsOneFrame(fs[0], EncodeAll(fs[1..]));
      InterpretsBack(fs[0]);
      FramesRoundTrip(fs[1..]);
      assert [fs[0]] + fs[1..] == fs;
    }
  }

  // ---- Releasing a flow's packets in batches

  function Concat(batches: seq<seq<Bytes>>): seq<Bytes> {
    if batches == [] then [] else Concat(batches[..|batches| - 1]) + batches[|batches| - 1]
  }

  /** The loop that sends a released list: data frames of at most 32 packets. */
  method SendBatches(token: Bytes, released: seq<Bytes>) returns (frames: seq<Bytes>, batches: seq<seq<Bytes>>)
    requires 0 < |token| <= 255 && forall i | 0 <= i < |released| :: 0 < |released[i]| <= 0xFFFF
    ensures |frames| == |batches| && Concat(batches) == released
    ensures forall i | 0 <= i < |batches| - 1 :: |batches[i]| == 32
    ensures forall i | 0 <= i < |batches| ::
              0 < |batches[i]| <= BATCH && Encodable(Data(token, batches[i]))
              && frames[i] == Encode(Data(token, batches[i]))
  {
    hide Encode;
    var pending := released;
    frames, batches := [], [];
    while |pending| > 0
      invariant |frames| == |batches| && Concat(batches) + pending == released
      invariant pending != [] ==> forall i | 0 <= i < |batches| :: |batches[i]| == 32
      invariant forall i | 0 <= i < |batches| - 1 :: |batches[i]| == 32
      invariant forall i | 0 <= i < |pending| :: 0 < |pending[i]| <= 0xFFFF
      invariant forall i | 0 <= i < |batches| ::
                  0 < |batches[i]| <= BATCH && Encodable(Data(token, batches[i]))
                  && frames[i] == Encode(Data(token, batches[i]))
      decreases |pending|
    {
      var n := if BATCH < |pending| then BATCH else |pending|;
      BatchEncodable(token, pending, n);
      var frame := EncodeDataFrame(token, pending[..n]);
      frames := frames + [frame.value];
      BatchNext(batches, pending, n);
      batches := batches + [pending[..n]];
      pending := pending[n..];
    }
  }

  lemma BatchEncodable(token: Bytes, pending: seq<Bytes>, n: nat)
    requires 0 < |token| <= 255 && 0 < n <= |pending| && n <= BATCH
    requires forall i | 0 <= i < |pending| :: 0 < |pending[i]| <= 0xFFFF
    ensures Encodable(Data(token, pending[..n]))
  {
  }

  lemma BatchNext(batches: seq<seq<Bytes>>, pending: seq<Bytes>, n: nat)
    requires n <= |pending|
    ensures Concat(batches + [pending[..n]]) + pending[n..] == Concat(batches) + pending
  {
    var all := batches + [pending[..n]];
    assert all[..|all| - 1] == batches;
  }
}
