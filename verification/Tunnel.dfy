/** The uplink of one tunnel connection: parse, match, charge to a flow, frame.

    What the parts prove separately meets here: a packet goes out only under the token of a
    flow of its own addresses, and that flow was opened under the grant the server's list
    chooses for it, first fragments and later ones alike.
 */
module Tunnel {
  import opened Checksum
  import opened Packet
  import opened Wrappers
  import opened Resource
  import opened FlowTable
  import opened FlowInvariant
  import opened FlowHistory
  import opened FlowEffects
  import opened Conntrack
  import Wire

  /** A network-order address as a number. */
  function Address(b: Bytes): nat {
    if b == [] then 0 else Address(b[..|b| - 1]) * 0x100 + b[|b| - 1] as int
  }

  /** The destination and, for TCP and UDP, the destination port of a packet that is no later
      fragment, by its bytes. */
  function Destination(pkt: Bytes): nat
    requires |pkt| >= 20
  {
    ((pkt[16] as int * 0x100 + pkt[17] as int) * 0x100 + pkt[18] as int) * 0x100 + pkt[19] as int
  }

  function DestinationPort(pkt: Bytes): Word
    requires Acceptable(pkt)
  {
    if U16(pkt, 6) % 0x2000 == 0 && pkt[9] != 1 then U16(pkt, HeaderLength(pkt) + 2) else 0
  }

  lemma AddressIsDestination(pkt: Bytes)
    requires |pkt| >= 20
    ensures Address(pkt[16..20]) == Destination(pkt)
  {
    var b := pkt[16..20];
    assert b[..3][..2] == b[..2] && b[..2][..1] == b[..1] && b[..1][..0] == [];
    assert Address(b[..1]) == b[0] as int;
    assert Address(b[..2]) == Address(b[..1]) * 0x100 + b[1] as int;
    assert Address(b[..3]) == Address(b[..2]) * 0x100 + b[2] as int;
  }

  /** The grant looked up for a packet is the one the list chooses for its own destination,
      protocol and port, and none is found only if no rule covers those. */
  ghost predicate LookedUp(listed: seq<Rule>, pkt: Bytes, app: Option<string>)
    requires Acceptable(pkt)
  {
    match app
    case Some(a) =>
      exists i: nat :: Chosen(listed, Destination(pkt), pkt[9], DestinationPort(pkt), i) && listed[i].grant.appID == a
    case None => forall i | 0 <= i < |listed| :: !Covers(listed[i], Destination(pkt), pkt[9], DestinationPort(pkt))
  }

  lemma GrantedIsLookedUp(listed: seq<Rule>, pkt: Bytes, app: Option<string>)
    requires Acceptable(pkt)
    requires var key := ParsePacket(pkt).info.key;
             if app.Some? then Granted(listed, key, app.value) else Uncovered(listed, key)
    ensures LookedUp(listed, pkt, app)
  {
    hide Covers, ParsePacket, Address;
    ParsesFromBytes(pkt);
    AddressIsDestination(pkt);
    var key := ParsePacket(pkt).info.key;
    assert Address(key.dst) == Destination(pkt) && key.proto == pkt[9] && key.dport == DestinationPort(pkt);
    if app.Some? {
      var i: nat :| ChosenFor(listed, key, i) && listed[i].grant.appID == app.value;
    }
  }

  lemma OffsetByBytes(pkt: Bytes)
    ensures Acceptable(pkt) ==> (ParsePacket(pkt).info.offset == 0 <==> U16(pkt, 6) % 0x2000 == 0)
  {
    hide ParsePacket;
    ParsesFromBytes(pkt);
  }

  ghost predicate ChosenFor(listed: seq<Rule>, key: FlowKey, i: nat) {
    Chosen(listed, Address(key.dst), key.proto, key.dport, i)
  }

  /** No rule of the server's list covers the five-tuple. */
  predicate Uncovered(listed: seq<Rule>, key: FlowKey) {
    forall i | 0 <= i < |listed| :: !Covers(listed[i], Address(key.dst), key.proto, key.dport)
  }

  /** The app id is the one the server's list chooses for the five-tuple. */
  ghost predicate Granted(listed: seq<Rule>, key: FlowKey, appID: string) {
    exists i: nat :: ChosenFor(listed, key, i) && listed[i].grant.appID == appID
  }

  /** A packet that may travel on a flow: a first or whole packet of exactly that five-tuple,
      or a later fragment between the same addresses. */
  predicate Belongs(key: FlowKey, p: PacketInfo) {
    && p.key.src == key.src && p.key.dst == key.dst && p.key.proto == key.proto
    && (p.offset == 0 ==> p.key == key)
  }

  predicate Carries(key: FlowKey, mtu: nat, pkt: Bytes) {
    var parsed := ParsePacket(pkt);
    parsed.error.None? && |pkt| <= mtu && Belongs(key, parsed.info)
  }

  ghost predicate FlowRight(listed: seq<Rule>, mtu: nat, f: Flow) {
    Granted(listed, f.key, f.appID) && forall j | 0 <= j < |f.pending| :: Carries(f.key, mtu, f.pending[j])
  }

  ghost predicate Right(listed: seq<Rule>, mtu: nat, t: Table) {
    forall i | i in t.auth :: FlowRight(listed, mtu, t.auth[i])
  }

  // ---- Where a packet is charged

  lemma FindOrCreateKey(t: Table, now: Time, key: FlowKey, appID: string, size: nat)
    requires SameFlows(t)
    ensures var l := FindOrCreate(t, now, key, appID, size);
            l.Found? ==> l.table.auth[l.id].key == key && (l.id !in t.auth ==> l.table.auth[l.id].appID == appID)
  {
    hide BudgetFull;
  }

  lemma LocateKey(t: Table, now: Time, p: PacketInfo, appID: string, size: nat)
    requires Inv(t) && WellFormed(p)
    ensures var l := Locate(t, now, p, appID, size);
            l.Found? ==> && Belongs(l.table.auth[l.id].key, p)
                         && (l.id !in t.auth ==> p.offset == 0 && l.table.auth[l.id].appID == appID)
  {
    hide FindOrCreate, Inv, SameFlows;
    InvLinks(t);
    var l := Locate(t, now, p, appID, size);
    if p.offset != 0 {
      if l.Found? {
        TailKey(t, p);
      }
    } else if p.more {
      var swept := ExpireFragments(DropFragment(t, p.fragment), now);
      SameFlowsIgnoresFragments(t, swept);
      FindOrCreateKey(swept, now, p.key, appID, size);
    } else {
      FindOrCreateKey(t, now, p.key, appID, size);
    }
  }

  lemma TailKey(t: Table, p: PacketInfo)
    requires Inv(t) && WellFormed(p) && p.offset != 0 && p.fragment in t.fragments
    ensures t.fragments[p.fragment].flow in t.auth && Belongs(t.auth[t.fragments[p.fragment].flow].key, p)
  {
    assert FragmentOk(t, p.fragment, t.fragments[p.fragment]);
  }

  /** An accepted packet is charged to a flow it belongs to; a packet sent at once goes under
      that flow's token. */
  lemma ChargedRight(t: Table, now: Time, p: PacketInfo, appID: string, pkt: Bytes)
    requires Inv(t) && WellFormed(p)
    ensures var (t', outcome) := QueuePacket(t, now, p, appID, pkt);
            var charged := ChargedTo(t, Queue(now, p, appID, pkt));
            !outcome.Rejected? ==>
              && charged.Some? && charged.value in t'.auth
              && Belongs(t'.auth[charged.value].key, p)
              && (charged.value !in t.auth ==> p.offset == 0 && t'.auth[charged.value].appID == appID)
              && (outcome.Send? ==> t'.auth[charged.value].state.Ready? && t'.auth[charged.value].token == outcome.token)
  {
    hide Inv, SameFlows, Locate, Evolves, BudgetFull, WellFormed, Belongs;
    InvLinks(t);
    if !t.closed {
      LocateKey(t, now, p, appID, |pkt|);
      LocateEvolves(t, now, p, appID, |pkt|);
      var l := Locate(t, now, p, appID, |pkt|);
      if l.Found? {
        AdmitSets(l.table, now, p, l.id, pkt);
      }
    }
  }

  /** What the tunnel hands to the flow table. */
  ghost predicate Proper(listed: seq<Rule>, mtu: nat, op: Op) {
    op.Queue? ==>
      && ParsePacket(op.pkt) == Parsed(op.p, None) && |op.pkt| <= mtu && WellFormed(op.p)
      && (op.p.offset == 0 ==> Granted(listed, op.p.key, op.appID))
  }

  /** Every operation keeps every flow under the grant its five-tuple is chosen, buffering
      only packets that belong to it. */
  lemma ApplyKeepsRight(listed: seq<Rule>, mtu: nat, t: Table, op: Op)
    requires Inv(t) && Right(listed, mtu, t) && Proper(listed, mtu, op)
    ensures Right(listed, mtu, Apply(t, op))
  {
    hide Inv, Granted, Apply, WellFormed, ParsePacket, Belongs, QueuePacket, Locate;
    var t', grown := Apply(t, op), GrownBy(t, op);
    ApplyEvolves(t, op);
    forall i | i in t'.auth ensures FlowRight(listed, mtu, t'.auth[i]) {
      var f' := t'.auth[i];
      assert FlowEvolves(t, f', grown);
      if grown.Grew? && grown.id == i {
        assert t' == QueuePacket(t, op.now, op.p, op.appID, op.pkt).0 by { ApplyQueue(t, op); }
        ChargedRight(t, op.now, op.p, op.appID, op.pkt);
        assert Carries(f'.key, mtu, op.pkt);
        if i !in t.auth {
          assert f'.key == op.p.key by { BelongsFirst(f'.key, op.p); }
        }
      }
    }
  }

  lemma ApplyQueue(t: Table, op: Op)
    ensures op.Queue? ==> Apply(t, op) == QueuePacket(t, op.now, op.p, op.appID, op.pkt).0
  {
  }

  lemma BelongsFirst(key: FlowKey, p: PacketInfo)
    ensures Belongs(key, p) && p.offset == 0 ==> p.key == key
  {
  }

  // ---- The connection

  datatype SendError = Malformed(ParseError) | TooLarge | Unmatched | Refused(FlowTable.Error) | WriteFailed

  /** A packet that never reaches the flow table. */
  ghost predicate Stopped(listed: seq<Rule>, mtu: nat, pkt: Bytes, error: SendError) {
    var parsed := ParsePacket(pkt);
    if !Acceptable(pkt) then parsed.error.Some? && error == Malformed(parsed.error.value)
    else if |pkt| > mtu then error == TooLarge
    else error == Unmatched && parsed.info.offset == 0 && Uncovered(listed, parsed.info.key)
  }

  const RETRY_STATUS: Byte := 0x86
  const SESSION_GONE := 75500002

  /** A decoded authorisation response. */
  datatype Response = Response(code: Option<int>, hash: Option<AuthId>, token: Bytes)

  datatype CloseReason = SessionGone | IncompleteResponse | BadTokenLength | BrokenWrite

  /** The server reads the frame back as this one packet under this token. */
  predicate Sends(frame: Bytes, token: Bytes, pkt: Bytes) {
    Wire.DecodeAll(frame) == Some([Wire.Data(token, [pkt])])
  }

  /** The frame carries the packet under the token of a ready flow it belongs to, opened under
      the chosen grant. */
  ghost predicate CarriedBy(listed: seq<Rule>, t: Table, p: PacketInfo, frame: Bytes, pkt: Bytes) {
    exists id | id in t.auth ::
      && t.auth[id].state.Ready? && Belongs(t.auth[id].key, p) && Sends(frame, t.auth[id].token, pkt)
      && Granted(listed, t.auth[id].key, t.auth[id].appID)
  }

  lemma OneFrameDecodes(f: Wire.ClientFrame)
    requires Wire.Encodable(f)
    ensures Wire.DecodeAll(Wire.Encode(f)) == Some([f])
  {
    Wire.FramesRoundTrip([f]);
    assert Wire.EncodeAll([f]) == Wire.Encode(f);
  }

  lemma RightGrants(listed: seq<Rule>, mtu: nat, t: Table, id: AuthId)
    requires Right(listed, mtu, t) && id in t.auth
    ensures Granted(listed, t.auth[id].key, t.auth[id].appID)
  {
    assert FlowRight(listed, mtu, t.auth[id]);
  }

  lemma TokenValid(t: Table, id: AuthId)
    requires Inv(t) && id in t.auth && t.auth[id].state.Ready?
    ensures ValidToken(t.auth[id].token)
  {
    assert FlowOk(t.auth[id]);
  }

  /** The response ends the connection, whatever the table holds. */
  function ClosesFor(status: Byte, resp: Response): Option<CloseReason> {
    if resp.code == Some(SESSION_GONE) then Some(SessionGone)
    else if resp.code.None? || resp.hash.None? || resp.hash == Some(0) then Some(IncompleteResponse)
    else if status == 0 && resp.code == Some(0) && !ValidToken(resp.token) then Some(BadTokenLength)
    else None
  }

  /** A grant with a usable token for a flow that waits for it in time. */
  predicate GrantFor(t: Table, now: Time, status: Byte, resp: Response) {
    && status == 0 && resp.code == Some(0) && resp.hash.Some? && resp.hash.value != 0 && 0 < |resp.token| <= 255
    && Asked(t, resp.hash.value) && !RanOut(t.auth[resp.hash.value], now)
  }

  /** A response that speaks to a flow waiting for it, and does not end the session. */
  predicate Addresses(t: Table, now: Time, resp: Response) {
    && resp.code.Some? && resp.code.value != 75500002 && resp.hash.Some? && resp.hash.value != 0
    && Asked(t, resp.hash.value) && !RanOut(t.auth[resp.hash.value], now)
  }

  /** A grant releases the whole, non-empty buffer and makes the flow ready; a refusal fails it;
      the first "try again" schedules its one retry. */
  predicate Spoken(t: Table, t': Table, now: Time, later: Time, status: Byte, resp: Response,
                   released: seq<Bytes>, reason: Option<CloseReason>)
  {
    && (GrantFor(t, later, status, resp) ==>
          && released == t.auth[resp.hash.value].pending != []
          && (reason.None? ==> IsNow(t', resp.hash.value, Ready, resp.token)))
    && (Addresses(t, later, resp) && status != 0x86 && (status != 0 || resp.code != Some(0)) ==>
          released == [] && reason.None? && IsNow(t', resp.hash.value, Failed, t.auth[resp.hash.value].token))
    && (Addresses(t, now, resp) && status == 0x86 && t.auth[resp.hash.value].authRetryAt.None? ==>
          released == [] && reason.None? && RetriesAt(t', resp.hash.value, now + 10_000_000_000))
  }

  predicate IsNow(t: Table, id: AuthId, state: FlowState, token: Bytes) {
    id in t.auth && t.auth[id].state == state && t.auth[id].token == token && t.auth[id].pending == []
  }

  predicate RetriesAt(t: Table, id: AuthId, at: Time) {
    id in t.auth && t.auth[id].state.Pending? && t.auth[id].authSent.None? && t.auth[id].authRetryAt == Some(at)
  }

  lemma AnsweredSpeaks(t: Table, now: Time, later: Time, status: Byte, resp: Response)
    requires Inv(t) && ClosesFor(status, resp).None?
    ensures var (t', released) := Answered(t, now, later, status, resp);
            Spoken(t, t', now, later, status, resp, released, None)
  {
    hide Inv, CompleteAuth, RetryAuth, RanOut;
    if Addresses(t, later, resp) {
      ResponseDecides(t, later, resp.hash.value, resp.token, true);
      ResponseDecides(t, later, resp.hash.value, [], false);
    }
    if Addresses(t, now, resp) {
      RetryDecides(t, now, resp.hash.value);
    }
  }

  /** Otherwise it schedules the one retry, refuses the flow or releases its packets. */
  function Answered(t: Table, now: Time, later: Time, status: Byte, resp: Response): (Table, seq<Bytes>)
    requires ClosesFor(status, resp).None?
  {
    var id := resp.hash.value;
    if status == RETRY_STATUS && RetryAuth(t, now, id).1 then (RetryAuth(t, now, id).0, [])
    else
      var t := if status == RETRY_STATUS then RetryAuth(t, now, id).0 else t;
      if status != 0 || resp.code != Some(0) then CompleteAuth(t, later, id, [], false)
      else CompleteAuth(t, later, id, resp.token, true)
  }

  lemma RefusalReleasesNothing(t: Table, now: Time, id: AuthId)
    ensures CompleteAuth(t, now, id, [], false).1 == []
  {
  }

  /** Released packets all belong to the flow, which now has the token. */
  lemma ReleasedRight(listed: seq<Rule>, mtu: nat, t: Table, now: Time, id: AuthId, token: Bytes)
    requires SameFlows(t) && Right(listed, mtu, t)
    ensures var (t', released) := CompleteAuth(t, now, id, token, true);
            released != [] ==> Releases(listed, mtu, t', id, token, released)
  {
    hide Granted, Carries;
    if id in t.auth {
      assert FlowRight(listed, mtu, t.auth[id]);
    }
  }

  ghost predicate Releases(listed: seq<Rule>, mtu: nat, t: Table, id: AuthId, token: Bytes, released: seq<Bytes>) {
    && id in t.auth && t.auth[id].state.Ready? && t.auth[id].token == token
    && Granted(listed, t.auth[id].key, t.auth[id].appID)
    && forall i | 0 <= i < |released| :: Carries(t.auth[id].key, mtu, released[i])
  }

  lemma ReleasedFit(listed: seq<Rule>, mtu: nat, t: Table, id: AuthId, token: Bytes, released: seq<Bytes>)
    requires released != [] ==> Releases(listed, mtu, t, id, token, released)
    ensures forall i | 0 <= i < |released| :: 0 < |released[i]| <= 0xFFFF
  {
    hide Granted;
    forall i | 0 <= i < |released| ensures 0 < |released[i]| <= 0xFFFF {
      assert Carries(t.auth[id].key, mtu, released[i]);
      AcceptedIsWellFormed(released[i]);
    }
  }

  class TunnelConn {
    const rules: seq<Rule>
    const mtu: nat
    const flows: ConnTable
    /** The rules as the server listed them, before sorting. */
    ghost const listed: seq<Rule>
    ghost const order: seq<nat>

    ghost predicate Valid()
      reads this, flows
    {
      && flows.Valid() && Right(listed, mtu, flows.View())
      && SortedInto(listed, CompareRules, order, rules)
      && (forall i | 0 <= i < |listed| :: listed[i].prefix.Masked())
    }

    constructor (listed: seq<Rule>, mtu: nat)
      requires forall i | 0 <= i < |listed| :: listed[i].prefix.Masked()
      ensures Valid() && fresh(flows) && flows.View() == EMPTY && this.listed == listed && this.mtu == mtu
    {
      var sorted, o := SortRules(listed);
      var table := new ConnTable();
      rules, this.mtu, flows, this.listed, order := sorted, mtu, table, listed, o;
    }

    /** The app id granted to a first fragment or whole packet. */
    method Match(key: FlowKey) returns (appID: Option<string>)
      requires Valid()
      ensures appID.Some? ==> Granted(listed, key, appID.value)
      ensures appID.None? ==> Uncovered(listed, key)
    {
      var x := MatchIP(rules, Address(key.dst), key.proto, key.dport);
      ScanIsChoice(listed, order, rules, Address(key.dst), key.proto, key.dport,
                   if x.Some? then x.value else |rules|);
      if x.None? { return None; }
      assert ChosenFor(listed, key, order[x.value]);
      return Some(rules[x.value].grant.appID);
    }

    method Refuse(p: PacketInfo)
      requires Valid()
      modifies flows
      ensures Valid() && flows.View() == if p.Fragmented() then DropFragment(old(flows.View()), p.fragment)
                                         else old(flows.View())
    {
      if p.Fragmented() { flows.RejectFragment(p.fragment); }
    }

    /** A packet from the bearer: dropped with a reason, buffered, or framed for the server.
        `writes` says whether the connection takes a frame; if it does not, it is closed. */
    method Send(now: Time, pkt: Bytes, writes: bool)
      returns (frame: Option<Bytes>, error: Option<SendError>, ghost appID: string)
      requires Valid()
      modifies flows
      ensures Valid()
      ensures ReadFrom(ParsePacket(pkt).info, pkt) && (Acceptable(pkt) ==> Describes(ParsePacket(pkt).info, pkt))
      ensures error.Some? && error.value.Malformed? <==> !Acceptable(pkt)
      ensures error == Some(TooLarge) <==> Acceptable(pkt) && |pkt| > mtu
      ensures Acceptable(pkt) && error == Some(Unmatched) ==> LookedUp(listed, pkt, None)
      ensures Acceptable(pkt) && |pkt| <= mtu && error != Some(Unmatched) && U16(pkt, 6) % 0x2000 == 0 ==>
                LookedUp(listed, pkt, Some(appID))
      ensures var p := ParsePacket(pkt).info;
              if error.Some? && !error.value.Refused? && !error.value.WriteFailed? then
                && frame.None? && Stopped(listed, mtu, pkt, error.value)
                && flows.View() == if p.Fragmented() then DropFragment(old(flows.View()), p.fragment)
                                   else old(flows.View())
              else
                && Proper(listed, mtu, Queue(now, p, appID, pkt))
                && var (t', outcome) := QueuePacket(old(flows.View()), now, p, appID, pkt);
                   && (flows.View() == if error == Some(WriteFailed) then Clear(t') else t')
                   && match outcome
                      case Rejected(e) => error == Some(Refused(e)) && frame.None?
                      case Queued => error.None? && frame.None?
                      case Send(token) =>
                        if writes then error.None? && frame.Some? && Sends(frame.value, token, pkt)
                        else error == Some(WriteFailed) && frame.None?
      ensures frame.Some? ==> CarriedBy(listed, flows.View(), ParsePacket(pkt).info, frame.value, pkt)
    {
      hide Inv, Right, SortedInto, Granted, FlowTable.QueuePacket, Belongs, WellFormed, ConnTable.Counted;
      frame, error, appID := None, None, "";
      var parsed := ParsePacket(pkt);
      AcceptedIsWellFormed(pkt);
      ParsesFromBytes(pkt);
      OffsetByBytes(pkt);
      hide ParsePacket, Acceptable, Describes, ReadFrom, LookedUp;
      var p := parsed.info;
      if parsed.error.Some? {
        Refuse(p);
        return None, Some(Malformed(parsed.error.value)), "";
      }
      if |pkt| > mtu {
        Refuse(p);
        return None, Some(TooLarge), "";
      }
      var app := "";
      if p.offset == 0 {
        var granted := Match(p.key);
        GrantedIsLookedUp(listed, pkt, granted);
        if granted.None? {
          Refuse(p);
          return None, Some(Unmatched), "";
        }
        app := granted.value;
      }
      appID := app;
      ghost var t := flows.View();
      ApplyKeepsRight(listed, mtu, t, Queue(now, p, app, pkt));
      ChargedRight(t, now, p, app, pkt);
      var token, queued, refused := flows.QueuePacket(now, p, app, pkt);
      if refused.Some? { return None, Some(Refused(refused.value)), app; }
      if queued { return None, None, app; }
      ghost var id := ChargedTo(t, Queue(now, p, app, pkt)).value;
      TokenValid(flows.View(), id);
      var out := Wire.EncodeDataFrame(token, [pkt]);
      OneFrameDecodes(Wire.Data(token, [pkt]));
      RightGrants(listed, mtu, flows.View(), id);
      if !writes {
        Abandon();
        return None, Some(WriteFailed), app;
      }
      return Some(out.value), None, app;
    }

    /** An authorisation response.  The two clock readings are those of the two table calls;
        the connection takes `writable` frames and breaks on the next. */
    method HandleAuthResp(now: Time, later: Time, status: Byte, resp: Response, writable: nat)
      returns (frames: seq<Bytes>, reason: Option<CloseReason>, ghost batches: seq<seq<Bytes>>)
      requires Valid()
      modifies flows
      ensures Valid()
      ensures ClosesFor(status, resp).Some? ==>
                reason == ClosesFor(status, resp) && flows.View() == Clear(old(flows.View())) && batches == []
      ensures ClosesFor(status, resp).None? ==>
                var (t', released) := Answered(old(flows.View()), now, later, status, resp);
                && Wire.Concat(batches) == released
                && reason == (if |batches| <= writable then None else Some(BrokenWrite))
                && (flows.View() == if reason.None? then t' else Clear(t'))
                && (released != [] ==> Releases(listed, mtu, t', resp.hash.value, resp.token, released))
      ensures reason == Some(SessionGone) <==> resp.code == Some(75500002)
      ensures Spoken(old(flows.View()), flows.View(), now, later, status, resp, Wire.Concat(batches), reason)
      ensures |frames| == if |batches| <= writable then |batches| else writable
      ensures forall i | 0 <= i < |frames| ::
                && 0 < |batches[i]| <= Wire.BATCH
                && Wire.DecodeAll(frames[i]) == Some([Wire.Data(resp.token, batches[i])])
    {
      hide Inv, Right, SortedInto, FlowTable.CompleteAuth, FlowTable.RetryAuth, ConnTable.Counted, Releases,
           RanOut;
      frames, reason, batches := [], None, [];
      ghost var was := flows.View();
      if ClosesFor(status, resp).None? { AnsweredSpeaks(was, now, later, status, resp); }
      if resp.code == Some(SESSION_GONE) {
        Abandon();
        return [], Some(SessionGone), [];
      }
      if resp.code.None? || resp.hash.None? || resp.hash == Some(0) {
        Abandon();
        return [], Some(IncompleteResponse), [];
      }
      var id := resp.hash.value;
      if status == RETRY_STATUS {
        ApplyKeepsRight(listed, mtu, flows.View(), Retry(now, id));
        var again := flows.RetryAuth(id, now);
        if again { return; }
      }
      ghost var t := flows.View();
      if status != 0 || resp.code != Some(0) {
        ApplyKeepsRight(listed, mtu, t, Complete(later, id, [], false));
        RefusalReleasesNothing(t, later, id);
        var _ := flows.CompleteAuth(id, [], false, later);
        return;
      }
      if |resp.token| == 0 || |resp.token| > 255 {
        Abandon();
        return [], Some(BadTokenLength), [];
      }
      ApplyKeepsRight(listed, mtu, t, Complete(later, id, resp.token, true));
      InvLinks(t);
      ReleasedRight(listed, mtu, t, later, id, resp.token);
      var released := flows.CompleteAuth(id, resp.token, true, later);
      ReleasedFit(listed, mtu, flows.View(), id, resp.token, released);
      var all, parts := Wire.SendBatches(resp.token, released);
      batches := parts;
      forall i | 0 <= i < |all| ensures Wire.DecodeAll(all[i]) == Some([Wire.Data(resp.token, batches[i])]) {
        OneFrameDecodes(Wire.Data(resp.token, batches[i]));
      }
      if |all| > writable {
        frames, reason := all[..writable], Some(BrokenWrite);
        Abandon();
      } else {
        frames := all;
      }
    }

    /** Closing the connection empties the table for good. */
    method Abandon()
      requires Valid()
      modifies flows
      ensures Valid() && flows.View() == Clear(old(flows.View()))
    {
      hide Inv, ConnTable.Counted, SortedInto;
      flows.Clear();
    }
  }
}
