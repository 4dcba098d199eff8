/** Packet conservation, request budget and fragment tiling over every run. */
module FlowLedger {
  import opened Packet
  import opened Wrappers
  import opened FlowTable
  import opened FlowInvariant
  import opened FlowHistory

  // ---- Packets

  /** The three ways in which a buffered packet may be thrown away. */
  datatype Cause = Cleared | RanOut | Refused

  /** Per flow, in order: the packets accepted for it, handed out, and thrown away, and why. */
  datatype Ledger = Ledger(
    accepted: map<AuthId, seq<Bytes>>, released: map<AuthId, seq<Bytes>>, discarded: map<AuthId, seq<Bytes>>,
    causes: map<AuthId, Cause>)

  function At(m: map<AuthId, seq<Bytes>>, id: AuthId): seq<Bytes> {
    if id in m then m[id] else []
  }

  /** The packets an operation hands to its caller. */
  function HandedOut(t: Table, op: Op): seq<Bytes> {
    if op.Complete? then CompleteAuth(t, op.now, op.id, op.token, op.granted).1 else []
  }

  /** The packets that left the buffer of id without being handed out. */
  function Lost(t: Table, t': Table, op: Op, id: AuthId): seq<Bytes> {
    if Buffered(t', id) == [] && !(op.Complete? && op.id == id && HandedOut(t, op) != []) then Buffered(t, id) else []
  }

  /** The reason the operation has to throw away the packets of a flow, if any: the table is
      closed, the flow's deadline has passed, or the response refuses it. */
  function CauseOf(t: Table, op: Op, id: AuthId): Option<Cause> {
    if op.Close? then Some(Cleared)
    else if op.RejectFragment? || id !in t.auth then None
    else if t.auth[id].Expired(op.now) then Some(RanOut)
    else if op.Complete? && op.id == id && (!op.granted || !ValidToken(op.token)) then Some(Refused)
    else None
  }

  /** Only packets with a cause are entered as thrown away. */
  function Discards(t: Table, op: Op, id: AuthId): seq<Bytes> {
    if CauseOf(t, op, id).Some? then Lost(t, Apply(t, op), op, id) else []
  }

  function Record(l: Ledger, t: Table, op: Op): Ledger {
    var grown := GrownBy(t, op);
    Ledger(
      if grown.Grew? then l.accepted[grown.id := At(l.accepted, grown.id) + [grown.pkt]] else l.accepted,
      if op.Complete? then l.released[op.id := At(l.released, op.id) + HandedOut(t, op)] else l.released,
      map id | id in l.discarded.Keys + t.auth.Keys :: At(l.discarded, id) + Discards(t, op, id),
      map id | id in l.causes.Keys + t.auth.Keys && (id in l.causes || Discards(t, op, id) != []) ::
        if id in l.causes then l.causes[id] else CauseOf(t, op, id).value)
  }

  /** Every accepted packet is in exactly one place, in arrival order: still buffered, handed
      out by one successful response, or thrown away for a recorded cause. */
  predicate Conserved(t: Table, l: Ledger, id: AuthId) {
    && At(l.accepted, id) == At(l.released, id) + At(l.discarded, id) + Buffered(t, id)
    && (Buffered(t, id) != [] ==> At(l.released, id) == [] && At(l.discarded, id) == [])
    && (At(l.released, id) != [] ==> At(l.discarded, id) == [])
    && (At(l.discarded, id) != [] <==> id in l.causes)
    && (id > t.next ==> At(l.accepted, id) == [])
  }

  lemma CompleteHandsOut(t: Table, op: Op)
    requires Inv(t) && op.Complete?
    ensures HandedOut(t, op) != [] ==>
              && op.id in t.auth && t.auth[op.id].state.Pending? && HandedOut(t, op) == t.auth[op.id].pending
              && Buffered(Apply(t, op), op.id) == []
              && op.granted && ValidToken(op.token)
              && op.now < t.auth[op.id].createdAt + 26 * SECOND
  {
  }

  /** One buffer over one operation: extended, handed out whole, thrown away whole, or kept. */
  lemma BufferStep(t: Table, op: Op, id: AuthId)
    requires Inv(t)
    ensures var t', grown := Apply(t, op), GrownBy(t, op);
            var b, b', h := Buffered(t, id), Buffered(t', id),
                            if op.Complete? && op.id == id then HandedOut(t, op) else [];
            && t.next <= t'.next
            && (id > t'.next ==> b' == [] && !(grown.Grew? && grown.id == id))
            && (h != [] ==> h == b && b' == [])
            && if grown.Grew? && grown.id == id
               then b' == b + [grown.pkt] && (b != [] || id == t.next + 1)
               else b' == b || b' == []
  {
    var t', grown := Apply(t, op), GrownBy(t, op);
    ApplyEvolves(t, op);
    if op.Complete? {
      CompleteHandsOut(t, op);
    }
    assert id in t'.auth ==> FlowEvolves(t, t'.auth[id], grown);
    assert id in t.auth ==> FlowOk(t.auth[id]) && id <= t.next;
    hide Inv, Apply, HandedOut, GrownBy;
  }

  // ---- Nothing is thrown away without a cause

  /** The flow survives with its buffer, at least. */
  predicate Survives(t: Table, t': Table, id: AuthId) {
    id in t.auth && id in t'.auth && |t'.auth[id].pending| >= |t.auth[id].pending|
  }

  lemma FindOrCreateKeepsUnexpired(t: Table, now: Time, key: FlowKey, appID: string, size: nat, id: AuthId)
    requires id in t.auth && !t.auth[id].Expired(now)
    ensures id in FindOrCreate(t, now, key, appID, size).table.auth
  {
    hide BudgetFull;
  }

  lemma LocateKeepsUnexpired(t: Table, now: Time, p: PacketInfo, appID: string, size: nat, id: AuthId)
    requires id in t.auth && !t.auth[id].Expired(now)
    ensures id in Locate(t, now, p, appID, size).table.auth
  {
    hide FindOrCreate;
    FindOrCreateKeepsUnexpired(t, now, p.key, appID, size, id);
    FindOrCreateKeepsUnexpired(ExpireFragments(DropFragment(t, p.fragment), now), now, p.key, appID, size, id);
  }

  lemma QueueKeepsUnexpired(t: Table, op: Op, id: AuthId)
    requires Inv(t) && op.Queue? && id in t.auth && !t.auth[id].Expired(op.now)
    ensures Survives(t, Apply(t, op), id)
  {
    hide Locate, Admit, SameFlows, Inv, BudgetFull, Evolves;
    InvLinks(t);
    LocateKeepsUnexpired(t, op.now, op.p, op.appID, |op.pkt|, id);
    LocateEvolves(t, op.now, op.p, op.appID, |op.pkt|);
    LocateMissingShrinks(t, op.now, op.p, op.appID, |op.pkt|);
    var l := Locate(t, op.now, op.p, op.appID, |op.pkt|);
    if l.Found? {
      AdmitSets(l.table, op.now, op.p, l.id, op.pkt);
    }
  }

  lemma VisitKeepsUnexpired(t: Table, now: Time, key: FlowKey, id: AuthId)
    requires SameFlows(t) && id in t.auth && !t.auth[id].Expired(now)
    ensures var t' := Visit(t, now, key).0; Survives(t, t', id) && !t'.auth[id].Expired(now)
  {
  }

  lemma {:induction false} ScanKeepsUnexpired(t: Table, now: Time, limit: nat, order: seq<FlowKey>, out: seq<AuthFlow>,
                                              id: AuthId)
    requires Inv(t) && id in t.auth && !t.auth[id].Expired(now)
    ensures Survives(t, PendingAuth(t, now, limit, order, out).0, id)
    decreases |order|
  {
    hide Inv, SameFlows, Visit;
    if order != [] {
      InvLinks(t);
      VisitKeepsUnexpired(t, now, order[0], id);
      VisitKeepsInv(t, now, order[0]);
      var (t1, due) := Visit(t, now, order[0]);
      ScanKeepsUnexpired(t1, now, limit, order[1..], if due.None? then out else out + [due.value], id);
    }
  }

  lemma AnswerKeepsUnexpired(t: Table, op: Op, id: AuthId)
    requires SameFlows(t) && (op.Retry? || op.Complete?) && id in t.auth && !t.auth[id].Expired(op.now)
    ensures (op.Complete? && op.id == id) || Survives(t, Apply(t, op), id)
    ensures op.Complete? && op.id == id && op.granted && ValidToken(op.token) ==>
              Survives(t, Apply(t, op), id) || HandedOut(t, op) == t.auth[id].pending
  {
  }

  lemma LostHasCause(t: Table, op: Op, id: AuthId)
    requires Inv(t)
    ensures Lost(t, Apply(t, op), op, id) != [] ==> CauseOf(t, op, id).Some?
  {
    hide Inv, SameFlows, Apply, HandedOut;
    InvLinks(t);
    if id in t.auth && !op.Close? && (op.RejectFragment? || !t.auth[id].Expired(op.now)) {
      match op
      case Queue(_, _, _, _) => QueueKeepsUnexpired(t, op, id);
      case Scan(now, limit, order) =>
        ScanKeepsUnexpired(t, now, limit, order, [], id);
        OtherApplies(t, op);
      case Retry(_, _) => AnswerKeepsUnexpired(t, op, id);
      case Complete(_, _, _, _) => AnswerKeepsUnexpired(t, op, id);
      case Sweep(_) => OtherApplies(t, op);
      case RejectFragment(_) => OtherApplies(t, op);
    }
  }

  lemma OtherApplies(t: Table, op: Op)
    ensures op.Scan? ==> Apply(t, op) == PendingAuth(t, op.now, op.limit, op.order, []).0
    ensures op.Sweep? ==> forall i | i in t.auth && !t.auth[i].Expired(op.now) ::
                            i in Apply(t, op).auth && Apply(t, op).auth[i] == t.auth[i]
    ensures op.RejectFragment? ==> Apply(t, op).auth == t.auth
  {
  }

  lemma RecordConserves(t: Table, l: Ledger, op: Op, id: AuthId)
    requires Inv(t) && Conserved(t, l, id)
    ensures Conserved(Apply(t, op), Record(l, t, op), id)
  {
    hide Inv, Apply, Record, HandedOut, GrownBy, Buffered, At, CauseOf;
    BufferStep(t, op, id);
    LostHasCause(t, op, id);
    LedgerEntries(t, l, op, id);
  }

  lemma LedgerEntries(t: Table, l: Ledger, op: Op, id: AuthId)
    ensures var l' := Record(l, t, op);
            var grown := GrownBy(t, op);
            && At(l'.accepted, id) == At(l.accepted, id) + (if grown.Grew? && grown.id == id then [grown.pkt] else [])
            && At(l'.released, id) == At(l.released, id) + (if op.Complete? && op.id == id then HandedOut(t, op) else [])
            && At(l'.discarded, id) == At(l.discarded, id) + Discards(t, op, id)
            && (id in l'.causes <==> id in l.causes || Discards(t, op, id) != [])
  {
    hide Discards, GrownBy, HandedOut, CauseOf;
    DiscardsFromTable(t, op, id);
  }

  lemma DiscardsFromTable(t: Table, op: Op, id: AuthId)
    ensures Discards(t, op, id) != [] ==> id in t.auth
  {
    hide Apply, HandedOut;
  }

  // ---- Authentication requests

  /** When requests went out for each flow, and when a retry was scheduled for it. */
  datatype Requests = Requests(sent: map<AuthId, seq<Time>>, scheduled: map<AuthId, Time>)

  function SentFor(sent: map<AuthId, seq<Time>>, id: AuthId): seq<Time> {
    if id in sent then sent[id] else []
  }

  function AddAll(sent: map<AuthId, seq<Time>>, out: seq<AuthFlow>, now: Time): map<AuthId, seq<Time>> {
    if out == [] then sent
    else
      var before := AddAll(sent, out[..|out| - 1], now);
      var id := out[|out| - 1].authID;
      before[id := SentFor(before, id) + [now]]
  }

  predicate Schedules(t: Table, op: Op) {
    op.Retry? && op.id in t.auth && op.id in Apply(t, op).auth
    && t.auth[op.id].authRetryAt.None? && Apply(t, op).auth[op.id].authRetryAt.Some?
  }

  function RecordRequests(r: Requests, t: Table, op: Op): Requests {
    Requests(
      if op.Scan? then AddAll(r.sent, PendingAuth(t, op.now, op.limit, op.order, []).1, op.now) else r.sent,
      if Schedules(t, op) then r.scheduled[op.id := op.now] else r.scheduled)
  }

  function Count(o: Option<Time>): nat {
    if o.Some? then 1 else 0
  }

  /** At most two requests per flow ever, the second at least ten seconds after a retry was
      scheduled; the flow's own fields say how many went out. */
  predicate RequestsOk(t: Table, r: Requests, id: AuthId) {
    var sent := SentFor(r.sent, id);
    && |sent| <= 2
    && (|sent| == 2 ==> id in r.scheduled && sent[1] >= r.scheduled[id] + RETRY_DELAY)
    && (id > t.next ==> sent == [] && id !in r.scheduled)
    && (id in t.auth ==>
          var f := t.auth[id];
          && |sent| == Count(f.authSent) + Count(f.authRetryAt)
          && (f.authRetryAt.Some? <==> id in r.scheduled)
          && (id in r.scheduled ==> f.authRetryAt.value == r.scheduled[id] + RETRY_DELAY))
  }

  /** No flow's request fields change, and a new flow has none set. */
  predicate KeepsRequests(t: Table, t': Table) {
    && t.next <= t'.next
    && (forall i | i in t'.auth ::
          if i in t.auth then t'.auth[i].authSent == t.auth[i].authSent && t'.auth[i].authRetryAt == t.auth[i].authRetryAt
          else i == t.next + 1 && t'.auth[i].authSent.None? && t'.auth[i].authRetryAt.None?)
  }

  lemma KeptRequestsOk(t: Table, t': Table, r: Requests, id: AuthId)
    ensures KeepsRequests(t, t') && RequestsOk(t, r, id) ==> RequestsOk(t', r, id)
  {
  }

  lemma QueueKeepsRequests(t: Table, now: Time, p: PacketInfo, appID: string, pkt: Bytes)
    requires SameFlows(t)
    ensures KeepsRequests(t, QueuePacket(t, now, p, appID, pkt).0)
  {
    hide Locate, Admit, SameFlows, Evolves;
    LocateEvolves(t, now, p, appID, |pkt|);
    var l := Locate(t, now, p, appID, |pkt|);
    if l.Found? {
      AdmitSets(l.table, now, p, l.id, pkt);
    } else {
      LocateMissingShrinks(t, now, p, appID, |pkt|);
    }
  }

  lemma LocateMissingShrinks(t: Table, now: Time, p: PacketInfo, appID: string, size: nat)
    ensures var l := Locate(t, now, p, appID, size); l.Missing? ==> Shrinks(t, l.table)
  {
    hide FindOrCreate, LocateTail;
    if p.offset != 0 {
      LocateTailKeepsFlows(t, now, p);
    } else if !p.more {
      FindOrCreateMissing(t, now, p.key, appID, size);
    } else {
      FindOrCreateMissing(ExpireFragments(DropFragment(t, p.fragment), now), now, p.key, appID, size);
    }
  }

  lemma FindOrCreateMissing(t: Table, now: Time, key: FlowKey, appID: string, size: nat)
    ensures var l := FindOrCreate(t, now, key, appID, size); l.Missing? ==> Shrinks(t, l.table)
  {
    hide EvictExpired, NewFlow, BudgetFull, Shrinks;
    EvictShrinks(t, now, key);
  }

  lemma CompleteKeepsRequests(t: Table, now: Time, id: AuthId, token: Bytes, granted: bool)
    ensures SameFlows(t) ==> KeepsRequests(t, CompleteAuth(t, now, id, token, granted).0)
  {
  }

  lemma RetryRequestsOk(t: Table, r: Requests, op: Op, id: AuthId)
    requires Inv(t) && op.Retry? && RequestsOk(t, r, id)
    ensures RequestsOk(Apply(t, op), RecordRequests(r, t, op), id)
  {
  }

  lemma VisitRequestsOk(t: Table, sent: map<AuthId, seq<Time>>, scheduled: map<AuthId, Time>, now: Time,
                        key: FlowKey, id: AuthId)
    requires SameFlows(t) && RequestsOk(t, Requests(sent, scheduled), id)
    ensures var (t', due) := Visit(t, now, key);
            var sent' := if due.None? then sent
                         else sent[due.value.authID := SentFor(sent, due.value.authID) + [now]];
            RequestsOk(t', Requests(sent', scheduled), id)
  {
  }

  lemma {:induction false} ScanRequestsOk(t: Table, r: Requests, now: Time, limit: nat, order: seq<FlowKey>,
                                          out: seq<AuthFlow>, id: AuthId)
    requires Inv(t) && RequestsOk(t, Requests(AddAll(r.sent, out, now), r.scheduled), id)
    ensures var (t', out') := PendingAuth(t, now, limit, order, out);
            RequestsOk(t', Requests(AddAll(r.sent, out', now), r.scheduled), id)
    decreases |order|
  {
    hide RequestsOk, Visit;
    if order != [] {
      assert SameFlows(t);
      VisitRequestsOk(t, AddAll(r.sent, out, now), r.scheduled, now, order[0], id);
      VisitKeepsInv(t, now, order[0]);
      hide Inv;
      var (t1, due) := Visit(t, now, order[0]);
      if due.None? {
        ScanRequestsOk(t1, r, now, limit, order[1..], out, id);
      } else {
        var out' := out + [due.value];
        assert out'[..|out'| - 1] == out;
        if |out'| != limit {
          ScanRequestsOk(t1, r, now, limit, order[1..], out', id);
        }
      }
    }
  }

  lemma RecordRequestsOk(t: Table, r: Requests, op: Op, id: AuthId)
    requires Inv(t) && RequestsOk(t, r, id)
    ensures RequestsOk(Apply(t, op), RecordRequests(r, t, op), id)
  {
    hide Inv, SameFlows, RequestsOk, QueuePacket, PendingAuth, RetryAuth, CompleteAuth;
    InvLinks(t);
    match op
    case Queue(now, p, appID, pkt) =>
      QueueKeepsRequests(t, now, p, appID, pkt);
      KeptRequestsOk(t, Apply(t, op), r, id);
    case Scan(now, limit, order) => ScanRequestsOk(t, r, now, limit, order, [], id);
    case Retry(_, _) => RetryRequestsOk(t, r, op, id);
    case Complete(now, i, token, granted) =>
      CompleteKeepsRequests(t, now, i, token, granted);
      KeptRequestsOk(t, Apply(t, op), r, id);
    case Sweep(_) => KeptRequestsOk(t, Apply(t, op), r, id);
    case Close => KeptRequestsOk(t, Apply(t, op), r, id);
    case RejectFragment(_) => KeptRequestsOk(t, Apply(t, op), r, id);
  }

  /** A response for a flow no request was sent for changes nothing and releases nothing. */
  lemma UnaskedResponseIsInert(t: Table, r: Requests, now: Time, id: AuthId, token: Bytes, granted: bool)
    requires RequestsOk(t, r, id) && SentFor(r.sent, id) == []
    ensures RetryAuth(t, now, id) == (t, false)
    ensures CompleteAuth(t, now, id, token, granted) == (t, [])
  {
  }
}
