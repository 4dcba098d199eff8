/** Whole runs of the flow table: what happens to every packet, request and fragment.

    A log is kept beside the table.  It is filled from what each operation was given and what
    it handed out; the theorems say that the log never shows a packet lost, duplicated or
    reordered, a third request, or a gap between fragments.
 */
module FlowHistory {
  import opened Packet
  import opened Wrappers
  import opened FlowTable
  import opened FlowInvariant

  datatype Op =
    | Queue(now: Time, p: PacketInfo, appID: string, pkt: Bytes)
    | Scan(now: Time, limit: nat, order: seq<FlowKey>)
    | Retry(now: Time, id: AuthId)
    | Complete(now: Time, id: AuthId, token: Bytes, granted: bool)
    | Sweep(now: Time)
    | Close
    | RejectFragment(key: FragmentKey)

  function Apply(t: Table, op: Op): Table {
    match op
    case Queue(now, p, appID, pkt) => QueuePacket(t, now, p, appID, pkt).0
    case Scan(now, limit, order) => PendingAuth(t, now, limit, order, []).0
    case Retry(now, id) => RetryAuth(t, now, id).0
    case Complete(now, id, token, granted) => CompleteAuth(t, now, id, token, granted).0
    case Sweep(now) => Expire(t, now)
    case Close => Clear(t)
    case RejectFragment(key) => DropFragment(t, key)
  }

  lemma ApplyKeepsInv(t: Table, op: Op)
    requires Inv(t) && (op.Queue? ==> WellFormed(op.p))
    ensures Inv(Apply(t, op))
  {
    hide Inv, WellFormed;
    match op
    case Queue(now, p, appID, pkt) => QueueKeepsInv(t, now, p, appID, pkt);
    case Scan(now, limit, order) => PendingAuthKeepsInv(t, now, limit, order, []);
    case Retry(now, id) => RetryKeepsInv(t, now, id);
    case Complete(now, id, token, granted) => CompleteKeepsInv(t, now, id, token, granted);
    case Sweep(now) => ExpireKeepsInv(t, now);
    case Close => ClearKeepsInv(t);
    case RejectFragment(key) => DropFragmentKeepsInv(t, key);
  }

  // ---- How an operation may change the flows

  function Buffered(t: Table, id: AuthId): seq<Bytes> {
    if id in t.auth then t.auth[id].pending else []
  }

  /** The flow a packet was buffered on, if it was buffered. */
  datatype Grown = Nothing | Grew(id: AuthId, pkt: Bytes)

  function GrownBy(t: Table, op: Op): Grown {
    if op.Queue? && QueuePacket(t, op.now, op.p, op.appID, op.pkt).1.Queued? && ChargedTo(t, op).Some?
    then Grew(ChargedTo(t, op).value, op.pkt) else Nothing
  }

  /** The flow an accepted packet travels on. */
  function ChargedTo(t: Table, op: Op): Option<AuthId>
    requires op.Queue?
  {
    var l := Locate(t, op.now, op.p, op.appID, |op.pkt|);
    if t.closed || l.Missing? then None else Some(l.id)
  }

  /** A flow keeps its identity for life, and its buffer is kept, dropped whole or extended
      at the end by the packet just accepted. */
  predicate FlowEvolves(t: Table, f': Flow, grown: Grown) {
    var id := f'.authID;
    if id in t.auth then
      && f'.key == t.auth[id].key && f'.appID == t.auth[id].appID && f'.createdAt == t.auth[id].createdAt
      && (if grown.Grew? && grown.id == id then f'.pending == t.auth[id].pending + [grown.pkt]
          else f'.pending == t.auth[id].pending || f'.pending == [])
    else
      && id == t.next + 1 && grown.Grew? && grown.id == id && f'.pending == [grown.pkt]
  }

  predicate Evolves(t: Table, t': Table, grown: Grown) {
    && t.next <= t'.next
    && (forall i | i in t'.auth :: t'.auth[i].authID == i && FlowEvolves(t, t'.auth[i], grown))
    && (grown.Grew? ==> grown.id in t'.auth && (grown.id in t.auth ==> t.auth[grown.id].state.Pending?)
                        && grown.id <= t'.next)
  }

  lemma EvolvesTrans(t: Table, t1: Table, t2: Table)
    requires Evolves(t, t1, Nothing) && Evolves(t1, t2, Nothing)
    ensures Evolves(t, t2, Nothing)
  {
    forall i | i in t2.auth ensures t2.auth[i].authID == i && FlowEvolves(t, t2.auth[i], Nothing) {
      assert FlowEvolves(t1, t2.auth[i], Nothing);
      assert FlowEvolves(t, t1.auth[i], Nothing);
    }
  }

  lemma VisitEvolves(t: Table, now: Time, key: FlowKey)
    ensures SameFlows(t) ==> Evolves(t, Visit(t, now, key).0, Nothing)
  {
  }

  lemma {:induction false} ScanEvolves(t: Table, now: Time, limit: nat, order: seq<FlowKey>, out: seq<AuthFlow>)
    requires Inv(t)
    ensures Evolves(t, PendingAuth(t, now, limit, order, out).0, Nothing)
    decreases |order|
  {
    hide Evolves, Visit;
    if order == [] {
      EvolvesSame(t);
    } else {
      assert SameFlows(t);
      VisitEvolves(t, now, order[0]);
      VisitKeepsInv(t, now, order[0]);
      var (t1, due) := Visit(t, now, order[0]);
      hide Inv;
      if due.None? {
        ScanEvolves(t1, now, limit, order[1..], out);
        EvolvesTrans(t, t1, PendingAuth(t1, now, limit, order[1..], out).0);
      } else if |out| + 1 != limit {
        ScanEvolves(t1, now, limit, order[1..], out + [due.value]);
        EvolvesTrans(t, t1, PendingAuth(t1, now, limit, order[1..], out + [due.value]).0);
      }
    }
  }

  lemma EvolvesSame(t: Table)
    ensures SameFlows(t) ==> Evolves(t, t, Nothing)
  {
  }

  /** Some flows gone, the others untouched. */
  predicate Shrinks(t: Table, t1: Table) {
    t1.next == t.next && t1.auth.Keys <= t.auth.Keys && forall i | i in t1.auth :: t1.auth[i] == t.auth[i]
  }

  lemma EvictShrinks(t: Table, now: Time, key: FlowKey)
    ensures Shrinks(t, EvictExpired(t, now, key))
  {
  }

  lemma ShrinksEvolves(t: Table, t1: Table)
    requires SameFlows(t) && Shrinks(t, t1)
    ensures Evolves(t, t1, Nothing)
    ensures forall id, made | id in t1.auth :: LocatedEvolves(t, t1, id, made)
  {
  }

  lemma NewFlowEvolves(t: Table, t1: Table, now: Time, key: FlowKey, appID: string)
    requires SameFlows(t) && Shrinks(t, t1)
    ensures LocatedEvolves(t, NewFlow(t1, now, key, appID), t1.next + 1, FreshFlow(t, now, key, appID))
  {
  }

  lemma FindOrCreateEvolves(t: Table, now: Time, key: FlowKey, appID: string, size: nat)
    requires SameFlows(t)
    ensures var l := FindOrCreate(t, now, key, appID, size);
            if l.Missing? then Evolves(t, l.table, Nothing)
            else LocatedEvolves(t, l.table, l.id, FreshFlow(t, now, key, appID))
  {
    hide SameFlows, EvictExpired, Evolves, LocatedEvolves, Shrinks, BudgetFull, NewFlow;
    var t1 := EvictExpired(t, now, key);
    EvictShrinks(t, now, key);
    ShrinksEvolves(t, t1);
    NewFlowEvolves(t, t1, now, key, appID);
  }

  /** Between locating and buffering: the located flow may be brand new and still empty. */
  predicate LocatedEvolves(t: Table, t1: Table, id: AuthId, made: Flow) {
    && id in t1.auth && id <= t1.next
    && (if id in t.auth then t1.next == t.next else id == t1.next == t.next + 1 && t1.auth[id] == made)
    && (forall i | i in t1.auth ::
          t1.auth[i].authID == i && if i in t.auth then t1.auth[i] == t.auth[i] else i == id)
  }

  lemma EvolvesFrom(s: Table, t: Table, t': Table)
    requires s.auth == t.auth && s.next == t.next
    ensures Evolves(s, t', Nothing) ==> Evolves(t, t', Nothing)
    ensures forall id, made :: LocatedEvolves(s, t', id, made) ==> LocatedEvolves(t, t', id, made)
  {
    assert forall f' :: FlowEvolves(s, f', Nothing) == FlowEvolves(t, f', Nothing);
  }

  lemma SameFlowsIgnoresFragments(t: Table, s: Table)
    ensures SameFlows(t) && s.flows == t.flows && s.auth == t.auth && s.next == t.next ==> SameFlows(s)
  {
  }

  lemma LocateTailKeepsFlows(t: Table, now: Time, p: PacketInfo)
    ensures var l := LocateTail(t, now, p); Shrinks(t, l.table) && (l.Found? ==> l.id in t.auth)
  {
  }

  lemma LocateOpenerEvolves(t: Table, now: Time, p: PacketInfo, appID: string, size: nat)
    requires SameFlows(t) && p.offset == 0 && p.more
    ensures var l := LocateFirst(t, now, p, appID, size);
            if l.Missing? then Evolves(t, l.table, Nothing)
            else LocatedEvolves(t, l.table, l.id, FreshFlow(t, now, p.key, appID))
  {
    hide FindOrCreate, Evolves, LocatedEvolves, SameFlows;
    var dropped := DropFragment(t, p.fragment);
    var swept := ExpireFragments(dropped, now);
    ShrinksEvolves(t, dropped);
    ShrinksEvolves(t, swept);
    var l := FindOrCreate(swept, now, p.key, appID, size);
    SameFlowsIgnoresFragments(t, swept);
    FindOrCreateEvolves(swept, now, p.key, appID, size);
    EvolvesFrom(swept, t, l.table);
    assert FreshFlow(swept, now, p.key, appID) == FreshFlow(t, now, p.key, appID);
  }

  lemma LocateEvolves(t: Table, now: Time, p: PacketInfo, appID: string, size: nat)
    requires SameFlows(t)
    ensures var l := Locate(t, now, p, appID, size);
            if l.Missing? then Evolves(t, l.table, Nothing)
            else LocatedEvolves(t, l.table, l.id, FreshFlow(t, now, p.key, appID)) && (p.offset != 0 ==> l.id in t.auth)
  {
    hide FindOrCreate, LocateTail, Evolves, LocatedEvolves, SameFlows, ExpireFragments, DropFragment;
    var l := Locate(t, now, p, appID, size);
    if p.offset != 0 {
      LocateTailKeepsFlows(t, now, p);
      ShrinksEvolves(t, l.table);
    } else if p.more {
      LocateOpenerEvolves(t, now, p, appID, size);
    } else {
      FindOrCreateEvolves(t, now, p.key, appID, size);
    }
  }

  /** Admission replaces the located flow and no other. */
  function Admitted(f: Flow, now: Time, queued: bool, pkt: Bytes): Flow {
    if queued then f.(updatedAt := now, pending := f.pending + [pkt]) else f.(updatedAt := now)
  }

  lemma AdmitSets(t: Table, now: Time, p: PacketInfo, id: AuthId, pkt: Bytes)
    requires id in t.auth && t.auth[id].authID == id
    ensures var (t', outcome) := Admit(t, now, p, id, pkt);
            && t'.next == t.next
            && t'.auth == t.auth[id := Admitted(t.auth[id], now, outcome.Queued?, pkt)]
            && (outcome.Queued? ==> t.auth[id].state.Pending?)
            && (t.auth[id].state.Pending? && t.auth[id].pending == [] && !BudgetFull(t, |pkt|) ==> outcome.Queued?)
  {
    hide BudgetFull;
  }

  lemma AdmitEvolves(t: Table, t1: Table, now: Time, p: PacketInfo, id: AuthId, pkt: Bytes, made: Flow)
    requires LocatedEvolves(t, t1, id, made) && made.pending == [] && made.state.Pending?
    requires id !in t.auth ==> !BudgetFull(t1, |pkt|)
    ensures var (t', outcome) := Admit(t1, now, p, id, pkt);
            Evolves(t, t', if outcome.Queued? then Grew(id, pkt) else Nothing)
  {
    hide Admit, BudgetFull;
    AdmitSets(t1, now, p, id, pkt);
  }

  lemma QueueEvolves(t: Table, op: Op)
    requires Inv(t) && op.Queue?
    ensures Evolves(t, Apply(t, op), GrownBy(t, op))
  {
    hide Evolves, Locate, Admit, BudgetFull, Inv, SameFlows, Locating;
    InvLinks(t);
    if t.closed {
      EvolvesSame(t);
    } else {
      LocateEvolves(t, op.now, op.p, op.appID, |op.pkt|);
      LocateKeepsInv(t, op.now, op.p, op.appID, |op.pkt|);
      var l := Locate(t, op.now, op.p, op.appID, |op.pkt|);
      if l.Found? {
        AdmitEvolves(t, l.table, op.now, op.p, l.id, op.pkt, FreshFlow(t, op.now, op.p.key, op.appID));
      }
    }
  }

  lemma RemoveEvolves(t: Table, dead: set<AuthId>)
    requires SameFlows(t)
    ensures Evolves(t, RemoveFlows(t, dead), Nothing)
  {
    ShrinksEvolves(t, RemoveFlows(t, dead));
  }

  lemma RetryEvolves(t: Table, now: Time, id: AuthId)
    requires SameFlows(t)
    ensures Evolves(t, RetryAuth(t, now, id).0, Nothing)
  {
    RemoveEvolves(t, {id});
  }

  lemma CompleteEvolves(t: Table, now: Time, id: AuthId, token: Bytes, granted: bool)
    requires SameFlows(t)
    ensures Evolves(t, CompleteAuth(t, now, id, token, granted).0, Nothing)
  {
    RemoveEvolves(t, {id});
  }

  lemma ApplyEvolves(t: Table, op: Op)
    requires Inv(t)
    ensures Evolves(t, Apply(t, op), GrownBy(t, op))
  {
    hide Inv, SameFlows, Evolves, QueuePacket, PendingAuth, RetryAuth, CompleteAuth;
    InvLinks(t);
    match op
    case Queue(_, _, _, _) => QueueEvolves(t, op);
    case Scan(now, limit, order) => ScanEvolves(t, now, limit, order, []);
    case Retry(now, id) => RetryEvolves(t, now, id);
    case Complete(now, id, token, granted) => CompleteEvolves(t, now, id, token, granted);
    case Sweep(now) => ShrinksEvolves(t, Expire(t, now));
    case Close => ShrinksEvolves(t, Clear(t));
    case RejectFragment(key) => ShrinksEvolves(t, DropFragment(t, key));
  }
}
