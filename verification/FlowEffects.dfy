/** What each operation of the flow table achieves, told by its arguments and the table before it.

    The invariant and the ledgers say what can never happen; these say what does happen: which
    packets are accepted, what a response releases, which entries a sweep takes.  Deadlines are
    spelled out in nanoseconds.
 */
module FlowEffects {
  import opened Packet
  import opened Wrappers
  import opened FlowTable
  import opened FlowInvariant
  import opened FlowHistory
  import opened FlowRuns

  /** Eight seconds for an answer, counted from the retry if there is one, and two minutes
      of rest otherwise. */
  predicate RanOut(f: Flow, now: Time) {
    if f.state.Pending? then
      now >= (if f.authRetryAt.Some? then f.authRetryAt.value else f.createdAt) + 8_000_000_000
    else now >= f.updatedAt + 120_000_000_000
  }

  lemma ExpiredIsRanOut(f: Flow, now: Time)
    ensures f.Expired(now) <==> RanOut(f, now)
  {
  }

  predicate Asked(t: Table, id: AuthId) {
    id in t.auth && t.auth[id].state.Pending? && (t.auth[id].authSent.Some? || t.auth[id].authRetryAt.Some?)
  }

  /** The table without one flow and its associations. */
  ghost predicate Removed(t: Table, t': Table, id: AuthId) {
    && t'.auth == t.auth - {id} && t'.next == t.next && t'.closed == t.closed
    && (forall k :: k in t'.flows <==> k in t.flows && t.flows[k] != id)
    && (forall k | k in t'.flows :: t'.flows[k] == t.flows[k])
    && (forall k :: k in t'.fragments <==> k in t.fragments && t.fragments[k].flow != id)
    && (forall k | k in t'.fragments :: t'.fragments[k] == t.fragments[k])
  }

  // ---- Responses

  /** A response for a flow that waits for one: a grant makes it ready and releases its whole,
      non-empty buffer; anything else refuses it; a late one removes it. */
  lemma ResponseDecides(t: Table, now: Time, id: AuthId, token: Bytes, granted: bool)
    requires Inv(t) && Asked(t, id)
    ensures var (t', released) := CompleteAuth(t, now, id, token, granted);
            var f := t.auth[id];
            if RanOut(f, now) then released == [] && Removed(t, t', id)
            else if granted && 0 < |token| <= 255 then
              && released == f.pending != []
              && t' == t.(auth := t.auth[id := f.(state := Ready, token := token, pending := [], updatedAt := now)])
            else
              && released == []
              && t'.auth == t.auth[id := f.(state := Failed, pending := [], updatedAt := now)]
              && t'.flows == t.flows && t'.next == t.next && t'.closed == t.closed
              && (forall k :: k in t'.fragments <==> k in t.fragments && t.fragments[k].flow != id)
              && (forall k | k in t'.fragments :: t'.fragments[k] == t.fragments[k])
  {
    assert FlowOk(t.auth[id]) && t.auth[id].authID == id;
  }

  /** A "try again" answer: the first one schedules the retry ten seconds on, and it is reported
      as scheduled until the second request has gone out. */
  lemma RetryDecides(t: Table, now: Time, id: AuthId)
    requires Inv(t) && Asked(t, id)
    ensures var (t', retry) := RetryAuth(t, now, id);
            var f := t.auth[id];
            if RanOut(f, now) then !retry && Removed(t, t', id)
            else if f.authRetryAt.None? then
              && retry
              && t' == t.(auth := t.auth[id := f.(authRetryAt := Some(now + 10_000_000_000), authSent := None,
                                                  updatedAt := now)])
            else t' == t && (retry <==> f.authSent.None?)
  {
    assert t.auth[id].authID == id;
  }

  /** Neither concerns a flow that waits for no answer. */
  lemma OthersIgnored(t: Table, now: Time, id: AuthId, token: Bytes, granted: bool)
    requires !Asked(t, id)
    ensures CompleteAuth(t, now, id, token, granted) == (t, []) && RetryAuth(t, now, id) == (t, false)
  {
  }

  // ---- Sweeps

  /** A sweep takes the flows that have run out, the overdue associations and those of the flows
      taken, and nothing else. */
  lemma SweepTakes(t: Table, now: Time)
    requires Inv(t)
    ensures var t' := Expire(t, now);
            && (forall i :: i in t'.auth <==> i in t.auth && !RanOut(t.auth[i], now))
            && (forall i | i in t'.auth :: t'.auth[i] == t.auth[i])
            && (forall k :: k in t'.flows <==> k in t.flows && t.flows[k] in t'.auth)
            && (forall k | k in t'.flows :: t'.flows[k] == t.flows[k])
            && (forall k :: k in t'.fragments <==> k in t.fragments && now < t.fragments[k].expiresAt
                                                   && t.fragments[k].flow in t'.auth)
            && (forall k | k in t'.fragments :: t'.fragments[k] == t.fragments[k])
            && t'.next == t.next && t'.closed == t.closed
  {
    hide Live, WithinCapacity;
    forall k | k in t.fragments ensures t.fragments[k].flow in t.auth {
      assert FragmentOk(t, k, t.fragments[k]);
    }
    ExpireIsRemoval(t, now);
  }

  /** Clearing leaves nothing and closes for good: whatever comes later is refused or ignored. */
  lemma ClearedStaysEmpty(t: Table, op: Op)
    ensures var t' := Clear(t); t'.auth == map[] && t'.flows == map[] && t'.fragments == map[] && t'.closed
    ensures Apply(Clear(t), op) == Clear(t)
    ensures op.Queue? ==> QueuePacket(Clear(t), op.now, op.p, op.appID, op.pkt).1 == Rejected(TunnelClosed)
  {
    if op.Scan? {
      ScanEmpty(Clear(t), op.now, op.limit, op.order);
    }
  }

  lemma {:induction false} ScanEmpty(t: Table, now: Time, limit: nat, order: seq<FlowKey>)
    requires t.flows == map[]
    ensures PendingAuth(t, now, limit, order, []) == (t, [])
    decreases |order|
  {
    if order != [] {
      ScanEmpty(t, now, limit, order[1..]);
    }
  }

  lemma RejectedFragmentGone(t: Table, k: FragmentKey)
    ensures var t' := DropFragment(t, k);
            && k !in t'.fragments && t'.flows == t.flows && t'.auth == t.auth
            && t'.next == t.next && t'.closed == t.closed
            && forall o | o != k ::
                 (o in t'.fragments <==> o in t.fragments) && (o in t.fragments ==> t'.fragments[o] == t.fragments[o])
  {
  }

  // ---- Queueing

  /** The next fragment of a datagram whose first one opened a flow that is still good. */
  predicate Continues(t: Table, now: Time, p: PacketInfo) {
    && p.fragment in t.fragments && now < t.fragments[p.fragment].expiresAt
    && t.fragments[p.fragment].flow in t.auth && !RanOut(t.auth[t.fragments[p.fragment].flow], now)
  }

  /** The flow in force for the packet, if there is one. */
  function InForce(t: Table, now: Time, p: PacketInfo): Option<AuthId> {
    if p.offset != 0 then
      if Continues(t, now, p) && p.offset == t.fragments[p.fragment].nextOffset then Some(t.fragments[p.fragment].flow)
      else None
    else if p.key in t.flows && t.flows[p.key] in t.auth && !RanOut(t.auth[t.flows[p.key]], now) then Some(t.flows[p.key])
    else None
  }

  /** The flows that make way for a new one of this key. */
  function MakingWay(t: Table, now: Time, key: FlowKey): set<AuthId> {
    if key in t.flows && t.flows[key] in t.auth && RanOut(t.auth[t.flows[key]], now) then {t.flows[key]} else {}
  }

  predicate Room(t: Table, gone: set<AuthId>, size: nat) {
    SumBelow(t.auth - gone, t.next, PacketWeight) < 2048
    && SumBelow(t.auth - gone, t.next, ByteWeight) + size <= 0x20_0000
  }

  /** The other associations that are still open. */
  function OpenFragments(t: Table, now: Time, k: FragmentKey): set<FragmentKey> {
    set o | o in t.fragments && o != k && now < t.fragments[o].expiresAt
  }

  /** What becomes of a packet. */
  function Verdict(t: Table, now: Time, p: PacketInfo, size: nat): Outcome {
    var id := InForce(t, now, p);
    if t.closed then Rejected(TunnelClosed)
    else if p.offset != 0 && id.None? then Rejected(if Continues(t, now, p) then FragmentOrder else FragmentMissing)
    else if p.offset == 0 && p.more && p.fragment in t.fragments && now < t.fragments[p.fragment].expiresAt then
      Rejected(FragmentOrder)
    else if p.offset == 0 && p.more && |OpenFragments(t, now, p.fragment)| >= 1024 then Rejected(FragmentFull)
    else if id.None? then
      if |t.auth| - |MakingWay(t, now, p.key)| >= 8192 then Rejected(FlowTableFull)
      else if Room(t, MakingWay(t, now, p.key), size) then Queued
      else Rejected(PendingFull)
    else if t.auth[id.value].state.Failed? then Rejected(FlowRejected)
    else if t.auth[id.value].state.Ready? then Send(t.auth[id.value].token)
    else if |t.auth[id.value].pending| < 64 && Room(t, {}, size) then Queued
    else Rejected(PendingFull)
  }

  function KeysOf(t: Table, ids: set<AuthId>): set<FlowKey> {
    set k | k in t.flows && t.flows[k] in ids
  }

  /** Distinct flows have distinct keys. */
  lemma {:induction false} KeysCount(t: Table, ids: set<AuthId>)
    requires SameFlows(t) && ids <= t.auth.Keys
    ensures |KeysOf(t, ids)| == |ids|
    decreases ids
  {
    if ids == {} {
      assert KeysOf(t, ids) == {};
    } else {
      var i :| i in ids;
      KeysCount(t, ids - {i});
      assert KeysOf(t, ids) == KeysOf(t, ids - {i}) + {t.auth[i].key};
    }
  }

  lemma SameSize(t: Table)
    requires SameFlows(t)
    ensures |t.flows| == |t.auth|
  {
    KeysCount(t, t.auth.Keys);
    assert KeysOf(t, t.auth.Keys) == t.flows.Keys;
  }

  lemma RoomIsBudget(t: Table, gone: set<AuthId>, size: nat)
    ensures Room(t, gone, size) <==> !BudgetFull(t.(auth := t.auth - gone), size)
  {
  }

  lemma BudgetFrom(t: Table, s: Table, size: nat)
    requires t.auth == s.auth && t.next == s.next
    ensures BudgetFull(t, size) <==> BudgetFull(s, size)
  {
  }

  lemma RemovingOne(t: Table, id: AuthId)
    requires SameFlows(t) && id in t.auth
    ensures var t' := RemoveFlows(t, {id});
            && t'.auth == t.auth - {id} && t'.next == t.next && t'.closed == t.closed
            && t'.flows == t.flows - {t.auth[id].key} && |t'.flows| == |t.auth| - 1
  {
    SameSize(t);
  }

  /** Making way is what eviction does. */
  lemma EvictionMakesWay(t: Table, now: Time, key: FlowKey)
    requires SameFlows(t)
    ensures var t' := EvictExpired(t, now, key);
            var gone := MakingWay(t, now, key);
            && t'.auth == t.auth - gone && t'.next == t.next
            && t'.flows == (if gone == {} then t.flows else t.flows - {key})
  {
    hide RemoveFlows, EvictExpired, SameFlows, MakingWay;
    EvictsThese(t, now, key);
    if MakingWay(t, now, key) == {} {
      assert t.auth - {} == t.auth;
    } else {
      RemovingOne(t, t.flows[key]);
    }
  }

  lemma EvictionCount(t: Table, now: Time, key: FlowKey)
    requires SameFlows(t)
    ensures |EvictExpired(t, now, key).flows| == |t.auth| - |MakingWay(t, now, key)|
  {
    hide RemoveFlows, EvictExpired, SameFlows, MakingWay;
    EvictsThese(t, now, key);
    if MakingWay(t, now, key) == {} {
      SameSize(t);
    } else {
      RemovingOne(t, t.flows[key]);
    }
  }

  lemma EvictionRoom(t: Table, now: Time, key: FlowKey, size: nat)
    requires SameFlows(t)
    ensures Room(t, MakingWay(t, now, key), size) <==> !BudgetFull(EvictExpired(t, now, key), size)
  {
    hide BudgetFull, Room, EvictExpired, SameFlows, MakingWay;
    EvictionMakesWay(t, now, key);
    RoomIsBudget(t, MakingWay(t, now, key), size);
    BudgetFrom(EvictExpired(t, now, key), t.(auth := t.auth - MakingWay(t, now, key)), size);
  }

  lemma EvictsThese(t: Table, now: Time, key: FlowKey)
    requires SameFlows(t)
    ensures var gone := MakingWay(t, now, key);
            if gone == {} then EvictExpired(t, now, key) == t
            else
              && key in t.flows && gone == {t.flows[key]} && t.flows[key] in t.auth && t.auth[t.flows[key]].key == key
              && EvictExpired(t, now, key) == RemoveFlows(t, gone)
  {
    hide RemoveFlows;
  }

  lemma FindOrCreateVerdict(t: Table, now: Time, key: FlowKey, appID: string, size: nat)
    requires SameFlows(t)
    ensures var l := FindOrCreate(t, now, key, appID, size);
            var gone := MakingWay(t, now, key);
            if key in t.flows && gone == {} then l == Found(t, t.flows[key])
            else if |t.auth| - |gone| >= 8192 then l.Missing? && l.error == FlowTableFull
            else if !Room(t, gone, size) then l.Missing? && l.error == PendingFull
            else
              && l.Found? && l.id == t.next + 1 && l.id !in t.auth
              && l.table.auth == (t.auth - gone)[l.id := FreshFlow(t, now, key, appID)]
              && l.table.next == l.id
  {
    hide BudgetFull, EvictExpired, Room;
    EvictionMakesWay(t, now, key);
    EvictionCount(t, now, key);
    EvictionRoom(t, now, key, size);
    if key in t.flows && MakingWay(t, now, key) == {} {
      EvictsThese(t, now, key);
    }
  }

  lemma TailVerdict(t: Table, now: Time, p: PacketInfo)
    requires Inv(t) && p.offset != 0
    ensures var l := LocateTail(t, now, p);
            if InForce(t, now, p).Some? then l == Found(t, InForce(t, now, p).value)
            else l.Missing? && l.error == (if Continues(t, now, p) then FragmentOrder else FragmentMissing)
  {
    if p.fragment in t.fragments {
      var s := t.fragments[p.fragment];
      assert FragmentOk(t, p.fragment, s);
      ExpiredIsRanOut(t.auth[s.flow], now);
    }
  }

  lemma OpenCount(t: Table, now: Time, k: FragmentKey)
    ensures |ExpireFragments(DropFragment(t, k), now).fragments| == |OpenFragments(t, now, k)|
  {
    assert ExpireFragments(DropFragment(t, k), now).fragments.Keys == OpenFragments(t, now, k);
  }

  /** Admission, given the flow. */
  lemma AdmitVerdict(t: Table, now: Time, p: PacketInfo, id: AuthId, pkt: Bytes)
    requires id in t.auth && t.auth[id].authID == id
    ensures var (t', outcome) := Admit(t, now, p, id, pkt);
            var f := t.auth[id];
            outcome == (if f.state.Failed? then Rejected(FlowRejected)
                        else if f.state.Ready? then Send(f.token)
                        else if |f.pending| < 64 && !BudgetFull(t, |pkt|) then Queued else Rejected(PendingFull))
  {
    hide BudgetFull;
  }

  /** What the table holds for the packet once its flow is found: the flow in force, or a new
      one in place of those that made way. */
  predicate Placed(t: Table, now: Time, p: PacketInfo, appID: string, size: nat, s: Table, id: AuthId) {
    match InForce(t, now, p)
    case Some(i) => id == i && s.auth == t.auth && s.next == t.next
    case None =>
      && p.offset == 0 && id == t.next + 1 && s.next == id && Room(t, MakingWay(t, now, p.key), size)
      && s.auth == (t.auth - MakingWay(t, now, p.key))[id := FreshFlow(t, now, p.key, appID)]
  }

  lemma OpenerPlaced(t: Table, s: Table, now: Time, p: PacketInfo, appID: string, size: nat)
    requires SameFlows(t) && p.offset == 0 && s.auth == t.auth && s.flows == t.flows && s.next == t.next
    ensures var l := FindOrCreate(s, now, p.key, appID, size);
            var gone := MakingWay(t, now, p.key);
            if InForce(t, now, p).None? && |t.auth| - |gone| >= 8192 then l.Missing? && l.error == FlowTableFull
            else if InForce(t, now, p).None? && !Room(t, gone, size) then l.Missing? && l.error == PendingFull
            else l.Found? && Placed(t, now, p, appID, size, l.table, l.id)
  {
    hide FindOrCreate, Room;
    SameFlowsIgnoresFragments(t, s);
    FindOrCreateVerdict(s, now, p.key, appID, size);
    RoomFrom(s, t, MakingWay(t, now, p.key), size);
    assert FreshFlow(s, now, p.key, appID) == FreshFlow(t, now, p.key, appID);
  }

  lemma RoomFrom(s: Table, t: Table, gone: set<AuthId>, size: nat)
    requires s.auth == t.auth && s.next == t.next
    ensures Room(s, gone, size) == Room(t, gone, size)
  {
  }

  lemma LocateVerdict(t: Table, now: Time, p: PacketInfo, appID: string, size: nat)
    requires Inv(t) && !t.closed
    ensures var l := Locate(t, now, p, appID, size);
            if l.Missing? then Verdict(t, now, p, size) == Rejected(l.error)
            else Placed(t, now, p, appID, size, l.table, l.id)
                 && (p.offset == 0 && p.more ==>
                       (p.fragment in t.fragments ==> now >= t.fragments[p.fragment].expiresAt)
                       && |OpenFragments(t, now, p.fragment)| < 1024)
                 && (InForce(t, now, p).None? ==> |t.auth| - |MakingWay(t, now, p.key)| < 8192)
  {
    hide FindOrCreate, LocateTail, Inv, SameFlows, Room, Placed, MakingWay, InForce, Continues, OpenFragments;
    InvLinks(t);
    if p.offset != 0 {
      TailVerdict(t, now, p);
      TailPlaced(t, now, p, appID, size);
    } else {
      OpenerPlaced(t, t, now, p, appID, size);
      OpenCount(t, now, p.fragment);
      OpenerPlaced(t, ExpireFragments(DropFragment(t, p.fragment), now), now, p, appID, size);
    }
  }

  lemma TailPlaced(t: Table, now: Time, p: PacketInfo, appID: string, size: nat)
    ensures InForce(t, now, p).Some? ==> Placed(t, now, p, appID, size, t, InForce(t, now, p).value)
  {
  }

  /** A packet is queued, sent or refused exactly as the verdict says. */
  lemma QueueDecides(t: Table, now: Time, p: PacketInfo, appID: string, pkt: Bytes)
    requires Inv(t)
    ensures QueuePacket(t, now, p, appID, pkt).1 == Verdict(t, now, p, |pkt|)
  {
    hide Inv, Locate, Admit, Room, BudgetFull, Continues, OpenFragments;
    if !t.closed {
      var l := Locate(t, now, p, appID, |pkt|);
      LocateVerdict(t, now, p, appID, |pkt|);
      if l.Found? {
        PlacedIdentity(t, now, p, appID, |pkt|, l.table, l.id);
        AdmitVerdict(l.table, now, p, l.id, pkt);
      }
    }
  }

  /** A new, empty flow weighs nothing. */
  lemma NewcomerWeighsNothing(auth: map<AuthId, Flow>, next: nat, f: Flow, w: Flow -> nat)
    requires f.authID == next + 1 && w(f) == 0
    ensures SumBelow(auth[f.authID := f], next + 1, w) == SumBelow(auth, next, w)
  {
    SumSame(auth, auth[f.authID := f], next, w);
  }

  lemma NewcomerRoom(t: Table, s: Table, gone: set<AuthId>, f: Flow, size: nat)
    requires f.authID == s.next == t.next + 1 && f.pending == [] && s.auth == (t.auth - gone)[f.authID := f]
    ensures BudgetFull(s, size) <==> !Room(t, gone, size)
  {
    hide SumBelow;
    NewcomerWeighsNothing(t.auth - gone, t.next, f, PacketWeight);
    NewcomerWeighsNothing(t.auth - gone, t.next, f, ByteWeight);
  }

  /** The flow found carries its own id; a new one is empty and within budget. */
  lemma PlacedIdentity(t: Table, now: Time, p: PacketInfo, appID: string, size: nat, s: Table, id: AuthId)
    requires Inv(t) && Placed(t, now, p, appID, size, s, id)
    ensures id in s.auth && s.auth[id].authID == id
    ensures if InForce(t, now, p).Some? then
              id in t.auth && s.auth == t.auth && (Room(t, {}, size) <==> !BudgetFull(s, size))
            else s.auth[id].pending == [] && s.auth[id].state.Pending? && !BudgetFull(s, size)
  {
    hide Room, BudgetFull, MakingWay, WithinCapacity;
    if InForce(t, now, p).Some? {
      RoomIsBudget(t, {}, size);
      assert t.auth - {} == t.auth;
      BudgetFrom(s, t.(auth := t.auth - {}), size);
    } else {
      NewcomerRoom(t, s, MakingWay(t, now, p.key), FreshFlow(t, now, p.key, appID), size);
    }
  }

  /** The flow an accepted packet leaves behind: the one in force, used now and grown by the
      packet if it was queued, or a new one holding just the packet. */
  function Grown(t: Table, now: Time, p: PacketInfo, appID: string, pkt: Bytes, queued: bool): Flow {
    match InForce(t, now, p)
    case Some(id) =>
      if id !in t.auth then FreshFlow(t, now, p.key, appID)
      else if queued then t.auth[id].(updatedAt := now, pending := t.auth[id].pending + [pkt])
      else t.auth[id].(updatedAt := now)
    case None => Flow(p.key, appID, t.next + 1, [], Pending, [pkt], None, None, now, now)
  }

  /** An accepted packet changes that flow, and no other but an overdue one of its key. */
  lemma AcceptedGrows(t: Table, now: Time, p: PacketInfo, appID: string, pkt: Bytes)
    requires Inv(t) && !QueuePacket(t, now, p, appID, pkt).1.Rejected?
    ensures var (t', outcome) := QueuePacket(t, now, p, appID, pkt);
            var f := Grown(t, now, p, appID, pkt, outcome.Queued?);
            && t'.next == (if InForce(t, now, p).Some? then t.next else t.next + 1)
            && t'.auth == (if InForce(t, now, p).Some? then t.auth else t.auth - MakingWay(t, now, p.key))[f.authID := f]
  {
    hide Inv, Locate, Admit, Room, BudgetFull, Verdict, MakingWay, InForce;
    var l := Locate(t, now, p, appID, |pkt|);
    LocateVerdict(t, now, p, appID, |pkt|);
    PlacedIdentity(t, now, p, appID, |pkt|, l.table, l.id);
    AdmitSets(l.table, now, p, l.id, pkt);
    if InForce(t, now, p).None? {
      assert [] + [pkt] == [pkt];
      var kept: map<AuthId, Flow> := t.auth - MakingWay(t, now, p.key);
      var made := FreshFlow(t, now, p.key, appID);
      var once: map<AuthId, Flow> := kept[l.id := made];
      assert once[l.id := Admitted(made, now, true, pkt)] == kept[l.id := Admitted(made, now, true, pkt)];
    }
  }

  /** A refused fragment takes its datagram with it: nothing more of it will be accepted. */
  lemma RefusedFragmentGone(t: Table, now: Time, p: PacketInfo, appID: string, pkt: Bytes)
    requires SameFlows(t) && !t.closed && p.Fragmented()
    ensures var (t', outcome) := QueuePacket(t, now, p, appID, pkt);
            outcome.Rejected? ==> p.fragment !in t'.fragments
  {
    hide Locate, Admit, BudgetFull, SameFlows, Track, FindOrCreate;
    var l := Locate(t, now, p, appID, |pkt|);
    LocateEvolves(t, now, p, appID, |pkt|);
    if l.Found? {
      AdmitFragments(l.table, now, p, l.id, pkt);
    } else if p.offset == 0 {
      FindOrCreateFragments(ExpireFragments(DropFragment(t, p.fragment), now), now, p.key, appID, |pkt|);
      LocatesFirst(t, now, p, appID, |pkt|);
    } else {
      LocatesTail(t, now, p, appID, |pkt|);
    }
  }

  lemma LocatesFirst(t: Table, now: Time, p: PacketInfo, appID: string, size: nat)
    ensures p.offset == 0 ==> Locate(t, now, p, appID, size) == LocateFirst(t, now, p, appID, size)
  {
  }

  lemma LocatesTail(t: Table, now: Time, p: PacketInfo, appID: string, size: nat)
    ensures p.offset != 0 && Locate(t, now, p, appID, size).Missing? ==>
              p.fragment !in Locate(t, now, p, appID, size).table.fragments
  {
  }
}
