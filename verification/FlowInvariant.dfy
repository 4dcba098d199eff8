/** What every operation of the flow table keeps. */
module FlowInvariant {
  import opened Packet
  import opened Wrappers
  import opened FlowTable

  // ---- The invariant

  /** The two indexes hold the same flows. */
  predicate SameFlows(t: Table) {
    && (forall k | k in t.flows :: t.flows[k] in t.auth && t.auth[t.flows[k]].key == k)
    && (forall i | i in t.auth ::
          && t.auth[i].authID == i && 0 < i <= t.next
          && t.auth[i].key in t.flows && t.flows[t.auth[i].key] == i)
  }

  /** A flow holds packets exactly while it is pending, within its own bound; a ready one has a
      token; and a pending one lives less than 26 seconds. */
  predicate FlowOk(f: Flow) {
    && (f.state.Pending? <==> f.pending != [])
    && |f.pending| <= MAX_PENDING_PER_FLOW
    && (f.state.Ready? ==> ValidToken(f.token))
    && (f.state.Pending? ==> f.Deadline() < f.createdAt + 26 * SECOND)
  }

  /** An association points at a live flow that was not refused, of the same addresses and
      protocol, and expects the next fragment at a position a fragment can have. */
  predicate FragmentOk(t: Table, k: FragmentKey, s: Fragment) {
    && s.flow in t.auth && s.key == t.auth[s.flow].key && !t.auth[s.flow].state.Failed?
    && k.src == s.key.src && k.dst == s.key.dst && k.proto == s.key.proto
    && s.nextOffset % 8 == 0 && 0 < s.nextOffset <= MAX_PAYLOAD_END
  }

  predicate WithinCapacity(t: Table) {
    && |t.flows| <= MAX_FLOWS
    && |t.fragments| <= MAX_FRAGMENTS
    && PendingPackets(t) <= MAX_PENDING_PACKETS
    && PendingBytes(t) <= MAX_PENDING_BYTES
  }

  predicate Inv(t: Table) {
    && SameFlows(t)
    && (forall i | i in t.auth :: FlowOk(t.auth[i]))
    && (forall k | k in t.fragments :: FragmentOk(t, k, t.fragments[k]))
    && WithinCapacity(t)
    && (t.closed ==> t.auth == map[])
  }

  lemma InvLinks(t: Table)
    ensures Inv(t) ==> SameFlows(t)
  {
  }

  // ---- Sums

  lemma {:induction false} SumSame(a: map<AuthId, Flow>, b: map<AuthId, Flow>, n: nat, w: Flow -> nat)
    requires forall i | 0 < i <= n :: (i in a <==> i in b) && (i in a ==> w(a[i]) == w(b[i]))
    ensures SumBelow(a, n, w) == SumBelow(b, n, w)
  {
    if n > 0 {
      SumSame(a, b, n - 1, w);
    }
  }

  lemma {:induction false} SumSet(a: map<AuthId, Flow>, n: nat, w: Flow -> nat, f: Flow)
    requires 0 < f.authID <= n && f.authID in a
    ensures SumBelow(a[f.authID := f], n, w) == SumBelow(a, n, w) - w(a[f.authID]) + w(f)
  {
    if f.authID == n {
      SumSame(a, a[f.authID := f], n - 1, w);
    } else {
      SumSet(a, n - 1, w, f);
    }
  }

  lemma {:induction false} SumShrinks(a: map<AuthId, Flow>, dead: set<AuthId>, n: nat, w: Flow -> nat)
    ensures SumBelow(a - dead, n, w) <= SumBelow(a, n, w)
  {
    if n > 0 {
      SumShrinks(a, dead, n - 1, w);
    }
  }

  /** Removing one flow takes exactly its weight out of the sum. */
  lemma {:induction false} SumRemove(a: map<AuthId, Flow>, id: AuthId, n: nat, w: Flow -> nat)
    requires id in a && 0 < id <= n
    ensures SumBelow(a - {id}, n, w) == SumBelow(a, n, w) - w(a[id])
  {
    if id == n {
      SumSame(a, a - {id}, n - 1, w);
    } else {
      SumRemove(a, id, n - 1, w);
    }
  }

  lemma {:induction false} SumEmpty(n: nat, w: Flow -> nat)
    ensures SumBelow(map[], n, w) == 0
  {
    if n > 0 {
      SumEmpty(n - 1, w);
    }
  }

  lemma SubmapSmaller<K, V>(a: map<K, V>, b: map<K, V>)
    requires a.Keys <= b.Keys
    ensures |a| <= |b|
  {
    SubsetSmaller(a.Keys, b.Keys);
    assert |a| == |a.Keys| && |b| == |b.Keys|;
  }

  lemma {:induction false} SubsetSmaller<K>(a: set<K>, b: set<K>)
    requires a <= b
    ensures |a| <= |b|
  {
    if a != {} {
      var x :| x in a;
      SubsetSmaller(a - {x}, b - {x});
    }
  }

  // ---- Preservation by the building blocks

  /** Fewer fragments never hurt. */
  lemma FewerFragments(t: Table, fragments: map<FragmentKey, Fragment>)
    requires Inv(t) && fragments.Keys <= t.fragments.Keys
    requires forall k | k in fragments :: fragments[k] == t.fragments[k]
    ensures Inv(t.(fragments := fragments))
  {
    SubmapSmaller(fragments, t.fragments);
    var t' := t.(fragments := fragments);
    assert forall k | k in fragments :: FragmentOk(t, k, t.fragments[k]);
  }

  lemma RemoveKeepsLinks(t: Table, dead: set<AuthId>)
    requires SameFlows(t) && forall k | k in t.fragments :: FragmentOk(t, k, t.fragments[k])
    ensures var t' := RemoveFlows(t, dead);
            SameFlows(t') && forall k | k in t'.fragments :: FragmentOk(t', k, t'.fragments[k])
  {
    var t' := RemoveFlows(t, dead);
    forall k | k in t'.fragments ensures FragmentOk(t', k, t'.fragments[k]) {
      assert FragmentOk(t, k, t.fragments[k]);
    }
  }

  lemma RemoveKeepsCapacity(t: Table, dead: set<AuthId>)
    requires WithinCapacity(t)
    ensures WithinCapacity(RemoveFlows(t, dead))
  {
    hide SumBelow;
    var t' := RemoveFlows(t, dead);
    SubmapSmaller(t'.flows, t.flows);
    SubmapSmaller(t'.fragments, t.fragments);
    SumShrinks(t.auth, dead, t.next, PacketWeight);
    SumShrinks(t.auth, dead, t.next, ByteWeight);
  }

  lemma RemoveKeepsInv(t: Table, dead: set<AuthId>)
    requires Inv(t)
    ensures Inv(RemoveFlows(t, dead))
  {
    hide SameFlows, FragmentOk, FlowOk, WithinCapacity, WithoutFragmentsOf;
    RemoveKeepsLinks(t, dead);
    RemoveKeepsCapacity(t, dead);
    RemovesFrom(t, dead);
  }

  lemma RemovesFrom(t: Table, dead: set<AuthId>)
    ensures RemoveFlows(t, dead).auth == t.auth - dead && RemoveFlows(t, dead).closed == t.closed
  {
  }

  /** Replacing a flow by one with the same key, refused only if it already was. */
  lemma SetKeepsLinks(t: Table, f: Flow)
    requires SameFlows(t) && f.authID in t.auth && f.key == t.auth[f.authID].key
    requires forall k | k in t.fragments :: FragmentOk(t, k, t.fragments[k])
    requires f.state.Failed? ==> t.auth[f.authID].state.Failed?
    ensures var t' := SetFlow(t, f);
            SameFlows(t') && forall k | k in t'.fragments :: FragmentOk(t', k, t'.fragments[k])
  {
    var t' := SetFlow(t, f);
    forall k | k in t'.fragments ensures FragmentOk(t', k, t'.fragments[k]) {
      assert FragmentOk(t, k, t.fragments[k]);
    }
  }

  /** Replacing a flow by one that is no heavier, with the same key and not newly refused. */
  lemma SetKeepsInv(t: Table, f: Flow)
    requires Inv(t) && f.authID in t.auth && FlowOk(f)
    requires f.key == t.auth[f.authID].key
    requires f.state.Failed? ==> t.auth[f.authID].state.Failed?
    requires PacketWeight(f) <= PacketWeight(t.auth[f.authID]) && ByteWeight(f) <= ByteWeight(t.auth[f.authID])
    ensures Inv(SetFlow(t, f))
  {
    hide FragmentOk, SumBelow;
    SumSet(t.auth, t.next, PacketWeight, f);
    SumSet(t.auth, t.next, ByteWeight, f);
    SetKeepsLinks(t, f);
  }

  lemma ExpireFragmentsKeepsInv(t: Table, now: Time)
    requires Inv(t)
    ensures Inv(ExpireFragments(t, now))
  {
    FewerFragments(t, ExpireFragments(t, now).fragments);
  }

  lemma DropFragmentKeepsInv(t: Table, k: FragmentKey)
    requires Inv(t)
    ensures Inv(DropFragment(t, k))
  {
    FewerFragments(t, t.fragments - {k});
  }

  // ---- queuePacket

  /** Everything but the buffered budget, right after a flow was located: a new flow is pending
      and still empty. */
  predicate Locating(t: Table, id: AuthId) {
    && SameFlows(t) && id in t.auth && !t.closed
    && (forall i | i in t.auth && i != id :: FlowOk(t.auth[i]))
    && (FlowOk(t.auth[id]) || (t.auth[id].state.Pending? && t.auth[id].pending == []
                               && t.auth[id].Deadline() < t.auth[id].createdAt + 26 * SECOND))
    && (forall k | k in t.fragments :: FragmentOk(t, k, t.fragments[k]))
    && WithinCapacity(t)
  }

  lemma LocateTailKeepsInv(t: Table, now: Time, p: PacketInfo)
    requires Inv(t) && !t.closed
    ensures var l := LocateTail(t, now, p);
            if l.Missing? then Inv(l.table)
            else && Locating(l.table, l.id) && (l.table.auth[l.id].state.Pending? ==> l.table.auth[l.id].pending != [])
                 && p.fragment in l.table.fragments && l.table.fragments[p.fragment].flow == l.id
  {
    DropFragmentKeepsInv(t, p.fragment);
  }

  lemma NewFlowSums(t: Table, now: Time, key: FlowKey, appID: string)
    ensures PendingPackets(NewFlow(t, now, key, appID)) == PendingPackets(t)
    ensures PendingBytes(NewFlow(t, now, key, appID)) == PendingBytes(t)
  {
    var t' := NewFlow(t, now, key, appID);
    SumSame(t.auth, t'.auth, t.next, PacketWeight);
    SumSame(t.auth, t'.auth, t.next, ByteWeight);
  }

  lemma NewFlowFragments(t: Table, now: Time, key: FlowKey, appID: string)
    requires Inv(t)
    ensures var t' := NewFlow(t, now, key, appID);
            forall k | k in t'.fragments :: FragmentOk(t', k, t'.fragments[k])
  {
    var t' := NewFlow(t, now, key, appID);
    forall k | k in t'.fragments ensures FragmentOk(t', k, t'.fragments[k]) {
      assert FragmentOk(t, k, t.fragments[k]);
    }
  }

  lemma NewFlowSameFlows(t: Table, now: Time, key: FlowKey, appID: string)
    requires SameFlows(t) && key !in t.flows
    ensures SameFlows(NewFlow(t, now, key, appID)) && t.next + 1 !in t.auth
  {
  }

  lemma NewFlowLocating(t: Table, now: Time, key: FlowKey, appID: string)
    requires Inv(t) && !t.closed && key !in t.flows && |t.flows| < MAX_FLOWS
    ensures var t' := NewFlow(t, now, key, appID);
            Locating(t', t.next + 1) && t'.auth[t.next + 1].key == key && t'.fragments == t.fragments
  {
    hide PendingPackets, PendingBytes, FragmentOk, SameFlows;
    NewFlowSums(t, now, key, appID);
    NewFlowFragments(t, now, key, appID);
    NewFlowSameFlows(t, now, key, appID);
  }

  lemma EvictKeepsInv(t: Table, now: Time, key: FlowKey)
    requires Inv(t)
    ensures Inv(EvictExpired(t, now, key)) && EvictExpired(t, now, key).closed == t.closed
    ensures |EvictExpired(t, now, key).fragments| <= |t.fragments|
  {
    if key in t.flows {
      RemoveKeepsInv(t, {t.flows[key]});
      SubmapSmaller(RemoveFlows(t, {t.flows[key]}).fragments, t.fragments);
    }
  }

  /** What locating a flow for a packet of `size` bytes guarantees. */
  predicate Admissible(l: Located, size: nat) {
    if l.Missing? then Inv(l.table)
    else
      && Locating(l.table, l.id)
      && (l.table.auth[l.id].pending == [] && l.table.auth[l.id].state.Pending? ==> !BudgetFull(l.table, size))
  }

  lemma ExistingLocating(t: Table, key: FlowKey)
    requires Inv(t) && !t.closed && key in t.flows
    ensures t.flows[key] in t.auth && Locating(t, t.flows[key]) && t.auth[t.flows[key]].key == key
    ensures t.auth[t.flows[key]].state.Pending? ==> t.auth[t.flows[key]].pending != []
  {
  }

  lemma FindOrCreateKeepsInv(t: Table, now: Time, key: FlowKey, appID: string, size: nat)
    requires Inv(t) && !t.closed
    ensures var l := FindOrCreate(t, now, key, appID, size);
            && Admissible(l, size)
            && (l.Found? ==> l.table.auth[l.id].key == key && |l.table.fragments| <= |t.fragments|)
  {
    hide EvictExpired, PendingPackets, PendingBytes, Inv, Locating, NewFlow;
    var l := FindOrCreate(t, now, key, appID, size);
    EvictKeepsInv(t, now, key);
    var t1 := EvictExpired(t, now, key);
    if key in t1.flows {
      ExistingLocating(t1, key);
      assert l == Found(t1, t1.flows[key]);
    } else if |t1.flows| >= MAX_FLOWS {
      assert l == Missing(t1, FlowTableFull);
    } else if BudgetFull(t1, size) {
      assert l == Missing(t1, PendingFull);
    } else {
      var t2 := NewFlow(t1, now, key, appID);
      assert l == Found(t2, t1.next + 1);
      NewFlowLocating(t1, now, key, appID);
      NewFlowSums(t1, now, key, appID);
      assert !BudgetFull(t2, size);
    }
  }

  lemma LocateKeepsInv(t: Table, now: Time, p: PacketInfo, appID: string, size: nat)
    requires Inv(t) && !t.closed
    ensures var l := Locate(t, now, p, appID, size);
            && Admissible(l, size)
            && (l.Found? && p.offset == 0 ==> l.table.auth[l.id].key == p.key)
            && (l.Found? && p.offset == 0 && p.more ==> |l.table.fragments| < MAX_FRAGMENTS)
            && (l.Found? && p.offset != 0 ==>
                  p.fragment in l.table.fragments && l.table.fragments[p.fragment].flow == l.id)
  {
    hide Inv, Locating, FindOrCreate, LocateTail;
    if p.offset != 0 {
      LocateTailKeepsInv(t, now, p);
    } else if !p.more {
      FindOrCreateKeepsInv(t, now, p.key, appID, size);
    } else {
      DropFragmentKeepsInv(t, p.fragment);
      var dropped := DropFragment(t, p.fragment);
      ExpireFragmentsKeepsInv(dropped, now);
      FindOrCreateKeepsInv(ExpireFragments(dropped, now), now, p.key, appID, size);
    }
  }

  lemma TouchKeepsLocating(t: Table, id: AuthId, now: Time)
    requires Locating(t, id) && FlowOk(t.auth[id])
    ensures FlowOk(t.auth[id].(updatedAt := now))
    ensures Inv(SetFlow(t, t.auth[id].(updatedAt := now)))
  {
    assert Inv(t);
    SetKeepsInv(t, t.auth[id].(updatedAt := now));
  }

  lemma {:induction false} TotalLengthAppend(pkts: seq<Bytes>, pkt: Bytes)
    ensures TotalLength(pkts + [pkt]) == TotalLength(pkts) + |pkt|
  {
    assert (pkts + [pkt])[..|pkts|] == pkts;
  }

  /** Buffering one more packet, with room for it, restores the full invariant. */
  lemma BufferKeepsInv(t: Table, id: AuthId, now: Time, pkt: Bytes)
    requires Locating(t, id) && t.auth[id].state.Pending?
    requires |t.auth[id].pending| < MAX_PENDING_PER_FLOW && !BudgetFull(t, |pkt|)
    ensures Inv(SetFlow(t, t.auth[id].(updatedAt := now, pending := t.auth[id].pending + [pkt])))
  {
    hide FragmentOk, SumBelow, TotalLength;
    var f := t.auth[id].(updatedAt := now, pending := t.auth[id].pending + [pkt]);
    TotalLengthAppend(t.auth[id].pending, pkt);
    SumSet(t.auth, t.next, PacketWeight, f);
    SumSet(t.auth, t.next, ByteWeight, f);
    SetKeepsLinks(t, f);
  }

  /** Recording one association that meets the invariant. */
  lemma PutFragmentKeepsInv(t: Table, k: FragmentKey, s: Fragment)
    requires Inv(t) && FragmentOk(t, k, s)
    requires k in t.fragments || |t.fragments| < MAX_FRAGMENTS
    ensures Inv(t.(fragments := t.fragments[k := s]))
  {
    hide FlowOk, SumBelow;
    var t' := t.(fragments := t.fragments[k := s]);
    if k in t.fragments {
      assert t'.fragments.Keys == t.fragments.Keys;
      assert |t'.fragments| == |t'.fragments.Keys| && |t.fragments| == |t.fragments.Keys|;
    }
    forall j | j in t'.fragments ensures FragmentOk(t', j, t'.fragments[j]) {
      assert j != k ==> FragmentOk(t, j, t.fragments[j]);
    }
  }

  lemma AddEights(a: nat, b: nat)
    ensures a % 8 == 0 && b % 8 == 0 ==> (a + b) % 8 == 0
  {
  }

  lemma TrackKeepsInv(t: Table, now: Time, p: PacketInfo, f: Flow)
    requires Inv(t) && WellFormed(p) && f.authID in t.auth && f.key == t.auth[f.authID].key && !f.state.Failed?
    requires t.auth[f.authID].state == f.state
    requires p.offset == 0 ==> f.key == p.key
    requires p.offset == 0 && p.more ==> |t.fragments| < MAX_FRAGMENTS
    requires p.offset != 0 ==> p.fragment in t.fragments
    ensures Inv(Track(t, now, p, f))
  {
    hide WithinCapacity, FlowOk, SameFlows;
    if p.more && p.offset == 0 {
      PutFragmentKeepsInv(t, p.fragment, Fragment(f.authID, f.key, now + FRAGMENT_TTL, p.payloadBytes));
    } else if p.more {
      assert FragmentOk(t, p.fragment, t.fragments[p.fragment]);
      AddEights(p.offset, p.payloadBytes);
      PutFragmentKeepsInv(t, p.fragment, t.fragments[p.fragment].(nextOffset := p.offset + p.payloadBytes));
    } else if p.offset != 0 {
      DropFragmentKeepsInv(t, p.fragment);
    }
  }

  lemma AdmitKeepsInv(t: Table, now: Time, p: PacketInfo, id: AuthId, pkt: Bytes)
    requires Locating(t, id) && WellFormed(p)
    requires t.auth[id].pending == [] && t.auth[id].state.Pending? ==> !BudgetFull(t, |pkt|)
    requires p.offset == 0 ==> t.auth[id].key == p.key
    requires p.offset == 0 && p.more ==> |t.fragments| < MAX_FRAGMENTS
    requires p.offset != 0 ==> p.fragment in t.fragments
    ensures Inv(Admit(t, now, p, id, pkt).0)
  {
    hide PendingPackets, PendingBytes, Track, WellFormed, SameFlows, FragmentOk, WithinCapacity, DropFragment;
    var f := t.auth[id].(updatedAt := now);
    if f.state.Pending? && |f.pending| < MAX_PENDING_PER_FLOW && !BudgetFull(t, |pkt|) {
      BufferKeepsInv(t, id, now, pkt);
      TrackKeepsInv(SetFlow(t, f.(pending := f.pending + [pkt])), now, p, f);
    } else {
      TouchKeepsLocating(t, id, now);
      DropFragmentKeepsInv(SetFlow(t, f), p.fragment);
      if f.state.Ready? {
        TrackKeepsInv(SetFlow(t, f), now, p, f);
      }
    }
  }

  lemma QueueKeepsInv(t: Table, now: Time, p: PacketInfo, appID: string, pkt: Bytes)
    requires Inv(t) && WellFormed(p)
    ensures Inv(QueuePacket(t, now, p, appID, pkt).0)
  {
    hide Inv, Locating, Locate, Admit, BudgetFull, WellFormed;
    if !t.closed {
      LocateKeepsInv(t, now, p, appID, |pkt|);
      var l := Locate(t, now, p, appID, |pkt|);
      if l.Found? {
        AdmitKeepsInv(l.table, now, p, l.id, pkt);
      }
    }
  }

  // ---- The other operations

  lemma VisitKeepsInv(t: Table, now: Time, key: FlowKey)
    requires Inv(t)
    ensures Inv(Visit(t, now, key).0)
  {
    if key in t.flows {
      var f := t.auth[t.flows[key]];
      RemoveKeepsInv(t, {f.authID});
      if f.Due(now) {
        SetKeepsInv(t, f.(authSent := Some(now)));
      }
    }
  }

  lemma {:induction false} PendingAuthKeepsInv(t: Table, now: Time, limit: nat, order: seq<FlowKey>, out: seq<AuthFlow>)
    requires Inv(t)
    ensures Inv(PendingAuth(t, now, limit, order, out).0)
    decreases |order|
  {
    hide Inv;
    if order != [] {
      VisitKeepsInv(t, now, order[0]);
      var (t', due) := Visit(t, now, order[0]);
      PendingAuthKeepsInv(t', now, limit, order[1..], out);
      if due.Some? {
        PendingAuthKeepsInv(t', now, limit, order[1..], out + [due.value]);
      }
    }
  }

  lemma RetryKeepsInv(t: Table, now: Time, id: AuthId)
    requires Inv(t)
    ensures Inv(RetryAuth(t, now, id).0)
  {
    RemoveKeepsInv(t, {id});
    if id in t.auth && t.auth[id].Awaiting() && !t.auth[id].Expired(now) && t.auth[id].authRetryAt.None? {
      SetKeepsInv(t, t.auth[id].(authRetryAt := Some(now + RETRY_DELAY), authSent := None, updatedAt := now));
    }
  }

  lemma FailKeepsLinks(t: Table, f: Flow)
    requires SameFlows(t) && f.authID in t.auth && f.key == t.auth[f.authID].key
    requires forall k | k in t.fragments :: FragmentOk(t, k, t.fragments[k])
    ensures var t' := WithoutFragmentsOf(SetFlow(t, f), {f.authID});
            SameFlows(t') && forall k | k in t'.fragments :: FragmentOk(t', k, t'.fragments[k])
  {
    var t' := WithoutFragmentsOf(SetFlow(t, f), {f.authID});
    forall k | k in t'.fragments ensures FragmentOk(t', k, t'.fragments[k]) {
      assert FragmentOk(t, k, t.fragments[k]);
    }
  }

  lemma FailKeepsCapacity(t: Table, f: Flow)
    requires WithinCapacity(t) && f.authID in t.auth && 0 < f.authID <= t.next && f.pending == []
    ensures WithinCapacity(WithoutFragmentsOf(SetFlow(t, f), {f.authID}))
  {
    hide SumBelow;
    SumSet(t.auth, t.next, PacketWeight, f);
    SumSet(t.auth, t.next, ByteWeight, f);
    SubmapSmaller(WithoutFragmentsOf(SetFlow(t, f), {f.authID}).fragments, t.fragments);
  }

  /** Refusing a flow together with dropping its associations. */
  lemma FailKeepsInv(t: Table, f: Flow)
    requires Inv(t) && f.authID in t.auth && FlowOk(f) && f.key == t.auth[f.authID].key && f.pending == []
    ensures Inv(WithoutFragmentsOf(SetFlow(t, f), {f.authID}))
  {
    hide SameFlows, FragmentOk, FlowOk, WithinCapacity;
    FlowBounds(t, f.authID);
    FailKeepsLinks(t, f);
    FailKeepsCapacity(t, f);
  }

  lemma FlowBounds(t: Table, id: AuthId)
    ensures SameFlows(t) && id in t.auth ==> t.auth[id].authID == id && 0 < id <= t.next
  {
  }

  lemma CompleteKeepsInv(t: Table, now: Time, id: AuthId, token: Bytes, granted: bool)
    requires Inv(t)
    ensures Inv(CompleteAuth(t, now, id, token, granted).0)
  {
    RemoveKeepsInv(t, {id});
    if id in t.auth && t.auth[id].Awaiting() && !t.auth[id].Expired(now) {
      var done := t.auth[id].(pending := [], updatedAt := now);
      if !granted || !ValidToken(token) {
        FailKeepsInv(t, done.(state := Failed));
      } else {
        SetKeepsInv(t, done.(state := Ready, token := token));
      }
    }
  }

  lemma SweptLive(t: Table, dead: set<AuthId>, k: FragmentKey)
    requires Inv(t) && k in t.fragments
    ensures Live(WithoutFlows(t, dead), t.fragments[k]) <==> t.fragments[k].flow !in dead
  {
    assert FragmentOk(t, k, t.fragments[k]);
  }

  /** The batch sweep is removing every expired flow and then every overdue association. */
  lemma ExpireIsRemoval(t: Table, now: Time)
    requires Inv(t)
    ensures Expire(t, now) == ExpireFragments(RemoveFlows(t, ExpiredFlows(t, now)), now)
  {
    hide Inv, Live, ExpiredFlows, WithoutFlows;
    var dead := ExpiredFlows(t, now);
    var swept := WithoutFlows(t, dead);
    assert swept.fragments == t.fragments by { FlowsApart(t, dead); }
    forall k | k in t.fragments ensures Live(swept, t.fragments[k]) <==> t.fragments[k].flow !in dead {
      SweptLive(t, dead, k);
    }
  }

  lemma FlowsApart(t: Table, dead: set<AuthId>)
    ensures WithoutFlows(t, dead).fragments == t.fragments
  {
  }

  lemma RemovalComposes(t: Table, a: set<AuthId>, b: set<AuthId>)
    ensures RemoveFlows(RemoveFlows(t, a), b) == RemoveFlows(t, a + b)
  {
    assert (t.auth - a) - b == t.auth - (a + b);
  }

  /** removeLocked for one flow after another. */
  function RemoveEach(t: Table, order: seq<AuthId>): Table {
    if order == [] then t else RemoveFlows(RemoveEach(t, order[..|order| - 1]), {order[|order| - 1]})
  }

  function Elements(order: seq<AuthId>): set<AuthId> {
    set i | i in order
  }

  /** Removing flows one by one, in any order, is removing them all at once. */
  lemma {:induction false} OneByOneIsRemoval(t: Table, order: seq<AuthId>)
    ensures RemoveEach(t, order) == RemoveFlows(t, Elements(order))
    decreases |order|
  {
    hide RemoveFlows;
    if order == [] {
      assert Elements(order) == {};
      RemovingNone(t);
    } else {
      var init, last := order[..|order| - 1], order[|order| - 1];
      OneByOneIsRemoval(t, init);
      RemovalComposes(t, Elements(init), {last});
      assert Elements(init) + {last} == Elements(order);
    }
  }

  lemma RemovingNone(t: Table)
    ensures RemoveFlows(t, {}) == t
  {
  }

  /** The batch sweep leaves what removing the expired flows one by one, in any order, and then
      sweeping the associations would. */
  lemma ExpireOneByOne(t: Table, now: Time, order: seq<AuthId>)
    requires Inv(t) && Elements(order) == ExpiredFlows(t, now)
    ensures Expire(t, now) == ExpireFragments(RemoveEach(t, order), now)
  {
    hide Inv, Expire, ExpireFragments, RemoveFlows, ExpiredFlows, Elements;
    OneByOneIsRemoval(t, order);
    ExpireIsRemoval(t, now);
  }

  lemma ExpireKeepsInv(t: Table, now: Time)
    requires Inv(t)
    ensures Inv(Expire(t, now))
  {
    ExpireIsRemoval(t, now);
    RemoveKeepsInv(t, ExpiredFlows(t, now));
    ExpireFragmentsKeepsInv(RemoveFlows(t, ExpiredFlows(t, now)), now);
  }

  lemma ClearKeepsInv(t: Table)
    ensures Inv(Clear(t))
  {
    SumEmpty(t.next, PacketWeight);
    SumEmpty(t.next, ByteWeight);
  }
}
