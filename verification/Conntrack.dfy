/** The flow table as the program runs it: three maps and two counters updated in place.

    Each method is proved to leave the table its specification function describes, and to
    keep the running counters equal to the sums over the buffered packets.
 */
module Conntrack {
  import opened Packet
  import opened Wrappers
  import opened FlowTable
  import opened FlowInvariant

  class ConnTable {
    var flows: map<FlowKey, AuthId>
    var auth: map<AuthId, Flow>
    var fragments: map<FragmentKey, Fragment>
    var next: nat
    var pendingPackets: int
    var pendingBytes: int
    var closed: bool

    function View(): Table
      reads this
    {
      Table(flows, auth, fragments, next, closed)
    }

    /** The counters are the sums over the pending lists. */
    predicate Counted()
      reads this
    {
      pendingPackets == PendingPackets(View()) && pendingBytes == PendingBytes(View())
    }

    predicate Valid()
      reads this
    {
      Inv(View()) && Counted()
    }

    constructor ()
      ensures Valid() && View() == EMPTY
    {
      flows, auth, fragments, next, closed := map[], map[], map[], 0, false;
      pendingPackets, pendingBytes := 0, 0;
    }

    /** Takes the packets off a flow and gives their budget back. */
    method ReleasePending(id: AuthId) returns (packets: seq<Bytes>)
      requires id in auth && auth[id].authID == id && 0 < id <= next && Counted()
      modifies `auth, `pendingPackets, `pendingBytes
      ensures packets == old(auth[id]).pending
      ensures auth == old(auth)[id := old(auth[id]).(pending := [])]
      ensures Counted()
    {
      packets := auth[id].pending;
      for i := 0 to |packets|
        invariant pendingBytes == old(pendingBytes) - TotalLength(packets[..i])
        invariant auth == old(auth) && pendingPackets == old(pendingPackets)
      {
        assert packets[..i + 1][..i] == packets[..i];
        pendingBytes := pendingBytes - |packets[i]|;
      }
      assert packets[..|packets|] == packets;
      pendingPackets := pendingPackets - |packets|;
      ghost var f := auth[id].(pending := []);
      SumSet(auth, next, PacketWeight, f);
      SumSet(auth, next, ByteWeight, f);
      auth := auth[id := auth[id].(pending := [])];
    }

    method RemoveFragments(id: AuthId)
      modifies `fragments
      ensures fragments == WithoutFragmentsOf(old(View()), {id}).fragments
    {
      ghost var before := fragments;
      var todo := fragments.Keys;
      while todo != {}
        invariant todo <= before.Keys && fragments.Keys <= before.Keys
        invariant forall k | k in fragments :: fragments[k] == before[k]
        invariant forall k | k in before :: k in fragments <==> k in todo || before[k].flow != id
        decreases todo
      {
        var k :| k in todo;
        if k in fragments && fragments[k].flow == id {
          fragments := fragments - {k};
        }
        todo := todo - {k};
      }
    }

    /** Takes a flow out of both indexes, its packets first. */
    method Delete(id: AuthId)
      requires SameFlows(View()) && Counted() && id in auth
      modifies `flows, `auth, `pendingPackets, `pendingBytes
      ensures Counted() && View() == WithoutFlows(old(View()), {id})
    {
      hide PacketWeight, ByteWeight, SumBelow;
      ghost var t := View();
      var f := auth[id];
      var _ := ReleasePending(id);
      SumRemove(auth, id, next, PacketWeight);
      SumRemove(auth, id, next, ByteWeight);
      EmptyWeighsNothing(auth[id]);
      flows := flows - {f.key};
      auth := auth - {f.authID};
      assert auth == t.auth - {id};
      assert flows == WithoutFlows(t, {id}).flows;
    }

    method Remove(id: AuthId)
      requires Valid() && id in auth
      modifies `flows, `auth, `fragments, `pendingPackets, `pendingBytes
      ensures Valid() && View() == RemoveFlows(old(View()), {id})
    {
      hide Inv, SameFlows, PendingPackets, PendingBytes, WithoutFlows;
      ghost var t := View();
      RemoveKeepsInv(t, {id});
      InvLinks(t);
      Delete(id);
      ghost var deleted := View();
      RemoveFragments(id);
      FragmentsDoNotCount(deleted, fragments);
    }

    method ExpireFragmentsLocked(now: Time)
      modifies `fragments
      ensures fragments == ExpireFragments(old(View()), now).fragments
    {
      ghost var before := fragments;
      var todo := fragments.Keys;
      while todo != {}
        invariant todo <= before.Keys && fragments.Keys <= before.Keys
        invariant forall k | k in fragments :: fragments[k] == before[k]
        invariant forall k | k in before :: k in fragments <==> k in todo || now < before[k].expiresAt
        decreases todo
      {
        var k :| k in todo;
        if k in fragments && now >= fragments[k].expiresAt {
          fragments := fragments - {k};
        }
        todo := todo - {k};
      }
    }

    method RejectFragment(key: FragmentKey)
      requires Valid()
      modifies `fragments
      ensures Valid() && View() == DropFragment(old(View()), key)
    {
      DropFragmentKeepsInv(View(), key);
      fragments := fragments - {key};
    }

    method Clear()
      modifies this
      ensures Valid() && View() == FlowTable.Clear(old(View()))
    {
      ClearKeepsInv(View());
      SumEmpty(next, PacketWeight);
      SumEmpty(next, ByteWeight);
      flows, auth, fragments := map[], map[], map[];
      closed := true;
      pendingPackets, pendingBytes := 0, 0;
    }

    /** The periodic sweep: flows first, without touching fragments, then one pass over them. */
    method Expire(now: Time) returns (count: nat)
      requires Valid()
      modifies `flows, `auth, `fragments, `pendingPackets, `pendingBytes
      ensures Valid() && View() == FlowTable.Expire(old(View()), now)
      ensures count == |ExpiredFlows(old(View()), now)|
    {
      hide Inv, PendingPackets, PendingBytes, WithoutFlows, ExpiredFlows;
      ghost var t := View();
      ExpireKeepsInv(t, now);
      count := SweepFlows(now);
      ghost var swept := View();
      SweepFragments(now);
      FragmentsDoNotCount(swept, fragments);
    }

    method SweepFragments(now: Time)
      modifies `fragments
      ensures fragments == map k | k in old(fragments) && now < old(fragments)[k].expiresAt
                                   && Live(old(View()), old(fragments)[k]) :: old(fragments)[k]
    {
      ghost var t := View();
      ghost var before := fragments;
      var todo := fragments.Keys;
      while todo != {}
        invariant todo <= before.Keys && fragments.Keys <= before.Keys
        invariant forall k | k in fragments :: fragments[k] == before[k]
        invariant forall k | k in before ::
                    k in fragments <==> k in todo || (now < before[k].expiresAt && Live(t, before[k]))
        decreases todo
      {
        var k :| k in todo;
        if k in fragments {
          var s := fragments[k];
          if now >= s.expiresAt || !(s.key in flows && flows[s.key] == s.flow) {
            fragments := fragments - {k};
          }
        }
        todo := todo - {k};
      }
    }

    method SweepFlows(now: Time) returns (count: nat)
      requires Valid()
      modifies `flows, `auth, `pendingPackets, `pendingBytes
      ensures Counted() && View() == WithoutFlows(old(View()), ExpiredFlows(old(View()), now))
      ensures count == |ExpiredFlows(old(View()), now)|
    {
      hide Inv, SameFlows, PendingPackets, PendingBytes, WithoutFlows;
      ghost var t := View();
      InvLinks(t);
      count := 0;
      var todo := flows.Keys;
      ghost var dead: set<AuthId> := {};
      DeletedNone(t);
      SweepStarts(t, now);
      while todo != {}
        invariant todo <= t.flows.Keys
        invariant SweptSoFar(t, now, todo, dead)
        invariant View() == WithoutFlows(t, dead) && Counted()
        invariant count == |dead|
        decreases todo
      {
        var k :| k in todo;
        SweepVisits(t, now, todo, dead, k);
        var id := flows[k];
        if auth[id].Expired(now) {
          Delete(id);
          DeletedMore(t, dead, id);
          dead := dead + {id};
          count := count + 1;
        }
        todo := todo - {k};
      }
      SweepEnds(t, now, dead);
    }

    // ---- queuePacket

    method QueuePacket(now: Time, p: PacketInfo, appID: string, pkt: Bytes)
      returns (token: Bytes, queued: bool, error: Option<Error>)
      requires Valid() && WellFormed(p)
      modifies this
      ensures Valid() && View() == FlowTable.QueuePacket(old(View()), now, p, appID, pkt).0
      ensures Reported(FlowTable.QueuePacket(old(View()), now, p, appID, pkt).1, token, queued, error)
    {
      hide Inv, Counted, Locate, Admit, Locating, WellFormed;
      if closed { return [], false, Some(TunnelClosed); }
      QueueKeepsInv(View(), now, p, appID, pkt);
      LocateKeepsInv(View(), now, p, appID, |pkt|);
      var id;
      id, error := LocateFlow(now, p, appID, |pkt|);
      if error.Some? { return [], false, error; }
      LocatingLinks(View(), id);
      token, queued, error := AdmitPacket(now, p, id, pkt);
    }

    method LocateFlow(now: Time, p: PacketInfo, appID: string, size: nat)
      returns (id: AuthId, error: Option<Error>)
      requires Valid()
      modifies this
      ensures View() == Locate(old(View()), now, p, appID, size).table && Counted()
      ensures Answers(Locate(old(View()), now, p, appID, size), id, error)
    {
      hide Inv, PendingPackets, PendingBytes, FindOrCreate, LocateTail;
      if p.offset != 0 {
        id, error := LocateTailFlow(now, p);
        return;
      }
      if p.more {
        var existed := p.fragment in fragments;
        var current := existed && now < fragments[p.fragment].expiresAt;
        DropFragmentKeepsInv(View(), p.fragment);
        FragmentsDoNotCount(View(), fragments - {p.fragment});
        fragments := fragments - {p.fragment};
        if current { return 0, Some(FragmentOrder); }
        ExpireFragmentsKeepsInv(View(), now);
        FragmentsDoNotCount(View(), ExpireFragments(View(), now).fragments);
        ExpireFragmentsLocked(now);
        if |fragments| >= MAX_FRAGMENTS { return 0, Some(FragmentFull); }
      }
      id, error := FindOrCreateFlow(now, p.key, appID, size);
    }

    method LocateTailFlow(now: Time, p: PacketInfo) returns (id: AuthId, error: Option<Error>)
      requires Valid()
      modifies `fragments
      ensures View() == LocateTail(old(View()), now, p).table && Counted()
      ensures Answers(LocateTail(old(View()), now, p), id, error)
    {
      hide Inv, PendingPackets, PendingBytes;
      InvLinks(View());
      if p.fragment !in fragments { return 0, Some(FragmentMissing); }
      var s := fragments[p.fragment];
      FragmentsDoNotCount(View(), fragments - {p.fragment});
      if now >= s.expiresAt || s.key !in flows || flows[s.key] != s.flow
         || auth[s.flow].state.Failed? || auth[s.flow].Expired(now) {
        fragments := fragments - {p.fragment};
        return 0, Some(FragmentMissing);
      }
      if p.offset != s.nextOffset {
        fragments := fragments - {p.fragment};
        return 0, Some(FragmentOrder);
      }
      return s.flow, None;
    }

    /** Replaces a flow whose buffer stays the same. */
    method PutFlow(f: Flow)
      requires Counted() && f.authID in auth && 0 < f.authID <= next && f.pending == auth[f.authID].pending
      modifies `auth
      ensures Counted() && View() == SetFlow(old(View()), f)
    {
      hide PendingPackets, PendingBytes;
      SendCounts(View(), f);
      auth := auth[f.authID := f];
    }

    method DropAssociation(key: FragmentKey)
      requires Counted()
      modifies `fragments
      ensures Counted() && View() == DropFragment(old(View()), key)
    {
      hide PendingPackets, PendingBytes;
      FragmentsDoNotCount(View(), fragments - {key});
      fragments := fragments - {key};
    }

    method Evict(now: Time, key: FlowKey)
      requires Valid()
      modifies this
      ensures Valid() && View() == EvictExpired(old(View()), now, key)
    {
      hide Inv, Counted, RemoveFlows;
      InvLinks(View());
      if key in flows && auth[flows[key]].Expired(now) {
        Remove(flows[key]);
      }
    }

    method CreateFlow(now: Time, key: FlowKey, appID: string) returns (id: AuthId)
      requires Counted()
      modifies `next, `flows, `auth
      ensures Counted() && View() == NewFlow(old(View()), now, key, appID) && id == old(next) + 1
    {
      hide PendingPackets, PendingBytes;
      NewFlowSums(View(), now, key, appID);
      next := next + 1;
      id := next;
      flows := flows[key := id];
      auth := auth[id := Flow(key, appID, id, [], Pending, [], None, None, now, now)];
    }

    method FindOrCreateFlow(now: Time, key: FlowKey, appID: string, size: nat)
      returns (id: AuthId, error: Option<Error>)
      requires Valid()
      modifies this
      ensures View() == FindOrCreate(old(View()), now, key, appID, size).table && Counted()
      ensures Answers(FindOrCreate(old(View()), now, key, appID, size), id, error)
    {
      hide Inv, PendingPackets, PendingBytes, EvictExpired, NewFlow;
      Evict(now, key);
      InvLinks(View());
      if key in flows { return flows[key], None; }
      if |flows| >= MAX_FLOWS { return 0, Some(FlowTableFull); }
      if pendingPackets >= MAX_PENDING_PACKETS || pendingBytes + size > MAX_PENDING_BYTES {
        return 0, Some(PendingFull);
      }
      id := CreateFlow(now, key, appID);
      error := None;
    }

    method BufferPacket(id: AuthId, pkt: Bytes)
      requires Counted() && id in auth && auth[id].authID == id && 0 < id <= next
      modifies `auth, `pendingPackets, `pendingBytes
      ensures Counted()
      ensures View() == SetFlow(old(View()), old(auth[id]).(pending := old(auth[id]).pending + [pkt]))
    {
      hide PendingPackets, PendingBytes;
      AppendCounts(View(), id, pkt);
      auth := auth[id := auth[id].(pending := auth[id].pending + [pkt])];
      pendingPackets := pendingPackets + 1;
      pendingBytes := pendingBytes + |pkt|;
    }

    method AdmitPacket(now: Time, p: PacketInfo, id: AuthId, pkt: Bytes)
      returns (token: Bytes, queued: bool, error: Option<Error>)
      requires Counted() && id in auth && auth[id].authID == id && 0 < id <= next
      modifies `auth, `fragments, `pendingPackets, `pendingBytes
      ensures Counted() && View() == Admit(old(View()), now, p, id, pkt).0
      ensures Reported(Admit(old(View()), now, p, id, pkt).1, token, queued, error)
    {
      hide PendingPackets, PendingBytes, Track, DropFragment;
      var full := pendingPackets >= MAX_PENDING_PACKETS || pendingBytes + |pkt| > MAX_PENDING_BYTES;
      PutFlow(auth[id].(updatedAt := now));
      var f := auth[id];
      if f.state.Failed? {
        DropAssociation(p.fragment);
        return [], false, Some(FlowRejected);
      }
      if f.state.Ready? {
        TrackFragment(now, p, id);
        return f.token, false, None;
      }
      if |f.pending| >= MAX_PENDING_PER_FLOW || full {
        DropAssociation(p.fragment);
        return [], false, Some(PendingFull);
      }
      BufferPacket(id, pkt);
      SetTwice(old(View()), f, f.(pending := f.pending + [pkt]));
      TrackUsesIdentity(View(), now, p, f, auth[id]);
      TrackFragment(now, p, id);
      return [], true, None;
    }

    method TrackFragment(now: Time, p: PacketInfo, id: AuthId)
      requires Counted() && id in auth && auth[id].authID == id
      modifies `fragments
      ensures Counted() && View() == Track(old(View()), now, p, auth[id])
    {
      hide PendingPackets, PendingBytes;
      FragmentsDoNotCount(View(), Track(View(), now, p, auth[id]).fragments);
      if p.more {
        if p.offset == 0 {
          fragments := fragments[p.fragment := Fragment(id, auth[id].key, now + FRAGMENT_TTL, p.payloadBytes)];
        } else if p.fragment in fragments {
          var s := fragments[p.fragment];
          fragments := fragments[p.fragment := s.(nextOffset := p.offset + p.payloadBytes)];
        }
      } else if p.offset != 0 {
        fragments := fragments - {p.fragment};
      }
    }

    // ---- Authentication

    /** Collects due requests; `order` is the order the map happened to be visited in. */
    method PendingAuth(now: Time, limit: nat) returns (out: seq<AuthFlow>, ghost order: seq<FlowKey>)
      requires Valid()
      modifies this
      ensures Valid()
      ensures (View(), out) == FlowTable.PendingAuth(old(View()), now, limit, order, [])
      ensures |out| == limit > 0 || forall k | k in old(flows) :: k in order
    {
      hide Inv, Counted, Visit, ScansTo;
      ghost var t := View();
      out, order := [], [];
      ScanStarts(t, now, limit);
      var todo := flows.Keys;
      while todo != {}
        invariant Valid() && todo <= flows.Keys
        invariant forall k | k in t.flows :: k in todo || k in order
        invariant ScansTo(t, now, limit, order, View(), out)
        invariant out == [] || |out| != limit
        decreases todo
      {
        var k :| k in todo;
        InvLinks(View());
        ScanExtends(t, now, limit, order, View(), out, k);
        VisitKeepsOthers(View(), now, k);
        order := order + [k];
        todo := todo - {k};
        var due := VisitFlow(now, k);
        if due.Some? {
          out := out + [due.value];
          if |out| == limit { break; }
        }
      }
      ScanDone(t, now, limit, order, View(), out);
    }

    /** One flow of the scan: removed, asked for, or left. */
    method VisitFlow(now: Time, k: FlowKey) returns (due: Option<AuthFlow>)
      requires Valid() && k in flows
      modifies this
      ensures Valid() && (View(), due) == Visit(old(View()), now, k)
    {
      hide Inv, PendingPackets, PendingBytes, RemoveFlows;
      InvLinks(View());
      VisitKeepsInv(View(), now, k);
      var f := auth[flows[k]];
      if f.Expired(now) {
        Remove(f.authID);
        return None;
      }
      if !f.Due(now) { return None; }
      PutFlow(f.(authSent := Some(now)));
      return Some(AuthFlow(f.key, f.appID, f.authID));
    }

    method RetryAuth(id: AuthId, now: Time) returns (retry: bool)
      requires Valid()
      modifies this
      ensures Valid() && (View(), retry) == FlowTable.RetryAuth(old(View()), now, id)
    {
      hide Inv, PendingPackets, PendingBytes, RemoveFlows;
      RetryKeepsInv(View(), now, id);
      InvLinks(View());
      if id !in auth || !auth[id].state.Pending? || (auth[id].authSent.None? && auth[id].authRetryAt.None?) {
        return false;
      }
      var f := auth[id];
      if f.Expired(now) {
        Remove(id);
        return false;
      }
      if f.authRetryAt.Some? { return f.authSent.None?; }
      PutFlow(f.(authRetryAt := Some(now + RETRY_DELAY), authSent := None, updatedAt := now));
      return true;
    }

    method CompleteAuth(id: AuthId, token: Bytes, granted: bool, now: Time) returns (packets: seq<Bytes>)
      requires Valid()
      modifies this
      ensures Valid() && (View(), packets) == FlowTable.CompleteAuth(old(View()), now, id, token, granted)
    {
      hide Inv, PendingPackets, PendingBytes, RemoveFlows, WithoutFragmentsOf;
      CompleteKeepsInv(View(), now, id, token, granted);
      InvLinks(View());
      if id !in auth || !auth[id].state.Pending? || (auth[id].authSent.None? && auth[id].authRetryAt.None?) {
        return [];
      }
      if auth[id].Expired(now) {
        Remove(id);
        return [];
      }
      packets := ReleasePending(id);
      var f := auth[id].(updatedAt := now);
      ghost var emptied := auth[id];
      if !granted || |token| == 0 || |token| > 255 {
        SetTwice(old(View()), emptied, f.(state := Failed));
        PutFlow(f.(state := Failed));
        ForgetFragments(id);
        return [];
      }
      SetTwice(old(View()), emptied, f.(state := Ready, token := token));
      PutFlow(f.(state := Ready, token := token));
    }

    method ForgetFragments(id: AuthId)
      requires Counted()
      modifies `fragments
      ensures Counted() && View() == WithoutFragmentsOf(old(View()), {id})
    {
      hide PendingPackets, PendingBytes;
      FragmentsDoNotCount(View(), WithoutFragmentsOf(View(), {id}).fragments);
      RemoveFragments(id);
    }
  }

  /** How an outcome is reported to the caller. */
  predicate Reported(outcome: Outcome, token: Bytes, queued: bool, error: Option<Error>) {
    match outcome
    case Rejected(e) => error == Some(e) && !queued
    case Queued => error == None && queued
    case Send(t) => error == None && !queued && token == t
  }

  predicate Answers(l: Located, id: AuthId, error: Option<Error>) {
    match l
    case Missing(_, e) => error == Some(e)
    case Found(_, i) => error == None && id == i
  }

  lemma LocatingLinks(t: Table, id: AuthId)
    ensures Locating(t, id) ==> t.auth[id].authID == id && 0 < id <= t.next
  {
  }

  /** Replacing a flow without touching its buffer leaves the sums alone. */
  lemma SendCounts(t: Table, f: Flow)
    requires f.authID in t.auth && 0 < f.authID <= t.next && f.pending == t.auth[f.authID].pending
    ensures PendingPackets(SetFlow(t, f)) == PendingPackets(t) && PendingBytes(SetFlow(t, f)) == PendingBytes(t)
  {
    SumSet(t.auth, t.next, PacketWeight, f);
    SumSet(t.auth, t.next, ByteWeight, f);
  }

  lemma SetTwice(t: Table, f: Flow, g: Flow)
    ensures f.authID == g.authID ==> SetFlow(SetFlow(t, f), g) == SetFlow(t, g)
  {
  }

  lemma TrackUsesIdentity(t: Table, now: Time, p: PacketInfo, f: Flow, g: Flow)
    ensures f.authID == g.authID && f.key == g.key ==> Track(t, now, p, f) == Track(t, now, p, g)
  {
  }

  lemma AppendCounts(t: Table, id: AuthId, pkt: Bytes)
    requires id in t.auth && t.auth[id].authID == id && 0 < id <= t.next
    ensures var t' := SetFlow(t, t.auth[id].(pending := t.auth[id].pending + [pkt]));
            PendingPackets(t') == PendingPackets(t) + 1 && PendingBytes(t') == PendingBytes(t) + |pkt|
  {
    var f := t.auth[id].(pending := t.auth[id].pending + [pkt]);
    TotalLengthAppend(t.auth[id].pending, pkt);
    SumSet(t.auth, t.next, PacketWeight, f);
    SumSet(t.auth, t.next, ByteWeight, f);
  }

  // ---- The scan, one visit at a time

  /** Scanning any continuation of `order` from t is scanning the continuation from here. */
  ghost predicate ScansTo(t: Table, now: Time, limit: nat, order: seq<FlowKey>, here: Table, out: seq<AuthFlow>) {
    forall rest: seq<FlowKey> ::
      FlowTable.PendingAuth(t, now, limit, order + rest, []) == FlowTable.PendingAuth(here, now, limit, rest, out)
  }

  lemma ScanStarts(t: Table, now: Time, limit: nat)
    ensures ScansTo(t, now, limit, [], t, [])
  {
    assert forall rest: seq<FlowKey> :: [] + rest == rest;
  }

  lemma ScanExtends(t: Table, now: Time, limit: nat, order: seq<FlowKey>, here: Table, out: seq<AuthFlow>, k: FlowKey)
    requires ScansTo(t, now, limit, order, here, out)
    ensures var (here', due) := Visit(here, now, k);
            var out' := if due.Some? then out + [due.value] else out;
            if due.Some? && |out'| == limit
            then FlowTable.PendingAuth(t, now, limit, order + [k], []) == (here', out')
            else ScansTo(t, now, limit, order + [k], here', out')
  {
    var (here', due) := Visit(here, now, k);
    var out' := if due.Some? then out + [due.value] else out;
    if due.Some? && |out'| == limit {
      assert FlowTable.PendingAuth(t, now, limit, order + [k], []) == FlowTable.PendingAuth(here, now, limit, [k], out);
    } else {
      forall rest: seq<FlowKey>
        ensures FlowTable.PendingAuth(t, now, limit, order + [k] + rest, [])
             == FlowTable.PendingAuth(here', now, limit, rest, out')
      {
        assert order + [k] + rest == order + ([k] + rest);
        assert ([k] + rest)[1..] == rest;
      }
    }
  }

  lemma ScanDone(t: Table, now: Time, limit: nat, order: seq<FlowKey>, here: Table, out: seq<AuthFlow>)
    ensures ScansTo(t, now, limit, order, here, out) ==>
              FlowTable.PendingAuth(t, now, limit, order, []) == (here, out)
  {
    assert order + [] == order;
  }

  lemma VisitKeepsOthers(t: Table, now: Time, key: FlowKey)
    ensures SameFlows(t) ==> t.flows.Keys - {key} <= Visit(t, now, key).0.flows.Keys
  {
  }

  /** The flows whose key was visited and that have expired. */
  predicate SweptSoFar(t: Table, now: Time, todo: set<FlowKey>, dead: set<AuthId>) {
    && dead <= t.auth.Keys
    && forall i | i in t.auth :: i in dead <==> t.auth[i].Expired(now) && t.auth[i].key !in todo
  }

  lemma SweepStarts(t: Table, now: Time)
    ensures SameFlows(t) ==> SweptSoFar(t, now, t.flows.Keys, {})
  {
  }

  lemma SweepEnds(t: Table, now: Time, dead: set<AuthId>)
    ensures SweptSoFar(t, now, {}, dead) ==> dead == ExpiredFlows(t, now)
  {
  }

  lemma SweepVisits(t: Table, now: Time, todo: set<FlowKey>, dead: set<AuthId>, k: FlowKey)
    requires SameFlows(t) && SweptSoFar(t, now, todo, dead) && k in todo && todo <= t.flows.Keys
    ensures var t1, id := WithoutFlows(t, dead), t.flows[k];
            && SameFlows(t1) && k in t1.flows && t1.flows[k] == id && id in t1.auth && t1.auth[id] == t.auth[id]
            && id !in dead
            && SweptSoFar(t, now, todo - {k}, if t.auth[id].Expired(now) then dead + {id} else dead)
  {
  }

  lemma EmptyWeighsNothing(f: Flow)
    ensures f.pending == [] ==> PacketWeight(f) == 0 && ByteWeight(f) == 0
  {
  }

  lemma FragmentsDoNotCount(t: Table, fragments: map<FragmentKey, Fragment>)
    ensures PendingPackets(t.(fragments := fragments)) == PendingPackets(t)
    ensures PendingBytes(t.(fragments := fragments)) == PendingBytes(t)
  {
  }

  lemma DeletedNone(t: Table)
    ensures WithoutFlows(t, {}) == t
  {
    assert t.auth - {} == t.auth;
  }

  lemma DeletedMore(t: Table, dead: set<AuthId>, id: AuthId)
    ensures WithoutFlows(WithoutFlows(t, dead), {id}) == WithoutFlows(t, dead + {id})
  {
    assert (t.auth - dead) - {id} == t.auth - (dead + {id});
  }
}
