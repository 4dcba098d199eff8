/** Fragment tiling, and the theorems over every run of the flow table. */
module FlowRuns {
  import opened Packet
  import opened Wrappers
  import opened FlowTable
  import opened FlowInvariant
  import opened FlowHistory
  import opened FlowLedger

  // ---- Fragments

  /** One accepted fragment: where it lies, the flow it was charged to and when it came. */
  datatype Piece = Piece(offset: nat, length: nat, flow: AuthId, at: Time)

  /** The fragments accepted so far of each open datagram, and of each completed one. */
  datatype Trains = Trains(open: map<FragmentKey, seq<Piece>>, finished: seq<seq<Piece>>)

  predicate Accepts(t: Table, op: Op) {
    op.Queue? && !QueuePacket(t, op.now, op.p, op.appID, op.pkt).1.Rejected? && ChargedTo(t, op).Some?
  }

  function RecordTrains(r: Trains, t: Table, op: Op): Trains {
    if !Accepts(t, op) || !op.p.Fragmented() then r
    else
      var k := op.p.fragment;
      var piece := Piece(op.p.offset, op.p.payloadBytes, ChargedTo(t, op).value, op.now);
      if op.p.offset == 0 then Trains(r.open[k := [piece]], r.finished)
      else
        var pieces := (if k in r.open then r.open[k] else []) + [piece];
        if op.p.more then Trains(r.open[k := pieces], r.finished)
        else Trains(r.open - {k}, r.finished + [pieces])
  }

  /** No gap and no overlap from the start of the datagram, all charged to the flow the first
      fragment opened, all within five seconds of it. */
  predicate Tiles(pieces: seq<Piece>) {
    && pieces != [] && pieces[0].offset == 0
    && (forall i | 0 <= i < |pieces| - 1 :: pieces[i + 1].offset == pieces[i].offset + pieces[i].length)
    && (forall i | 0 <= i < |pieces| :: pieces[i].length > 0 && pieces[i].flow == pieces[0].flow)
    && (forall i | 0 <= i < |pieces| :: pieces[i].at < pieces[0].at + FRAGMENT_TTL)
    && End(pieces) <= MAX_PAYLOAD_END
  }

  function End(pieces: seq<Piece>): nat
    requires pieces != []
  {
    pieces[|pieces| - 1].offset + pieces[|pieces| - 1].length
  }

  predicate OpenTrain(s: Fragment, pieces: seq<Piece>) {
    && Tiles(pieces) && End(pieces) == s.nextOffset
    && pieces[0].flow == s.flow && s.expiresAt == pieces[0].at + FRAGMENT_TTL
  }

  predicate TrainsOk(t: Table, r: Trains) {
    && (forall k | k in t.fragments :: k in r.open && OpenTrain(t.fragments[k], r.open[k]))
    && (forall i | 0 <= i < |r.finished| :: Tiles(r.finished[i]))
  }

  predicate FragmentsShrink(a: map<FragmentKey, Fragment>, b: map<FragmentKey, Fragment>) {
    forall k | k in b :: k in a && b[k] == a[k]
  }

  lemma FindOrCreateFragments(t: Table, now: Time, key: FlowKey, appID: string, size: nat)
    ensures FragmentsShrink(t.fragments, FindOrCreate(t, now, key, appID, size).table.fragments)
  {
    hide BudgetFull;
  }

  lemma LocateFragments(t: Table, now: Time, p: PacketInfo, appID: string, size: nat)
    ensures var l := Locate(t, now, p, appID, size);
            && FragmentsShrink(t.fragments, l.table.fragments)
            && (l.Found? && p.offset != 0 ==>
                  && l.table.fragments == t.fragments && p.fragment in t.fragments
                  && now < t.fragments[p.fragment].expiresAt && p.offset == t.fragments[p.fragment].nextOffset
                  && l.id == t.fragments[p.fragment].flow)
  {
    hide FindOrCreate;
    if p.offset == 0 && !p.more {
      FindOrCreateFragments(t, now, p.key, appID, size);
    } else if p.offset == 0 {
      FindOrCreateFragments(ExpireFragments(DropFragment(t, p.fragment), now), now, p.key, appID, size);
    }
  }

  lemma AdmitFragments(t: Table, now: Time, p: PacketInfo, id: AuthId, pkt: Bytes)
    requires id in t.auth && t.auth[id].authID == id
    ensures var (t', outcome) := Admit(t, now, p, id, pkt);
            t'.fragments == if outcome.Rejected? then t.fragments - {p.fragment}
                            else Track(t, now, p, t.auth[id]).fragments
  {
    hide BudgetFull;
  }

  /** What an accepted fragment does to its datagram's association. */
  predicate Advances(t: Table, t': Table, p: PacketInfo, now: Time, id: AuthId) {
    if p.offset == 0 then
      && p.fragment in t'.fragments && t'.fragments[p.fragment].flow == id
      && t'.fragments[p.fragment].nextOffset == p.payloadBytes
      && t'.fragments[p.fragment].expiresAt == now + FRAGMENT_TTL
    else
      && p.fragment in t.fragments && now < t.fragments[p.fragment].expiresAt
      && p.offset == t.fragments[p.fragment].nextOffset && id == t.fragments[p.fragment].flow
      && (if p.more then
            && p.fragment in t'.fragments
            && t'.fragments[p.fragment] == t.fragments[p.fragment].(nextOffset := p.offset + p.payloadBytes)
          else p.fragment !in t'.fragments)
  }

  /** Only an accepted fragment moves an association on; its datagram's association is gone
      once the last fragment is in. */
  lemma QueueFragments(t: Table, op: Op)
    requires op.Queue? && SameFlows(t)
    ensures var t' := Apply(t, op);
            && FragmentsShrink(t.fragments, t'.fragments - {op.p.fragment})
            && (if Accepts(t, op) && op.p.Fragmented()
                then Advances(t, t', op.p, op.now, ChargedTo(t, op).value)
                else FragmentsShrink(t.fragments, t'.fragments))
  {
    hide Locate, Admit, SameFlows, Evolves;
    LocateFragments(t, op.now, op.p, op.appID, |op.pkt|);
    LocateEvolves(t, op.now, op.p, op.appID, |op.pkt|);
    var l := Locate(t, op.now, op.p, op.appID, |op.pkt|);
    if l.Found? {
      AdmitFragments(l.table, op.now, op.p, l.id, op.pkt);
    }
  }

  lemma TrainStarts(p: PacketInfo, id: AuthId, now: Time)
    requires WellFormed(p) && p.more && p.offset == 0
    ensures Tiles([Piece(0, p.payloadBytes, id, now)])
  {
  }

  lemma TrainGrows(s: Fragment, pieces: seq<Piece>, p: PacketInfo, now: Time)
    requires OpenTrain(s, pieces) && WellFormed(p) && p.offset == s.nextOffset && p.offset != 0 && now < s.expiresAt
    ensures var pieces' := pieces + [Piece(p.offset, p.payloadBytes, s.flow, now)];
            Tiles(pieces') && OpenTrain(s.(nextOffset := p.offset + p.payloadBytes), pieces')
  {
  }

  /** The bookkeeping of one accepted fragment, on the association maps alone. */
  lemma AcceptedTrainsOk(t: Table, t': Table, r: Trains, p: PacketInfo, now: Time, id: AuthId, r': Trains)
    requires TrainsOk(t, r) && WellFormed(p) && p.Fragmented()
    requires Advances(t, t', p, now, id) && FragmentsShrink(t.fragments, t'.fragments - {p.fragment})
    requires var k, piece := p.fragment, Piece(p.offset, p.payloadBytes, id, now);
             if p.offset == 0 then r' == Trains(r.open[k := [piece]], r.finished)
             else k in t.fragments &&
                  r' == if p.more then Trains(r.open[k := r.open[k] + [piece]], r.finished)
                        else Trains(r.open - {k}, r.finished + [r.open[k] + [piece]])
    ensures TrainsOk(t', r')
  {
    hide Tiles, WellFormed;
    var k := p.fragment;
    if p.offset == 0 {
      TrainStarts(p, id, now);
    } else {
      TrainGrows(t.fragments[k], r.open[k], p, now);
    }
    forall j | j in t'.fragments ensures j in r'.open && OpenTrain(t'.fragments[j], r'.open[j]) {
      if j != k {
        assert j in t'.fragments - {k};
      }
    }
  }

  lemma QueueTrainsOk(t: Table, r: Trains, op: Op)
    requires SameFlows(t) && TrainsOk(t, r) && op.Queue? && WellFormed(op.p)
    ensures TrainsOk(Apply(t, op), RecordTrains(r, t, op))
  {
    hide SameFlows, Apply, OpenTrain, Tiles, WellFormed, QueuePacket, Locate;
    QueueFragments(t, op);
    if Accepts(t, op) && op.p.Fragmented() {
      AcceptedTrainsOk(t, Apply(t, op), r, op.p, op.now, ChargedTo(t, op).value, RecordTrains(r, t, op));
    }
  }

  lemma {:induction false} ScanFragments(t: Table, now: Time, limit: nat, order: seq<FlowKey>, out: seq<AuthFlow>)
    ensures FragmentsShrink(t.fragments, PendingAuth(t, now, limit, order, out).0.fragments)
    decreases |order|
  {
    if order != [] {
      var (t1, due) := Visit(t, now, order[0]);
      assert FragmentsShrink(t.fragments, t1.fragments);
      hide Visit;
      ScanFragments(t1, now, limit, order[1..], out);
      if due.Some? {
        ScanFragments(t1, now, limit, order[1..], out + [due.value]);
      }
    }
  }

  lemma OtherFragments(t: Table, op: Op)
    requires !op.Queue?
    ensures FragmentsShrink(t.fragments, Apply(t, op).fragments)
  {
    hide PendingAuth;
    if op.Scan? {
      ScanFragments(t, op.now, op.limit, op.order, []);
    }
  }

  lemma RecordTrainsOk(t: Table, r: Trains, op: Op)
    requires SameFlows(t) && TrainsOk(t, r) && (op.Queue? ==> WellFormed(op.p))
    ensures TrainsOk(Apply(t, op), RecordTrains(r, t, op))
  {
    hide SameFlows, Apply, OpenTrain, Tiles, WellFormed;
    if op.Queue? {
      QueueTrainsOk(t, r, op);
    } else {
      OtherFragments(t, op);
    }
  }

  // ---- Runs

  datatype World = World(table: Table, ledger: Ledger, requests: Requests, trains: Trains)

  const START := World(EMPTY, Ledger(map[], map[], map[], map[]), Requests(map[], map[]), Trains(map[], []))

  function Step(w: World, op: Op): World {
    World(Apply(w.table, op), Record(w.ledger, w.table, op), RecordRequests(w.requests, w.table, op),
          RecordTrains(w.trains, w.table, op))
  }

  function Run(ops: seq<Op>): World {
    if ops == [] then START else Step(Run(ops[..|ops| - 1]), ops[|ops| - 1])
  }

  ghost predicate Sound(w: World) {
    && Inv(w.table)
    && (forall id: AuthId :: Conserved(w.table, w.ledger, id))
    && (forall id: AuthId :: RequestsOk(w.table, w.requests, id))
    && TrainsOk(w.table, w.trains)
  }

  lemma StartSound()
    ensures Sound(START)
  {
  }

  lemma StepSound(w: World, op: Op)
    requires Sound(w) && (op.Queue? ==> WellFormed(op.p))
    ensures Sound(Step(w, op))
  {
    hide Inv, SameFlows, Apply, Record, RecordRequests, RecordTrains, Conserved, RequestsOk, TrainsOk, WellFormed;
    InvLinks(w.table);
    ApplyKeepsInv(w.table, op);
    RecordTrainsOk(w.table, w.trains, op);
    forall id: AuthId ensures Conserved(Apply(w.table, op), Record(w.ledger, w.table, op), id) {
      RecordConserves(w.table, w.ledger, op, id);
    }
    forall id: AuthId ensures RequestsOk(Apply(w.table, op), RecordRequests(w.requests, w.table, op), id) {
      RecordRequestsOk(w.table, w.requests, op, id);
    }
  }

  /** Every run: the table invariant, packet conservation, the request budget and tiling. */
  lemma {:induction false} RunSound(ops: seq<Op>)
    requires forall i | 0 <= i < |ops| && ops[i].Queue? :: WellFormed(ops[i].p)
    ensures Sound(Run(ops))
    decreases |ops|
  {
    if ops == [] {
      StartSound();
    } else {
      RunSound(ops[..|ops| - 1]);
      StepSound(Run(ops[..|ops| - 1]), ops[|ops| - 1]);
    }
  }

  // ---- Single calls

  /** A rejected packet adds no flow and takes no budget, and leaves the surviving flows as
      they were but for the time of last use. */
  lemma RejectionAddsNothing(t: Table, now: Time, p: PacketInfo, appID: string, pkt: Bytes)
    requires Inv(t)
    ensures var (t', outcome) := QueuePacket(t, now, p, appID, pkt);
            outcome.Rejected? ==>
              && t'.next == t.next && t'.auth.Keys <= t.auth.Keys
              && (forall i | i in t'.auth :: t'.auth[i] == t.auth[i].(updatedAt := t'.auth[i].updatedAt))
              && PendingPackets(t') <= PendingPackets(t) && PendingBytes(t') <= PendingBytes(t)
  {
    var (t', outcome) := QueuePacket(t, now, p, appID, pkt);
    if outcome.Rejected? {
      RejectionKeepsFlows(t, now, p, appID, pkt);
      SumNoLarger(t.auth, t'.auth, t.next, PacketWeight);
      SumNoLarger(t.auth, t'.auth, t.next, ByteWeight);
    }
  }

  lemma RejectionKeepsFlows(t: Table, now: Time, p: PacketInfo, appID: string, pkt: Bytes)
    requires Inv(t) && QueuePacket(t, now, p, appID, pkt).1.Rejected?
    ensures var t' := QueuePacket(t, now, p, appID, pkt).0;
            && t'.next == t.next && t'.auth.Keys <= t.auth.Keys
            && (forall i | i in t'.auth :: t'.auth[i] == t.auth[i].(updatedAt := t'.auth[i].updatedAt))
  {
    hide Locate, Admit, Inv, SameFlows, Evolves, Locating, BudgetFull;
    InvLinks(t);
    if !t.closed {
      var l := Locate(t, now, p, appID, |pkt|);
      LocateEvolves(t, now, p, appID, |pkt|);
      LocateKeepsInv(t, now, p, appID, |pkt|);
      if l.Found? {
        AdmitSets(l.table, now, p, l.id, pkt);
      } else {
        LocateMissingShrinks(t, now, p, appID, |pkt|);
      }
    }
  }

  lemma {:induction false} SumNoLarger(a: map<AuthId, Flow>, b: map<AuthId, Flow>, n: nat, w: Flow -> nat)
    requires forall i | i in b :: i in a && w(b[i]) == w(a[i])
    ensures SumBelow(b, n, w) <= SumBelow(a, n, w)
  {
    if n > 0 {
      SumNoLarger(a, b, n - 1, w);
    }
  }

  // ---- What a scan for requests leaves behind

  /** No request is due for the flow of this key, and it has not run out. */
  predicate Served(t: Table, now: Time, key: FlowKey) {
    key in t.flows && t.flows[key] in t.auth ==>
      !t.auth[t.flows[key]].Due(now) && !t.auth[t.flows[key]].Expired(now)
  }

  /** The request names a flow of the table and was sent for it now. */
  predicate SentNow(t: Table, now: Time, f: AuthFlow) {
    && f.authID in t.auth && t.auth[f.authID].key == f.key && t.auth[f.authID].appID == f.appID
    && t.auth[f.authID].authSent == Some(now) && !t.auth[f.authID].Expired(now)
  }

  lemma VisitServes(t: Table, now: Time, key: FlowKey, other: FlowKey, f: AuthFlow)
    requires SameFlows(t)
    ensures var (t', due) := Visit(t, now, key);
            && Served(t', now, key) && (Served(t, now, other) ==> Served(t', now, other))
            && (SentNow(t, now, f) ==> SentNow(t', now, f)) && (due.Some? ==> SentNow(t', now, due.value))
  {
  }

  /** A scan that was not cut short by its limit leaves no visited flow with a request due. */
  lemma {:induction false} ScanServes(t: Table, now: Time, limit: nat, order: seq<FlowKey>, out: seq<AuthFlow>, key: FlowKey)
    requires Inv(t) && (key in order || Served(t, now, key))
    ensures var (t', out') := PendingAuth(t, now, limit, order, out);
            limit == 0 || |out'| < limit ==> Served(t', now, key)
    decreases |order|
  {
    hide Inv, Visit, Served, SameFlows;
    if order != [] {
      InvLinks(t);
      VisitServes(t, now, order[0], key, AuthFlow(key, "", 0));
      VisitKeepsInv(t, now, order[0]);
      var (t1, due) := Visit(t, now, order[0]);
      assert key in order[1..] || Served(t1, now, key);
      ScanServes(t1, now, limit, order[1..], if due.None? then out else out + [due.value], key);
    }
  }

  predicate AllSentNow(t: Table, now: Time, out: seq<AuthFlow>) {
    forall i | 0 <= i < |out| :: SentNow(t, now, out[i])
  }

  lemma VisitSends(t: Table, now: Time, key: FlowKey, out: seq<AuthFlow>)
    requires SameFlows(t) && AllSentNow(t, now, out)
    ensures var (t', due) := Visit(t, now, key);
            AllSentNow(t', now, if due.None? then out else out + [due.value])
  {
    hide SameFlows, Visit, SentNow;
    var (t', due) := Visit(t, now, key);
    VisitServes(t, now, key, key, AuthFlow(key, "", 0));
    forall i | 0 <= i < |out| ensures SentNow(t', now, out[i]) {
      assert SentNow(t, now, out[i]);
      VisitServes(t, now, key, key, out[i]);
    }
  }

  /** Every request it returns was sent for a live flow, with that flow's key and grant. */
  lemma {:induction false} ScanSends(t: Table, now: Time, limit: nat, order: seq<FlowKey>, out: seq<AuthFlow>)
    requires Inv(t) && AllSentNow(t, now, out)
    ensures var (t', out') := PendingAuth(t, now, limit, order, out); AllSentNow(t', now, out')
    decreases |order|
  {
    hide Inv, Visit, SameFlows, AllSentNow;
    if order != [] {
      InvLinks(t);
      VisitKeepsInv(t, now, order[0]);
      VisitSends(t, now, order[0], out);
      var (t1, due) := Visit(t, now, order[0]);
      ScanSends(t1, now, limit, order[1..], if due.None? then out else out + [due.value]);
    }
  }
}
