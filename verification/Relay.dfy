/** The relay between the campus tunnel and WireGuard, as atomic steps.

    Any number of goroutines deliver packets, read them, install and clear sessions, and one
    closes the relay; their steps interleave in any order.  Each packet has a place, and the
    places say how the drop counters and the queue stand.
 */
module Relay {
  import opened Wrappers

  type Session = nat
  type Packet = nat

  const QUEUE_SIZE := 128

  datatype Reason = Invalid | Addr | Full | NoSession | PeerNotReady | NoBuffer | StaleQueue | MTUExceeded

  /** Where a packet is.  A packet in hand belongs to one goroutine. */
  datatype Place =
    | Arrived
    | Mapping
    | Waiting
    | Queued
    | Taken
    | Approved
    | Dropping(reason: Reason)
    | Delivered
    | Dropped(reason: Reason)
    | Vanished

  /** A packet's session, its place, and the session a reader found in force when it checked. */
  datatype Parcel = Parcel(owner: Session, place: Place, seen: Option<Session>, depth: nat)

  datatype Item = Item(owner: Session, packet: Packet)

  datatype Task = Install(session: Session) | Clear | Close

  /** bindMu and what its holder has done. */
  datatype Lock =
    | Open
    | Delivering(packet: Packet)
    | Matched(packet: Packet)
    | Leaving
    | Binding(task: Task)
    | Draining(task: Task)
    | Drained(task: Task)
    | Storing(session: Session)
    | Ending(task: Task)

  datatype State = State(
    session: Option<Session>, lock: Lock, queue: seq<Item>, closed: bool, closeReturned: bool,
    parcels: map<Packet, Parcel>, drops: map<Reason, nat>, used: set<Session>)
  {
    predicate At(p: Packet, where: Place) {
      p in parcels && parcels[p].place == where
    }

    /** The packet's session is the one in force. */
    predicate Current(p: Packet) {
      p in parcels && session == Some(parcels[p].owner)
    }

    function Drops(r: Reason): nat {
      if r in drops then drops[r] else 0
    }
  }

  const START := State(None, Open, [], false, false, map[], map[], {})

  datatype Step =
    | Arrive(packet: Packet, from: Session)
    | SeeClosed(packet: Packet)
    | FirstCheck(packet: Packet)
    | Refuse(packet: Packet, reason: Reason)
    | Mapped(packet: Packet)
    | LockToDeliver(packet: Packet)
    | SecondCheck
    | Enqueue
    | GiveUpClosed
    | Unlock
    | Count(packet: Packet)
    | Take
    | OwnerCheck(packet: Packet)
    | Withhold(packet: Packet, reason: Reason)
    | HandOut(packet: Packet)
    | BeginClose
    | LockToBind(task: Task)
    | SwapNil
    | DrainOne
    | DrainDone
    | CheckClosed
    | Store

  predicate Enabled(st: State, step: Step) {
    match step
    case Arrive(p, _) => p !in st.parcels
    case SeeClosed(p) => st.At(p, Arrived) && st.closed
    case FirstCheck(p) => st.At(p, Arrived)
    case Refuse(p, r) => st.At(p, Mapping) && (r.Invalid? || r.Addr? || r.MTUExceeded?)
    case Mapped(p) => st.At(p, Mapping)
    case LockToDeliver(p) => st.At(p, Waiting) && st.lock.Open?
    case SecondCheck => st.lock.Delivering?
    case Enqueue => st.lock.Matched? && st.lock.packet in st.parcels
    case GiveUpClosed => st.lock.Matched? && st.closed
    case Unlock => st.lock.Leaving? || st.lock.Ending?
    case Count(p) => p in st.parcels && st.parcels[p].place.Dropping?
    case Take => st.queue != []
    case OwnerCheck(p) => st.At(p, Taken)
    case Withhold(p, r) => st.At(p, Approved) && (r.PeerNotReady? || r.NoBuffer?)
    case HandOut(p) => st.At(p, Approved)
    case BeginClose => !st.closed
    case LockToBind(task) =>
      && st.lock.Open? && (task.Install? ==> task.session !in st.used)
      && (task.Close? ==> st.closed && !st.closeReturned)
    case SwapNil => st.lock.Binding?
    case DrainOne => st.lock.Draining? && st.queue != []
    case DrainDone => st.lock.Draining? && st.queue == []
    case CheckClosed => st.lock.Drained?
    case Store => st.lock.Storing?
  }

  /** Puts a packet on, or aside, on the strength of what is found now. */
  function Move(st: State, p: Packet, where: Place): State {
    if p in st.parcels then
      st.(parcels := st.parcels[p := st.parcels[p].(place := where, seen := st.session, depth := |st.queue|)])
    else st
  }

  /** Puts a packet on without looking again. */
  function Shift(st: State, p: Packet, where: Place): State {
    if p in st.parcels then st.(parcels := st.parcels[p := st.parcels[p].(place := where)]) else st
  }

  function RemoveHead(st: State, where: Place): State
    requires st.queue != []
  {
    Move(st, st.queue[0].packet, where).(queue := st.queue[1..])
  }

  predicate Counts(st: State, step: Step, p: Packet, r: Reason) {
    step == Count(p) && st.At(p, Dropping(r))
  }

  predicate TouchesQueue(step: Step) {
    step.Enqueue? || step.Take? || step.DrainOne?
  }

  function Apply(st: State, step: Step): (st': State)
    requires Enabled(st, step)
    ensures !TouchesQueue(step) ==> st'.queue == st.queue
    ensures st.closeReturned ==> st'.closeReturned
    ensures forall r :: st'.Drops(r) == st.Drops(r) + if step.Count? && Counts(st, step, step.packet, r) then 1 else 0
  {
    match step
    case Arrive(p, from) => st.(parcels := st.parcels[p := Parcel(from, Arrived, None, 0)])
    case SeeClosed(p) => Move(st, p, Vanished)
    case FirstCheck(p) => Move(st, p, if st.Current(p) then Mapping else Dropping(NoSession))
    case Refuse(p, r) => Shift(st, p, Dropping(r))
    case Mapped(p) => Shift(st, p, Waiting)
    case LockToDeliver(p) => st.(lock := Delivering(p))
    case SecondCheck =>
      var p := st.lock.packet;
      if st.Current(p) then st.(lock := Matched(p))
      else Move(st, p, Dropping(StaleQueue)).(lock := Leaving)
    case Enqueue =>
      var p := st.lock.packet;
      if |st.queue| < QUEUE_SIZE then
        Move(st, p, Queued).(queue := st.queue + [Item(st.parcels[p].owner, p)], lock := Leaving)
      else Move(st, p, Dropping(Full)).(lock := Leaving)
    case GiveUpClosed => Move(st, st.lock.packet, Vanished).(lock := Leaving)
    case Unlock =>
      st.(lock := Open, closeReturned := st.closeReturned || (st.lock.Ending? && st.lock.task.Close?))
    case Count(p) =>
      var r := st.parcels[p].place.reason;
      Shift(st, p, Dropped(r)).(drops := st.drops[r := st.Drops(r) + 1])
    case Take => RemoveHead(st, Taken)
    case OwnerCheck(p) => Move(st, p, if st.Current(p) then Approved else Dropping(StaleQueue))
    case Withhold(p, r) => Shift(st, p, Dropping(r))
    case HandOut(p) => Shift(st, p, Delivered)
    case BeginClose => st.(closed := true)
    case LockToBind(task) =>
      st.(lock := Binding(task), used := if task.Install? then st.used + {task.session} else st.used)
    case SwapNil => st.(session := None, lock := Draining(st.lock.task))
    case DrainOne => RemoveHead(st, Dropping(StaleQueue))
    case DrainDone => st.(lock := Drained(st.lock.task))
    case CheckClosed =>
      var task := st.lock.task;
      st.(lock := if task.Install? && !st.closed then Storing(task.session) else Ending(task))
    case Store => st.(session := Some(st.lock.session), lock := Ending(Install(st.lock.session)))
  }

  /** The state a run reaches, if each of its steps is possible in turn. */
  function Exec(steps: seq<Step>): Option<State>
    decreases |steps|
  {
    if steps == [] then Some(START)
    else
      var before := Exec(steps[..|steps| - 1]);
      var last := steps[|steps| - 1];
      if before.None? || !Enabled(before.value, last) then None else Some(Apply(before.value, last))
  }

  // ---- The queue and the lock

  /** Every queued packet belongs to the session in force. */
  predicate QueueCurrent(st: State) {
    forall i | 0 <= i < |st.queue| :: st.session == Some(st.queue[i].owner)
  }

  predicate LockOk(st: State) {
    match st.lock
    case Open => QueueCurrent(st)
    case Delivering(_) => QueueCurrent(st)
    case Matched(p) => QueueCurrent(st) && st.Current(p)
    case Leaving => QueueCurrent(st)
    case Binding(_) => QueueCurrent(st)
    case Draining(_) => st.session.None?
    case Drained(_) => st.session.None? && st.queue == []
    case Storing(_) => st.session.None? && st.queue == []
    case Ending(task) =>
      QueueCurrent(st) && if task.Install? then st.closed || st.session == Some(task.session) else st.session.None?
  }

  /** After Close has returned there is no session, and none is about to be stored. */
  predicate ClosedOk(st: State) {
    && (st.closeReturned ==> st.closed && st.session.None? && st.queue == [] && !st.lock.Storing?)
    && (st.lock.Ending? && st.lock.task.Close? ==> st.closed && st.session.None? && st.queue == [])
    && (st.lock.Drained? && st.lock.task.Close? ==> st.closed)
    && (st.lock.Draining? && st.lock.task.Close? ==> st.closed)
    && (st.lock.Binding? && st.lock.task.Close? ==> st.closed)
  }

  predicate Bounds(st: State) {
    LockOk(st) && ClosedOk(st) && |st.queue| <= QUEUE_SIZE
  }

  lemma StepKeepsLockOk(st: State, step: Step)
    requires LockOk(st) && |st.queue| <= QUEUE_SIZE && Enabled(st, step)
    ensures LockOk(Apply(st, step)) && |Apply(st, step).queue| <= QUEUE_SIZE
  {
    if TouchesQueue(step) {
      QueueStepsKeepLockOk(st, step);
    } else {
      OtherStepsKeepLockOk(st, step);
    }
  }

  lemma QueueStepsKeepLockOk(st: State, step: Step)
    requires LockOk(st) && |st.queue| <= QUEUE_SIZE && Enabled(st, step) && TouchesQueue(step)
    ensures LockOk(Apply(st, step)) && |Apply(st, step).queue| <= QUEUE_SIZE
  {
  }

  lemma OtherStepsKeepLockOk(st: State, step: Step)
    requires LockOk(st) && Enabled(st, step) && !TouchesQueue(step)
    ensures LockOk(Apply(st, step))
  {
  }

  lemma StepKeepsClosedOk(st: State, step: Step)
    requires LockOk(st) && ClosedOk(st) && Enabled(st, step)
    ensures ClosedOk(Apply(st, step))
  {
  }

  lemma StepKeepsBounds(st: State, step: Step)
    requires Bounds(st) && Enabled(st, step)
    ensures Bounds(Apply(st, step))
  {
    hide LockOk, ClosedOk, Apply, Enabled;
    StepKeepsLockOk(st, step);
    StepKeepsClosedOk(st, step);
  }

  // ---- Where packets are

  /** Each queue item is one packet that is there once, and nothing else is queued. */
  predicate QueueOk(st: State) {
    && (forall i | 0 <= i < |st.queue| ::
          && st.At(st.queue[i].packet, Queued) && st.parcels[st.queue[i].packet].owner == st.queue[i].owner)
    && (forall i, j | 0 <= i < j < |st.queue| :: st.queue[i].packet != st.queue[j].packet)
    && ((st.lock.Delivering? || st.lock.Matched?) ==> st.At(st.lock.packet, Waiting))
  }

  predicate InQueue(st: State, p: Packet) {
    exists i :: 0 <= i < |st.queue| && st.queue[i].packet == p
  }

  predicate ParcelOk(st: State, p: Packet) {
    && (st.At(p, Queued) ==> InQueue(st, p))
    && Judged(st, p)
    && (st.At(p, Vanished) ==> st.closed)
  }

  /** The counter is the number of packets dropped for the reason. */
  predicate CountOk(st: State, r: Reason) {
    st.Drops(r) == |DroppedFor(st, r)|
  }

  function DroppedFor(st: State, r: Reason): set<Packet> {
    set p | p in st.parcels && st.parcels[p].place == Dropped(r)
  }

  /** Any other step leaves the queue and the queued packets alone. */
  lemma OtherStepsKeepQueue(st: State, step: Step, q: Packet)
    requires QueueOk(st) && Enabled(st, step) && !TouchesQueue(step)
    ensures st.At(q, Queued) ==> q in Apply(st, step).parcels && Apply(st, step).parcels[q] == st.parcels[q]
    ensures var st' := Apply(st, step);
            (st'.lock.Delivering? || st'.lock.Matched?) ==> st'.At(st'.lock.packet, Waiting)
  {
  }

  lemma EnqueueKeepsQueueOk(st: State)
    requires QueueOk(st) && Enabled(st, Enqueue)
    ensures QueueOk(Apply(st, Enqueue))
  {
  }

  lemma RemovalKeepsQueueOk(st: State, where: Place)
    requires QueueOk(st) && st.queue != []
    ensures QueueOk(RemoveHead(st, where))
  {
    var st' := RemoveHead(st, where);
    assert forall i | 0 <= i < |st'.queue| :: st'.queue[i] == st.queue[i + 1] && st.queue[0].packet != st.queue[i + 1].packet;
  }

  lemma StepKeepsQueueOk(st: State, step: Step)
    requires QueueOk(st) && Enabled(st, step)
    ensures QueueOk(Apply(st, step))
  {
    if step.Enqueue? {
      EnqueueKeepsQueueOk(st);
    } else if TouchesQueue(step) {
      RemovalKeepsQueueOk(st, if step.Take? then Taken else Dropping(StaleQueue));
    } else {
      hide Apply, Enabled;
      OtherStepsKeepQueue(st, step, 0);
      forall i | 0 <= i < |st.queue|
        ensures Apply(st, step).At(st.queue[i].packet, Queued)
                && Apply(st, step).parcels[st.queue[i].packet].owner == st.queue[i].owner
      {
        OtherStepsKeepQueue(st, step, st.queue[i].packet);
      }
    }
  }

  /** Why a packet is where it is: it was let on while its session was in force, and dropped
      for a session only when that was not in force, for the queue only when that was full. */
  predicate Judged(st: State, p: Packet) {
    p in st.parcels ==>
      var c := st.parcels[p];
      match c.place
      case Mapping => c.seen == Some(c.owner)
      case Waiting => c.seen == Some(c.owner)
      case Approved => c.seen == Some(c.owner)
      case Delivered => c.seen == Some(c.owner)
      case Dropping(r) => DroppedRightly(c, r)
      case Dropped(r) => DroppedRightly(c, r)
      case _ => true
  }

  predicate DroppedRightly(c: Parcel, r: Reason) {
    match r
    case Full => c.depth >= 128
    case NoSession => c.seen != Some(c.owner)
    case StaleQueue => c.seen != Some(c.owner)
    case _ => c.seen == Some(c.owner)
  }

  lemma StepKeepsJudged(st: State, step: Step, p: Packet)
    requires LockOk(st) && Enabled(st, step) && Judged(st, p)
    ensures Judged(Apply(st, step), p)
  {
    if TouchesQueue(step) || step.SecondCheck? || step.GiveUpClosed? {
      HolderJudges(st, step, p);
    } else {
      OthersJudge(st, step, p);
    }
  }

  lemma HolderJudges(st: State, step: Step, p: Packet)
    requires LockOk(st) && Enabled(st, step) && Judged(st, p)
    requires TouchesQueue(step) || step.SecondCheck? || step.GiveUpClosed?
    ensures Judged(Apply(st, step), p)
  {
  }

  lemma OthersJudge(st: State, step: Step, p: Packet)
    requires Enabled(st, step) && Judged(st, p)
    requires !TouchesQueue(step) && !step.SecondCheck? && !step.GiveUpClosed?
    ensures Judged(Apply(st, step), p)
  {
  }

  /** Only a closed relay loses packets. */
  lemma StepKeepsLosses(st: State, step: Step, p: Packet)
    requires Enabled(st, step) && (st.At(p, Vanished) ==> st.closed)
    ensures Apply(st, step).At(p, Vanished) ==> Apply(st, step).closed
  {
    if step.SeeClosed? || step.GiveUpClosed? {
      assert st.closed;
    } else {
      assert Apply(st, step).At(p, Vanished) ==> st.At(p, Vanished);
    }
  }

  lemma RemovalKeepsInQueue(st: State, where: Place, p: Packet)
    requires QueueOk(st) && st.queue != [] && InQueue(st, p) && p != st.queue[0].packet
    ensures InQueue(RemoveHead(st, where), p)
  {
    var i :| 0 <= i < |st.queue| && st.queue[i].packet == p;
    assert RemoveHead(st, where).queue[i - 1].packet == p;
  }

  lemma StepKeepsInQueue(st: State, step: Step, p: Packet)
    requires QueueOk(st) && Enabled(st, step) && (st.At(p, Queued) ==> InQueue(st, p))
    ensures Apply(st, step).At(p, Queued) ==> InQueue(Apply(st, step), p)
  {
    if step.Enqueue? {
      var st' := Apply(st, step);
      if st.At(p, Queued) {
        var i :| 0 <= i < |st.queue| && st.queue[i].packet == p;
        assert st'.queue[i].packet == p;
      } else if st'.At(p, Queued) {
        assert st'.queue[|st.queue|].packet == p;
      }
    } else if TouchesQueue(step) {
      if st.At(p, Queued) && p != st.queue[0].packet {
        RemovalKeepsInQueue(st, if step.Take? then Taken else Dropping(StaleQueue), p);
      }
    } else {
      OtherStepsKeepQueue(st, step, p);
      OtherStepsQueueNothing(st, step, p);
    }
  }

  lemma OtherStepsQueueNothing(st: State, step: Step, p: Packet)
    requires Enabled(st, step) && !TouchesQueue(step)
    ensures Apply(st, step).At(p, Queued) ==> st.At(p, Queued)
  {
  }

  lemma StepKeepsParcelOk(st: State, step: Step, p: Packet)
    requires LockOk(st) && QueueOk(st) && ParcelOk(st, p) && Enabled(st, step)
    ensures ParcelOk(Apply(st, step), p)
  {
    hide QueueOk, Enabled, Apply, Judged, LockOk;
    StepKeepsJudged(st, step, p);
    StepKeepsLosses(st, step, p);
    StepKeepsInQueue(st, step, p);
  }

  /** A packet becomes dropped only by being counted. */
  lemma DroppedByCounting(st: State, step: Step, p: Packet, r: Reason)
    requires QueueOk(st) && Enabled(st, step)
    ensures Apply(st, step).At(p, Dropped(r)) <==> st.At(p, Dropped(r)) || Counts(st, step, p, r)
  {
    if step.Count? {
      assert p != step.packet ==> (Apply(st, step).At(p, Dropped(r)) <==> st.At(p, Dropped(r)));
    } else if TouchesQueue(step) || step.SecondCheck? || step.GiveUpClosed? {
      HolderKeepsDropped(st, step, p, r);
    } else {
      OtherStepsKeepDropped(st, step, p, r);
    }
  }

  lemma HolderKeepsDropped(st: State, step: Step, p: Packet, r: Reason)
    requires QueueOk(st) && Enabled(st, step) && (TouchesQueue(step) || step.SecondCheck? || step.GiveUpClosed?)
    ensures Apply(st, step).At(p, Dropped(r)) <==> st.At(p, Dropped(r))
  {
  }

  lemma OtherStepsKeepDropped(st: State, step: Step, p: Packet, r: Reason)
    requires Enabled(st, step) && !step.Count?
    requires !TouchesQueue(step) && !step.SecondCheck? && !step.GiveUpClosed?
    ensures Apply(st, step).At(p, Dropped(r)) <==> st.At(p, Dropped(r))
  {
  }

  lemma StepKeepsCountOk(st: State, step: Step, r: Reason)
    requires QueueOk(st) && CountOk(st, r) && Enabled(st, step)
    ensures CountOk(Apply(st, step), r)
  {
    hide Apply, Enabled, QueueOk;
    var st' := Apply(st, step);
    forall p ensures p in DroppedFor(st', r) <==> p in DroppedFor(st, r) || Counts(st, step, p, r) {
      DroppedByCounting(st, step, p, r);
    }
    if step.Count? && Counts(st, step, step.packet, r) {
      assert DroppedFor(st', r) == DroppedFor(st, r) + {step.packet};
    } else {
      assert DroppedFor(st', r) == DroppedFor(st, r);
    }
  }

  // ---- Every run

  ghost predicate Inv(st: State) {
    Bounds(st) && QueueOk(st) && (forall p :: ParcelOk(st, p)) && (forall r :: CountOk(st, r))
  }

  lemma StepKeepsInv(st: State, step: Step)
    requires Inv(st) && Enabled(st, step)
    ensures Inv(Apply(st, step))
  {
    hide LockOk, ClosedOk, QueueOk, ParcelOk, CountOk, Apply, Enabled;
    StepKeepsBounds(st, step);
    StepKeepsQueueOk(st, step);
    forall p ensures ParcelOk(Apply(st, step), p) {
      StepKeepsParcelOk(st, step, p);
    }
    forall r ensures CountOk(Apply(st, step), r) {
      StepKeepsCountOk(st, step, r);
    }
  }

  lemma {:induction false} RunKeepsInv(steps: seq<Step>)
    requires Exec(steps).Some?
    ensures Inv(Exec(steps).value)
    decreases |steps|
  {
    if steps == [] {
      assert forall r :: DroppedFor(START, r) == {};
    } else {
      RunKeepsInv(steps[..|steps| - 1]);
      StepKeepsInv(Exec(steps[..|steps| - 1]).value, steps[|steps| - 1]);
    }
  }

  /** Whenever bindMu is free every queued packet belongs to the session in force. */
  lemma FreeLockQueueCurrent(steps: seq<Step>, i: nat)
    requires Exec(steps).Some? && Exec(steps).value.lock.Open? && i < |Exec(steps).value.queue|
    ensures Exec(steps).value.session == Some(Exec(steps).value.queue[i].owner)
  {
    RunKeepsInv(steps);
  }

  /** A packet is handed out only if its session was in force when the reader checked it. */
  lemma HandedOutWasCurrent(steps: seq<Step>, p: Packet)
    requires Exec(steps).Some? && Exec(steps).value.At(p, Delivered)
    ensures Exec(steps).value.parcels[p].seen == Some(Exec(steps).value.parcels[p].owner)
  {
    RunKeepsInv(steps);
    assert ParcelOk(Exec(steps).value, p);
  }

  /** A packet is counted for a session only if its own was not in force when it was dropped,
      for the queue only if that was full, and for the reader's reasons only after it had passed. */
  lemma DroppedWithCause(steps: seq<Step>, p: Packet, r: Reason)
    requires Exec(steps).Some? && Exec(steps).value.At(p, Dropped(r))
    ensures DroppedRightly(Exec(steps).value.parcels[p], r)
  {
    hide Exec;
    RunKeepsInv(steps);
    assert ParcelOk(Exec(steps).value, p);
  }

  /** An installation that ends while the relay is open leaves its session in force. */
  lemma InstallTakesEffect(steps: seq<Step>, s: Session)
    requires Exec(steps).Some? && Exec(steps).value.lock == Ending(Install(s)) && !Exec(steps).value.closed
    ensures Exec(steps).value.session == Some(s)
  {
    hide Exec;
    RunKeepsInv(steps);
  }

  /** Once Close has returned there is never a session or a queued packet again. */
  lemma {:induction false} ClosedForGood(steps: seq<Step>, more: seq<Step>)
    requires Exec(steps + more).Some? && Exec(steps).Some? && Exec(steps).value.closeReturned
    ensures var st := Exec(steps + more).value; st.closeReturned && st.session.None? && st.queue == []
    decreases |more|
  {
    hide Apply, Enabled, QueueOk, ParcelOk, CountOk, LockOk;
    RunKeepsInv(steps + more);
    if more == [] {
      assert steps + more == steps;
    } else {
      var init := more[..|more| - 1];
      assert (steps + more)[..|steps + more| - 1] == steps + init;
      ClosedForGood(steps, init);
    }
  }

  /** While the relay is open, a packet that arrived is in somebody's hands, in the queue
      exactly once, handed out, or counted under exactly one reason. */
  lemma OpenRelayAccounts(steps: seq<Step>, p: Packet)
    requires Exec(steps).Some? && !Exec(steps).value.closed && p in Exec(steps).value.parcels
    ensures AccountedFor(Exec(steps).value, p)
  {
    hide Exec;
    RunKeepsInv(steps);
    Accounted(Exec(steps).value, p);
  }

  predicate AccountedFor(st: State, p: Packet)
    requires p in st.parcels
  {
    match st.parcels[p].place
    case Queued => exists i :: 0 <= i < |st.queue| && st.queue[i].packet == p
                               && forall j | 0 <= j < |st.queue| && j != i :: st.queue[j].packet != p
    case Dropped(r) => st.Drops(r) == |DroppedFor(st, r)| && forall o :: p in DroppedFor(st, o) <==> o == r
    case Vanished => false
    case _ => !InQueue(st, p)
  }

  lemma Accounted(st: State, p: Packet)
    requires Inv(st) && !st.closed && p in st.parcels
    ensures AccountedFor(st, p)
  {
    hide Bounds;
    assert ParcelOk(st, p);
    if st.At(p, Queued) {
      var i :| 0 <= i < |st.queue| && st.queue[i].packet == p;
    } else if st.parcels[p].place.Dropped? {
      assert CountOk(st, st.parcels[p].place.reason);
    }
  }

  // ---- A packet gets through

  /** The state a list of steps leads to from another state. */
  function Play(st: State, steps: seq<Step>): Option<State>
    decreases |steps|
  {
    if steps == [] then Some(st)
    else if Enabled(st, steps[0]) then Play(Apply(st, steps[0]), steps[1..])
    else None
  }

  lemma {:induction false} PlayContinues(steps: seq<Step>, more: seq<Step>)
    requires Exec(steps).Some?
    ensures Exec(steps + more) == Play(Exec(steps).value, more)
    decreases |more|
  {
    hide Apply, Enabled;
    if more == [] {
      assert steps + more == steps;
    } else {
      var once := steps + [more[0]];
      assert once[..|once| - 1] == steps && once + more[1..] == steps + more;
      if Enabled(Exec(steps).value, more[0]) {
        PlayContinues(once, more[1..]);
      } else {
        NoneStays(once, more[1..]);
      }
    }
  }

  lemma {:induction false} NoneStays(steps: seq<Step>, more: seq<Step>)
    requires Exec(steps).None?
    ensures Exec(steps + more).None?
    decreases |more|
  {
    if more == [] {
      assert steps + more == steps;
    } else {
      assert (steps + more)[..|steps + more| - 1] == steps + more[..|more| - 1];
      NoneStays(steps, more[..|more| - 1]);
    }
  }

  predicate Ready(st: State, p: Packet, s: Session, where: Place, queue: seq<Item>) {
    st.session == Some(s) && st.lock.Open? && st.queue == queue && st.At(p, where) && st.parcels[p].owner == s
  }

  lemma Enters(st: State, p: Packet, s: Session)
    requires st.session == Some(s) && st.lock.Open? && st.queue == [] && p !in st.parcels
    ensures var next := Play(st, [Arrive(p, s), FirstCheck(p), Mapped(p)]);
            next.Some? && Ready(next.value, p, s, Waiting, [])
  {
    var a := Apply(st, Arrive(p, s));
    var b := Apply(a, FirstCheck(p));
    assert Play(b, [Mapped(p)]) == Some(Apply(b, Mapped(p)));
    assert Play(a, [FirstCheck(p), Mapped(p)]) == Play(b, [Mapped(p)]);
  }

  lemma Queues(st: State, p: Packet, s: Session)
    requires Ready(st, p, s, Waiting, [])
    ensures var next := Play(st, [LockToDeliver(p), SecondCheck, Enqueue, Unlock]);
            next.Some? && Ready(next.value, p, s, Queued, [Item(s, p)])
  {
    var a := Apply(st, LockToDeliver(p));
    var b := Apply(a, SecondCheck);
    var c := Apply(b, Enqueue);
    assert Play(c, [Unlock]) == Some(Apply(c, Unlock));
    assert Play(b, [Enqueue, Unlock]) == Play(c, [Unlock]);
    assert Play(a, [SecondCheck, Enqueue, Unlock]) == Play(b, [Enqueue, Unlock]);
  }

  lemma Leaves(st: State, p: Packet, s: Session)
    requires Ready(st, p, s, Queued, [Item(s, p)])
    ensures var next := Play(st, [Take, OwnerCheck(p), HandOut(p)]); next.Some? && Ready(next.value, p, s, Delivered, [])
  {
    var a := Apply(st, Take);
    var b := Apply(a, OwnerCheck(p));
    assert Play(b, [HandOut(p)]) == Some(Apply(b, HandOut(p)));
    assert Play(a, [OwnerCheck(p), HandOut(p)]) == Play(b, [HandOut(p)]);
  }

  /** From any state a run has reached with the session in force, the lock free and the queue
      empty, a new packet of that session can go all the way to the reader. */
  lemma OpenRelayDelivers(steps: seq<Step>, p: Packet, s: Session)
    requires Exec(steps).Some?
    requires var st := Exec(steps).value;
             st.session == Some(s) && st.lock.Open? && st.queue == [] && p !in st.parcels
    ensures var next := Exec(steps + [Arrive(p, s), FirstCheck(p), Mapped(p)] + [LockToDeliver(p), SecondCheck, Enqueue, Unlock]
                                   + [Take, OwnerCheck(p), HandOut(p)]);
            next.Some? && next.value.At(p, Delivered) && next.value.queue == []
  {
    hide Exec, Play;
    var a := steps + [Arrive(p, s), FirstCheck(p), Mapped(p)];
    var b := a + [LockToDeliver(p), SecondCheck, Enqueue, Unlock];
    Enters(Exec(steps).value, p, s);
    PlayContinues(steps, [Arrive(p, s), FirstCheck(p), Mapped(p)]);
    Queues(Exec(a).value, p, s);
    PlayContinues(a, [LockToDeliver(p), SecondCheck, Enqueue, Unlock]);
    Leaves(Exec(b).value, p, s);
    PlayContinues(b, [Take, OwnerCheck(p), HandOut(p)]);
  }
}
