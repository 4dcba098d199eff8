/** Probing nodes in parallel: workers, a job list, a one-slot result channel and the caller.

    The model steps through every schedule, dial outcome and moment of cancellation for any
    number of nodes.  Node i stands also for the connection a probe of it may open.
 */
module NodeProbe {
  import opened Wrappers

  const MAX_CONCURRENT := 8

  /** How far the probe of a node has got, and in whose hands its result is. */
  datatype Place =
    | Queued
    | Took(w: nat)
    | Dialled(w: nat)
    | Ready(w: nat)
    | Slot
    | Main
    | Won
    | Done
  {
    predicate With(worker: nat) {
      (Took? || Dialled? || Ready?) && w == worker
    }

    /** Between the dial and the end of the result's life. */
    predicate Carries() {
      Dialled? || Ready? || Slot? || Main? || Won?
    }
  }

  datatype Worker = Free | Busy(node: nat) | Ended

  datatype Outcome = Winner(node: nat) | Failed

  datatype Caller =
    | Looping(received: nat)
    | Holding(node: nat, received: nat)
    | Leaving(outcome: Outcome)
    | Waiting(outcome: Outcome)
    | Draining(outcome: Outcome)
    | Returned(outcome: Outcome)
  {
    predicate Decided() {
      Leaving? || Waiting? || Draining? || Returned?
    }
  }

  datatype State = State(
    place: seq<Place>, jobs: seq<nat>, workers: seq<Worker>, slot: Option<nat>, caller: Caller, cancelled: bool,
    everOpened: set<nat>, open: set<nat>, failed: set<nat>,
    /** Nodes whose dial has returned, and whether the clock or the caller's context ended the search. */
    dialled: set<nat>, timedOut: bool)
  function Start(n: nat): State {
    State(seq(n, i => Queued), seq(n, i => i), seq(if n < MAX_CONCURRENT then n else MAX_CONCURRENT, w => Free),
          None, if n == 0 then Returned(Failed) else Looping(0), false, {}, {}, {}, {}, false)
  }

  datatype Step =
    | Take(w: nat)
    | End(w: nat)
    | Quit(w: nat)
    | Dial(w: nat, conn: bool, err: bool)
    | SeeCancel(w: nat)
    | Offer(w: nat)
    | Send(w: nat)
    | Receive
    | CallerSeesCancel
    | Judge
    | Exhaust
    | Cancel
    | Join
    | Drain
    | Return
    | Timeout

  /** The worker has a node in the given stage. */
  predicate On(st: State, w: nat, where: Place) {
    && w < |st.workers| && st.workers[w].Busy? && st.workers[w].node < |st.place|
    && st.place[st.workers[w].node] == where
  }

  predicate Enabled(st: State, step: Step) {
    match step
    case Take(w) => w < |st.workers| && st.workers[w].Free? && st.jobs != [] && st.jobs[0] < |st.place|
    case End(w) => w < |st.workers| && st.workers[w].Free? && st.jobs == []
    case Quit(w) => On(st, w, Took(w)) && st.cancelled
    case Dial(w, _, _) => On(st, w, Took(w))
    case SeeCancel(w) => (On(st, w, Dialled(w)) || On(st, w, Ready(w))) && st.cancelled
    case Offer(w) => On(st, w, Dialled(w))
    case Send(w) => On(st, w, Ready(w)) && st.slot.None?
    case Receive =>
      && st.caller.Looping? && st.caller.received < |st.place| && st.slot.Some? && st.slot.value < |st.place|
    case CallerSeesCancel => st.caller.Looping? && st.caller.received < |st.place| && st.cancelled
    case Judge => st.caller.Holding? && st.caller.node < |st.place|
    case Exhaust => st.caller.Looping? && st.caller.received == |st.place|
    case Cancel => st.caller.Leaving?
    case Join => st.caller.Waiting? && forall w | 0 <= w < |st.workers| :: st.workers[w].Ended?
    case Drain => st.caller.Draining? && st.slot.Some? && st.slot.value < |st.place|
    case Return => st.caller.Draining? && st.slot.None?
    case Timeout => !st.cancelled
  }

  function Put(st: State, node: nat, where: Place): State
    requires node < |st.place|
  {
    st.(place := st.place[node := where])
  }

  function Set(st: State, w: nat, worker: Worker): State
    requires w < |st.workers|
  {
    st.(workers := st.workers[w := worker])
  }

  /** Closes the connection of a result, if there is one. */
  function CloseResult(st: State, node: nat): State
    requires node < |st.place|
  {
    Put(st, node, Done).(open := st.open - {node})
  }

  function Apply(st: State, step: Step): State
    requires Enabled(st, step)
  {
    match step
    case Take(w) => Set(Put(st, st.jobs[0], Took(w)), w, Busy(st.jobs[0])).(jobs := st.jobs[1..])
    case End(w) => Set(st, w, Ended)
    case Quit(w) => Set(Put(st, st.workers[w].node, Done), w, Ended)
    case Dial(w, conn, err) =>
      var node := st.workers[w].node;
      Put(st, node, Dialled(w)).(
        everOpened := if conn then st.everOpened + {node} else st.everOpened, open := if conn then st.open + {node} else st.open,
        failed := if err then st.failed + {node} else st.failed, dialled := st.dialled + {node})
    case SeeCancel(w) => Set(CloseResult(st, st.workers[w].node), w, Ended)
    case Offer(w) => Put(st, st.workers[w].node, Ready(w))
    case Send(w) => Set(Put(st, st.workers[w].node, Slot), w, Free).(slot := Some(st.workers[w].node))
    case Receive => Put(st, st.slot.value, Main).(slot := None, caller := Holding(st.slot.value, st.caller.received))
    case CallerSeesCancel => st.(caller := Leaving(Failed))
    case Judge =>
      var node := st.caller.node;
      if st.cancelled then CloseResult(st, node).(caller := Leaving(Failed))
      else if node !in st.failed then Put(st, node, Won).(caller := Leaving(Winner(node)))
      else CloseResult(st, node).(caller := Looping(st.caller.received + 1))
    case Exhaust => st.(caller := Leaving(Failed))
    case Cancel => st.(cancelled := true, caller := Waiting(st.caller.outcome))
    case Join => st.(caller := Draining(st.caller.outcome))
    case Drain => CloseResult(st, st.slot.value).(slot := None)
    case Return => st.(caller := Returned(st.caller.outcome))
    case Timeout => st.(cancelled := true, timedOut := true)
  }

  function Exec(n: nat, steps: seq<Step>): Option<State>
    decreases |steps|
  {
    if steps == [] then Some(Start(n))
    else
      var before := Exec(n, steps[..|steps| - 1]);
      var last := steps[|steps| - 1];
      if before.None? || !Enabled(before.value, last) then None else Some(Apply(before.value, last))
  }

  // ---- Who holds what

  predicate JobsOk(st: State) {
    && (forall i | 0 <= i < |st.jobs| :: st.jobs[i] < |st.place| && st.place[st.jobs[i]].Queued?)
    && (forall i, j | 0 <= i < j < |st.jobs| :: st.jobs[i] != st.jobs[j])
  }

  predicate WorkerOk(st: State, w: nat)
    requires w < |st.workers|
  {
    st.workers[w].Busy? ==> st.workers[w].node < |st.place| && st.place[st.workers[w].node].With(w)
  }

  predicate WorkersOk(st: State) {
    forall w | 0 <= w < |st.workers| :: WorkerOk(st, w)
  }

  predicate NodeOk(st: State, a: nat)
    requires a < |st.place|
  {
    && (st.place[a].Queued? ==> a in st.jobs)
    && (st.place[a].Took? || st.place[a].Dialled? || st.place[a].Ready? ==>
          st.place[a].w < |st.workers| && st.workers[st.place[a].w] == Busy(a))
    && (st.place[a].Slot? <==> st.slot == Some(a))
    && (st.place[a].Main? <==> st.caller.Holding? && st.caller.node == a)
    && (st.place[a].Won? <==> st.caller.Decided() && st.caller.outcome == Winner(a))
    && (a in st.open <==> a in st.everOpened && st.place[a].Carries())
    && (st.place[a].Queued? || st.place[a].Took? ==> a !in st.everOpened)
    && (st.place[a].Won? ==> a !in st.failed)
    && (st.place[a].Carries() ==> a in st.dialled)
    && (st.place[a].Done? && !st.timedOut && !st.caller.Decided() ==> a in st.dialled && a in st.failed)
  }

  predicate CallerOk(st: State) {
    && (st.slot.Some? ==> st.slot.value < |st.place|)
    && (st.caller.Holding? ==> st.caller.node < |st.place|)
    && (st.caller.Decided() && st.caller.outcome.Winner? ==> st.caller.outcome.node < |st.place|)
    && (st.caller.Waiting? || st.caller.Draining? ==> st.cancelled)
    && (st.cancelled ==> st.timedOut || st.caller.Decided())
    && (st.caller.Draining? || st.caller.Returned? ==> forall w | 0 <= w < |st.workers| :: st.workers[w].Ended?)
    && (st.caller.Returned? ==> st.slot.None?)
    && (forall a | a in st.everOpened :: a < |st.place|) && st.open <= st.everOpened
  }

  predicate Inv(st: State) {
    JobsOk(st) && WorkersOk(st) && CallerOk(st) && forall a | 0 <= a < |st.place| :: NodeOk(st, a)
  }

  /** The node a step moves. */
  function Moved(st: State, step: Step): Option<nat>
    requires Enabled(st, step)
  {
    match step
    case Take(_) => Some(st.jobs[0])
    case Quit(w) => Some(st.workers[w].node)
    case Dial(w, _, _) => Some(st.workers[w].node)
    case SeeCancel(w) => Some(st.workers[w].node)
    case Offer(w) => Some(st.workers[w].node)
    case Send(w) => Some(st.workers[w].node)
    case Receive => st.slot
    case Judge => Some(st.caller.node)
    case Drain => st.slot
    case _ => None
  }

  lemma MovedWasThere(st: State, step: Step)
    requires Inv(st) && Enabled(st, step)
    ensures var m := Moved(st, step);
            && (m.Some? ==> m.value < |st.place| && NodeOk(st, m.value))
            && (step.Receive? || step.Drain? ==> m == st.slot && st.place[m.value].Slot?)
            && (step.Judge? ==> m == Some(st.caller.node) && st.place[m.value].Main?)
            && (step.Take? ==> m == Some(st.jobs[0]) && st.place[m.value].Queued?)
  {
    var m := Moved(st, step);
    if m.Some? {
      assert NodeOk(st, m.value);
    }
  }

  lemma StepKeepsJobs(st: State, step: Step)
    requires Inv(st) && Enabled(st, step)
    ensures JobsOk(Apply(st, step))
  {
    MovedWasThere(st, step);
    var st' := Apply(st, step);
    if step.Take? {
      assert forall i | 0 <= i < |st'.jobs| :: st'.jobs[i] == st.jobs[i + 1] && st.jobs[i + 1] != st.jobs[0];
    } else if Moved(st, step).Some? {
      assert forall i | 0 <= i < |st.jobs| :: st.jobs[i] != Moved(st, step).value;
    }
  }

  lemma StepKeepsWorkers(st: State, step: Step)
    requires Inv(st) && Enabled(st, step)
    ensures WorkersOk(Apply(st, step))
  {
    hide Apply, Enabled, WorkerOk, NodeOk, JobsOk, CallerOk, Moved;
    MovedWasThere(st, step);
    PlacesStay(st, step);
    forall w | 0 <= w < |st.workers| ensures |Apply(st, step).workers| == |st.workers| && WorkerOk(Apply(st, step), w) {
      StepKeepsWorker(st, step, w);
    }
  }

  lemma StepKeepsWorker(st: State, step: Step, w: nat)
    requires Enabled(st, step) && w < |st.workers| && WorkerOk(st, w)
    requires var m := Moved(st, step); m.Some? ==> m.value < |st.place| && NodeOk(st, m.value)
    requires step.Take? ==> st.place[st.jobs[0]].Queued?
    requires step.Receive? || step.Drain? ==> st.place[st.slot.value].Slot?
    requires step.Judge? ==> st.place[st.caller.node].Main?
    ensures |Apply(st, step).workers| == |st.workers| && WorkerOk(Apply(st, step), w)
  {
  }

  lemma StepKeepsCaller(st: State, step: Step)
    requires Inv(st) && Enabled(st, step)
    ensures CallerOk(Apply(st, step))
  {
  }

  lemma MovedNodeOk(st: State, step: Step, a: nat)
    requires Enabled(st, step) && CallerOk(st) && a < |st.place| && NodeOk(st, a) && Moved(st, step) == Some(a)
    requires step.Take? ==> st.place[a].Queued?
    ensures |Apply(st, step).place| == |st.place| && NodeOk(Apply(st, step), a)
  {
  }

  /** A step that moves another node: the one moved is in order, and this one is not it. */
  predicate MovesOther(st: State, step: Step, a: nat) {
    && Enabled(st, step) && CallerOk(st) && a < |st.place| && NodeOk(st, a) && Moved(st, step) != Some(a)
    && (Moved(st, step).Some? ==> Moved(st, step).value < |st.place| && NodeOk(st, Moved(st, step).value))
  }

  lemma OtherNodeTake(st: State, step: Step, a: nat)
    requires MovesOther(st, step, a) && step.Take?
    ensures |Apply(st, step).place| == |st.place| && NodeOk(Apply(st, step), a)
  {
    if a in st.jobs {
      var i :| 0 <= i < |st.jobs| && st.jobs[i] == a;
      assert Apply(st, step).jobs[i - 1] == a;
    }
  }

  predicate ByWorker(step: Step) {
    step.End? || step.Quit? || step.Dial? || step.SeeCancel? || step.Offer? || step.Send?
  }

  lemma OtherNodeWorker(st: State, step: Step, a: nat)
    requires MovesOther(st, step, a) && ByWorker(step)
    ensures |Apply(st, step).place| == |st.place| && NodeOk(Apply(st, step), a)
  {
  }

  lemma OtherNodeCaller(st: State, step: Step, a: nat)
    requires MovesOther(st, step, a) && !ByWorker(step) && !step.Take?
    ensures |Apply(st, step).place| == |st.place| && NodeOk(Apply(st, step), a)
  {
  }

  lemma OtherNodeOk(st: State, step: Step, a: nat)
    requires MovesOther(st, step, a)
    ensures |Apply(st, step).place| == |st.place| && NodeOk(Apply(st, step), a)
  {
    hide MovesOther, NodeOk, Apply, Enabled;
    if step.Take? {
      OtherNodeTake(st, step, a);
    } else if ByWorker(step) {
      OtherNodeWorker(st, step, a);
    } else {
      OtherNodeCaller(st, step, a);
    }
  }

  lemma StepKeepsNode(st: State, step: Step, a: nat)
    requires Inv(st) && Enabled(st, step) && a < |st.place|
    ensures |Apply(st, step).place| == |st.place| && NodeOk(Apply(st, step), a)
  {
    hide Apply, Moved;
    MovedWasThere(st, step);
    if Moved(st, step) == Some(a) {
      MovedNodeOk(st, step, a);
    } else {
      OtherNodeOk(st, step, a);
    }
  }

  lemma StepKeepsInv(st: State, step: Step)
    requires Inv(st) && Enabled(st, step)
    ensures Inv(Apply(st, step))
  {
    hide Apply, Enabled, NodeOk, JobsOk, WorkersOk, CallerOk;
    StepKeepsJobs(st, step);
    StepKeepsWorkers(st, step);
    StepKeepsCaller(st, step);
    PlacesStay(st, step);
    forall a | 0 <= a < |st.place| ensures |Apply(st, step).place| == |st.place| && NodeOk(Apply(st, step), a) {
      StepKeepsNode(st, step, a);
    }
  }

  lemma PlacesStay(st: State, step: Step)
    ensures Enabled(st, step) ==> |Apply(st, step).place| == |st.place| && |Apply(st, step).workers| == |st.workers|
  {
  }

  lemma StartOk(n: nat)
    ensures Inv(Start(n))
  {
    var st := Start(n);
    forall a | 0 <= a < |st.place| ensures NodeOk(st, a) {
      assert st.jobs[a] == a;
    }
  }

  lemma {:induction false} RunKeepsInv(n: nat, steps: seq<Step>)
    requires Exec(n, steps).Some?
    ensures Inv(Exec(n, steps).value)
    decreases |steps|
  {
    hide Inv, Apply, Enabled, Start;
    if steps == [] {
      StartOk(n);
    } else {
      RunKeepsInv(n, steps[..|steps| - 1]);
      StepKeepsInv(Exec(n, steps[..|steps| - 1]).value, steps[|steps| - 1]);
    }
  }

  /** On return every worker has ended and every connection is closed but the winner's, which
      is open if its probe opened one and did not fail. */
  predicate Settled(st: State, o: Outcome) {
    && (forall w | 0 <= w < |st.workers| :: st.workers[w].Ended?) && st.slot.None?
    && st.open == (if o.Winner? && o.node in st.everOpened then {o.node} else {})
    && (o.Winner? ==> o.node < |st.place| && o.node in st.dialled && o.node !in st.failed)
  }

  lemma ReturnSettles(n: nat, steps: seq<Step>)
    requires Exec(n, steps).Some? && Exec(n, steps).value.caller.Returned?
    ensures Settled(Exec(n, steps).value, Exec(n, steps).value.caller.outcome)
  {
    hide Exec;
    RunKeepsInv(n, steps);
    var st := Exec(n, steps).value;
    var o := st.caller.outcome;
    forall a | a in st.open ensures o == Winner(a) {
      assert NodeOk(st, a);
    }
    if o.Winner? {
      assert NodeOk(st, o.node);
    }
  }

  // ---- Every schedule ends

  function Sum<T>(s: seq<T>, weight: T -> nat): nat {
    if s == [] then 0 else Sum(s[..|s| - 1], weight) + weight(s[|s| - 1])
  }

  lemma {:induction false} SumUpdate<T>(s: seq<T>, i: nat, v: T, weight: T -> nat)
    requires i < |s|
    ensures Sum(s[i := v], weight) == Sum(s, weight) - weight(s[i]) + weight(v)
    decreases |s|
  {
    var t := s[i := v];
    if i == |s| - 1 {
      assert t[..|t| - 1] == s[..|s| - 1];
    } else {
      SumUpdate(s[..|s| - 1], i, v, weight);
      assert t[..|t| - 1] == s[..|s| - 1][i := v];
    }
  }

  lemma {:induction false} SumOf<T>(s: seq<T>, weight: T -> nat, each: nat)
    requires forall i | 0 <= i < |s| :: weight(s[i]) == each
    ensures Sum(s, weight) == |s| * each
    decreases |s|
  {
    if s != [] {
      SumOf(s[..|s| - 1], weight, each);
    }
  }

  function Ahead(p: Place): nat {
    match p
    case Queued => 7
    case Took(_) => 6
    case Dialled(_) => 5
    case Ready(_) => 4
    case Slot => 3
    case Main => 2
    case Won => 1
    case Done => 0
  }

  function Alive(w: Worker): nat {
    if w.Ended? then 0 else 1
  }

  function CallerAhead(c: Caller): nat {
    match c
    case Looping(_) => 5
    case Holding(_, _) => 5
    case Leaving(_) => 4
    case Waiting(_) => 3
    case Draining(_) => 2
    case Returned(_) => 1
  }

  /** The work still ahead. */
  function Work(st: State): nat {
    Sum(st.place, Ahead) + Sum(st.workers, Alive) + CallerAhead(st.caller) + if st.cancelled then 0 else 1
  }

  lemma NodesAheadShrink(st: State, step: Step)
    requires Inv(st) && Enabled(st, step)
    ensures var st' := Apply(st, step);
            if Moved(st, step).Some? then Sum(st'.place, Ahead) < Sum(st.place, Ahead) else st'.place == st.place
  {
    hide Sum;
    MovedWasThere(st, step);
    var st' := Apply(st, step);
    var m := Moved(st, step);
    if m.Some? {
      SumUpdate(st.place, m.value, st'.place[m.value], Ahead);
      assert st'.place == st.place[m.value := st'.place[m.value]];
    }
  }

  lemma WorkersAliveShrink(st: State, step: Step)
    requires Enabled(st, step)
    ensures Sum(Apply(st, step).workers, Alive) <= Sum(st.workers, Alive)
    ensures step.End? ==> Sum(Apply(st, step).workers, Alive) < Sum(st.workers, Alive)
  {
    hide Sum;
    if step.Take? || step.End? || step.Quit? || step.SeeCancel? || step.Send? {
      SumUpdate(st.workers, step.w, Apply(st, step).workers[step.w], Alive);
    }
  }

  lemma CallerAheadShrinks(st: State, step: Step)
    requires Enabled(st, step)
    ensures var st' := Apply(st, step);
            && CallerAhead(st'.caller) <= CallerAhead(st.caller) && (st.cancelled ==> st'.cancelled)
            && (Moved(st, step).Some? || step.End? || step.Timeout? || CallerAhead(st'.caller) < CallerAhead(st.caller))
            && (step.Timeout? ==> st'.cancelled && !st.cancelled)
  {
  }

  /** Every step of every goroutine makes it less. */
  lemma StepShrinksWork(st: State, step: Step)
    requires Inv(st) && Enabled(st, step)
    ensures Work(Apply(st, step)) < Work(st)
  {
    hide Apply, Enabled, Inv, Sum, Moved;
    NodesAheadShrink(st, step);
    WorkersAliveShrink(st, step);
    CallerAheadShrinks(st, step);
  }

  lemma {:induction false} RunShrinksWork(n: nat, steps: seq<Step>)
    requires Exec(n, steps).Some?
    ensures |steps| + Work(Exec(n, steps).value) <= Work(Start(n))
    decreases |steps|
  {
    if steps != [] {
      hide Apply, Enabled, Inv;
      RunShrinksWork(n, steps[..|steps| - 1]);
      RunKeepsInv(n, steps[..|steps| - 1]);
      StepShrinksWork(Exec(n, steps[..|steps| - 1]).value, steps[|steps| - 1]);
    }
  }

  /** No schedule is longer than eight steps a node and a few more. */
  lemma RunsAreShort(n: nat, steps: seq<Step>)
    requires Exec(n, steps).Some?
    ensures |steps| <= 8 * n + 6
  {
    RunShrinksWork(n, steps);
    SumOf(Start(n).place, Ahead, 7);
    SumOf(Start(n).workers, Alive, 1);
  }

  // ---- And none gets stuck before the return

  function IsDone(p: Place): nat {
    if p.Done? then 1 else 0
  }

  /** Until it is cancelled, every finished node is one the caller received and put aside. */
  predicate Counted(st: State) {
    && (st.place != [] ==> st.workers != [])
    && (st.caller.Looping? ==> st.caller.received <= |st.place|)
    && (st.caller.Looping? || st.caller.Holding? ==> st.cancelled || Sum(st.place, IsDone) == st.caller.received)
    && (st.caller.Holding? ==> st.caller.received < |st.place|)
    && (st.cancelled || st.jobs == [] || forall w | 0 <= w < |st.workers| :: !st.workers[w].Ended?)
  }

  lemma StepKeepsCounted(st: State, step: Step)
    requires Inv(st) && Counted(st) && Enabled(st, step)
    ensures Counted(Apply(st, step))
  {
    MovedWasThere(st, step);
    var st' := Apply(st, step);
    var m := Moved(st, step);
    if m.Some? {
      SumUpdate(st.place, m.value, st'.place[m.value], IsDone);
      assert st'.place == st.place[m.value := st'.place[m.value]];
    }
  }

  lemma {:induction false} RunKeepsCounted(n: nat, steps: seq<Step>)
    requires Exec(n, steps).Some?
    ensures Counted(Exec(n, steps).value)
    decreases |steps|
  {
    if steps == [] {
      SumOf(Start(n).place, IsDone, 0);
    } else {
      hide Apply, Enabled, Inv, Counted;
      RunKeepsCounted(n, steps[..|steps| - 1]);
      RunKeepsInv(n, steps[..|steps| - 1]);
      StepKeepsCounted(Exec(n, steps[..|steps| - 1]).value, steps[|steps| - 1]);
    }
  }

  /** A worker that has not ended can go on, or waits for the caller to take a result. */
  lemma WorkerGoesOn(st: State, w: nat) returns (step: Step)
    requires Inv(st) && w < |st.workers| && !st.workers[w].Ended?
    ensures !step.Timeout? && (Enabled(st, step) || (st.slot.Some? && !st.cancelled))
  {
    if st.workers[w].Free? {
      step := if st.jobs == [] then End(w) else Take(w);
    } else {
      var a := st.workers[w].node;
      assert WorkerOk(st, w) && NodeOk(st, a);
      step := if st.place[a].Took? then Dial(w, true, false)
              else if st.cancelled then SeeCancel(w)
              else if st.place[a].Dialled? then Offer(w)
              else Send(w);
    }
  }

  lemma CallerGoesOn(st: State) returns (step: Step)
    requires Inv(st) && Counted(st) && st.caller.Looping?
    ensures !step.Timeout? && Enabled(st, step)
  {
    if st.caller.received == |st.place| {
      return Exhaust;
    }
    if st.cancelled {
      return CallerSeesCancel;
    }
    if st.slot.Some? {
      return Receive;
    }
    var a := Unfinished(st);
    assert NodeOk(st, a);
    if st.place[a].Queued? {
      step := WorkerGoesOn(st, 0);
    } else {
      step := WorkerGoesOn(st, st.place[a].w);
    }
  }

  lemma Unfinished(st: State) returns (a: nat)
    requires Counted(st) && st.caller.Looping? && !st.cancelled && st.caller.received < |st.place|
    ensures a < |st.place| && !st.place[a].Done?
  {
    if forall i | 0 <= i < |st.place| :: st.place[i].Done? {
      SumOf(st.place, IsDone, 1);
    }
    a :| 0 <= a < |st.place| && !st.place[a].Done?;
  }

  /** Until it has returned, something other than the clock can move, whatever has happened:
      with the bound above, probing always returns. */
  lemma NeverStuck(n: nat, steps: seq<Step>) returns (step: Step)
    requires Exec(n, steps).Some? && !Exec(n, steps).value.caller.Returned?
    ensures !step.Timeout? && Enabled(Exec(n, steps).value, step)
  {
    hide Exec;
    RunKeepsInv(n, steps);
    RunKeepsCounted(n, steps);
    var st := Exec(n, steps).value;
    match st.caller
    case Looping(_) => step := CallerGoesOn(st);
    case Holding(_, _) => step := Judge;
    case Leaving(_) => step := Cancel;
    case Waiting(_) =>
      if w :| 0 <= w < |st.workers| && !st.workers[w].Ended? {
        step := WorkerGoesOn(st, w);
      } else {
        step := Join;
      }
    case Draining(_) => step := if st.slot.Some? then Drain else Return;
  }

  // ---- A node that answers wins

  /** Until the clock intervenes, the caller gives up only on all nodes. */
  predicate Exhausted(st: State) {
    st.caller.Decided() && st.caller.outcome.Failed? && !st.timedOut ==>
      forall a | 0 <= a < |st.place| :: st.place[a].Done? && a in st.dialled && a in st.failed
  }

  lemma StepKeepsExhausted(st: State, step: Step)
    requires Inv(st) && Counted(st) && Exhausted(st) && Enabled(st, step)
    ensures Exhausted(Apply(st, step))
  {
    MovedWasThere(st, step);
    if step.Exhaust? && !st.cancelled {
      AllDone(st);
      forall a | 0 <= a < |st.place| ensures st.timedOut || (a in st.dialled && a in st.failed) {
        assert NodeOk(st, a);
      }
    }
  }

  lemma AllDone(st: State)
    requires Sum(st.place, IsDone) == |st.place|
    ensures forall a | 0 <= a < |st.place| :: st.place[a].Done?
  {
    if a :| 0 <= a < |st.place| && !st.place[a].Done? {
      SumUpdate(st.place, a, Done, IsDone);
      SumAtMost(st.place[a := Done]);
    }
  }

  lemma {:induction false} SumAtMost(place: seq<Place>)
    ensures Sum(place, IsDone) <= |place|
    decreases |place|
  {
    if place != [] {
      SumAtMost(place[..|place| - 1]);
    }
  }

  lemma {:induction false} RunKeepsExhausted(n: nat, steps: seq<Step>)
    requires Exec(n, steps).Some?
    ensures var st := Exec(n, steps).value; Exhausted(st) && |st.place| == n && (st.timedOut <==> Timeout in steps)
    decreases |steps|
  {
    if steps != [] {
      hide Inv, Counted, Exhausted, Enabled, Apply;
      var before, last := steps[..|steps| - 1], steps[|steps| - 1];
      RunKeepsExhausted(n, before);
      RunKeepsInv(n, before);
      RunKeepsCounted(n, before);
      StepKeepsExhausted(Exec(n, before).value, last);
      PlacesStay(Exec(n, before).value, last);
      OnlyTimeoutTimesOut(Exec(n, before).value, last);
      assert steps == before + [last];
    }
  }

  lemma OnlyTimeoutTimesOut(st: State, step: Step)
    ensures Enabled(st, step) ==> (Apply(st, step).timedOut <==> st.timedOut || step.Timeout?)
  {
  }

  /** In every run: unless the search was ended from outside, it fails only if every node was
      dialled and failed, and a winner was dialled without error. */
  lemma FailureMeansAllFailed(n: nat, steps: seq<Step>)
    requires Exec(n, steps).Some? && Exec(n, steps).value.caller.Returned?
    ensures var st := Exec(n, steps).value;
            match st.caller.outcome
            case Winner(a) => a < n && a in st.dialled && a !in st.failed
            case Failed => Timeout in steps || forall a | 0 <= a < n :: a in st.dialled && a in st.failed
  {
    hide Exec;
    RunKeepsInv(n, steps);
    RunKeepsExhausted(n, steps);
    ReturnSettles(n, steps);
    var st := Exec(n, steps).value;
  }
}
