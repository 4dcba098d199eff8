/** Stop against dispatch, as the atomic steps of two kinds of goroutine.

    A Stop raises the flag, reads the cancel function of whatever runs, calls it, queues its
    command and waits for the answer, at most until its deadline.  The dispatcher discards a
    command whose caller has gone; otherwise it publishes a cancel function, looks at the flag
    and runs or refuses the command.  Running a queued stop lowers the flag.  Any number of
    Stops and commands interleave in any order.
 */
module StopRace {
  import opened Wrappers

  type StopId = nat

  /** A start, devices, auth or endpoint-start command, or the queued half of a Stop. */
  datatype Command = Begin(n: nat) | StopCommand(s: StopId)

  /** How far a Stop and its command have got. */
  datatype Phase =
    | NotCalled
    | Raised
    | Looked(target: Option<Command>)
    | Cancelled(target: Option<Command>)
    | Queued(target: Option<Command>)
    | Lowered
    | Dropped

  datatype Dispatcher =
    | Free
    | Accepted(cmd: Command)
    | Published(cmd: Command)
    | Running(cmd: Command)
    | Refusing(cmd: Command)

  datatype State = State(
    flag: bool, opCancel: Option<Command>, stops: map<StopId, Phase>, dispatcher: Dispatcher,
    cancelled: set<Command>, taken: set<Command>,
    /** Calls of Stop that have returned, and those of them that got an answer. */
    returned: set<StopId>, answered: set<StopId>,
    /** Stops after whose raising of the flag some Stop lowered it. */
    overtaken: set<StopId>,
    /** Commands published after the Stop had looked for one. */
    late: set<(StopId, nat)>)
  {
    function Of(s: StopId): Phase {
      if s in stops then stops[s] else NotCalled
    }

    /** The call is under way. */
    predicate Calling(s: StopId) {
      !Of(s).NotCalled? && s !in returned
    }

    /** The call is under way, has called cancelOp, and its command has not run. */
    predicate Pending(s: StopId) {
      Calling(s) && (Of(s).Cancelled? || Of(s).Queued?)
    }

    predicate HasLooked(s: StopId) {
      (Calling(s) && Of(s).Looked?) || Pending(s)
    }

    predicate Outstanding(s: StopId) {
      (Calling(s) && Of(s).Raised?) || HasLooked(s)
    }

    function Target(s: StopId): Option<Command>
      requires HasLooked(s)
    {
      Of(s).target
    }

    /** The dispatcher has taken up a stop command that is yet to lower the flag. */
    predicate StopInHand() {
      !dispatcher.Free? && dispatcher.cmd.StopCommand? && Of(dispatcher.cmd.s).Queued?
    }
  }

  const START := State(false, None, map[], Free, {}, {}, {}, {}, {}, {})

  datatype Step =
    | Raise(s: StopId) | Look(s: StopId) | Cancel(s: StopId) | Enqueue(s: StopId) | Return(s: StopId, answer: bool)
    | Discard(s: StopId) | Accept(cmd: Command) | Publish | Check | Lower | Finish

  /** A call ends with an answer of the actor or at its deadline, and the context of its command
      ends with it: a command still in the queue is then discarded. */
  predicate Enabled(st: State, step: Step) {
    match step
    case Raise(s) => st.Of(s).NotCalled?
    case Look(s) => st.Of(s).Raised?
    case Cancel(s) => st.Of(s).Looked?
    case Enqueue(s) => st.Of(s).Cancelled? && s !in st.returned
    case Return(s, answer) =>
      && s !in st.returned
      && (if answer then st.Of(s).Lowered? || st.Of(s).Dropped?
          else !st.Of(s).NotCalled? && !st.Of(s).Raised? && !st.Of(s).Looked?)
    case Discard(s) => st.dispatcher.Free? && st.Of(s).Queued?
    case Accept(cmd) =>
      && st.dispatcher.Free? && cmd !in st.taken
      && (cmd.StopCommand? ==> st.Of(cmd.s).Queued? && cmd.s !in st.returned)
    case Publish => st.dispatcher.Accepted?
    case Check => st.dispatcher.Published?
    case Lower => st.dispatcher.Running? && st.StopInHand()
    case Finish => st.dispatcher.Refusing? || (st.dispatcher.Running? && !st.StopInHand())
  }

  function Apply(st: State, step: Step): State
    requires Enabled(st, step)
  {
    match step
    case Raise(s) => st.(flag := true, stops := st.stops[s := Raised])
    case Look(s) => st.(stops := st.stops[s := Looked(st.opCancel)])
    case Cancel(s) =>
      var target := st.Of(s).target;
      st.(stops := st.stops[s := Cancelled(target)],
          cancelled := st.cancelled + if target.Some? then {target.value} else {})
    case Enqueue(s) => st.(stops := st.stops[s := Queued(st.Of(s).target)])
    case Return(s, answer) =>
      st.(returned := st.returned + {s}, answered := if answer then st.answered + {s} else st.answered,
          stops := if st.Of(s).Cancelled? then st.stops[s := Dropped] else st.stops)
    case Discard(s) => st.(stops := st.stops[s := Dropped])
    case Accept(cmd) => st.(dispatcher := Accepted(cmd), taken := st.taken + {cmd})
    case Publish =>
      var cmd := st.dispatcher.cmd;
      st.(opCancel := Some(cmd), dispatcher := Published(cmd),
          late := if cmd.Begin? then st.late + (set s | s in st.stops && st.HasLooked(s) :: (s, cmd.n)) else st.late)
    case Check =>
      var cmd := st.dispatcher.cmd;
      st.(dispatcher := if st.flag && cmd.Begin? then Refusing(cmd) else Running(cmd))
    case Lower =>
      var s := st.dispatcher.cmd.s;
      st.(flag := false, stops := st.stops[s := Lowered],
          overtaken := st.overtaken + set o | o in st.stops && o != s && st.Outstanding(o))
    case Finish => st.(opCancel := None, dispatcher := Free, cancelled := st.cancelled + {st.dispatcher.cmd})
  }

  /** The state a run reaches from another, if each of its steps is possible in turn. */
  function ExecFrom(st: State, steps: seq<Step>): Option<State>
    decreases |steps|
  {
    if steps == [] then Some(st)
    else
      var before := ExecFrom(st, steps[..|steps| - 1]);
      var last := steps[|steps| - 1];
      if before.None? || !Enabled(before.value, last) then None else Some(Apply(before.value, last))
  }

  function Exec(steps: seq<Step>): Option<State> {
    ExecFrom(START, steps)
  }

  lemma {:induction false} ExecJoins(steps: seq<Step>, more: seq<Step>)
    requires Exec(steps).Some?
    ensures Exec(steps + more) == ExecFrom(Exec(steps).value, more)
    decreases |more|
  {
    if more == [] {
      assert steps + more == steps;
    } else {
      assert (steps + more)[..|steps + more| - 1] == steps + more[..|more| - 1];
      ExecJoins(steps, more[..|more| - 1]);
    }
  }

  lemma ExecExtends(st: State, steps: seq<Step>, step: Step)
    requires ExecFrom(st, steps).Some? && Enabled(ExecFrom(st, steps).value, step)
    ensures ExecFrom(st, steps + [step]) == Some(Apply(ExecFrom(st, steps).value, step))
  {
    assert (steps + [step])[..|steps + [step]| - 1] == steps;
  }

  // ---- What every step keeps

  predicate DispatcherOk(st: State) {
    && st.cancelled <= st.taken && st.returned <= st.stops.Keys
    && (st.opCancel.None? <==> st.dispatcher.Free? || st.dispatcher.Accepted?)
    && (!st.dispatcher.Free? ==> st.dispatcher.cmd in st.taken)
    && (st.opCancel.Some? ==> st.opCancel == Some(st.dispatcher.cmd))
    && (st.dispatcher.Refusing? ==> st.dispatcher.cmd.Begin?)
  }

  /** The command has got past, or may yet get past, the look at the flag. */
  predicate Live(st: State, n: nat) {
    st.dispatcher == Published(Begin(n)) || st.dispatcher == Running(Begin(n))
  }

  predicate StopOk(st: State, s: StopId) {
    && (st.Of(s).NotCalled? || st.Of(s).Raised? || st.Of(s).Looked? ==> s !in st.returned)
    && (s in st.answered ==> s in st.returned && (st.Of(s).Lowered? || st.Of(s).Dropped?))
    && (st.Outstanding(s) ==> st.flag || s in st.overtaken)
    && (st.Pending(s) && st.Target(s).Some? ==> st.Target(s).value in st.cancelled)
    && (st.HasLooked(s) && st.Target(s).Some? ==>
          st.Target(s).value in st.taken && st.dispatcher != Accepted(st.Target(s).value))
  }

  /** A Stop that has looked aims at the live command exactly when the command was published
      before; a live command it missed got past the flag only because the flag was lowered. */
  predicate PairOk(st: State, s: StopId, n: nat) {
    && ((s, n) in st.late ==>
          && Begin(n) in st.taken && st.dispatcher != Accepted(Begin(n))
          && !st.Of(s).NotCalled? && !st.Of(s).Raised?)
    && (st.HasLooked(s) && Live(st, n) ==> (st.Target(s) == Some(Begin(n)) <==> (s, n) !in st.late))
    && (st.HasLooked(s) && st.dispatcher == Running(Begin(n)) && (s, n) in st.late ==> s in st.overtaken)
  }

  ghost predicate Inv(st: State) {
    DispatcherOk(st) && (forall s :: StopOk(st, s)) && (forall s, n :: PairOk(st, s, n))
  }

  lemma StepKeepsDispatcherOk(st: State, step: Step)
    requires DispatcherOk(st) && Enabled(st, step) && (step.Cancel? ==> StopOk(st, step.s))
    ensures DispatcherOk(Apply(st, step))
  {
  }

  lemma StepKeepsStopOk(st: State, step: Step, s: StopId)
    requires DispatcherOk(st) && StopOk(st, s) && Enabled(st, step)
    ensures StopOk(Apply(st, step), s)
  {
  }

  lemma StepKeepsPairOk(st: State, step: Step, s: StopId, n: nat)
    requires DispatcherOk(st) && StopOk(st, s) && PairOk(st, s, n) && Enabled(st, step)
    ensures PairOk(Apply(st, step), s, n)
  {
  }

  lemma StepKeepsInv(st: State, step: Step)
    requires Inv(st) && Enabled(st, step)
    ensures Inv(Apply(st, step))
  {
    hide StopOk, PairOk, DispatcherOk, Apply, Enabled;
    assert step.Cancel? ==> StopOk(st, step.s);
    StepKeepsDispatcherOk(st, step);
    forall s ensures StopOk(Apply(st, step), s) {
      StepKeepsStopOk(st, step, s);
    }
    forall s, n ensures PairOk(Apply(st, step), s, n) {
      StepKeepsPairOk(st, step, s, n);
    }
  }

  lemma {:induction false} RunKeepsInv(steps: seq<Step>)
    requires Exec(steps).Some?
    ensures Inv(Exec(steps).value)
    decreases |steps|
  {
    if steps != [] {
      hide Inv, Apply, Enabled;
      RunKeepsInv(steps[..|steps| - 1]);
      StepKeepsInv(Exec(steps[..|steps| - 1]).value, steps[|steps| - 1]);
    }
  }

  // ---- When a Stop reaches the command that runs

  /** The command got past the flag and goes on uncancelled although the Stop has called
      cancelOp and has not been served. */
  predicate Escapes(st: State, s: StopId, n: nat) {
    st.Pending(s) && st.dispatcher == Running(Begin(n)) && Begin(n) !in st.cancelled
  }

  /** In every interleaving, a Stop aims at the running command exactly when that command was
      published before the Stop looked; and a command escapes it only if it was published
      later and the flag the Stop raised was lowered by another Stop in between. */
  lemma EscapeNeedsOvertaking(steps: seq<Step>, s: StopId, n: nat)
    requires Exec(steps).Some?
    ensures var st := Exec(steps).value;
            && (st.Pending(s) && st.dispatcher == Running(Begin(n)) ==>
                  (st.Target(s) == Some(Begin(n)) <==> (s, n) !in st.late))
            && (Escapes(st, s, n) ==> (s, n) in st.late && s in st.overtaken)
  {
    hide Exec;
    RunKeepsInv(steps);
    assert StopOk(Exec(steps).value, s) && PairOk(Exec(steps).value, s, n);
  }

  /** A command on its way through the dispatcher. */
  function DispatchSteps(n: nat): seq<Step> {
    [Accept(Begin(n)), Publish, Check]
  }

  lemma Dispatched(st: State, n: nat)
    requires DispatcherOk(st) && st.dispatcher.Free? && Begin(n) !in st.taken
    ensures var next := ExecFrom(st, DispatchSteps(n));
            && next.Some? && next.value.stops == st.stops && next.value.returned == st.returned
            && Begin(n) !in next.value.cancelled
            && next.value.dispatcher == (if st.flag then Refusing(Begin(n)) else Running(Begin(n)))
  {
    ExecExtends(st, [], Accept(Begin(n)));
    ExecExtends(st, [Accept(Begin(n))], Publish);
    ExecExtends(st, [Accept(Begin(n)), Publish], Check);
    assert [] + [Accept(Begin(n))] + [Publish] + [Check] == DispatchSteps(n);
  }

  /** The window is exactly the lowered flag: between commands, the next command escapes a
      Stop that has already cancelled if and only if the flag is down, which takes another
      Stop that lowered it. */
  lemma NextCommandEscapesIffLowered(steps: seq<Step>, s: StopId, n: nat)
    requires Exec(steps).Some?
    requires var st := Exec(steps).value; st.Pending(s) && st.dispatcher.Free? && Begin(n) !in st.taken
    ensures var st := Exec(steps).value;
            var next := Exec(steps + DispatchSteps(n));
            next.Some? && (Escapes(next.value, s, n) <==> !st.flag) && (!st.flag ==> s in st.overtaken)
  {
    hide ExecFrom;
    RunKeepsInv(steps);
    var st := Exec(steps).value;
    assert StopOk(st, s);
    Dispatched(st, n);
    ExecJoins(steps, DispatchSteps(n));
  }

  // ---- A stop command in hand lets a command through

  /** A Stop up to the call of cancelOp. */
  function CallSteps(s: StopId): seq<Step> {
    [Raise(s), Look(s), Cancel(s)]
  }

  lemma CallingReaches(st: State, s: StopId)
    requires DispatcherOk(st) && s !in st.stops
    ensures var next := ExecFrom(st, CallSteps(s));
            && next.Some? && next.value.Pending(s)
            && next.value.dispatcher == st.dispatcher && next.value.taken == st.taken
            && next.value.Of(s).Cancelled? && next.value.stops.Keys == st.stops.Keys + {s}
            && next.value.returned == st.returned && (forall o | o != s :: next.value.Of(o) == st.Of(o))
  {
    ExecExtends(st, [], Raise(s));
    ExecExtends(st, [Raise(s)], Look(s));
    ExecExtends(st, [Raise(s), Look(s)], Cancel(s));
    assert [] + [Raise(s)] + [Look(s)] + [Cancel(s)] == CallSteps(s);
  }

  /** The rest of a stop command's way through the dispatcher. */
  function ServeSteps(d: Dispatcher): seq<Step> {
    (if d.Accepted? then [Publish, Check] else if d.Published? then [Check] else []) + [Lower, Finish]
  }

  lemma ServingRuns(st: State)
    requires DispatcherOk(st) && st.StopInHand()
    ensures var run := ServeSteps(st.dispatcher)[..|ServeSteps(st.dispatcher)| - 2];
            var next := ExecFrom(st, run);
            && next.Some? && next.value.dispatcher == Running(st.dispatcher.cmd) && next.value.taken == st.taken
            && next.value.stops == st.stops && next.value.returned == st.returned
  {
    var run := ServeSteps(st.dispatcher)[..|ServeSteps(st.dispatcher)| - 2];
    if st.dispatcher.Accepted? {
      ExecExtends(st, [], Publish);
      ExecExtends(st, [Publish], Check);
      assert [] + [Publish] + [Check] == run;
    } else if st.dispatcher.Published? {
      ExecExtends(st, [], Check);
      assert [] + [Check] == run;
    }
  }

  lemma ServingLowers(st: State, s: StopId)
    requires DispatcherOk(st) && st.StopInHand() && st.dispatcher.cmd != StopCommand(s)
    ensures var next := ExecFrom(st, ServeSteps(st.dispatcher));
            && next.Some? && !next.value.flag && next.value.dispatcher.Free? && next.value.taken == st.taken
            && next.value.Of(s) == st.Of(s) && next.value.returned == st.returned
  {
    hide ExecFrom;
    ServingRuns(st);
    var run := ServeSteps(st.dispatcher)[..|ServeSteps(st.dispatcher)| - 2];
    ExecExtends(st, run, Lower);
    ExecExtends(st, run + [Lower], Finish);
    assert run + [Lower] + [Finish] == ServeSteps(st.dispatcher);
  }

  /** Whenever a new Stop is called while a stop command is in hand, a run follows in which a
      command escapes it: the flag it has raised is lowered on behalf of the other. */
  lemma StopInHandLetsEscape(steps: seq<Step>, s: StopId, n: nat)
    requires Exec(steps).Some?
    requires var st := Exec(steps).value;
             st.StopInHand() && s !in st.stops && Begin(n) !in st.taken
    ensures var run := steps + CallSteps(s) + ServeSteps(Exec(steps).value.dispatcher) + DispatchSteps(n);
            Exec(run).Some? && Escapes(Exec(run).value, s, n)
  {
    hide ExecFrom, Apply, Enabled;
    var st := Exec(steps).value;
    RunKeepsInv(steps);
    CallingReaches(st, s);
    ExecJoins(steps, CallSteps(s));
    RunKeepsInv(steps + CallSteps(s));
    ServingLowers(Exec(steps + CallSteps(s)).value, s);
    ExecJoins(steps + CallSteps(s), ServeSteps(st.dispatcher));
    NextCommandEscapesIffLowered(steps + CallSteps(s) + ServeSteps(st.dispatcher), s, n);
  }

  const FIRST_STOP := CallSteps(0) + [Enqueue(0), Accept(StopCommand(0)), Publish, Check]

  lemma FirstStopRuns()
    ensures var next := Exec(FIRST_STOP);
            && next.Some? && next.value.StopInHand() && next.value.dispatcher == Running(StopCommand(0))
            && next.value.stops.Keys == {0} && next.value.returned == {} && Begin(0) !in next.value.taken
  {
    CallingReaches(START, 0);
    ExecJoins([], CallSteps(0));
    assert [] + CallSteps(0) == CallSteps(0);
    ExecExtends(START, CallSteps(0), Enqueue(0));
    ExecExtends(START, CallSteps(0) + [Enqueue(0)], Accept(StopCommand(0)));
    ExecExtends(START, CallSteps(0) + [Enqueue(0)] + [Accept(StopCommand(0))], Publish);
    ExecExtends(START, CallSteps(0) + [Enqueue(0)] + [Accept(StopCommand(0))] + [Publish], Check);
    assert CallSteps(0) + [Enqueue(0)] + [Accept(StopCommand(0))] + [Publish] + [Check] == FIRST_STOP;
  }

  /** Overlapping Stops do let a command through. */
  lemma OverlappingStopsEscape()
    ensures var run := FIRST_STOP + CallSteps(1) + [Lower, Finish] + DispatchSteps(0);
            Exec(run).Some? && Escapes(Exec(run).value, 1, 0)
  {
    FirstStopRuns();
    StopInHandLetsEscape(FIRST_STOP, 1, 0);
    assert ServeSteps(Running(StopCommand(0))) == [Lower, Finish];
  }

  // ---- Stops one at a time

  /** Each Stop is called only when no other call is under way. */
  ghost predicate OneAtATime(steps: seq<Step>) {
    forall i | 0 <= i < |steps| && steps[i].Raise? && Exec(steps[..i]).Some? ::
      forall o :: !Exec(steps[..i]).value.Calling(o)
  }

  /** And only when no stop command of an earlier one is in the dispatcher's hands. */
  ghost predicate NoneInHand(steps: seq<Step>) {
    forall i | 0 <= i < |steps| && steps[i].Raise? && Exec(steps[..i]).Some? :: !Exec(steps[..i]).value.StopInHand()
  }

  /** What a caller can see to: every earlier Stop has come back with an answer of the actor,
      not on its deadline. */
  ghost predicate AllAnswered(steps: seq<Step>) {
    forall i | 0 <= i < |steps| && steps[i].Raise? && Exec(steps[..i]).Some? ::
      forall o :: Exec(steps[..i]).value.Of(o).NotCalled? || o in Exec(steps[..i]).value.answered
  }

  ghost predicate Alone(st: State) {
    && (forall s, o | st.Calling(s) && st.Calling(o) :: s == o)
    && (forall s | st.Outstanding(s) :: s !in st.overtaken && (st.StopInHand() ==> st.dispatcher.cmd.s == s))
    && (forall s | s in st.overtaken :: !st.Of(s).NotCalled?)
  }

  /** No step but a new call puts a Stop under way. */
  lemma NoNewCalls(st: State, step: Step, s: StopId)
    requires Enabled(st, step) && step != Raise(s)
    ensures Apply(st, step).Calling(s) ==> st.Calling(s)
    ensures Apply(st, step).Outstanding(s) ==> st.Outstanding(s)
  {
  }

  /** A stop command comes into the dispatcher's hands only while its call is under way. */
  lemma TakenUpWhileCalling(st: State, step: Step)
    requires DispatcherOk(st) && Enabled(st, step)
    ensures var st' := Apply(st, step);
            st'.StopInHand() ==>
              st.Calling(st'.dispatcher.cmd.s) || (st.StopInHand() && st'.dispatcher.cmd == st.dispatcher.cmd)
  {
  }

  lemma OvertakesOthers(st: State, step: Step)
    requires Enabled(st, step)
    ensures var st' := Apply(st, step);
            && st.overtaken <= st'.overtaken
            && forall s | s in st'.overtaken && s !in st.overtaken ::
                 step.Lower? && st.Outstanding(s) && s != st.dispatcher.cmd.s && st.StopInHand()
  {
  }

  lemma StepKeepsAlone(st: State, step: Step)
    requires DispatcherOk(st) && Alone(st) && Enabled(st, step)
    requires step.Raise? ==> !st.StopInHand() && forall o :: !st.Calling(o)
    ensures Alone(Apply(st, step))
  {
    var st' := Apply(st, step);
    CalledStay(st, step);
    hide Apply, Enabled, DispatcherOk;
    TakenUpWhileCalling(st, step);
    OvertakesOthers(st, step);
    forall s
      ensures step == Raise(s) || ((st'.Calling(s) ==> st.Calling(s)) && (st'.Outstanding(s) ==> st.Outstanding(s)))
    {
      if step != Raise(s) {
        NoNewCalls(st, step, s);
      }
    }
  }

  lemma CalledStay(st: State, step: Step)
    requires Enabled(st, step)
    ensures forall s | !st.Of(s).NotCalled? :: !Apply(st, step).Of(s).NotCalled?
    ensures step.Raise? ==> st.Of(step.s).NotCalled? && Apply(st, step).dispatcher == st.dispatcher
                            && (Apply(st, step).StopInHand() ==> st.StopInHand())
  {
  }

  lemma {:induction false} RunKeepsAlone(steps: seq<Step>)
    requires Exec(steps).Some? && OneAtATime(steps) && NoneInHand(steps)
    ensures Alone(Exec(steps).value)
    decreases |steps|
  {
    if steps != [] {
      var before, last := steps[..|steps| - 1], steps[|steps| - 1];
      assert forall i | 0 <= i < |before| :: before[..i] == steps[..i];
      RunKeepsAlone(before);
      RunKeepsInv(before);
      StepKeepsAlone(Exec(before).value, last);
    }
  }

  /** With calls one at a time and no stop command left in hand, no command escapes in any
      interleaving; without the second condition one can, by the lemma above. */
  lemma SerialStopsCatchAll(steps: seq<Step>, s: StopId, n: nat)
    requires Exec(steps).Some? && OneAtATime(steps) && NoneInHand(steps)
    ensures !Escapes(Exec(steps).value, s, n)
  {
    hide Exec, OneAtATime, NoneInHand;
    RunKeepsAlone(steps);
    EscapeNeedsOvertaking(steps, s, n);
  }

  /** In particular for a caller that waits for the answer to each Stop before the next. */
  lemma AnsweredStopsCatchAll(steps: seq<Step>, s: StopId, n: nat)
    requires Exec(steps).Some? && AllAnswered(steps)
    ensures !Escapes(Exec(steps).value, s, n)
  {
    forall i | 0 <= i < |steps| && steps[i].Raise? && Exec(steps[..i]).Some?
      ensures !Exec(steps[..i]).value.StopInHand() && forall o :: !Exec(steps[..i]).value.Calling(o)
    {
      var st := Exec(steps[..i]).value;
      hide Exec;
      RunKeepsInv(steps[..i]);
      forall o ensures st.Of(o).NotCalled? || (o in st.returned && !st.Of(o).Queued?) {
        assert StopOk(st, o);
      }
    }
    SerialStopsCatchAll(steps, s, n);
  }

  const UNANSWERED := FIRST_STOP + [Return(0, false)]

  /** Stops called one after the other let a command through when the first gave up on its
      answer after the dispatcher had taken up its command. */
  lemma UnansweredStopEscapes()
    ensures var run := UNANSWERED + CallSteps(1) + [Lower, Finish] + DispatchSteps(0);
            Exec(run).Some? && OneAtATime(run) && Escapes(Exec(run).value, 1, 0)
  {
    var run := UNANSWERED + CallSteps(1) + [Lower, Finish] + DispatchSteps(0);
    FirstStopRuns();
    ExecExtends(START, FIRST_STOP, Return(0, false));
    StopInHandLetsEscape(UNANSWERED, 1, 0);
    assert ServeSteps(Running(StopCommand(0))) == [Lower, Finish];
    forall i | 0 <= i < |run| && run[i].Raise? && Exec(run[..i]).Some?
      ensures forall o :: !Exec(run[..i]).value.Calling(o)
    {
      assert i == 0 || i == |UNANSWERED|;
      assert run[..0] == [] && run[..|UNANSWERED|] == UNANSWERED;
    }
  }
}
