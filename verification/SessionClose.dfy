/** Closing a campus session against everything that may be under way in it.

    Each critical section under the session lock is one step.  StartL3, Run with its
    reconnects, any number of DialTCP calls, invalidate and Close interleave freely; starting
    and stopping L3 are serial among themselves, and StopL3 does not overlap Run or Close, as
    their callers ensure.  Connections may also be closed by anybody at any time.
 */
module SessionClose {
  import opened Wrappers

  type Tunnel = nat
  type Stream = nat
  type Dialer = nat

  /** Why a new connection was not published: the session was closed or cancelled, or its own
      caller had given up. */
  datatype Cause = Cause(refused: bool, own: bool) {
    predicate Good() {
      refused || own
    }
  }

  /** A reconnect loop: looking for the connection, watching it, dialling another. */
  datatype Runner =
    | NoRun | Looking | Watching(tunnel: Tunnel) | Redialling | HasNew(tunnel: Tunnel)
    | Rejecting(tunnel: Tunnel, cause: Cause) | Exited
  {
    predicate Active() {
      !NoRun? && !Exited?
    }
  }

  datatype Starter = NotStarting | Starting | HasFirst(tunnel: Tunnel) | StartRejecting(tunnel: Tunnel, cause: Cause)

  datatype Dial = Dialling | HasStream(stream: Stream) | DialRejecting(stream: Stream, cause: Cause) | Finished

  datatype Stopper = NotStopping | Stopping(tunnel: Option<Tunnel>)

  datatype Closer =
    | NotCalled
    | ClosingStreams(streams: set<Stream>, tunnel: Option<Tunnel>, joins: bool)
    | AwaitingDials(tunnel: Option<Tunnel>, joins: bool)
    | ClosingTunnel(tunnel: Option<Tunnel>, joins: bool)
    | AwaitingRun(joins: bool)
    | Returned

  datatype State = State(
    closed: bool, cancelled: bool, active: Option<Tunnel>, runDone: bool, tcpConnections: set<Stream>,
    runner: Runner, starter: Starter, dials: map<Dialer, Dial>, stopper: Stopper, closer: Closer,
    /** Every tunnel and stream ever published, and those whose socket is closed. */
    tunnels: set<Tunnel>, streams: set<Stream>, deadTunnels: set<Tunnel>, deadStreams: set<Stream>,
    /** Every one ever connected, streams with the call that connected them. */
    madeTunnels: set<Tunnel>, madeStreams: map<Stream, Dialer>)
  {
    /** What a publisher checks under the lock, beside its own context. */
    predicate Refuses() {
      closed || cancelled
    }

    predicate Idle() {
      starter.NotStarting? && forall d | d in dials :: dials[d].Finished?
    }
  }

  const START := State(false, false, None, false, {}, NoRun, NotStarting, map[], NotStopping, NotCalled,
                       {}, {}, {}, {}, {}, map[])

  datatype Step =
    | RunStart | RunLook | RunClose | RunRedial | RunConnect(tunnel: Tunnel) | RunGiveUp | RunPublish(own: bool)
    | RunReject | RunExit
    | StartBegin | StartConnect(tunnel: Tunnel) | StartFail | StartPublish(own: bool) | StartReject
    | DialBegin(d: Dialer) | DialConnect(d: Dialer, stream: Stream) | DialFail(d: Dialer) | DialPublish(d: Dialer, own: bool)
    | DialReject(d: Dialer)
    | StopTake | StopClose
    | Invalidate
    | KillTunnel(tunnel: Tunnel) | KillStream(stream: Stream) | Deregister(stream: Stream)
    | CloseBegin | StreamsClosed | DialsDone | TunnelClosed | RunJoined

  predicate Enabled(st: State, step: Step) {
    match step
    case RunStart => !st.closed && !st.runDone && !st.runner.Active()
    case RunLook => st.runner.Looking?
    case RunClose => st.runner.Watching?
    case RunRedial => st.runner.Watching? && st.runner.tunnel in st.deadTunnels
    case RunConnect(t) => st.runner.Redialling? && t !in st.madeTunnels
    case RunGiveUp => st.runner.Redialling?
    case RunPublish(_) => st.runner.HasNew?
    case RunReject => st.runner.Rejecting?
    case RunExit => st.runner.Redialling? || (st.runner.Watching? && st.runner.tunnel in st.deadTunnels)
    case StartBegin =>
      st.starter.NotStarting? && st.stopper.NotStopping? && !st.Refuses() && st.active.None? && !st.runDone
    case StartConnect(t) => st.starter.Starting? && t !in st.madeTunnels
    case StartFail => st.starter.Starting?
    case StartPublish(_) => st.starter.HasFirst?
    case StartReject => st.starter.StartRejecting?
    case DialBegin(d) => d !in st.dials && !st.Refuses()
    case DialConnect(d, s) => d in st.dials && st.dials[d].Dialling? && s !in st.madeStreams
    case DialFail(d) => d in st.dials && st.dials[d].Dialling?
    case DialPublish(d, _) => d in st.dials && st.dials[d].HasStream?
    case DialReject(d) => d in st.dials && st.dials[d].DialRejecting?
    case StopTake =>
      && st.stopper.NotStopping? && st.starter.NotStarting? && !st.runner.Active()
      && (st.closer.NotCalled? || st.closer.Returned?)
    case StopClose => st.stopper.Stopping?
    case Invalidate => !st.closed
    case KillTunnel(t) => t in st.tunnels
    case KillStream(s) => s in st.streams
    case Deregister(s) => s in st.deadStreams
    case CloseBegin => st.closer.NotCalled? && st.stopper.NotStopping?
    case StreamsClosed => st.closer.ClosingStreams? && st.closer.streams <= st.deadStreams
    case DialsDone => st.closer.AwaitingDials? && st.Idle()
    case TunnelClosed => st.closer.ClosingTunnel?
    case RunJoined => st.closer.AwaitingRun? && (st.closer.joins ==> !st.runner.Active())
  }

  function Kill(st: State, t: Option<Tunnel>): State {
    if t.Some? then st.(deadTunnels := st.deadTunnels + {t.value}) else st
  }

  /** Publishing a tunnel: refused after Close or invalidate, or when the caller gave up. */
  function Publish(st: State, t: Tunnel, own: bool): State {
    if st.Refuses() || own then st else st.(active := Some(t), tunnels := st.tunnels + {t})
  }

  /** The steps that concern TCP streams. */
  predicate TouchesStreams(step: Step) {
    step.DialBegin? || step.DialConnect? || step.DialFail? || step.DialPublish? || step.DialReject?
    || step.KillStream? || step.Deregister? || step.CloseBegin? || step.StreamsClosed?
  }

  function Apply(st: State, step: Step): (st': State)
    requires Enabled(st, step)
    ensures !TouchesStreams(step) ==>
              && st'.streams == st.streams && st'.deadStreams == st.deadStreams
              && st'.tcpConnections == st.tcpConnections && st'.madeStreams == st.madeStreams && st'.dials == st.dials
              && st'.closed == st.closed && (st.closer.ClosingStreams? ==> st'.closer == st.closer)
  {
    match step
    case RunStart => st.(runDone := true, runner := Looking)
    case RunLook => st.(runner := if st.active.Some? then Watching(st.active.value) else Exited)
    case RunClose => Kill(st, Some(st.runner.tunnel))
    case RunRedial => st.(runner := Redialling)
    case RunConnect(t) => st.(runner := HasNew(t), madeTunnels := st.madeTunnels + {t})
    case RunGiveUp => st.(active := None, runner := Exited)
    case RunPublish(own) =>
      Publish(st, st.runner.tunnel, own).(
        runner := if st.Refuses() || own then Rejecting(st.runner.tunnel, Cause(st.Refuses(), own)) else Looking)
    case RunReject => Kill(st, Some(st.runner.tunnel)).(runner := Exited)
    case RunExit => st.(runner := Exited)
    case StartBegin => st.(starter := Starting)
    case StartConnect(t) => st.(starter := HasFirst(t), madeTunnels := st.madeTunnels + {t})
    case StartFail => st.(starter := NotStarting)
    case StartPublish(own) =>
      Publish(st, st.starter.tunnel, own).(
        starter := if st.Refuses() || own then StartRejecting(st.starter.tunnel, Cause(st.Refuses(), own)) else NotStarting)
    case StartReject => Kill(st, Some(st.starter.tunnel)).(starter := NotStarting)
    case DialBegin(d) => st.(dials := st.dials[d := Dialling])
    case DialConnect(d, s) => st.(dials := st.dials[d := HasStream(s)], madeStreams := st.madeStreams[s := d])
    case DialFail(d) => st.(dials := st.dials[d := Finished])
    case DialPublish(d, own) =>
      var s := st.dials[d].stream;
      if st.Refuses() || own then st.(dials := st.dials[d := DialRejecting(s, Cause(st.Refuses(), own))])
      else st.(dials := st.dials[d := Finished], tcpConnections := st.tcpConnections + {s}, streams := st.streams + {s})
    case DialReject(d) =>
      st.(dials := st.dials[d := Finished], deadStreams := st.deadStreams + {st.dials[d].stream})
    case StopTake => st.(stopper := Stopping(st.active), active := None, runDone := false, runner := NoRun)
    case StopClose => Kill(st, st.stopper.tunnel).(stopper := NotStopping)
    case Invalidate => st.(cancelled := true)
    case KillTunnel(t) => Kill(st, Some(t))
    case KillStream(s) => st.(deadStreams := st.deadStreams + {s})
    case Deregister(s) => st.(tcpConnections := st.tcpConnections - {s})
    case CloseBegin =>
      st.(closed := true, cancelled := true, active := None,
          closer := ClosingStreams(st.tcpConnections, st.active, st.runDone))
    case StreamsClosed => st.(closer := AwaitingDials(st.closer.tunnel, st.closer.joins))
    case DialsDone => st.(closer := ClosingTunnel(st.closer.tunnel, st.closer.joins))
    case TunnelClosed => Kill(st, st.closer.tunnel).(closer := AwaitingRun(st.closer.joins))
    case RunJoined => st.(closer := Returned)
  }

  function Exec(steps: seq<Step>): Option<State>
    decreases |steps|
  {
    if steps == [] then Some(START)
    else
      var before := Exec(steps[..|steps| - 1]);
      var last := steps[|steps| - 1];
      if before.None? || !Enabled(before.value, last) then None else Some(Apply(before.value, last))
  }

  // ---- Tunnels

  predicate RunsOrStarts(step: Step) {
    step.RunPublish? || step.RunReject? || step.RunConnect? || step.RunExit? || step.RunGiveUp? || step.RunRedial?
    || step.StartPublish? || step.StartReject? || step.StartConnect?
  }

  /** Somebody is bound to close the tunnel. */
  predicate Answered(st: State, t: Tunnel) {
    || st.active == Some(t)
    || st.stopper == Stopping(Some(t))
    || ((st.closer.ClosingStreams? || st.closer.AwaitingDials? || st.closer.ClosingTunnel?)
        && st.closer.tunnel == Some(t))
  }

  predicate TunnelOk(st: State, t: Tunnel) {
    && (t in st.tunnels && t !in st.deadTunnels ==> Answered(st, t))
    && (t in st.madeTunnels && t !in st.tunnels && t !in st.deadTunnels ==>
          || st.runner == HasNew(t) || (st.runner.Rejecting? && st.runner.tunnel == t)
          || st.starter == HasFirst(t) || (st.starter.StartRejecting? && st.starter.tunnel == t))
  }

  predicate ControlOk(st: State) {
    && PhasesOk(st)
    && (st.closer.ClosingTunnel? || st.closer.AwaitingRun? || st.closer.Returned? ==> st.Idle())
  }

  predicate PhasesOk(st: State) {
    && (st.closed <==> !st.closer.NotCalled?) && (st.closed ==> st.cancelled && st.active.None?)
    && (st.active.Some? ==> st.active.value in st.tunnels)
    && (st.runner.Watching? ==> st.active.None? || st.active == Some(st.runner.tunnel))
    && (st.runner.Watching? ==> st.runner.tunnel in st.tunnels)
    && (st.runner.Redialling? || st.runner.HasNew? || st.runner.Rejecting? ==>
          st.active.None? || st.active.value in st.deadTunnels)
    && (st.runner.Active() ==> st.runDone)
    && (!st.starter.NotStarting? ==>
          st.active.None? && st.stopper.NotStopping? && (st.runner.NoRun? || st.runner.Looking? || st.runner.Exited?))
    && (st.runner.Active() && st.closed ==> JoinsRun(st.closer))
    && (st.closed ==> st.stopper.NotStopping? || st.stopper.tunnel.None?)
    && (st.runner.Rejecting? ==> st.runner.cause.Good()) && (st.starter.StartRejecting? ==> st.starter.cause.Good())
  }

  predicate JoinsRun(c: Closer) {
    (c.ClosingStreams? || c.AwaitingDials? || c.ClosingTunnel? || c.AwaitingRun?) && c.joins
  }

  lemma ConnectingKeepsPhases(st: State, step: Step)
    requires PhasesOk(st) && Enabled(st, step) && RunsOrStarts(step)
    ensures PhasesOk(Apply(st, step))
  {
  }

  lemma StreamStepsKeepPhases(st: State, step: Step)
    requires PhasesOk(st) && Enabled(st, step) && TouchesStreams(step)
    ensures PhasesOk(Apply(st, step))
  {
  }

  lemma OtherStepsKeepPhases(st: State, step: Step)
    requires PhasesOk(st) && Enabled(st, step) && !RunsOrStarts(step) && !TouchesStreams(step)
    ensures PhasesOk(Apply(st, step))
  {
  }

  lemma StepKeepsPhases(st: State, step: Step)
    requires PhasesOk(st) && Enabled(st, step)
    ensures PhasesOk(Apply(st, step))
  {
    hide PhasesOk, Apply, Enabled;
    if RunsOrStarts(step) {
      ConnectingKeepsPhases(st, step);
    } else if TouchesStreams(step) {
      StreamStepsKeepPhases(st, step);
    } else {
      OtherStepsKeepPhases(st, step);
    }
  }

  /** After Close or invalidate no new start or dial begins. */
  lemma RefusalKeepsIdle(st: State, step: Step)
    requires st.Refuses() && st.Idle() && Enabled(st, step)
    ensures Apply(st, step).Idle()
  {
    assert Apply(st, step).dials == st.dials;
  }

  lemma StepKeepsControl(st: State, step: Step)
    requires ControlOk(st) && Enabled(st, step)
    ensures ControlOk(Apply(st, step))
  {
    hide PhasesOk;
    StepKeepsPhases(st, step);
    if st.closer.ClosingTunnel? || st.closer.AwaitingRun? || st.closer.Returned? {
      assert st.Refuses() by { LateIsClosed(st); }
      RefusalKeepsIdle(st, step);
    }
  }

  lemma LateIsClosed(st: State)
    ensures PhasesOk(st) && !st.closer.NotCalled? ==> st.Refuses()
  {
  }

  lemma ConnectingKeepsTunnel(st: State, step: Step, t: Tunnel)
    requires PhasesOk(st) && TunnelOk(st, t) && Enabled(st, step) && RunsOrStarts(step)
    ensures TunnelOk(Apply(st, step), t)
  {
  }

  lemma OtherStepsKeepTunnel(st: State, step: Step, t: Tunnel)
    requires PhasesOk(st) && TunnelOk(st, t) && Enabled(st, step) && !RunsOrStarts(step)
    ensures TunnelOk(Apply(st, step), t)
  {
  }

  lemma StepKeepsTunnel(st: State, step: Step, t: Tunnel)
    requires PhasesOk(st) && TunnelOk(st, t) && Enabled(st, step)
    ensures TunnelOk(Apply(st, step), t)
  {
    hide Apply, Enabled, PhasesOk, TunnelOk;
    if RunsOrStarts(step) {
      ConnectingKeepsTunnel(st, step, t);
    } else {
      OtherStepsKeepTunnel(st, step, t);
    }
  }

  // ---- Streams

  predicate StreamOk(st: State, s: Stream) {
    && (s in st.streams && s !in st.deadStreams ==> s in st.tcpConnections)
    && (s in st.streams && s !in st.deadStreams && st.closed ==> st.closer.ClosingStreams? && s in st.closer.streams)
    && (s in st.madeStreams && s !in st.streams && s !in st.deadStreams ==>
          var d := st.madeStreams[s];
          d in st.dials && (st.dials[d] == HasStream(s) || (st.dials[d].DialRejecting? && st.dials[d].stream == s)))
  }

  lemma StreamStepsKeepStream(st: State, step: Step, s: Stream)
    requires PhasesOk(st) && StreamOk(st, s) && Enabled(st, step) && TouchesStreams(step)
    ensures StreamOk(Apply(st, step), s)
  {
    if step.DialPublish? || step.DialReject? || step.DialConnect? || step.DialFail? || step.DialBegin? {
      DialKeepsStream(st, step, s);
    }
  }

  lemma DialKeepsStream(st: State, step: Step, s: Stream)
    requires PhasesOk(st) && StreamOk(st, s) && Enabled(st, step)
    requires step.DialPublish? || step.DialReject? || step.DialConnect? || step.DialFail? || step.DialBegin?
    ensures StreamOk(Apply(st, step), s)
  {
  }

  lemma StepKeepsStream(st: State, step: Step, s: Stream)
    requires PhasesOk(st) && StreamOk(st, s) && Enabled(st, step)
    ensures StreamOk(Apply(st, step), s)
  {
    hide Apply, Enabled, PhasesOk;
    if TouchesStreams(step) {
      StreamStepsKeepStream(st, step, s);
    }
  }

  predicate DialOk(st: State, d: Dialer) {
    d in st.dials && st.dials[d].DialRejecting? ==> st.dials[d].cause.Good()
  }

  lemma StepKeepsDial(st: State, step: Step, d: Dialer)
    requires DialOk(st, d) && Enabled(st, step)
    ensures DialOk(Apply(st, step), d)
  {
    if !TouchesStreams(step) {
      assert Apply(st, step).dials == st.dials;
    }
  }

  // ---- Every run

  ghost predicate Inv(st: State) {
    ControlOk(st) && (forall t :: TunnelOk(st, t)) && (forall s :: StreamOk(st, s)) && (forall d :: DialOk(st, d))
  }

  lemma {:induction false} RunKeepsInv(steps: seq<Step>)
    requires Exec(steps).Some?
    ensures Inv(Exec(steps).value)
    decreases |steps|
  {
    if steps != [] {
      hide Apply, Enabled, PhasesOk, TunnelOk, StreamOk, DialOk;
      var before, last := steps[..|steps| - 1], steps[|steps| - 1];
      RunKeepsInv(before);
      var st := Exec(before).value;
      StepKeepsControl(st, last);
      forall t ensures TunnelOk(Apply(st, last), t) {
        StepKeepsTunnel(st, last, t);
      }
      forall s ensures StreamOk(Apply(st, last), s) {
        StepKeepsStream(st, last, s);
      }
      forall d ensures DialOk(Apply(st, last), d) {
        StepKeepsDial(st, last, d);
      }
    }
  }

  /** A connection once made is published, unless the session or its caller has called it off. */
  lemma OnlyCalledOffIsRefused(steps: seq<Step>, d: Dialer)
    requires Exec(steps).Some?
    ensures var st := Exec(steps).value;
            && (st.runner.Rejecting? ==> st.runner.cause.Good())
            && (st.starter.StartRejecting? ==> st.starter.cause.Good())
            && (d in st.dials && st.dials[d].DialRejecting? ==> st.dials[d].cause.Good())
  {
    hide Exec, TunnelOk, StreamOk;
    RunKeepsInv(steps);
    assert DialOk(Exec(steps).value, d);
  }

  lemma RefusalPublishesNothing(st: State, step: Step)
    requires Enabled(st, step) && st.Refuses()
    ensures var st' := Apply(st, step);
            st'.Refuses() && st'.tunnels == st.tunnels && st'.streams == st.streams
  {
  }

  /** Once Close or invalidate has taken the lock, no tunnel and no stream is published again,
      whatever was being dialled at that moment. */
  lemma {:induction false} NothingPublishedAfter(steps: seq<Step>, more: seq<Step>)
    requires Exec(steps + more).Some? && Exec(steps).Some? && Exec(steps).value.Refuses()
    ensures var st, st' := Exec(steps).value, Exec(steps + more).value;
            st'.Refuses() && st'.tunnels == st.tunnels && st'.streams == st.streams
    decreases |more|
  {
    hide Apply, Enabled;
    if more == [] {
      assert steps + more == steps;
    } else {
      var init := more[..|more| - 1];
      assert (steps + more)[..|steps + more| - 1] == steps + init;
      NothingPublishedAfter(steps, init);
      RefusalPublishesNothing(Exec(steps + init).value, more[|more| - 1]);
    }
  }

  /** When Close returns, every tunnel and stream ever connected is closed, published or refused,
      and no start, run or dial is under way. */
  lemma CloseLeavesNothing(steps: seq<Step>, st: State)
    requires Exec(steps) == Some(st)
    ensures st.closer.Returned? ==> NothingLeft(st)
  {
    hide Exec;
    RunKeepsInv(steps);
    if st.closer.Returned? {
      forall t | t in st.tunnels || t in st.madeTunnels ensures t in st.deadTunnels {
        assert TunnelOk(st, t);
      }
      forall s | s in st.streams || s in st.madeStreams ensures s in st.deadStreams {
        assert StreamOk(st, s);
      }
    }
  }

  predicate NothingLeft(st: State) {
    && st.tunnels <= st.deadTunnels && st.madeTunnels <= st.deadTunnels
    && st.streams <= st.deadStreams && st.madeStreams.Keys <= st.deadStreams
    && st.Idle() && !st.runner.Active()
  }
}
