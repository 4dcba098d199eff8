/** The actor's state and what each of its operations does to it. */
module ServiceCore {
  import opened Wrappers
  import opened ServiceModel

  /** What was given out so far: the log, the logins in it that are unclosed, and every login,
      task generation, timer round and proxy ever put to use. */
  datatype History = History(
    log: seq<Event>, unclosed: set<nat>, everOpened: set<nat>, issued: set<nat>, armed: set<nat>, started: set<nat>)

  /** The actor's fields as one value. */
  datatype Core = Core(
    state: State, session: Option<nat>, pending: Option<Pending>, gen: nat, authSeq: nat, runDone: bool,
    proxy: Option<nat>, proxyDone: bool, wireguardEnabled: bool, socksEnabled: bool, retrying: bool,
    logins: nat, proxies: nat, hist: History)

  // ---- What holds at every step

  predicate Logged(log: seq<Event>, unclosed: set<nat>, state: State) {
    Good(log) && StateAfter(log) == state && unclosed == Unclosed(log)
  }

  predicate LoginsOk(unclosed: set<nat>, everOpened: set<nat>, logins: nat) {
    unclosed <= everOpened && forall l | l in everOpened :: l < logins
  }

  predicate TasksOk(issued: set<nat>, gen: nat) {
    forall g | g in issued :: g <= gen
  }

  predicate TimersOk(armed: set<nat>, authSeq: nat) {
    forall q | q in armed :: q <= authSeq
  }

  predicate ProxiesOk(started: set<nat>, proxies: nat, proxy: Option<nat>, proxyDone: bool) {
    && (forall p | p in started :: p < proxies)
    && (proxy.Some? ==> proxy.value < proxies && (proxy.value in started <==> proxyDone))
    && (proxy.None? ==> !proxyDone)
  }

  predicate Linked(c: Core) {
    Winding(c) && (c.runDone <==> c.gen in c.hist.issued)
  }

  /** The same while a teardown is under way: the generation may already be revoked. */
  predicate Winding(c: Core) {
    && Logged(c.hist.log, c.hist.unclosed, c.state)
    && LoginsOk(c.hist.unclosed, c.hist.everOpened, c.logins) && TasksOk(c.hist.issued, c.gen)
    && TimersOk(c.hist.armed, c.authSeq) && ProxiesOk(c.hist.started, c.proxies, c.proxy, c.proxyDone)
    && (c.retrying ==> c.state.Up?)
  }

  /** Whatever came into being since has a name that was never used before. */
  predicate Named(was: Core, c: Core, n: Names) {
    && n.login !in was.hist.everOpened && c.hist.everOpened <= was.hist.everOpened + {n.login}
    && n.task !in was.hist.issued && c.hist.issued <= was.hist.issued + {n.task}
    && n.round !in was.hist.armed && c.hist.armed <= was.hist.armed + {n.round}
    && n.proxy !in was.hist.started && c.hist.started <= was.hist.started + {n.proxy}
  }

  // ---- What holds between commands

  /** No session, no pending operation, no endpoint task. */
  predicate Bare(c: Core) {
    c.session.None? && c.pending.None? && !c.runDone && !c.proxyDone
  }

  /** Only four states, each with exactly the login it stands for. */
  predicate Settled(c: Core) {
    && Linked(c)
    && match c.state
       case Idle => Bare(c) && c.hist.unclosed == {} && c.authSeq !in c.hist.armed
       case Error => Bare(c) && c.hist.unclosed == {} && c.authSeq !in c.hist.armed
       case AuthPending =>
         && c.session.None? && c.pending.Some? && !c.runDone && !c.proxyDone
         && c.hist.unclosed == {c.pending.value.login} && c.authSeq in c.hist.armed
       case Up =>
         && c.session.Some? && c.pending.None?
         && c.hist.unclosed == {c.session.value} && c.authSeq !in c.hist.armed
       case LoggingIn => false
  }

  /** The resting mode the fields stand for. */
  function ModeOf(c: Core): Mode
    requires Settled(c)
  {
    match c.state
    case Idle => Resting
    case Error => Broken
    case AuthPending => Waiting(c.pending.value, c.authSeq)
    case Up => Running(c.session.value, if c.runDone then Some(c.gen) else None,
                       if c.proxyDone then c.proxy else None, c.wireguardEnabled, c.socksEnabled, c.retrying)
  }

  /** A complete login that is not yet attached to anything. */
  predicate Holding(c: Core, login: nat) {
    && Linked(c) && Bare(c) && c.hist.unclosed == {login} && c.authSeq !in c.hist.armed
    && (c.state.LoggingIn? || c.state.AuthPending?)
  }

  /** The logins the fields answer for. */
  function Held(session: Option<nat>, pending: Option<Pending>): set<nat> {
    (if session.Some? then {session.value} else {}) + (if pending.Some? then {pending.value.login} else {})
  }

  // ---- The operations

  /** Generations and rounds only grow. */
  predicate Grows(c: Core, d: Core) {
    c.gen <= d.gen && c.authSeq <= d.authSeq
  }

  function SetState(c: Core, to: State): (d: Core)
    ensures Grows(c, d)
  {
    c.(state := to, retrying := c.retrying && !to.Idle? && !to.Error?, hist := c.hist.(log := c.hist.log + [Moved(to)]))
  }

  function OpenLogin(c: Core): (d: Core)
    ensures Grows(c, d)
  {
    c.(logins := c.logins + 1, hist := c.hist.(
         log := c.hist.log + [Opened(c.logins)], unclosed := c.hist.unclosed + {c.logins},
         everOpened := c.hist.everOpened + {c.logins}))
  }

  function CloseLogin(c: Core, login: nat): (d: Core)
    ensures Grows(c, d)
  {
    c.(hist := c.hist.(log := c.hist.log + [Closed(login)], unclosed := c.hist.unclosed - {login}))
  }

  function StopTimer(c: Core): (d: Core)
    ensures Grows(c, d)
  {
    c.(authSeq := c.authSeq + 1)
  }

  function StartTimer(c: Core): (d: Core)
    ensures Grows(c, d)
  {
    var c := StopTimer(c);
    c.(hist := c.hist.(armed := c.hist.armed + {c.authSeq}))
  }

  function StopL3(c: Core): (d: Core)
    ensures Grows(c, d)
  {
    c.(gen := c.gen + 1, runDone := false)
  }

  function StopProxy(c: Core): (d: Core)
    ensures Grows(c, d)
  {
    c.(proxy := None, proxyDone := false)
  }

  function StartL3(c: Core, a: Answers): (r: (Core, bool))
    ensures Grows(c, r.0)
  {
    if c.runDone && !a.l3Ended then (c, true) else RunL3(if c.runDone then StopL3(c) else c, a)
  }

  function RunL3(c: Core, a: Answers): (r: (Core, bool))
    ensures Grows(c, r.0)
  {
    if !a.l3 then (c.(wireguardEnabled := true), false)
    else (c.(wireguardEnabled := true, gen := c.gen + 1, runDone := true, retrying := false,
              hist := c.hist.(issued := c.hist.issued + {c.gen + 1})), true)
  }

  function StartProxy(c: Core, a: Answers): (r: (Core, bool))
    ensures Grows(c, r.0)
  {
    if c.proxyDone && !a.proxyEnded then (c, true) else RunProxy(if c.proxyDone then StopProxy(c) else c, a)
  }

  function RunProxy(c: Core, a: Answers): (r: (Core, bool))
    ensures Grows(c, r.0)
  {
    var c := c.(socksEnabled := true);
    if c.proxy.None? && a.proxy.NoProxy? then (c, false)
    else
      var c := LaunchProxy(if c.proxy.None? then NewProxy(c) else c);
      if a.proxy.Listening? then (c, true) else (StopProxy(c), false)
  }

  function NewProxy(c: Core): (d: Core)
    ensures Grows(c, d) && d.proxy.Some?
  {
    c.(proxy := Some(c.proxies), proxies := c.proxies + 1)
  }

  function LaunchProxy(c: Core): (d: Core)
    requires c.proxy.Some?
    ensures Grows(c, d)
  {
    c.(proxyDone := true, hist := c.hist.(started := c.hist.started + {c.proxy.value}))
  }

  function Attach(c: Core, login: nat): (d: Core)
    ensures Grows(c, d)
  {
    var attached := c.(session := Some(login));
    if c.session.None? || c.session == Some(login) then attached else CloseLogin(attached, c.session.value)
  }

  function Release(c: Core): (d: Core)
    ensures Grows(c, d)
  {
    var c := if c.pending.Some? then CloseLogin(c, c.pending.value.login).(pending := None) else c;
    if c.session.Some? then CloseLogin(c, c.session.value).(session := None) else c
  }

  function Teardown(c: Core): (d: Core)
    ensures Grows(c, d)
  {
    Release(StopL3(StopProxy(ToIdle(Revoke(c)))))
  }

  function Revoke(c: Core): (d: Core)
    ensures Grows(c, d)
  {
    StopTimer(c.(gen := c.gen + 1))
  }

  function ToIdle(c: Core): (d: Core)
    ensures Grows(c, d)
  {
    if c.state.Idle? then c else SetState(c, Idle)
  }

  function Fail(c: Core): (d: Core)
    ensures Grows(c, d)
  {
    SetState(Teardown(c), Error)
  }

  function FinishConnect(cfg: Config, c: Core, login: nat, a: Answers): (d: Core)
    ensures Grows(c, d)
  {
    var (c, any) := StartEndpoints(cfg, BringUp(cfg, c, login), a);
    if a.cancelled || !a.sessionLive || !any then Fail(c) else c.(retrying := false)
  }

  function BringUp(cfg: Config, c: Core, login: nat): (d: Core)
    ensures Grows(c, d)
  {
    SetState(Attach(c, login), Up).(wireguardEnabled := cfg.wireguard, socksEnabled := cfg.socks)
  }

  /** The proxy first, then the tunnel; one of them is enough. */
  function StartEndpoints(cfg: Config, c: Core, a: Answers): (r: (Core, bool))
    ensures Grows(c, r.0)
  {
    var (c, proxied) := if cfg.socks then StartProxy(c, a) else (c, false);
    var (c, tunnelled) := if cfg.wireguard then StartL3(c, a) else (c, false);
    (c, proxied || tunnelled)
  }

  /** A device operation on a login of its own, which it closes whatever happens. */
  function RunDevice(c: Core, login: nat, a: Answers): (d: Core)
    ensures Grows(c, d)
  {
    CloseLogin(if a.device then SetState(c, Idle) else Fail(c), login)
  }

  function Await(c: Core): (d: Core)
    ensures Grows(c, d)
  {
    StartTimer(SetState(c, AuthPending))
  }

  /** What follows once the login behind an operation is complete. */
  function Continue(cfg: Config, c: Core, op: Pending, a: Answers): (d: Core)
    ensures Grows(c, d)
  {
    if op.device then RunDevice(c, op.login, a)
    else if op.trust && !a.trustKept then Fail(Attach(c, op.login))
    else FinishConnect(cfg, c, op.login, a)
  }

  /** A login from scratch, for a tunnel or for a device operation. */
  function Connect(cfg: Config, c: Core, device: bool, trust: bool, a: Answers): (d: Core)
    ensures Grows(c, d)
  {
    if !a.password || !a.client then Fail(c) else AfterLogin(cfg, SetState(c, LoggingIn), device, trust, a)
  }

  /** What the answer to the login leads to. */
  function AfterLogin(cfg: Config, c: Core, device: bool, trust: bool, a: Answers): (d: Core)
    ensures Grows(c, d)
  {
    var op := Pending(device, trust, c.logins);
    match a.login
    case LoggedIn => Continue(cfg, OpenLogin(c), op, a)
    case NeedsCode => Await(OpenLogin(c).(pending := Some(op)))
    case LoginFailed(held) => if held then DropLogin(OpenLogin(c), device, op.login) else Fail(c)
  }

  /** A failed login the server still holds: closed at once, or attached for the teardown to close. */
  function DropLogin(c: Core, device: bool, login: nat): (d: Core)
    ensures Grows(c, d)
  {
    Fail(if device then CloseLogin(c, login) else Attach(c, login))
  }

  function Submit(cfg: Config, c: Core, empty: bool, a: Answers): (d: Core)
    ensures Grows(c, d)
  {
    if c.pending.None? || !c.state.AuthPending? || empty then c
    else
      match a.code
      case NeedsAnother => Await(c)
      case WrongCode => c
      case CodeFailed => Fail(c)
      case Accepted => Continue(cfg, StopTimer(c).(pending := None), c.pending.value, a)
  }

  function TunnelDown(c: Core, gen: nat, gone: bool): (d: Core)
    ensures Grows(c, d)
  {
    if gen != c.gen then c
    else if !gone && c.socksEnabled then StopL3(c).(wireguardEnabled := true, retrying := false)
    else Fail(c)
  }

  function SocksDown(c: Core, login: nat, proxy: nat): (d: Core)
    ensures Grows(c, d)
  {
    if c.session != Some(login) || c.proxy != Some(proxy) then c
    else
      var c := StopProxy(c).(socksEnabled := true);
      if c.wireguardEnabled then c else Fail(c)
  }

  function StartOne(cfg: Config, c: Core, e: Endpoint, a: Answers): (d: Core)
    ensures Grows(c, d)
  {
    if c.session.None? || !c.state.Up? || !a.sessionLive then c
    else if e.WireGuard? && cfg.wireguard then StartL3(c, a).0
    else if e.Socks? && cfg.socks then StartProxy(c, a).0
    else c
  }

  function StopOne(c: Core, e: Endpoint): (d: Core)
    ensures Grows(c, d)
  {
    match e
    case WireGuard => StopL3(c).(wireguardEnabled := false, retrying := false)
    case Socks => StopProxy(c).(socksEnabled := false)
    case Unknown => c
  }

  function Handle(cfg: Config, c: Core, cmd: Command, a: Answers): (d: Core)
    ensures Grows(c, d)
  {
    match cmd
    case Start(trust) =>
      if (!cfg.wireguard && !cfg.socks) || !(c.state.AuthPending? || c.state.Idle? || c.state.Error?) then c
      else Connect(cfg, Teardown(c), false, trust, a)
    case Devices(trust) =>
      if c.state.Up? then if a.device then c else Fail(c)
      else Connect(cfg, if c.state.AuthPending? then Teardown(c) else c, true, trust, a)
    case Auth(empty) => Submit(cfg, c, empty, a)
    case AuthTimeout(round) => if round != c.authSeq || !c.state.AuthPending? then c else Fail(c)
    case Stop => if c.state.Idle? then c else Teardown(c)
    case TunnelDown(gen, gone) => TunnelDown(c, gen, gone)
    case TunnelRetry(gen) => if gen != c.gen || !c.state.Up? then c else c.(retrying := true)
    case TunnelRestored(gen) => if gen != c.gen || !c.state.Up? then c else c.(retrying := false)
    case SessionEnded(login) => if c.session == Some(login) then Fail(c) else c
    case SocksDown(login, proxy) => SocksDown(c, login, proxy)
    case EndpointStart(e) => StartOne(cfg, c, e, a)
    case EndpointStop(e) => StopOne(c, e)
  }

  // ---- Each step keeps the links

  lemma SetStateLinked(c: Core, to: State)
    requires Linked(c) && ValidTransition(c.state, to) && (c.state.Up? ==> to.Idle? || to.Error?)
    ensures Linked(SetState(c, to))
  {
    Extend(c.hist.log, Moved(to));
  }

  lemma OpenLinked(c: Core)
    requires Linked(c) && c.hist.unclosed == {}
    ensures Linked(OpenLogin(c)) && c.logins !in c.hist.everOpened
  {
    Extend(c.hist.log, Opened(c.logins));
  }

  lemma CloseLinked(c: Core, login: nat)
    requires Linked(c)
    ensures Linked(CloseLogin(c, login))
  {
    Extend(c.hist.log, Closed(login));
  }

  lemma StopTimerLinked(c: Core)
    requires Linked(c)
    ensures Linked(StopTimer(c)) && StopTimer(c).authSeq !in c.hist.armed
  {
    hide Logged;
  }

  lemma StartTimerLinked(c: Core)
    requires Linked(c)
    ensures Linked(StartTimer(c)) && StartTimer(c).authSeq !in c.hist.armed
  {
    hide Logged;
  }

  lemma ReleaseLinked(c: Core)
    requires Linked(c)
    ensures var d := Release(c);
            Linked(d) && d == c.(session := None, pending := None, hist := d.hist)
            && d.hist == c.hist.(unclosed := c.hist.unclosed - Held(c.session, c.pending), log := d.hist.log)
  {
    hide Linked;
    var p := if c.pending.Some? then CloseLogin(c, c.pending.value.login).(pending := None) else c;
    assert Linked(p) by {
      if c.pending.Some? {
        CloseLinked(c, c.pending.value.login);
        LinkedIgnores(CloseLogin(c, c.pending.value.login), c.session, None);
      }
    }
    if p.session.Some? {
      CloseLinked(p, p.session.value);
      LinkedIgnores(CloseLogin(p, p.session.value), None, p.pending);
    }
  }

  lemma LinkedIgnores(c: Core, session: Option<nat>, pending: Option<Pending>)
    requires Linked(c)
    ensures Linked(c.(session := session, pending := pending))
  {
    hide Logged, LoginsOk, TasksOk, TimersOk, ProxiesOk;
  }

  /** After teardown nothing is held but what the caller kept in its own hands. */
  predicate TornDown(c: Core, d: Core) {
    && Linked(d) && Bare(d) && d.state.Idle? && d.proxy.None? && d.authSeq !in d.hist.armed
    && d.hist.unclosed == c.hist.unclosed - Held(c.session, c.pending)
    && d.hist.everOpened == c.hist.everOpened && d.hist.issued == c.hist.issued && d.hist.armed == c.hist.armed
    && d.hist.started == c.hist.started
  }

  lemma RevokeWinds(c: Core)
    requires Linked(c)
    ensures Winding(Revoke(c)) && Revoke(c).authSeq !in c.hist.armed
  {
    hide Logged;
  }

  lemma ToIdleWinds(c: Core)
    requires Winding(c)
    ensures Winding(ToIdle(c))
  {
    hide LoginsOk, TasksOk, TimersOk, ProxiesOk;
    Extend(c.hist.log, Moved(Idle));
  }

  lemma HaltLinked(c: Core)
    requires Winding(c)
    ensures Linked(StopL3(StopProxy(c)))
  {
    hide Logged;
  }

  lemma TeardownLinked(c: Core)
    requires Linked(c)
    ensures TornDown(c, Teardown(c))
  {
    hide Linked, Winding, Release;
    RevokeWinds(c);
    ToIdleWinds(Revoke(c));
    HaltLinked(ToIdle(Revoke(c)));
    ReleaseLinked(StopL3(StopProxy(ToIdle(Revoke(c)))));
  }

  /** Everything released and the error recorded; a login in the caller's hands is still open. */
  predicate FailedFrom(c: Core, d: Core) {
    && Linked(d) && Bare(d) && d.state.Error? && d.authSeq !in d.hist.armed
    && d.hist.unclosed == c.hist.unclosed - Held(c.session, c.pending)
    && d.hist.everOpened == c.hist.everOpened && d.hist.issued == c.hist.issued && d.hist.armed == c.hist.armed
    && d.hist.started == c.hist.started
  }

  lemma FailLinked(c: Core)
    requires Linked(c)
    ensures FailedFrom(c, Fail(c))
  {
    hide Linked, Teardown;
    TeardownLinked(c);
    SetStateLinked(Teardown(c), Error);
  }

  /** A task that runs is left alone; otherwise one starts under a generation never used, or
      none is left. */
  predicate L3Started(c: Core, d: Core, ok: bool, a: Answers) {
    && Linked(d)
    && d == c.(gen := d.gen, runDone := d.runDone, retrying := d.retrying, hist := c.hist.(issued := d.hist.issued),
               wireguardEnabled := d.wireguardEnabled)
    && (if c.runDone && !a.l3Ended then ok && d == c
        else && ok == a.l3 && d.runDone == ok && d.wireguardEnabled && d.retrying == (c.retrying && !ok)
             && if ok then d.gen !in c.hist.issued && d.hist.issued == c.hist.issued + {d.gen}
                else d.hist.issued == c.hist.issued)
  }

  lemma StartL3Linked(c: Core, a: Answers)
    requires Linked(c)
    ensures L3Started(c, StartL3(c, a).0, StartL3(c, a).1, a)
  {
    hide Logged;
  }

  /** A proxy that runs is left alone; otherwise p, which never ran, listens, or none is left. */
  predicate ProxyStarted(c: Core, d: Core, ok: bool, a: Answers, p: nat) {
    && Linked(d)
    && d == c.(proxy := d.proxy, proxyDone := d.proxyDone, proxies := d.proxies,
               hist := c.hist.(started := d.hist.started), socksEnabled := d.socksEnabled)
    && p !in c.hist.started && d.hist.started <= c.hist.started + {p}
    && (if c.proxyDone && !a.proxyEnded then ok && d == c
        else ok == a.proxy.Listening? == d.proxyDone && d.proxy == (if ok then Some(p) else None) && d.socksEnabled)
  }

  lemma StartProxyLinked(c: Core, a: Answers) returns (p: nat)
    requires Linked(c)
    ensures ProxyStarted(c, StartProxy(c, a).0, StartProxy(c, a).1, a, p)
  {
    hide Logged;
    p := if c.proxy.Some? && !c.proxyDone then c.proxy.value else c.proxies;
  }

  // ---- Each operation arrives where the reference machine says

  ghost predicate Arrives(was: Core, c: Core, m: Mode, n: Names) {
    Settled(c) && ModeOf(c) == m && Named(was, c, n)
  }

  lemma FreshNames(c: Core)
    requires Linked(c)
    ensures c.logins !in c.hist.everOpened && c.authSeq + 1 !in c.hist.armed && c.gen + 1 !in c.hist.issued
    ensures !c.runDone ==> c.gen !in c.hist.issued
    ensures c.proxies !in c.hist.started
    ensures Linked(c.(retrying := false))
  {
    hide Logged;
  }

  lemma UpLinked(cfg: Config, c: Core, login: nat)
    requires Holding(c, login)
    ensures Linked(BringUp(cfg, c, login))
  {
    hide LoginsOk, TimersOk, TasksOk, ProxiesOk;
    Extend(c.hist.log, Moved(Up));
  }

  lemma StartEndpointsLinked(cfg: Config, c: Core, a: Answers) returns (n: Names)
    requires Linked(c) && !c.runDone && !c.proxyDone
    ensures var (d, any) := StartEndpoints(cfg, c, a);
            && Linked(d) && Named(c, d, n) && any == (d.runDone || d.proxyDone)
            && d.state == c.state && d.session == c.session && d.pending == c.pending
            && d.hist.unclosed == c.hist.unclosed
            && d.authSeq == c.authSeq && d.hist.armed == c.hist.armed && d.hist.everOpened == c.hist.everOpened
            && d.wireguardEnabled == (c.wireguardEnabled || cfg.wireguard)
            && d.socksEnabled == (c.socksEnabled || cfg.socks)
            && d.runDone == (cfg.wireguard && a.l3) && (d.runDone ==> d.gen == n.task)
            && d.proxyDone == (cfg.socks && a.proxy.Listening?) && (d.proxyDone ==> d.proxy == Some(n.proxy))
  {
    hide Linked, StartL3, StartProxy;
    var p := StartProxyLinked(c, a);
    var (c1, proxied) := if cfg.socks then StartProxy(c, a) else (c, false);
    StartL3Linked(c1, a);
    var (c2, tunnelled) := if cfg.wireguard then StartL3(c1, a) else (c1, false);
    n := Names(c.logins, c2.gen, c.authSeq + 1, p);
    FreshNames(c);
    FreshNames(c2);
  }

  lemma FinishServes(cfg: Config, c: Core, login: nat, a: Answers) returns (n: Names)
    requires Holding(c, login)
    ensures Arrives(c, FinishConnect(cfg, c, login, a), Connected(cfg, login, a, n), n)
    ensures FinishConnect(cfg, c, login, a).hist.everOpened == c.hist.everOpened
  {
    hide Linked, StartEndpoints, Fail;
    UpLinked(cfg, c, login);
    var up := BringUp(cfg, c, login);
    n := StartEndpointsLinked(cfg, up, a);
    var ready := StartEndpoints(cfg, up, a).0;
    FreshNames(ready);
    FailLinked(ready);
  }

  lemma RunDeviceServes(cfg: Config, c: Core, op: Pending, a: Answers) returns (n: Names)
    requires Holding(c, op.login) && op.device
    ensures Arrives(c, RunDevice(c, op.login, a), Proceed(cfg, op, a, n), n)
    ensures RunDevice(c, op.login, a).hist.everOpened == c.hist.everOpened
  {
    hide Linked, Fail;
    FreshNames(c);
    n := Names(c.logins, c.gen + 1, c.authSeq + 1, c.proxies);
    if a.device {
      SetStateLinked(c, Idle);
      CloseLinked(SetState(c, Idle), op.login);
    } else {
      FailLinked(c);
      CloseLinked(Fail(c), op.login);
    }
  }

  lemma AttachFailServes(c: Core, login: nat) returns (n: Names)
    requires Linked(c) && c.session.None? && c.pending.None? && c.hist.unclosed <= {login} && (c.authSeq !in c.hist.armed)
    ensures Arrives(c, Fail(Attach(c, login)), Broken, n)
    ensures Fail(Attach(c, login)).hist.everOpened == c.hist.everOpened
  {
    hide Linked, Fail;
    LinkedIgnores(c, Some(login), None);
    FreshNames(c);
    n := Names(c.logins, c.gen + 1, c.authSeq + 1, c.proxies);
    FailLinked(Attach(c, login));
  }

  lemma ContinueServes(cfg: Config, c: Core, op: Pending, a: Answers) returns (n: Names)
    requires Holding(c, op.login)
    ensures Arrives(c, Continue(cfg, c, op, a), Proceed(cfg, op, a, n), n)
    ensures Continue(cfg, c, op, a).hist.everOpened == c.hist.everOpened
  {
    hide Linked, Fail, RunDevice, FinishConnect, Arrives, Attach, Connected;
    if op.device {
      n := RunDeviceServes(cfg, c, op, a);
    } else if op.trust && !a.trustKept {
      n := AttachFailServes(c, op.login);
    } else {
      n := FinishServes(cfg, c, op.login, a);
    }
  }

  /** Nothing held, ready for a new login. */
  predicate Clear(c: Core) {
    Linked(c) && Bare(c) && c.hist.unclosed == {} && c.authSeq !in c.hist.armed && (c.state.Idle? || c.state.Error?)
  }

  lemma AwaitServes(c: Core, op: Pending) returns (n: Names)
    requires Linked(c) && c.session.None? && !c.runDone && !c.proxyDone && c.hist.unclosed == {op.login}
    requires c.pending == Some(op) && (c.state.LoggingIn? || c.state.AuthPending?)
    ensures Arrives(c, Await(c), Waiting(op, n.round), n) && Await(c).hist.everOpened == c.hist.everOpened
  {
    hide Linked;
    SetStateLinked(c, AuthPending);
    StartTimerLinked(SetState(c, AuthPending));
    FreshNames(c);
    n := Names(c.logins, c.gen + 1, c.authSeq + 1, c.proxies);
  }

  /** A fresh login from a clear state. */
  lemma OpenHolds(c: Core)
    requires Clear(c)
    ensures var d := SetState(c, LoggingIn);
            && Linked(d) && Bare(d) && d.hist.unclosed == {} && d.logins == c.logins && c.logins !in c.hist.everOpened
            && Holding(OpenLogin(d), c.logins) && OpenLogin(d).hist.everOpened == c.hist.everOpened + {c.logins}
            && OpenLogin(d) == d.(logins := OpenLogin(d).logins, hist := OpenLogin(d).hist)
            && OpenLogin(d).hist == d.hist.(log := OpenLogin(d).hist.log, unclosed := {c.logins},
                                            everOpened := OpenLogin(d).hist.everOpened)
            && d == c.(state := LoggingIn, retrying := d.retrying, hist := c.hist.(log := d.hist.log))
  {
    hide Linked;
    SetStateLinked(c, LoggingIn);
    OpenLinked(SetState(c, LoggingIn));
  }

  /** The names of a step that opened a login before. */
  lemma NamedFrom(was: Core, c: Core, d: Core, n: Names)
    requires Named(c, d, n) && d.hist.everOpened <= was.hist.everOpened + {was.logins}
    requires was.logins !in was.hist.everOpened
    requires c.hist.issued == was.hist.issued && c.hist.armed == was.hist.armed && c.hist.started == was.hist.started
    ensures Named(was, d, n.(login := was.logins))
  {
  }

  lemma ConnectServes(cfg: Config, c: Core, device: bool, trust: bool, a: Answers) returns (n: Names)
    requires Clear(c)
    ensures Arrives(c, Connect(cfg, c, device, trust, a), LogIn(cfg, Pending(device, trust, n.login), a, n), n)
  {
    hide Linked, SetState, OpenLogin, Fail, Continue, Await, Attach, CloseLogin, Named, Proceed;
    OpenHolds(c);
    var d := SetState(c, LoggingIn);
    var e := OpenLogin(d);
    var op := Pending(device, trust, c.logins);
    if !a.password || !a.client {
      n := FailServes(c);
    } else if a.login.LoggedIn? {
      n := ContinueServes(cfg, e, op, a);
      NamedFrom(c, e, Continue(cfg, e, op, a), n);
      ProceedIgnoresLogin(cfg, op, a, n, c.logins);
      n := n.(login := c.logins);
    } else if a.login.NeedsCode? {
      var w := e.(pending := Some(op));
      LinkedIgnores(e, None, Some(op));
      n := AwaitServes(w, op);
      NamedFrom(c, w, Await(w), n);
      n := n.(login := c.logins);
    } else if !a.login.held {
      n := FailServes(d);
      NamedFrom(c, d, Fail(d), n);
      n := n.(login := c.logins);
    } else if device {
      CloseLinked(e, op.login);
      CloseEmpties(e, op.login);
      n := FailServes(CloseLogin(e, op.login));
      NamedFrom(c, CloseLogin(e, op.login), Fail(CloseLogin(e, op.login)), n);
      n := n.(login := c.logins);
    } else {
      n := AttachFailServes(e, op.login);
      NamedFrom(c, e, Fail(Attach(e, op.login)), n);
      n := n.(login := c.logins);
    }
  }

  lemma CloseEmpties(c: Core, login: nat)
    ensures CloseLogin(c, login) ==
              c.(hist := c.hist.(unclosed := c.hist.unclosed - {login}, log := CloseLogin(c, login).hist.log))
  {
  }

  lemma ProceedIgnoresLogin(cfg: Config, op: Pending, a: Answers, n: Names, login: nat)
    ensures Proceed(cfg, op, a, n) == Proceed(cfg, op, a, n.(login := login))
  {
  }

  /** Failing with everything held by the fields leaves nothing. */
  lemma FailServes(c: Core) returns (n: Names)
    requires Linked(c) && c.hist.unclosed <= Held(c.session, c.pending)
    ensures Arrives(c, Fail(c), Broken, n) && Fail(c).hist.everOpened == c.hist.everOpened
  {
    hide Linked, Fail;
    FailLinked(c);
    FreshNames(c);
    n := Names(c.logins, c.gen + 1, c.authSeq + 1, c.proxies);
  }

  /** Reports come from tasks that ran, timeouts from timers that were armed. */
  predicate Plausible(c: Core, cmd: Command) {
    match cmd
    case TunnelDown(gen, _) => gen in c.hist.issued
    case TunnelRetry(gen) => gen in c.hist.issued
    case TunnelRestored(gen) => gen in c.hist.issued
    case AuthTimeout(round) => round in c.hist.armed
    case SocksDown(_, proxy) => proxy in c.hist.started
    case _ => true
  }

  /** The command led from one settled state to another, as the reference machine says. */
  ghost predicate ServedAs(cfg: Config, c: Core, d: Core, cmd: Command, a: Answers, n: Names)
    requires Settled(c)
  {
    && Settled(d) && Named(c, d, n)
    && (Plausible(c, cmd) ==> ModeOf(d) == Serve(cfg, ModeOf(c), cmd, a, n))
  }

  ghost predicate Served(cfg: Config, c: Core, cmd: Command, a: Answers, n: Names)
    requires Settled(c)
  {
    ServedAs(cfg, c, Handle(cfg, c, cmd, a), cmd, a, n)
  }

  lemma UnchangedNames(c: Core) returns (n: Names)
    requires Linked(c)
    ensures forall d: Core | d.hist.everOpened == c.hist.everOpened && d.hist.issued == c.hist.issued && d.hist.armed == c.hist.armed
                             && d.hist.started == c.hist.started :: Named(c, d, n)
  {
    hide Linked;
    FreshNames(c);
    n := Names(c.logins, c.gen + 1, c.authSeq + 1, c.proxies);
  }

  lemma SettledHolds(c: Core)
    requires Settled(c)
    ensures Linked(c) && c.hist.unclosed == Held(c.session, c.pending) && !c.state.LoggingIn?
    ensures c.state.Idle? || c.state.Error? ==> Clear(c)
  {
    hide Linked;
  }

  lemma TeardownClears(c: Core)
    requires Settled(c)
    ensures Clear(Teardown(c)) && TornDown(c, Teardown(c)) && Teardown(c).state.Idle?
  {
    hide Linked, Teardown;
    SettledHolds(c);
    TeardownLinked(c);
  }

  lemma LoginServed(cfg: Config, c: Core, cmd: Command, a: Answers) returns (n: Names)
    requires Settled(c) && (cmd.Start? || cmd.Devices?)
    ensures Served(cfg, c, cmd, a, n)
  {
    hide Linked, Teardown, Connect, Fail, LogIn, Held, TornDown;
    SettledHolds(c);
    n := UnchangedNames(c);
    TeardownClears(c);
    var from := if cmd.Devices? && !c.state.AuthPending? then c else Teardown(c);
    if !c.state.Up? && (cmd.Devices? || cfg.wireguard || cfg.socks) {
      n := ConnectServes(cfg, from, cmd.Devices?, cmd.trust, a);
      NamedAfterTeardown(c, from, Connect(cfg, from, cmd.Devices?, cmd.trust, a), n);
    } else if cmd.Devices? && c.state.Up? && !a.device {
      n := FailServes(c);
    }
  }

  lemma NamedAfterTeardown(was: Core, c: Core, d: Core, n: Names)
    ensures (c == was || TornDown(was, c)) && Named(c, d, n) ==> Named(was, d, n)
  {
  }

  lemma AuthServed(cfg: Config, c: Core, cmd: Command, a: Answers) returns (n: Names)
    requires Settled(c) && (cmd.Auth? || cmd.AuthTimeout?)
    ensures Served(cfg, c, cmd, a, n)
  {
    hide Linked, Fail, Continue, Await, Proceed, Held;
    SettledHolds(c);
    n := UnchangedNames(c);
    if c.state.AuthPending? {
      var op := c.pending.value;
      if cmd.AuthTimeout? || a.code.CodeFailed? {
        n := FailServes(c);
      } else if a.code.NeedsAnother? {
        n := AwaitServes(c, op);
      } else if a.code.Accepted? {
        StopTimerLinked(c);
        LinkedIgnores(StopTimer(c), None, None);
        n := ContinueServes(cfg, StopTimer(c).(pending := None), op, a);
      }
    }
  }

  lemma StopServed(cfg: Config, c: Core, cmd: Command, a: Answers) returns (n: Names)
    requires Settled(c) && (cmd.Stop? || cmd.SessionEnded?)
    ensures Served(cfg, c, cmd, a, n)
  {
    hide Linked, Fail, Teardown, Held;
    SettledHolds(c);
    TeardownClears(c);
    n := UnchangedNames(c);
    if cmd.SessionEnded? && c.session == Some(cmd.login) {
      n := FailServes(c);
    }
  }

  lemma HandleServes(cfg: Config, c: Core, cmd: Command, a: Answers) returns (n: Names)
    requires Settled(c)
    ensures Served(cfg, c, cmd, a, n)
  {
    hide Linked, Settled, Served;
    if cmd.Start? || cmd.Devices? {
      n := LoginServed(cfg, c, cmd, a);
    } else if cmd.Auth? || cmd.AuthTimeout? {
      n := AuthServed(cfg, c, cmd, a);
    } else if cmd.Stop? || cmd.SessionEnded? {
      n := StopServed(cfg, c, cmd, a);
    } else if cmd.TunnelDown? {
      n := TunnelServed(cfg, c, cmd, a);
    } else if cmd.TunnelRetry? || cmd.TunnelRestored? {
      n := LinkServed(cfg, c, cmd, a);
    } else if cmd.SocksDown? {
      n := SocksServed(cfg, c, cmd, a);
    } else if cmd.EndpointStop? {
      n := StopOneServed(cfg, c, cmd, a);
    } else if cmd.endpoint.Socks? {
      n := StartProxyServed(cfg, c, cmd, a);
    } else {
      n := StartTunnelServed(cfg, c, cmd, a);
    }
  }

  lemma StopL3Linked(c: Core, enabled: bool)
    requires Linked(c)
    ensures Linked(StopL3(c).(wireguardEnabled := enabled, retrying := false))
  {
    hide Logged;
  }

  lemma StopProxyLinked(c: Core, enabled: bool)
    requires Linked(c)
    ensures Linked(StopProxy(c).(socksEnabled := enabled))
  {
    hide Logged;
  }

  lemma CurrentTask(c: Core)
    requires Linked(c)
    ensures c.runDone <==> c.gen in c.hist.issued
    ensures c.proxy.Some? ==> (c.proxyDone <==> c.proxy.value in c.hist.started)
    ensures c.proxyDone ==> c.proxy.Some?
    ensures c.state.Up? ==> Linked(c.(retrying := true)) && Linked(c.(retrying := false))
  {
    hide Logged;
  }

  lemma TunnelServed(cfg: Config, c: Core, cmd: Command, a: Answers) returns (n: Names)
    requires Settled(c) && cmd.TunnelDown?
    ensures Served(cfg, c, cmd, a, n)
  {
    hide Linked, Fail, Held;
    SettledHolds(c);
    CurrentTask(c);
    StopL3Linked(c, true);
    n := UnchangedNames(c);
    if cmd.gen == c.gen && (cmd.gone || !c.socksEnabled) {
      n := FailServes(c);
    }
  }

  lemma LinkServed(cfg: Config, c: Core, cmd: Command, a: Answers) returns (n: Names)
    requires Settled(c) && (cmd.TunnelRetry? || cmd.TunnelRestored?)
    ensures Served(cfg, c, cmd, a, n)
  {
    hide Linked;
    SettledHolds(c);
    CurrentTask(c);
    n := UnchangedNames(c);
  }

  lemma SocksServed(cfg: Config, c: Core, cmd: Command, a: Answers) returns (n: Names)
    requires Settled(c) && cmd.SocksDown?
    ensures Served(cfg, c, cmd, a, n)
  {
    hide Linked, Fail, Held;
    SettledHolds(c);
    CurrentTask(c);
    StopProxyLinked(c, true);
    n := UnchangedNames(c);
    if c.session == Some(cmd.login) && c.proxy == Some(cmd.proxy) && !c.wireguardEnabled {
      n := FailServes(StopProxy(c).(socksEnabled := true));
    }
  }

  lemma StopOneServed(cfg: Config, c: Core, cmd: Command, a: Answers) returns (n: Names)
    requires Settled(c) && cmd.EndpointStop?
    ensures Served(cfg, c, cmd, a, n)
  {
    hide Linked;
    SettledHolds(c);
    StopL3Linked(c, false);
    StopProxyLinked(c, false);
    n := UnchangedNames(c);
  }

  lemma StartTunnelServed(cfg: Config, c: Core, cmd: Command, a: Answers) returns (n: Names)
    requires Settled(c) && cmd.EndpointStart? && !cmd.endpoint.Socks?
    ensures Served(cfg, c, cmd, a, n)
  {
    hide Linked, StartL3;
    SettledHolds(c);
    StartL3Linked(c, a);
    n := UnchangedNames(c);
    var d := StartL3(c, a).0;
    if d.hist.issued != c.hist.issued {
      n := n.(task := d.gen);
    }
  }

  lemma StartProxyServed(cfg: Config, c: Core, cmd: Command, a: Answers) returns (n: Names)
    requires Settled(c) && cmd.EndpointStart? && cmd.endpoint.Socks?
    ensures Served(cfg, c, cmd, a, n)
  {
    hide Linked, StartProxy;
    SettledHolds(c);
    CurrentTask(c);
    var p := StartProxyLinked(c, a);
    n := UnchangedNames(c);
    n := n.(proxy := p);
  }

  // ---- Whole runs

  datatype Input = Input(cmd: Command, answers: Answers)

  function HandleAll(cfg: Config, c: Core, inputs: seq<Input>): Core
    decreases |inputs|
  {
    if inputs == [] then c
    else
      var last := inputs[|inputs| - 1];
      Handle(cfg, HandleAll(cfg, c, inputs[..|inputs| - 1]), last.cmd, last.answers)
  }

  predicate AllPlausible(cfg: Config, c: Core, inputs: seq<Input>) {
    forall i | 0 <= i < |inputs| :: Plausible(HandleAll(cfg, c, inputs[..i]), inputs[i].cmd)
  }

  /** Every run, whatever the commands and the answers, rests only in the four settled states. */
  lemma {:induction false} RunSettles(cfg: Config, c: Core, inputs: seq<Input>)
    requires Settled(c)
    ensures Settled(HandleAll(cfg, c, inputs))
    decreases |inputs|
  {
    hide Settled, Handle;
    if inputs != [] {
      var last := inputs[|inputs| - 1];
      RunSettles(cfg, c, inputs[..|inputs| - 1]);
      var _ := HandleServes(cfg, HandleAll(cfg, c, inputs[..|inputs| - 1]), last.cmd, last.answers);
    }
  }

  /** At every step of it, not only between commands, at most one login is unclosed and no
      illegal transition is taken. */
  lemma OneLoginAlways(cfg: Config, c: Core, inputs: seq<Input>, at: nat)
    requires Settled(c) && at <= |HandleAll(cfg, c, inputs).hist.log|
    ensures var log := HandleAll(cfg, c, inputs).hist.log;
            && |Unclosed(log[..at])| <= 1
            && (at < |log| && log[at].Moved? ==> ValidTransition(StateAfter(log[..at]), log[at].to))
  {
    hide HandleAll;
    RunSettles(cfg, c, inputs);
    AtMostOneLogin(HandleAll(cfg, c, inputs).hist.log, at);
  }

  /** And it follows the reference machine, command by command. */
  lemma {:induction false} RunServes(cfg: Config, c: Core, inputs: seq<Input>) returns (turns: seq<Turn>)
    requires Settled(c) && AllPlausible(cfg, c, inputs)
    ensures |turns| == |inputs|
    ensures forall i | 0 <= i < |turns| :: turns[i].cmd == inputs[i].cmd && turns[i].answers == inputs[i].answers
    ensures Settled(HandleAll(cfg, c, inputs))
    ensures ModeOf(HandleAll(cfg, c, inputs)) == ServeAll(cfg, ModeOf(c), turns)
    decreases |inputs|
  {
    hide Settled, Handle, Serve, ModeOf, Plausible, Named, AllPlausible;
    if inputs == [] {
      return [];
    }
    var before, last := inputs[..|inputs| - 1], inputs[|inputs| - 1];
    PlausibleBefore(cfg, c, inputs);
    var earlier := RunServes(cfg, c, before);
    var n := HandleServes(cfg, HandleAll(cfg, c, before), last.cmd, last.answers);
    turns := earlier + [Turn(last.cmd, last.answers, n)];
    assert turns[..|turns| - 1] == earlier;
  }

  lemma PlausibleBefore(cfg: Config, c: Core, inputs: seq<Input>)
    requires inputs != [] && AllPlausible(cfg, c, inputs)
    ensures AllPlausible(cfg, c, inputs[..|inputs| - 1])
    ensures Plausible(HandleAll(cfg, c, inputs[..|inputs| - 1]), inputs[|inputs| - 1].cmd)
  {
    hide HandleAll, Plausible;
    var before := inputs[..|inputs| - 1];
    forall i | 0 <= i < |before| ensures Plausible(HandleAll(cfg, c, before[..i]), before[i].cmd) {
      assert before[..i] == inputs[..i];
    }
  }

  // ---- Stale reports

  lemma {:induction false} RunGrows(cfg: Config, c: Core, inputs: seq<Input>)
    ensures Grows(c, HandleAll(cfg, c, inputs))
    decreases |inputs|
  {
    if inputs != [] {
      hide Handle;
      var last := inputs[|inputs| - 1];
      RunGrows(cfg, c, inputs[..|inputs| - 1]);
      assert Grows(HandleAll(cfg, c, inputs[..|inputs| - 1]), HandleAll(cfg, c, inputs));
    }
  }

  /** The task is the latest one and was not stopped. */
  predicate CurrentL3(c: Core, gen: nat) {
    c.runDone && c.gen == gen
  }

  /** The round is the one being waited in. */
  predicate CurrentRound(c: Core, round: nat) {
    c.state.AuthPending? && c.authSeq == round
  }

  /** Once a task has been stopped or replaced, its reports change nothing, however late. */
  lemma StaleReportInert(cfg: Config, c: Core, inputs: seq<Input>, gen: nat, gone: bool, a: Answers)
    requires Settled(c) && gen in c.hist.issued && !CurrentL3(c, gen)
    ensures var d := HandleAll(cfg, c, inputs);
            && !CurrentL3(d, gen)
            && Handle(cfg, d, Command.TunnelDown(gen, gone), a) == d
            && Handle(cfg, d, TunnelRetry(gen), a) == d && Handle(cfg, d, TunnelRestored(gen), a) == d
  {
    hide HandleAll, Logged;
    RunGrows(cfg, c, inputs);
  }

  /** Once a waiting round is over, its timeout changes nothing, however late. */
  lemma StaleTimeoutInert(cfg: Config, c: Core, inputs: seq<Input>, round: nat, a: Answers)
    requires Settled(c) && round in c.hist.armed && !CurrentRound(c, round)
    ensures var d := HandleAll(cfg, c, inputs);
            !CurrentRound(d, round) && Handle(cfg, d, AuthTimeout(round), a) == d
  {
    hide HandleAll, Logged;
    RunGrows(cfg, c, inputs);
    assert round < c.authSeq;
  }

  // ---- The same for some names, as the actor's methods promise it

  ghost predicate StartsProxy(c: Core, d: Core, ok: bool, a: Answers) {
    exists p :: ProxyStarted(c, d, ok, a, p)
  }

  ghost predicate Finishes(cfg: Config, c: Core, d: Core, login: nat, a: Answers) {
    exists n :: Arrives(c, d, Connected(cfg, login, a, n), n)
  }

  function DeviceMode(a: Answers): Mode {
    if a.device then Resting else Broken
  }

  ghost predicate EndsDeviceOp(c: Core, d: Core, a: Answers) {
    exists n :: Arrives(c, d, DeviceMode(a), n)
  }

  ghost predicate LogsIn(cfg: Config, c: Core, d: Core, device: bool, trust: bool, a: Answers) {
    exists n: Names :: Arrives(c, d, LogIn(cfg, Pending(device, trust, n.login), a, n), n)
  }

  ghost predicate Serves(cfg: Config, c: Core, d: Core, cmd: Command, a: Answers)
    requires Settled(c)
  {
    exists n :: ServedAs(cfg, c, d, cmd, a, n)
  }

  /** For the commands that meet no answers. */
  const NO_ANSWERS :=
    Answers(false, false, NeedsCode, WrongCode, false, false, NoProxy, false, false, false, false, false)

  /** No task that was ever issued can still report. */
  predicate NoCurrentL3(c: Core) {
    Linked(c) && forall g | g in c.hist.issued :: !CurrentL3(c, g)
  }

  lemma StopL3Promises(c: Core)
    ensures Linked(c) ==> NoCurrentL3(StopL3(c))
  {
    hide Logged;
  }

  lemma StartProxyPromises(c: Core, a: Answers)
    ensures Linked(c) ==> StartsProxy(c, StartProxy(c, a).0, StartProxy(c, a).1, a)
  {
    hide Linked, StartProxy, ProxyStarted;
    if Linked(c) {
      var p := StartProxyLinked(c, a);
    }
  }

  lemma FinishPromises(cfg: Config, c: Core, login: nat, a: Answers)
    ensures Holding(c, login) ==> Finishes(cfg, c, FinishConnect(cfg, c, login, a), login, a)
  {
    hide Arrives, FinishConnect, Connected, Holding;
    if Holding(c, login) {
      var n := FinishServes(cfg, c, login, a);
    }
  }

  lemma RunDevicePromises(c: Core, login: nat, a: Answers)
    ensures Holding(c, login) ==> EndsDeviceOp(c, RunDevice(c, login, a), a)
  {
    hide Arrives, RunDevice, Holding;
    if Holding(c, login) {
      var n := RunDeviceServes(Config(true, true), c, Pending(true, false, login), a);
      assert Arrives(c, RunDevice(c, login, a), DeviceMode(a), n);
    }
  }

  lemma ConnectPromises(cfg: Config, c: Core, device: bool, trust: bool, a: Answers)
    ensures Clear(c) ==> LogsIn(cfg, c, Connect(cfg, c, device, trust, a), device, trust, a)
  {
    hide Arrives, Connect, LogIn, Clear;
    if Clear(c) {
      var n := ConnectServes(cfg, c, device, trust, a);
    }
  }

  lemma HandlePromises(cfg: Config, c: Core, cmd: Command, a: Answers)
    ensures Settled(c) ==> Serves(cfg, c, Handle(cfg, c, cmd, a), cmd, a)
  {
    hide Settled, ServedAs, Handle;
    if Settled(c) {
      var n := HandleServes(cfg, c, cmd, a);
    }
  }
}
