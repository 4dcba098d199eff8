/** What the service promises, without timers, generations or teardown order.

    `Serve` is the reference machine: each command takes the service from one resting mode to
    another.  The actor in module Service, which works field by field, is proved to follow it.
    The answers of the network arrive with each command, so every answer is covered.
 */
module ServiceModel {
  import opened Wrappers

  datatype State = Idle | LoggingIn | AuthPending | Up | Error

  predicate ValidTransition(from: State, to: State) {
    match from
    case Idle => to.Idle? || to.LoggingIn? || to.Error?
    case LoggingIn => true
    case AuthPending => !to.LoggingIn?
    case Up => to.Up? || to.Idle? || to.Error?
    case Error => to.Error? || to.Idle? || to.LoggingIn?
  }

  datatype Config = Config(wireguard: bool, socks: bool)

  /** The half-finished operation that waits for a code, and its login. */
  datatype Pending = Pending(device: bool, trust: bool, login: nat)

  // ---- Commands and the answers met while serving them

  /** A failed login may come back with a session the server still holds. */
  datatype LoginAnswer = LoggedIn | NeedsCode | LoginFailed(held: bool)
  datatype CodeAnswer = Accepted | NeedsAnother | WrongCode | CodeFailed
  datatype ProxyAnswer = Listening | NoProxy | NotListening

  datatype Answers = Answers(
    password: bool, client: bool, login: LoginAnswer, code: CodeAnswer, trustKept: bool, device: bool,
    proxy: ProxyAnswer, l3: bool, proxyEnded: bool, l3Ended: bool, cancelled: bool, sessionLive: bool)

  datatype Endpoint = WireGuard | Socks | Unknown

  datatype Command =
    | Start(trust: bool)
    | Devices(trust: bool)
    | Auth(empty: bool)
    | AuthTimeout(round: nat)
    | Stop
    | TunnelDown(gen: nat, gone: bool)
    | TunnelRetry(gen: nat)
    | TunnelRestored(gen: nat)
    | SessionEnded(login: nat)
    | SocksDown(login: nat, proxy: nat)
    | EndpointStart(endpoint: Endpoint)
    | EndpointStop(endpoint: Endpoint)
  {
    predicate Report() {
      TunnelDown? || TunnelRetry? || TunnelRestored? || SessionEnded? || SocksDown?
    }

    /** The commands a requested stop discards. */
    predicate Begins() {
      Start? || Devices? || Auth? || EndpointStart?
    }
  }

  /** What dispatch reads before it runs a command. */
  datatype Gate = Gate(expired: bool, closing: bool, stopRequested: bool)

  predicate Refused(cmd: Command, gate: Gate) {
    gate.expired || (gate.closing && !cmd.Report()) || (gate.stopRequested && cmd.Begins())
  }

  // ---- The reference machine

  datatype Mode =
    | Resting
    | Broken
    | Waiting(op: Pending, round: nat)
    | Running(login: nat, task: Option<nat>, proxy: Option<nat>, wireguard: bool, socks: bool, retrying: bool)

  /** Names for whatever a command creates. */
  datatype Names = Names(login: nat, task: nat, round: nat, proxy: nat)

  function Connected(cfg: Config, login: nat, a: Answers, n: Names): Mode {
    var l3, proxy := cfg.wireguard && a.l3, cfg.socks && a.proxy.Listening?;
    if a.cancelled || !a.sessionLive || (!l3 && !proxy) then Broken
    else Running(login, if l3 then Some(n.task) else None, if proxy then Some(n.proxy) else None,
                 cfg.wireguard, cfg.socks, false)
  }

  /** The operation behind a login, once it is complete. */
  function Proceed(cfg: Config, op: Pending, a: Answers, n: Names): Mode {
    if op.device then if a.device then Resting else Broken
    else if op.trust && !a.trustKept then Broken
    else Connected(cfg, op.login, a, n)
  }

  function LogIn(cfg: Config, op: Pending, a: Answers, n: Names): Mode {
    if !a.password || !a.client then Broken
    else match a.login
      case LoggedIn => Proceed(cfg, op, a, n)
      case NeedsCode => Waiting(op, n.round)
      case LoginFailed(_) => Broken
  }

  function SubmitCode(cfg: Config, m: Mode, a: Answers, n: Names): Mode
    requires m.Waiting?
  {
    match a.code
    case Accepted => Proceed(cfg, m.op, a, n)
    case NeedsAnother => m.(round := n.round)
    case WrongCode => m
    case CodeFailed => Broken
  }

  function StartEndpoint(cfg: Config, m: Mode, e: Endpoint, a: Answers, n: Names): Mode
    requires m.Running?
  {
    if e.WireGuard? && cfg.wireguard && (m.task.None? || a.l3Ended) then
      if a.l3 then m.(task := Some(n.task), wireguard := true, retrying := false)
      else m.(task := None, wireguard := true)
    else if e.Socks? && cfg.socks && (m.proxy.None? || a.proxyEnded) then
      m.(proxy := if a.proxy.Listening? then Some(n.proxy) else None, socks := true)
    else m
  }

  function Serve(cfg: Config, m: Mode, cmd: Command, a: Answers, n: Names): Mode {
    match cmd
    case Start(trust) =>
      if m.Running? || (!cfg.wireguard && !cfg.socks) then m
      else LogIn(cfg, Pending(false, trust, n.login), a, n)
    case Devices(trust) =>
      if m.Running? then if a.device then m else Broken
      else LogIn(cfg, Pending(true, trust, n.login), a, n)
    case Auth(empty) => if m.Waiting? && !empty then SubmitCode(cfg, m, a, n) else m
    case AuthTimeout(round) => if m.Waiting? && m.round == round then Broken else m
    case Stop => Resting
    case TunnelDown(task, gone) =>
      if !m.Running? || m.task != Some(task) then m
      else if gone || !m.socks then Broken
      else m.(task := None, wireguard := true, retrying := false)
    case TunnelRetry(task) => if m.Running? && m.task == Some(task) then m.(retrying := true) else m
    case TunnelRestored(task) => if m.Running? && m.task == Some(task) then m.(retrying := false) else m
    case SessionEnded(login) => if m.Running? && m.login == login then Broken else m
    case SocksDown(login, proxy) =>
      if !m.Running? || m.login != login || m.proxy != Some(proxy) then m
      else if m.wireguard then m.(proxy := None, socks := true)
      else Broken
    case EndpointStart(e) => if m.Running? && a.sessionLive then StartEndpoint(cfg, m, e, a, n) else m
    case EndpointStop(e) =>
      if !m.Running? || e.Unknown? then m
      else if e.WireGuard? then m.(task := None, wireguard := false, retrying := false)
      else m.(proxy := None, socks := false)
  }

  /** Signing in by a code leads where signing in without one does. */
  lemma CodeLeadsToTheSame(cfg: Config, m: Mode, cmd: Command, a: Answers, n: Names)
    requires !m.Running? && (cmd.Start? || cmd.Devices?) && (cmd.Start? ==> cfg.wireguard || cfg.socks)
    requires a.password && a.client
    ensures var asked := Serve(cfg, m, cmd, a.(login := NeedsCode), n);
            && asked == Waiting(Pending(cmd.Devices?, cmd.trust, n.login), n.round)
            && Serve(cfg, asked, Auth(false), a.(code := Accepted), n) == Serve(cfg, m, cmd, a.(login := LoggedIn), n)
  {
  }

  /** With good answers a start runs the tunnel on the new login, with what endpoints came up. */
  lemma GoodStartRuns(cfg: Config, m: Mode, trust: bool, a: Answers, n: Names)
    requires !m.Running? && a.password && a.client && a.login.LoggedIn? && (trust ==> a.trustKept)
    requires !a.cancelled && a.sessionLive && ((cfg.wireguard && a.l3) || (cfg.socks && a.proxy.Listening?))
    ensures var r := Serve(cfg, m, Start(trust), a, n);
            && r.Running? && r.login == n.login && !r.retrying
            && r.task == (if cfg.wireguard && a.l3 then Some(n.task) else None)
            && r.proxy == (if cfg.socks && a.proxy.Listening? then Some(n.proxy) else None)
  {
  }

  /** Only a start or a code brings the service up, and a stop always brings it to rest. */
  lemma OnlyLoginsRun(cfg: Config, m: Mode, cmd: Command, a: Answers, n: Names)
    ensures var r := Serve(cfg, m, cmd, a, n);
            && (r.Running? && !m.Running? ==> cmd.Start? || cmd.Auth?)
            && (r.Running? && m.Running? ==> r.login == m.login)
            && (cmd.Stop? ==> r == Resting)
  {
  }

  /** What the reports in force do to a running service: losing one endpoint leaves the other
      on the same login; losing the login, or the last endpoint, breaks it. */
  lemma ReportsInForce(cfg: Config, m: Mode, cmd: Command, a: Answers, n: Names)
    requires m.Running?
    ensures var r := Serve(cfg, m, cmd, a, n);
            match cmd
            case TunnelDown(task, gone) =>
              m.task == Some(task) ==>
                if !gone && m.socks then r == m.(task := None, wireguard := true, retrying := false) else r == Broken
            case SocksDown(login, proxy) =>
              m.login == login && m.proxy == Some(proxy) ==>
                if m.wireguard then r == m.(proxy := None, socks := true) else r == Broken
            case SessionEnded(login) => r == if m.login == login then Broken else m
            case TunnelRetry(task) => m.task == Some(task) ==> r == m.(retrying := true)
            case TunnelRestored(task) => m.task == Some(task) ==> r == m.(retrying := false)
            case EndpointStop(WireGuard) => r == m.(task := None, wireguard := false, retrying := false)
            case EndpointStop(Socks) => r == m.(proxy := None, socks := false)
            case _ => true
  {
  }

  /** One command served, with the names it gave out. */
  datatype Turn = Turn(cmd: Command, answers: Answers, names: Names)

  function ServeAll(cfg: Config, m: Mode, turns: seq<Turn>): Mode
    decreases |turns|
  {
    if turns == [] then m
    else
      var last := turns[|turns| - 1];
      Serve(cfg, ServeAll(cfg, m, turns[..|turns| - 1]), last.cmd, last.answers, last.names)
  }

  // ---- The log of logins and state changes

  datatype Event = Opened(login: nat) | Closed(login: nat) | Moved(to: State)

  /** The logins opened and not closed. */
  function Unclosed(log: seq<Event>): set<nat> {
    if log == [] then {}
    else
      var before := Unclosed(log[..|log| - 1]);
      match log[|log| - 1]
      case Opened(l) => before + {l}
      case Closed(l) => before - {l}
      case Moved(_) => before
  }

  function StateAfter(log: seq<Event>): State {
    if log == [] then Idle
    else match log[|log| - 1]
      case Moved(to) => to
      case _ => StateAfter(log[..|log| - 1])
  }

  /** A login is opened only when none is held, and no illegal transition is taken. */
  predicate Good(log: seq<Event>) {
    log == [] ||
    (var before := log[..|log| - 1];
     && Good(before)
     && match log[|log| - 1]
        case Opened(_) => Unclosed(before) == {}
        case Closed(_) => true
        case Moved(to) => ValidTransition(StateAfter(before), to))
  }

  /** So at every point of the log at most one login is unclosed, and the guard of the status
      store never fires. */
  lemma {:induction false} AtMostOneLogin(log: seq<Event>, at: nat)
    requires Good(log) && at <= |log|
    ensures |Unclosed(log[..at])| <= 1
    ensures at < |log| && log[at].Moved? ==> ValidTransition(StateAfter(log[..at]), log[at].to)
    decreases |log|
  {
    if at < |log| {
      var before := log[..|log| - 1];
      AtMostOneLogin(before, at);
      assert before[..at] == log[..at];
    } else if log != [] {
      AtMostOneLogin(log[..|log| - 1], |log| - 1);
      assert log[..|log| - 1][..|log| - 1] == log[..|log| - 1];
      assert log[..at] == log;
    }
  }

  lemma Extend(log: seq<Event>, e: Event)
    ensures (log + [e])[..|log + [e]| - 1] == log
  {
  }
}
