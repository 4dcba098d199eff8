/** The service actor as the program runs it: fields updated command by command. */
module Service {
  import opened Wrappers
  import opened ServiceModel
  import opened ServiceCore

  /** One entry of the command queue, with what dispatch reads and the answers it meets. */
  datatype Entry = Entry(cmd: Command, gate: Gate, answers: Answers)

  class Actor {
    const cfg: Config
    var state: State
    var session: Option<nat>
    var pending: Option<Pending>
    var gen: nat
    var authSeq: nat
    /** An L3 task was started and not stopped; it reports under `gen`. */
    var runDone: bool
    var proxy: Option<nat>
    var proxyDone: bool
    var wireguardEnabled: bool
    var socksEnabled: bool
    var retrying: bool
    /** Supplies of identities for logins and proxies. */
    var logins: nat
    var proxies: nat

    ghost var hist: History

    ghost function View(): Core
      reads this
    {
      Core(state, session, pending, gen, authSeq, runDone, proxy, proxyDone, wireguardEnabled, socksEnabled,
           retrying, logins, proxies, hist)
    }

    constructor (cfg: Config, hasProxy: bool)
      requires hasProxy ==> cfg.socks
      ensures this.cfg == cfg && Settled(View()) && ModeOf(View()) == Resting && hist.log == []
    {
      this.cfg := cfg;
      state, session, pending, gen, authSeq, runDone := Idle, None, None, 0, 0, false;
      proxy, proxies := if hasProxy then Some(0) else None, 1;
      proxyDone, wireguardEnabled, socksEnabled, retrying := false, cfg.wireguard, cfg.socks, false;
      logins := 0;
      hist := History([], {}, {}, {}, {}, {});
    }

    // ---- The status store and logins

    /** The guard of the status store is the precondition: it never fires. */
    method SetState(to: State)
      requires ValidTransition(state, to)
      modifies this
      ensures View() == ServiceCore.SetState(old(View()), to)
    {
      state := to;
      if to.Idle? || to.Error? { retrying := false; }
      hist := hist.(log := hist.log + [Moved(to)]);
    }

    method OpenLogin() returns (login: nat)
      modifies this
      ensures View() == ServiceCore.OpenLogin(old(View())) && login == old(logins)
    {
      login := logins;
      logins := logins + 1;
      hist := hist.(log := hist.log + [Opened(login)], unclosed := hist.unclosed + {login},
                    everOpened := hist.everOpened + {login});
    }

    method CloseLogin(login: nat)
      modifies this
      ensures View() == ServiceCore.CloseLogin(old(View()), login)
    {
      hist := hist.(log := hist.log + [Closed(login)], unclosed := hist.unclosed - {login});
    }

    // ---- Timers and endpoints

    method StopAuthTimer()
      modifies this
      ensures View() == StopTimer(old(View()))
    {
      authSeq := authSeq + 1;
    }

    method StartAuthTimer()
      modifies this
      ensures View() == StartTimer(old(View()))
    {
      StopAuthTimer();
      hist := hist.(armed := hist.armed + {authSeq});
    }

    method StopL3()
      modifies this
      ensures View() == ServiceCore.StopL3(old(View()))
      ensures Linked(old(View())) ==> NoCurrentL3(View())
    {
      StopL3Promises(View());
      gen := gen + 1;
      if runDone { runDone := false; }
    }

    method StopSocks()
      modifies this
      ensures View() == StopProxy(old(View()))
    {
      proxy, proxyDone := None, false;
    }

    method StartL3(a: Answers) returns (ok: bool)
      modifies this
      ensures (View(), ok) == ServiceCore.StartL3(old(View()), a)
      ensures Linked(old(View())) ==> L3Started(old(View()), View(), ok, a)
    {
      hide ServiceCore.RunL3;
      if Linked(View()) { StartL3Linked(View(), a); }
      if runDone {
        if !a.l3Ended { return true; }
        StopL3();
      }
      ok := RunL3(a);
    }

    method RunL3(a: Answers) returns (ok: bool)
      modifies this
      ensures (View(), ok) == ServiceCore.RunL3(old(View()), a)
    {
      wireguardEnabled := true;
      if !a.l3 { return false; }
      gen := gen + 1;
      runDone, retrying, hist := true, false, hist.(issued := hist.issued + {gen});
      return true;
    }

    method StartSocks(a: Answers) returns (ok: bool)
      modifies this
      ensures (View(), ok) == StartProxy(old(View()), a)
      ensures Linked(old(View())) ==> StartsProxy(old(View()), View(), ok, a)
    {
      hide RunProxy;
      StartProxyPromises(View(), a);
      if proxyDone {
        if !a.proxyEnded { return true; }
        StopSocks();
      }
      ok := RunSocks(a);
    }

    method RunSocks(a: Answers) returns (ok: bool)
      modifies this
      ensures (View(), ok) == RunProxy(old(View()), a)
    {
      socksEnabled := true;
      if proxy.None? {
        if a.proxy.NoProxy? { return false; }
        NewSocks();
      }
      LaunchSocks();
      if !a.proxy.Listening? {
        StopSocks();
        return false;
      }
      return true;
    }

    method NewSocks()
      modifies this
      ensures View() == NewProxy(old(View()))
    {
      proxy, proxies := Some(proxies), proxies + 1;
    }

    method LaunchSocks()
      requires proxy.Some?
      modifies this
      ensures View() == LaunchProxy(old(View()))
    {
      proxyDone, hist := true, hist.(started := hist.started + {proxy.value});
    }

    // ---- Connecting and tearing down

    method Attach(login: nat)
      modifies this
      ensures View() == ServiceCore.Attach(old(View()), login)
    {
      var prev := session;
      session := Some(login);
      if prev.None? || prev == Some(login) { return; }
      CloseLogin(prev.value);
    }

    method Release()
      modifies this
      ensures View() == ServiceCore.Release(old(View()))
    {
      if pending.Some? {
        CloseLogin(pending.value.login);
        pending := None;
      }
      if session.Some? {
        CloseLogin(session.value);
        session := None;
      }
    }

    /** Releases everything this connection held. */
    method Teardown()
      modifies this
      ensures View() == ServiceCore.Teardown(old(View()))
      ensures Linked(old(View())) ==> TornDown(old(View()), View())
    {
      hide View;
      if Linked(View()) { TeardownLinked(View()); }
      Revoke();
      ToIdle();
      StopSocks();
      StopL3();
      Release();
    }

    /** Late reports are void from here on. */
    method Revoke()
      modifies this
      ensures View() == ServiceCore.Revoke(old(View()))
    {
      gen := gen + 1;
      StopAuthTimer();
    }

    method ToIdle()
      modifies this
      ensures View() == ServiceCore.ToIdle(old(View()))
    {
      if !state.Idle? { SetState(Idle); }
    }

    method Fail()
      modifies this
      ensures View() == ServiceCore.Fail(old(View()))
      ensures Linked(old(View())) ==> FailedFrom(old(View()), View())
    {
      hide ServiceCore.Release;
      if Linked(View()) { FailLinked(View()); }
      Teardown();
      TeardownIdles(old(View()));
      SetState(Error);
    }

    method FinishConnect(login: nat, a: Answers)
      requires state.LoggingIn? || state.AuthPending?
      modifies this
      ensures View() == ServiceCore.FinishConnect(cfg, old(View()), login, a)
      ensures Holding(old(View()), login) ==> Finishes(cfg, old(View()), View(), login, a)
    {
      hide ServiceCore.Fail, ServiceCore.StartEndpoints, ServiceCore.BringUp;
      FinishPromises(cfg, View(), login, a);
      BringUp(login);
      var any := StartEndpoints(a);
      if a.cancelled || !a.sessionLive || !any {
        Fail();
        return;
      }
      retrying := false;
    }

    method BringUp(login: nat)
      requires state.LoggingIn? || state.AuthPending?
      modifies this
      ensures View() == ServiceCore.BringUp(cfg, old(View()), login)
    {
      hide ServiceCore.Attach;
      AttachKeepsState(View(), login);
      Attach(login);
      SetState(Up);
      wireguardEnabled, socksEnabled := cfg.wireguard, cfg.socks;
    }

    method StartEndpoints(a: Answers) returns (any: bool)
      modifies this
      ensures (View(), any) == ServiceCore.StartEndpoints(cfg, old(View()), a)
    {
      hide View, ServiceCore.StartL3, StartProxy;
      var proxied, tunnelled := false, false;
      if cfg.socks { proxied := StartSocks(a); }
      if cfg.wireguard { tunnelled := StartL3(a); }
      any := proxied || tunnelled;
    }

    /** A device operation on a login of its own, closed on the way out. */
    method RunDeviceOp(login: nat, a: Answers)
      requires state.LoggingIn? || state.AuthPending?
      modifies this
      ensures View() == RunDevice(old(View()), login, a)
      ensures Holding(old(View()), login) ==> EndsDeviceOp(old(View()), View(), a)
    {
      hide ServiceCore.Fail;
      RunDevicePromises(View(), login, a);
      if a.device { SetState(Idle); } else { Fail(); }
      CloseLogin(login);
    }

    method AwaitAuth()
      requires state.LoggingIn? || state.AuthPending?
      modifies this
      ensures View() == Await(old(View()))
    {
      SetState(AuthPending);
      StartAuthTimer();
    }

    method Continue(op: Pending, a: Answers)
      requires state.LoggingIn? || state.AuthPending?
      modifies this
      ensures View() == ServiceCore.Continue(cfg, old(View()), op, a)
    {
      hide ServiceCore.Fail, ServiceCore.FinishConnect, RunDevice;
      if op.device {
        RunDeviceOp(op.login, a);
        return;
      }
      if op.trust && !a.trustKept {
        Attach(op.login);
        Fail();
        return;
      }
      FinishConnect(op.login, a);
    }

    method Connect(device: bool, trust: bool, a: Answers)
      requires state.Idle? || state.Error?
      modifies this
      ensures View() == ServiceCore.Connect(cfg, old(View()), device, trust, a)
      ensures Clear(old(View())) ==> LogsIn(cfg, old(View()), View(), device, trust, a)
    {
      hide ServiceCore.Fail, ServiceCore.AfterLogin, Clear, LogsIn;
      ConnectPromises(cfg, View(), device, trust, a);
      if !a.password || !a.client {
        Fail();
        return;
      }
      SetState(LoggingIn);
      AfterLogin(device, trust, a);
    }

    method AfterLogin(device: bool, trust: bool, a: Answers)
      requires state.LoggingIn?
      modifies this
      ensures View() == ServiceCore.AfterLogin(cfg, old(View()), device, trust, a)
    {
      hide ServiceCore.Fail, ServiceCore.Continue, ServiceCore.DropLogin;
      if a.login == LoginFailed(false) {
        Fail();
        return;
      }
      var login := OpenLogin();
      match a.login
      case LoggedIn => Continue(Pending(device, trust, login), a);
      case NeedsCode =>
        pending := Some(Pending(device, trust, login));
        AwaitAuth();
      case LoginFailed(_) => DropLogin(device, login);
    }

    method DropLogin(device: bool, login: nat)
      modifies this
      ensures View() == ServiceCore.DropLogin(old(View()), device, login)
    {
      hide View, ServiceCore.Fail, ServiceCore.Attach, ServiceCore.CloseLogin;
      if device { CloseLogin(login); } else { Attach(login); }
      Fail();
    }

    // ---- Commands

    method Submit(empty: bool, a: Answers)
      modifies this
      ensures View() == ServiceCore.Submit(cfg, old(View()), empty, a)
      ensures Settled(old(View())) ==> Serves(cfg, old(View()), View(), Command.Auth(empty), a)
    {
      hide ServiceCore.Fail, ServiceCore.Continue, Settled, Serves;
      HandlePromises(cfg, View(), Command.Auth(empty), a);
      if pending.None? || !state.AuthPending? { return; }
      if empty { return; }
      match a.code
      case NeedsAnother => AwaitAuth();
      case WrongCode =>
      case CodeFailed => Fail();
      case Accepted =>
        var op := pending.value;
        StopAuthTimer();
        pending := None;
        Continue(op, a);
    }

    method TunnelDown(gen: nat, gone: bool)
      modifies this
      ensures View() == ServiceCore.TunnelDown(old(View()), gen, gone)
      ensures Settled(old(View())) ==> Serves(cfg, old(View()), View(), Command.TunnelDown(gen, gone), NO_ANSWERS)
    {
      hide ServiceCore.Fail, Settled, Serves;
      HandlePromises(cfg, View(), Command.TunnelDown(gen, gone), NO_ANSWERS);
      if gen != this.gen { return; }
      if !gone && socksEnabled {
        StopL3();
        wireguardEnabled, retrying := true, false;
        return;
      }
      Fail();
    }

    method SocksDown(login: nat, proxy: nat)
      modifies this
      ensures View() == ServiceCore.SocksDown(old(View()), login, proxy)
      ensures Settled(old(View())) ==> Serves(cfg, old(View()), View(), Command.SocksDown(login, proxy), NO_ANSWERS)
    {
      hide ServiceCore.Fail, Settled, Serves;
      HandlePromises(cfg, View(), Command.SocksDown(login, proxy), NO_ANSWERS);
      if session != Some(login) || this.proxy != Some(proxy) { return; }
      StopSocks();
      socksEnabled := true;
      if !wireguardEnabled { Fail(); }
    }

    method StartEndpoint(e: Endpoint, a: Answers)
      modifies this
      ensures View() == StartOne(cfg, old(View()), e, a)
      ensures Settled(old(View())) ==> Serves(cfg, old(View()), View(), EndpointStart(e), a)
    {
      hide ServiceCore.StartL3, StartProxy, Settled, Serves;
      HandlePromises(cfg, View(), EndpointStart(e), a);
      if session.None? || !state.Up? || !a.sessionLive { return; }
      if e.WireGuard? && cfg.wireguard {
        var _ := StartL3(a);
      } else if e.Socks? && cfg.socks {
        var _ := StartSocks(a);
      }
    }

    method StopEndpoint(e: Endpoint)
      modifies this
      ensures View() == StopOne(old(View()), e)
      ensures Settled(old(View())) ==> Serves(cfg, old(View()), View(), EndpointStop(e), NO_ANSWERS)
    {
      hide Settled, Serves;
      HandlePromises(cfg, View(), EndpointStop(e), NO_ANSWERS);
      match e
      case WireGuard =>
        StopL3();
        wireguardEnabled, retrying := false, false;
      case Socks =>
        StopSocks();
        socksEnabled := false;
      case Unknown =>
    }

    method Start(trust: bool, a: Answers)
      requires !state.LoggingIn?
      modifies this
      ensures View() == Handle(cfg, old(View()), Command.Start(trust), a)
      ensures Settled(old(View())) ==> Serves(cfg, old(View()), View(), Command.Start(trust), a)
    {
      hide ServiceCore.Connect, ServiceCore.Teardown, ServiceCore.Fail, Settled, Serves, Linked, TornDown;
      HandlePromises(cfg, View(), Command.Start(trust), a);
      if !cfg.wireguard && !cfg.socks { return; }
      if !state.AuthPending? && !state.Idle? && !state.Error? { return; }
      Teardown();
      TeardownIdles(old(View()));
      Connect(false, trust, a);
    }

    method Devices(trust: bool, a: Answers)
      requires !state.LoggingIn?
      modifies this
      ensures View() == Handle(cfg, old(View()), Command.Devices(trust), a)
      ensures Settled(old(View())) ==> Serves(cfg, old(View()), View(), Command.Devices(trust), a)
    {
      hide ServiceCore.Connect, ServiceCore.Teardown, ServiceCore.Fail, Settled, Serves, Linked, TornDown;
      HandlePromises(cfg, View(), Command.Devices(trust), a);
      if state.Up? {
        if !a.device { Fail(); }
        return;
      }
      if state.AuthPending? {
        Teardown();
        TeardownIdles(old(View()));
      }
      Connect(true, trust, a);
    }

    method Execute(cmd: Command, a: Answers)
      requires !state.LoggingIn?
      modifies this
      ensures View() == Handle(cfg, old(View()), cmd, a)
      ensures Settled(old(View())) ==> Serves(cfg, old(View()), View(), cmd, a)
    {
      hide ServiceCore.Connect, ServiceCore.Teardown, ServiceCore.Fail, ServiceCore.Submit, StartOne, StopOne,
           Settled, Serves;
      HandlePromises(cfg, View(), cmd, a);
      match cmd
      case Start(trust) => Start(trust, a);
      case Devices(trust) => Devices(trust, a);
      case Auth(empty) => Submit(empty, a);
      case AuthTimeout(round) =>
        if round != authSeq || !state.AuthPending? { return; }
        Fail();
      case Stop => if !state.Idle? { Teardown(); }
      case TunnelDown(gen, gone) => TunnelDown(gen, gone);
      case TunnelRetry(gen) => if gen == this.gen && state.Up? { retrying := true; }
      case TunnelRestored(gen) => if gen == this.gen && state.Up? { retrying := false; }
      case SessionEnded(login) => if session == Some(login) { Fail(); }
      case SocksDown(login, proxy) => SocksDown(login, proxy);
      case EndpointStart(e) => StartEndpoint(e, a);
      case EndpointStop(e) => StopEndpoint(e);
    }

    /** One turn of the actor: refused, or served as the reference machine says. */
    method Dispatch(entry: Entry) returns (ghost n: Names)
      requires Settled(View())
      modifies this
      ensures Settled(View()) && Named(old(View()), View(), n)
      ensures Plausible(old(View()), entry.cmd) ==>
                ModeOf(View()) == if Refused(entry.cmd, entry.gate) then ModeOf(old(View()))
                                  else Serve(cfg, ModeOf(old(View())), entry.cmd, entry.answers, n)
      ensures if entry.gate.expired || (entry.gate.closing && !IsReport(entry.cmd))
                 || (entry.gate.stopRequested && BeginsWork(entry.cmd))
              then View() == old(View())
              else Serves(cfg, old(View()), View(), entry.cmd, entry.answers)
    {
      hide Linked, Handle, Serve, Named, Serves;
      SettledHolds(View());
      if Refused(entry.cmd, entry.gate) {
        n := UnchangedNames(View());
        return;
      }
      n := HandleServes(cfg, View(), entry.cmd, entry.answers);
      Execute(entry.cmd, entry.answers);
    }

    /** The actor's loop until it is closed: every turn settles, and on exit no login is left
        open.  The log shows at most one at any time and no illegal transition. */
    method Loop(entries: seq<Entry>)
      requires Settled(View())
      modifies this
      ensures Good(hist.log) && Unclosed(hist.log) == {} && StateAfter(hist.log) == Idle
    {
      hide Settled, View;
      for i := 0 to |entries|
        invariant Settled(View())
      {
        var _ := Dispatch(entries[i]);
      }
      TeardownClears(View());
      Teardown();
      ClearLog(View());
      ViewLog();
    }

    lemma ViewLog()
      ensures View().hist == hist
    {
    }
  }

  /** What the tasks report; served even while the service is closing. */
  predicate IsReport(cmd: Command) {
    match cmd
    case TunnelDown(_, _) => true
    case TunnelRetry(_) => true
    case TunnelRestored(_) => true
    case SessionEnded(_) => true
    case SocksDown(_, _) => true
    case _ => false
  }

  /** What a requested stop discards. */
  predicate BeginsWork(cmd: Command) {
    match cmd
    case Start(_) => true
    case Devices(_) => true
    case Auth(_) => true
    case EndpointStart(_) => true
    case _ => false
  }

  lemma AttachKeepsState(c: Core, login: nat)
    ensures ServiceCore.Attach(c, login).state == c.state
  {
  }

  lemma ClearLog(c: Core)
    requires Clear(c) && c.state.Idle?
    ensures Good(c.hist.log) && Unclosed(c.hist.log) == {} && StateAfter(c.hist.log) == Idle
  {
  }

  lemma TeardownIdles(c: Core)
    ensures ServiceCore.Teardown(c).state.Idle?
  {
  }
}
