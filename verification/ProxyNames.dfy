/**
 The proxy index when two sessions use the same proxy name: a run that loses a proxy, as the failing
 side of `Registry.RegistrationKeepsFindableIff`.
 */
module ProxyNames {
  import opened Wrappers
  import opened ServerSections
  import opened Registry

  function TcpProxy(name: Name, port: nat): NewProxy {
    NewProxy(name, Tcp, Some(port), [])
  }

  /** A login is accepted and changes only the registry, while there is room and the run id is free. */
  lemma FirstLogin(s: State, sid: Sid, run: RunId, ip: Ip, token: Token)
    requires run !in s.sessions && |s.sessions| < s.maxSessions && FromIp(s, ip) == {} && s.maxPerIp > 0
    ensures Login(s, sid, run, ip, token) == Success(SwapSession(s, sid, NewRow(run, ip, token)))
  {
  }

  lemma FirstRegistration(s: State, sid: Sid, name: Name, port: nat, allowed: set<nat>)
    requires sid in s.rows && s.rows[sid].proxies == map[] && port in allowed
    ensures
      var np := TcpProxy(name, port);
      && Register(s, sid, np, allowed, Bound) == Success(Enter(s, sid, np))
      && Enter(s, sid, np).rows == s.rows[sid := EnteredRow(s.rows[sid], np)]
      && Enter(s, sid, np).sessions == s.sessions
         && Enter(s, sid, np).proxyIndex == s.proxyIndex[name := s.rows[sid].runId]
      && name in Enter(s, sid, np).rows[sid].proxies
  {
    hide Enter, EnteredRow;
    var np := TcpProxy(name, port);
    assert LowerAll([]) == [];
    EnterEffect(s, sid, np);
    EnteredHas(s.rows[sid], np);
  }

  lemma EnteredHas(row: Session, np: NewProxy)
    ensures np.name in EnteredRow(row, np).proxies && EnteredRow(row, np).runId == row.runId
    ensures EnteredRow(row, np).proxies.Keys == row.proxies.Keys + {np.name}
    ensures EnteredRow(row, np).proxies[np.name].port == np.port
  {
  }

  /** Two clients, one after the other. */
  function TwoSessions(a: RunId, b: RunId): State {
    var s := Init(1, 2, 2);
    SwapSession(SwapSession(s, 0, NewRow(a, 0, "x")), 1, NewRow(b, 1, "y"))
  }

  lemma NoSteps(s: State)
    ensures RunSteps(s, []) == Some(s)
  {
  }

  lemma RunOneMore(s: State, es: seq<Step>, e: Step)
    requires RunSteps(s, es).Some? && StepEnabled(RunSteps(s, es).value, e)
    ensures RunSteps(s, es + [e]) == Some(StepApply(RunSteps(s, es).value, e))
    decreases |es|
  {
    hide StepEnabled, StepApply;
    if es == [] {
      assert es + [e] == [e] && [e][1..] == [];
    } else {
      RunOneMore(StepApply(s, es[0]), es[1..], e);
      assert (es + [e])[1..] == es[1..] + [e];
    }
  }

  lemma StepStaysReachable(s: State, e: Step)
    requires Reachable(s) && StepEnabled(s, e)
    ensures Reachable(StepApply(s, e))
  {
    hide StepEnabled, StepApply;
    var maxActive, maxSessions, maxPerIp, es :| RunSteps(Init(maxActive, maxSessions, maxPerIp), es) == Some(s);
    RunOneMore(Init(maxActive, maxSessions, maxPerIp), es, e);
  }

  lemma TwoSessionsReachable(a: RunId, b: RunId)
    requires a != b
    ensures Reachable(TwoSessions(a, b))
  {
    hide Reachable, SwapSession, Login;
    var s0 := Init(1, 2, 2);
    assert Reachable(s0) by { InitReachable(); }
    FirstLogin(s0, 0, a, 0, "x");
    StepStaysReachable(s0, LoginStep(0, a, 0, "x"));
    var s1 := SwapSession(s0, 0, NewRow(a, 0, "x"));
    OneSession(a, b);
    FirstLogin(s1, 1, b, 1, "y");
    StepStaysReachable(s1, LoginStep(1, b, 1, "y"));
  }

  lemma InitReachable()
    ensures Reachable(Init(1, 2, 2))
  {
    assert RunSteps(Init(1, 2, 2), []) == Some(Init(1, 2, 2));
  }

  lemma OneSession(a: RunId, b: RunId)
    requires a != b
    ensures
      var s := SwapSession(Init(1, 2, 2), 0, NewRow(a, 0, "x"));
      b !in s.sessions && |s.sessions| == 1 && FromIp(s, 1) == {} && s.maxSessions == 2 && s.maxPerIp == 2
        && 1 !in s.rows
  {
    var s := SwapSession(Init(1, 2, 2), 0, NewRow(a, 0, "x"));
    assert s.sessions.Keys == {a};
  }

  /** Both clients name a TCP proxy alike, each on a port of its own; the second registration is accepted. */
  ghost predicate LosesOnRegister(s: State, name: Name, port: nat, second: nat) {
    var np := TcpProxy(name, second);
    && Reachable(s) && Findable(s.rows, s.sessions, s.proxyIndex) && Registered(s, 1)
    && 0 in s.rows && name in s.rows[0].proxies && s.rows[0].proxies[name].port == Some(port)
    && Register(s, 1, np, {port, second}, Bound).Success?
    && var t := Register(s, 1, np, {port, second}, Bound).value;
       !Findable(t.rows, t.sessions, t.proxyIndex)
  }

  /**
   For any two run ids, any name and any two allowed ports: after both sessions have logged in and the
   first has registered the name, the second one's registration of it on the other port succeeds and
   the first one's proxy can no longer be found.
   */
  lemma CollisionLosesProxy(a: RunId, b: RunId, name: Name, port: nat, second: nat)
    requires a != b && port != second
    ensures exists s :: LosesOnRegister(s, name, port, second)
  {
    hide Reachable, Register, Enter, RegInv, Findable, EnteredRow;
    var s2 := TwoSessions(a, b);
    var allowed := {port, second};
    var first, np := TcpProxy(name, port), TcpProxy(name, second);
    TwoSessionsReachable(a, b);
    FirstRegistration(s2, 0, name, port, allowed);
    var s3 := Enter(s2, 0, first);
    assert StepApply(s2, RegisterStep(0, first, allowed, Bound)) == s3;
    StepStaysReachable(s2, RegisterStep(0, first, allowed, Bound));
    FirstRegistration(s3, 1, name, second, allowed);
    OnlyOneFindable(s2, s3, a, b, name, first);
    RegistrationKeepsFindableIff(s3, 1, np, allowed, Bound);
    assert s3.sessions[a] == 0 && name in s3.rows[0].proxies;
    assert NameTaken(s3.rows, s3.sessions, b, name);
    EnteredHas(s2.rows[0], first);
    assert LosesOnRegister(s3, name, port, second);
  }

  lemma OnlyOneFindable(s: State, t: State, a: RunId, b: RunId, name: Name, np: NewProxy)
    requires a != b && s == TwoSessions(a, b) && np.name == name
    requires t.rows == s.rows[0 := EnteredRow(s.rows[0], np)] && t.sessions == s.sessions
             && t.proxyIndex == s.proxyIndex[name := a]
    ensures Findable(t.rows, t.sessions, t.proxyIndex)
  {
    hide EnteredRow;
    EnteredHas(s.rows[0], np);
    assert t.sessions.Keys == {a, b};
  }
}
