/**
 What logins, registrations and teardowns leave in the tables, said in the terms of their requests:
 which token guards a proxy, which hosts reach it, what a login is refused for, what a teardown takes
 away.
 */
module Registrations {
  import opened Wrappers
  import opened ServerSections
  import opened Registry
  import D = Dispatch
  import M = Matching
  import P = ProxyNames

  // ------------------------------------------------------------------ login

  /**
   Exactly when a login is refused, and why: only under a run id that is not registered, for the number
   of sessions first and for those from the same address second.
   */
  lemma LoginRefusedExactly(s: State, sid: Sid, run: RunId, ip: Ip, token: Token)
    ensures
      var fromIp := |set r | r in s.sessions && s.sessions[r] in s.rows && s.rows[s.sessions[r]].ip == ip|;
      && (Login(s, sid, run, ip, token) == Failure(GlobalLimit) <==>
            run !in s.sessions && |s.sessions| >= s.maxSessions)
      && (Login(s, sid, run, ip, token) == Failure(PerIpLimit) <==>
            run !in s.sessions && |s.sessions| < s.maxSessions && fromIp >= s.maxPerIp)
      && (Login(s, sid, run, ip, token).Success? <==>
            run in s.sessions || (|s.sessions| < s.maxSessions && fromIp < s.maxPerIp))
  {
    hide SwapSession, Cleanup;
    assert FromIp(s, ip) == set r | r in s.sessions && s.sessions[r] in s.rows && s.rows[s.sessions[r]].ip == ip;
  }

  /** The registry after the swap, before the session replaced is cleaned up. */
  lemma SwapOutcome(s: State, sid: Sid, run: RunId, ip: Ip, token: Token)
    requires sid !in s.rows
    ensures
      var t := SwapSession(s, sid, NewRow(run, ip, token));
      && t.rows.Keys == s.rows.Keys + {sid} && t.sessions == s.sessions[run := sid]
      && t.rows[sid].runId == run && t.rows[sid].ip == ip && t.rows[sid].token == token
      && t.rows[sid].proxies == map[] && t.rows[sid].domains == map[] && t.rows[sid].pools == map[]
      && (forall o | o in s.rows :: t.rows[o] == s.rows[o])
      && t.proxyIndex == s.proxyIndex && t.domainIndex == s.domainIndex && t.udp == s.udp
      && t.pending == s.pending && t.users == s.users && t.works == s.works
  {
  }

  /** A login that is accepted makes a session of just what was asked for, and registers it. */
  lemma LoginOutcome(s: State, sid: Sid, run: RunId, ip: Ip, token: Token)
    requires Reachable(s) && sid !in s.rows && Login(s, sid, run, ip, token).Success?
    ensures
      var t := Login(s, sid, run, ip, token).value;
      && t.rows.Keys == s.rows.Keys + {sid} && t.sessions == s.sessions[run := sid]
      && t.rows[sid].runId == run && t.rows[sid].ip == ip && t.rows[sid].token == token
      && t.rows[sid].proxies == map[] && t.rows[sid].domains == map[] && t.rows[sid].pools == map[]
      && (forall o | o in s.rows && !(run in s.sessions && s.sessions[run] == o) :: t.rows[o] == s.rows[o])
      && (run !in s.sessions ==>
            && t.proxyIndex == s.proxyIndex && t.domainIndex == s.domainIndex && t.udp == s.udp
            && t.pending == s.pending && t.users == s.users && t.works == s.works)
  {
    hide RegInv, Reachable, Cleanup, SwapSession, NewRow, OverLimit;
    ReachableRegInv(s);
    SwapOutcome(s, sid, run, ip, token);
    if run in s.sessions {
      SessionsHaveRows(s, run);
      CleanupOutcome(SwapSession(s, sid, NewRow(run, ip, token)), s.sessions[run]);
    }
  }

  lemma SessionsHaveRows(s: State, run: RunId)
    requires RegInv(s) && run in s.sessions
    ensures s.sessions[run] in s.rows && s.rows[s.sessions[run]].runId == run
  {
    hide DomainsInv, RowsInv, ProxiesInv, RetiredInv;
  }

  // ------------------------------------------------------------------ teardown

  /** What a cleanup takes away, and that it takes nothing else. */
  lemma CleanupOutcome(s: State, sid: Sid)
    requires sid in s.rows
    ensures
      var (t, row) := (Cleanup(s, sid), s.rows[sid]);
      && t.rows.Keys == s.rows.Keys && (forall o | o in s.rows && o != sid :: t.rows[o] == s.rows[o])
      && t.rows[sid].runId == row.runId && t.rows[sid].ip == row.ip && t.rows[sid].token == row.token
      && t.rows[sid].proxies == map[] && t.rows[sid].domains == map[] && t.rows[sid].pools == map[]
      && t.sessions == s.sessions
      && (forall n :: n in t.proxyIndex <==> n in s.proxyIndex && n !in row.proxies)
      && (forall n | n in t.proxyIndex :: t.proxyIndex[n] == s.proxyIndex[n])
      && (forall d :: d in t.domainIndex <==> d in s.domainIndex && d !in row.domains)
      && (forall d | d in t.domainIndex :: t.domainIndex[d] == s.domainIndex[d])
      && (forall n :: n in t.udp <==> n in s.udp && !(n in row.proxies && row.proxies[n].kind == Udp))
  {
    hide Cleanup;
    CleanupEffect(s, sid);
  }

  lemma CleanupUsersAndWorks(s: State, sid: Sid)
    requires sid in s.rows
    ensures
      var t := Cleanup(s, sid);
      && (forall id :: id in t.pending <==> id in s.pending && s.pending[id].sid != sid)
      && (forall id | id in t.pending :: t.pending[id] == s.pending[id])
      && t.users.Keys == s.users.Keys && t.works.Keys == s.works.Keys
      && (forall w | w in s.works :: t.works[w] == if s.works[w] == Pooled(sid) then WorkClosed else s.works[w])
      && t.active == s.active && t.workId == s.workId && t.bridged == s.bridged
  {
  }

  lemma CleanupUsers(s: State, sid: Sid)
    requires sid in s.rows
    ensures
      forall u | u in s.users :: u in Cleanup(s, sid).users && Cleanup(s, sid).users[u] ==
        if s.users[u].Waiting? && s.users[u].id in s.pending && s.pending[s.users[u].id].sid == sid then Closing
        else s.users[u]
  {
    var row := s.rows[sid];
    var s1 := UnindexDomains(UnindexProxies(s, row.proxies.Keys), row.domains.Keys);
    var s3 := DrainPools(ClearDomains(RemoveUdp(DrainProxies(s1, sid), UdpNames(row)), sid), sid);
    assert s3.users == s.users && s3.pending == s.pending;
    assert OfSession(s3, sid) == OfSession(s, sid);
    hide UnindexDomains, UnindexProxies, DrainPools, ClearDomains, RemoveUdp, DrainProxies;
  }

  /**
   After a teardown nothing is left of the session: no registration, no proxy, no domain, no pool, no
   pending user; its pooled streams are closed and its waiting users are on their way out. Everybody
   else's rows, index entries, users and streams are as they were.
   */
  lemma TeardownOutcome(s: State, sid: Sid)
    requires sid in s.rows
    ensures
      var (t, row) := (Teardown(s, sid), s.rows[sid]);
      && t.sessions == (if row.runId in s.sessions && s.sessions[row.runId] == sid
                        then s.sessions - {row.runId} else s.sessions)
      && t.rows.Keys == s.rows.Keys && (forall o | o in s.rows && o != sid :: t.rows[o] == s.rows[o])
      && t.rows[sid].proxies == map[] && t.rows[sid].domains == map[] && t.rows[sid].pools == map[]
      && (forall n :: n in t.proxyIndex <==> n in s.proxyIndex && n !in row.proxies)
      && (forall d :: d in t.domainIndex <==> d in s.domainIndex && d !in row.domains)
      && (forall n :: n in t.udp <==> n in s.udp && !(n in row.proxies && row.proxies[n].kind == Udp))
      && (forall id :: id in t.pending <==> id in s.pending && s.pending[id].sid != sid)
      && (forall w | w in s.works ::
            w in t.works && t.works[w] == if s.works[w] == Pooled(sid) then WorkClosed else s.works[w])
      && (forall u | u in s.users :: u in t.users && t.users[u] ==
            if s.users[u].Waiting? && s.users[u].id in s.pending && s.pending[s.users[u].id].sid == sid then Closing
            else s.users[u])
  {
    hide Cleanup;
    var m := Unregister(s, sid);
    CleanupOutcome(m, sid);
    CleanupUsersAndWorks(m, sid);
    CleanupUsers(m, sid);
  }

  // ------------------------------------------------------------------ registration

  /** An accepted registration enters the proxy as it was asked for, its domains in lower case, and nothing else. */
  lemma RegisterOutcome(s: State, sid: Sid, np: NewProxy, allowed: set<nat>, bind: BindOutcome)
    requires sid in s.rows && Register(s, sid, np, allowed, bind).Success?
    ensures
      var t := Register(s, sid, np, allowed, bind).value;
      && t.rows.Keys == s.rows.Keys && (forall o | o in s.rows && o != sid :: t.rows[o] == s.rows[o])
      && t.rows[sid].runId == s.rows[sid].runId && t.rows[sid].token == s.rows[sid].token
      && t.rows[sid].proxies.Keys == s.rows[sid].proxies.Keys + {np.name}
      && (forall n | n in s.rows[sid].proxies :: t.rows[sid].proxies[n] == s.rows[sid].proxies[n])
      && t.rows[sid].proxies[np.name].kind == np.kind && t.rows[sid].proxies[np.name].port == np.port
      && |t.rows[sid].proxies[np.name].domains| == |np.domains|
      && (forall i | 0 <= i < |np.domains| ::
            && SameHost(np.domains[i], t.rows[sid].proxies[np.name].domains[i])
            && forall j | 0 <= j < |np.domains[i]| :: !('A' <= t.rows[sid].proxies[np.name].domains[i][j] <= 'Z'))
      && t.sessions == s.sessions && t.proxyIndex == s.proxyIndex[np.name := s.rows[sid].runId]
      && t.udp == (if np.kind == Udp then s.udp + {np.name} else s.udp)
  {
    hide Enter, LowerAll, Everywhere;
    EnterEffect(s, sid, np);
    EnterUdp(s, sid, np);
    var ds := LowerAll(np.domains);
    LoweredHosts(np.domains);
    assert Enter(s, sid, np).rows[sid].proxies == s.rows[sid].proxies[np.name := ProxyEntry(np.kind, np.port, ds)];
    hide EnteredRow, SameHost;
  }

  lemma LoweredHosts(ds: seq<Domain>)
    ensures |LowerAll(ds)| == |ds|
    ensures forall i | 0 <= i < |ds| ::
              && SameHost(ds[i], LowerAll(ds)[i])
              && forall j | 0 <= j < |ds[i]| :: !('A' <= LowerAll(ds)[i][j] <= 'Z')
  {
    forall i | 0 <= i < |ds|
      ensures SameHost(ds[i], LowerAll(ds)[i]) && forall j | 0 <= j < |ds[i]| :: !('A' <= LowerAll(ds)[i][j] <= 'Z')
    {
      assert Lower(ds[i]) == LowerAll(ds)[i];
    }
  }

  lemma EnterUdp(s: State, sid: Sid, np: NewProxy)
    requires sid in s.rows
    ensures Enter(s, sid, np).udp == if np.kind == Udp then s.udp + {np.name} else s.udp
  {
    hide Everywhere, LowerAll, IndexDomains;
    var s1 := if np.kind == Udp then AddUdp(s, np.name) else s;
    IndexedRows(AddDomains(s1, sid, LowerAll(np.domains), np.name), LowerAll(np.domains), s.rows[sid].runId, np.name);
  }

  lemma RegisteredStaysReachable(s: State, sid: Sid, np: NewProxy, allowed: set<nat>, bind: BindOutcome)
    requires Reachable(s) && Registered(s, sid) && Register(s, sid, np, allowed, bind).Success?
    ensures Reachable(Register(s, sid, np, allowed, bind).value)
  {
    hide Reachable, Register;
    P.StepStaysReachable(s, RegisterStep(sid, np, allowed, bind));
  }

  /** Some host of the list is this one, whatever the case. */
  ghost predicate Lists(ds: seq<Domain>, host: Domain) {
    exists i | 0 <= i < |ds| :: SameHost(host, ds[i])
  }

  lemma ListsIsLowered(ds: seq<Domain>, host: Domain)
    ensures Lower(host) in LowerAll(ds) <==> Lists(ds, host)
  {
    hide Lower, SameHost;
    forall i | 0 <= i < |ds| ensures Lower(host) == LowerAll(ds)[i] <==> SameHost(host, ds[i]) {
      LowerIsSameHost(host, ds[i]);
    }
    if Lists(ds, host) {
      var i :| 0 <= i < |ds| && SameHost(host, ds[i]);
      assert Lower(host) == LowerAll(ds)[i];
    }
  }

  /**
   From registration to routing: a host reaches the new proxy exactly when the proxy was registered with
   that host, in whatever case either is written, and has the expected kind.
   */
  lemma RegisteredHostsRouteExactly(s: State, sid: Sid, np: NewProxy, allowed: set<nat>, bind: BindOutcome,
                                    host: Domain, kind: Kind)
    requires Reachable(s) && Registered(s, sid) && Register(s, sid, np, allowed, bind).Success?
    ensures
      var t := Register(s, sid, np, allowed, bind).value;
      Route(t, host, kind) == Some((sid, np.name)) <==> np.kind == kind && Lists(np.domains, host)
  {
    hide Reachable, Enter, LowerAll, Lower, RegisterError, Lists, Route;
    var t := Register(s, sid, np, allowed, bind).value;
    RegisteredStaysReachable(s, sid, np, allowed, bind);
    EnterEffect(s, sid, np);
    RouteLandsExactly(t, host, kind, sid, np.name);
    ListsIsLowered(np.domains, host);
  }

  /** From registration to conflict: a host is taken afterwards exactly when it was before or the new proxy lists it. */
  lemma DomainOwnedExactly(s: State, sid: Sid, np: NewProxy, allowed: set<nat>, bind: BindOutcome, host: Domain)
    requires Reachable(s) && Registered(s, sid) && Register(s, sid, np, allowed, bind).Success?
    ensures
      var t := Register(s, sid, np, allowed, bind).value;
      DomainOwned(t, host) <==> DomainOwned(s, host) || Lists(np.domains, host)
  {
    hide Reachable, Enter, LowerAll, Lower, RegisterError, Lists, Owns;
    var t := Register(s, sid, np, allowed, bind).value;
    RegisteredStaysReachable(s, sid, np, allowed, bind);
    EnterEffect(s, sid, np);
    IndexAgreesWithScan(s, Lower(host));
    IndexAgreesWithScan(t, Lower(host));
    ListsIsLowered(np.domains, host);
    ReachableRegInv(s);
    hide RowsInv, RetiredInv, ProxiesInv;
    assert s.rows[sid].runId in t.sessions;
  }

  // ------------------------------------------------------------------ from login to work connection

  /**
   After a login with a token and the registration of a proxy, a work connection for that proxy is
   accepted exactly with that token.
   */
  lemma TokenGuardsProxy(s: State, sid: Sid, run: RunId, ip: Ip, token: Token, np: NewProxy, allowed: set<nat>,
                         bind: BindOutcome, w: Work)
    requires Reachable(s) && sid !in s.rows && Login(s, sid, run, ip, token).Success?
    requires sid in Login(s, sid, run, ip, token).value.rows && w.proxy == np.name
    requires Register(Login(s, sid, run, ip, token).value, sid, np, allowed, bind).Success?
    ensures
      var t := Register(Login(s, sid, run, ip, token).value, sid, np, allowed, bind).value;
      && w in RouteWork(t, w).works
      && RouteWork(t, w).works[w] == if w.token == Some(token) then Routed(sid) else WorkClosed
  {
    hide Reachable, Login, Register;
    LoginOutcome(s, sid, run, ip, token);
    var t1 := Login(s, sid, run, ip, token).value;
    RegisterOutcome(t1, sid, np, allowed, bind);
  }

  // ------------------------------------------------------------------ the table of UDP proxies

  predicate HasUdp(s: State, sid: Sid, name: Name) {
    Registered(s, sid) && name in s.rows[sid].proxies && s.rows[sid].proxies[name].kind == Udp
  }

  /** The table holds exactly the names of the UDP proxies of registered sessions. */
  ghost predicate UdpExact(s: State) {
    forall n :: n in s.udp <==> exists sid: Sid :: HasUdp(s, sid, n)
  }

  /** Another registered session has a UDP proxy of the same name as one of `sid`. */
  ghost predicate SharesUdp(s: State, sid: Sid) {
    && sid in s.rows
    && exists o: Sid, n ::
         o != sid && HasUdp(s, o, n) && n in s.rows[sid].proxies && s.rows[sid].proxies[n].kind == Udp
  }

  /** A registration keeps the table exact, whatever the names. */
  lemma RegistrationKeepsUdp(s: State, sid: Sid, np: NewProxy, allowed: set<nat>, bind: BindOutcome)
    requires Registered(s, sid) && UdpExact(s) && Register(s, sid, np, allowed, bind).Success?
    ensures UdpExact(Register(s, sid, np, allowed, bind).value)
  {
    var t := Register(s, sid, np, allowed, bind).value;
    RegisterOutcome(s, sid, np, allowed, bind);
    assert np.name !in s.rows[sid].proxies by { hide Enter, Conflict, LowerAll; }
    hide Register, SameHost;
    forall o: Sid, n ensures HasUdp(t, o, n) <==> HasUdp(s, o, n) || (o == sid && n == np.name && np.kind == Udp) {
    }
    forall n ensures n in t.udp <==> exists o: Sid :: HasUdp(t, o, n) {
      if n in s.udp {
        var o: Sid :| HasUdp(s, o, n);
        assert HasUdp(t, o, n);
      }
      if n == np.name && np.kind == Udp {
        assert HasUdp(t, sid, n);
      }
    }
  }

  /** Leaving takes the names of `sid` out of the table: nobody else's exactly when none is shared. */
  lemma LeavingKeepsUdpExactly(s: State, t: State, sid: Sid)
    requires sid in s.rows && UdpExact(s) && (Registered(s, sid) || s.rows[sid].proxies == map[])
    requires forall n :: n in t.udp <==> n in s.udp && !(n in s.rows[sid].proxies && s.rows[sid].proxies[n].kind == Udp)
    requires forall o: Sid, n :: HasUdp(t, o, n) <==> o != sid && HasUdp(s, o, n)
    ensures UdpExact(t) <==> !SharesUdp(s, sid)
  {
    if SharesUdp(s, sid) {
      var o: Sid, n :| o != sid && HasUdp(s, o, n) && n in s.rows[sid].proxies && s.rows[sid].proxies[n].kind == Udp;
      assert HasUdp(t, o, n) && n !in t.udp;
    } else {
      forall n ensures n in t.udp <==> exists o: Sid :: HasUdp(t, o, n) {
        if n in t.udp {
          var o: Sid :| HasUdp(s, o, n);
          assert o != sid;
          assert HasUdp(t, o, n);
        }
        if o: Sid :| HasUdp(t, o, n) {
          assert HasUdp(s, o, n) && o != sid;
        }
      }
    }
  }

  /**
   A teardown keeps the table exact if and only if no other registered session has a UDP proxy of the
   same name as one of the session torn down.
   */
  lemma TeardownKeepsUdpExactly(s: State, sid: Sid)
    requires Reachable(s) && sid in s.rows && UdpExact(s)
    ensures UdpExact(Teardown(s, sid)) <==> !SharesUdp(s, sid)
  {
    hide DomainsInv, RowsInv, ProxiesInv, Reachable, UdpExact, SharesUdp, Teardown;
    ReachableRegInv(s);
    TeardownOutcome(s, sid);
    var t := Teardown(s, sid);
    forall o: Sid, n ensures HasUdp(t, o, n) <==> o != sid && HasUdp(s, o, n) {
      if o in s.rows && o != sid && s.rows[o].runId in s.sessions && s.sessions[s.rows[o].runId] == o {
        assert o in t.rows && t.rows[o] == s.rows[o];
      }
    }
    LeavingKeepsUdpExactly(s, t, sid);
  }

  /** So does a login: always under a new run id, else if and only if nobody shares with the session replaced. */
  lemma LoginKeepsUdpExactly(s: State, sid: Sid, run: RunId, ip: Ip, token: Token)
    requires Reachable(s) && sid !in s.rows && UdpExact(s) && Login(s, sid, run, ip, token).Success?
    ensures UdpExact(Login(s, sid, run, ip, token).value) <==> run !in s.sessions || !SharesUdp(s, s.sessions[run])
  {
    hide DomainsInv, RowsInv, ProxiesInv, Reachable, UdpExact, SharesUdp, Login;
    ReachableRegInv(s);
    LoginOutcome(s, sid, run, ip, token);
    var t := Login(s, sid, run, ip, token).value;
    if run in s.sessions {
      var prev := s.sessions[run];
      LoginUdp(s, sid, run, ip, token);
      forall o: Sid, n ensures HasUdp(t, o, n) <==> o != prev && HasUdp(s, o, n) {
        if o in s.rows && o != prev {
          assert t.rows[o] == s.rows[o];
        }
      }
      LeavingKeepsUdpExactly(s, t, prev);
    } else {
      forall o: Sid, n ensures HasUdp(t, o, n) <==> HasUdp(s, o, n) {
        if o in s.rows {
          assert t.rows[o] == s.rows[o];
        }
      }
      SameUdp(s, t);
    }
  }

  lemma LoginUdp(s: State, sid: Sid, run: RunId, ip: Ip, token: Token)
    requires run in s.sessions && s.sessions[run] in s.rows && sid !in s.rows
    ensures
      var (t, row) := (Login(s, sid, run, ip, token).value, s.rows[s.sessions[run]]);
      forall n :: n in t.udp <==> n in s.udp && !(n in row.proxies && row.proxies[n].kind == Udp)
    ensures
      var t := Login(s, sid, run, ip, token).value;
      t.rows.Keys == s.rows.Keys + {sid}
  {
    hide Cleanup;
    CleanupOutcome(SwapSession(s, sid, NewRow(run, ip, token)), s.sessions[run]);
  }

  lemma SameUdp(s: State, t: State)
    requires UdpExact(s) && t.udp == s.udp && forall o: Sid, n :: HasUdp(t, o, n) <==> HasUdp(s, o, n)
    ensures UdpExact(t)
  {
    forall n ensures n in t.udp <==> exists o: Sid :: HasUdp(t, o, n) {
      if o: Sid :| HasUdp(s, o, n) {
        assert HasUdp(t, o, n);
      }
      if o: Sid :| HasUdp(t, o, n) {
        assert HasUdp(s, o, n);
      }
    }
  }

  lemma TrafficKeepsUdp(s: State, e: Step)
    requires UdpExact(s) && StepEnabled(s, e) && (e.UserTraffic? || e.WorkTraffic?)
    ensures UdpExact(StepApply(s, e))
  {
    var t := StepApply(s, e);
    hide UdpExact;
    match e {
      case UserTraffic(us) =>
        UserStepUntouched(s, us);
        UserUdp(s, us);
      case WorkTraffic(ws) =>
        WorkStepUntouched(s, ws);
        WorkUdp(s, ws);
    }
    hide StepApply, StepEnabled;
    SameUdp(s, t);
  }

  lemma UserUdp(s: State, us: M.UserStep)
    requires M.UserEnabled(s, us)
    ensures M.ApplyUser(s, us).udp == s.udp
  {
    if us.Popped? {
      PoppedUdp(s, us.u);
    } else {
      hide PopPooled;
    }
  }

  lemma PoppedUdp(s: State, u: User)
    requires u.sid in s.rows
    ensures PopPooled(s, u).udp == s.udp
  {
    hide Pool;
    var pool := Pool(s, u.sid, u.proxy);
    if pool == [] {
      assert PopPooled(s, u) == s.(users := s.users[u := Missed]);
    } else {
      assert SetPool(s, u.sid, u.proxy, pool[..|pool| - 1]).udp == s.udp;
      hide SetPool;
    }
  }

  lemma WorkUdp(s: State, ws: M.WorkStep)
    requires M.WorkEnabled(s, ws)
    ensures M.ApplyWork(s, ws).udp == s.udp
  {
    if ws.Pushed? {
      PushingIsQuiet(s, ws.w, s.works[ws.w].sid);
    } else if ws.Arrived? {
      RoutingIsQuiet(s, ws.w);
    }
    hide RouteWork, PushPooled;
  }

  /** Two sessions never have UDP proxies of one name, in any state of the run. */
  ghost predicate NeverShared(s: State, es: seq<Step>)
    decreases |es|
  {
    && (forall sid | sid in s.rows :: !SharesUdp(s, sid))
    && (es != [] && StepEnabled(s, es[0]) ==> NeverShared(StepApply(s, es[0]), es[1..]))
  }

  lemma StepKeepsUdp(s: State, e: Step)
    requires Reachable(s) && UdpExact(s) && StepEnabled(s, e) && forall sid | sid in s.rows :: !SharesUdp(s, sid)
    ensures UdpExact(StepApply(s, e))
  {
    ReachableRegInv(s);
    hide DomainsInv, RowsInv, ProxiesInv, RetiredInv, Reachable, UdpExact, SharesUdp, Login, Register, Teardown;
    match e
    case LoginStep(sid, run, ip, token) =>
      if Login(s, sid, run, ip, token).Success? { LoginKeepsUdpExactly(s, sid, run, ip, token); }
    case RegisterStep(sid, np, allowed, bind) =>
      if Register(s, sid, np, allowed, bind).Success? { RegistrationKeepsUdp(s, sid, np, allowed, bind); }
    case TeardownStep(sid) => TeardownKeepsUdpExactly(s, sid);
    case _ => TrafficKeepsUdp(s, e);
  }

  lemma {:induction false} RunKeepsUdp(s: State, es: seq<Step>)
    requires Reachable(s) && UdpExact(s) && NeverShared(s, es) && RunSteps(s, es).Some?
    ensures UdpExact(RunSteps(s, es).value)
    decreases |es|
  {
    hide Reachable, UdpExact, SharesUdp, StepEnabled, StepApply;
    if es != [] {
      StepKeepsUdp(s, es[0]);
      P.StepStaysReachable(s, es[0]);
      RunKeepsUdp(StepApply(s, es[0]), es[1..]);
    }
  }

  /**
   On every run in which no two registered sessions have UDP proxies of one name, the table that decides
   which work connections are UDP ones holds exactly the UDP proxies of registered sessions.
   */
  lemma UdpTableIsExact(maxActive: nat, maxSessions: nat, maxPerIp: nat, es: seq<Step>, n: Name)
    requires
      var s := Init(maxActive, maxSessions, maxPerIp);
      NeverShared(s, es) && RunSteps(s, es).Some?
    ensures
      var t := RunSteps(Init(maxActive, maxSessions, maxPerIp), es).value;
      n in t.udp <==>
        exists sid: Sid :: Registered(t, sid) && n in t.rows[sid].proxies && t.rows[sid].proxies[n].kind == Udp
  {
    hide NeverShared, RunSteps;
    var s := Init(maxActive, maxSessions, maxPerIp);
    assert Reachable(s) by { P.NoSteps(s); assert RunSteps(s, []) == Some(s); }
    RunKeepsUdp(s, es);
    var t := RunSteps(s, es).value;
    hide Registered;
    if sid: Sid :| HasUdp(t, sid, n) {
      assert Registered(t, sid) && n in t.rows[sid].proxies && t.rows[sid].proxies[n].kind == Udp;
    }
    if sid: Sid :| Registered(t, sid) && n in t.rows[sid].proxies && t.rows[sid].proxies[n].kind == Udp {
      assert HasUdp(t, sid, n);
    }
  }
}
