/**
 The server's shared state as an object, with the blocks of the listener, work, state and control
 components as methods that update it in place. Each is proved against the section, or the
 uninterrupted run of sections, that specifies it.
 */
module Server {
  import opened Wrappers
  import opened ServerSections
  import opened Registry
  import D = Dispatch

  class ServerState {
    var rows: map<Sid, Session>
    var sessions: map<RunId, Sid>
    var proxyIndex: map<Name, RunId>
    var domainIndex: map<Domain, (RunId, Name)>
    var udp: set<Name>
    var pending: map<nat, PendingWork>
    var workId: nat
    var active: int
    const maxActive: nat
    const maxSessions: nat
    const maxPerIp: nat
    var now: nat

    ghost var users: map<User, UserPlace>
    ghost var works: map<Work, WorkPlace>
    ghost var issued: map<nat, User>
    ghost var bridged: set<(User, Work)>

    ghost function View(): State
      reads this
    {
      State(rows, sessions, proxyIndex, domainIndex, udp, pending, workId, active,
            maxActive, maxSessions, maxPerIp, now, users, works, issued, bridged)
    }

    constructor (maxActive: nat, maxSessions: nat, maxPerIp: nat)
      ensures View() == Init(maxActive, maxSessions, maxPerIp)
    {
      this.maxActive, this.maxSessions, this.maxPerIp := maxActive, maxSessions, maxPerIp;
      rows, sessions, proxyIndex, domainIndex, udp, pending := map[], map[], map[], map[], {}, map[];
      workId, active, now := 0, 0, 0;
      users, works, issued, bridged := map[], map[], map[], {};
    }

    // ---------------------------------------------------------------- user connections

    /** One pop under the pools lock. */
    method PopPool(u: User) returns (work: Option<Work>)
      requires u.sid in rows
      modifies this
      ensures View() == PopPooled(old(View()), u)
      ensures
        var pool := Pool(old(View()), u.sid, u.proxy);
        work == if pool == [] then None else Some(pool[|pool| - 1])
    {
      var row := rows[u.sid];
      if u.proxy !in row.pools || row.pools[u.proxy] == [] {
        users := users[u := Missed];
        return None;
      }
      var pool := row.pools[u.proxy];
      var w := pool[|pool| - 1];
      rows := rows[u.sid := row.(pools := row.pools[u.proxy := pool[..|pool| - 1]])];
      users, works := users[u := ProbingWork(w)], works[w := ProbedBy(u)];
      return Some(w);
    }

    /** Pop until a stream answers the probe; dead ones are dropped on the way. */
    method PopLivePooled(u: User, alive: Work -> bool) returns (work: Option<Work>)
      requires u.sid in rows
      modifies this
      ensures View() == D.PopLive(old(View()), u, alive)
      ensures work.None? <==> u in users && users[u] == Missed
    {
      while true
        invariant u.sid in rows
        invariant D.PopLive(View(), u, alive) == D.PopLive(old(View()), u, alive)
        decreases |Pool(View(), u.sid, u.proxy)|
      {
        work := PopPool(u);
        if work.None? {
          return;
        }
        var w := work.value;
        if alive(w) {
          users, works := users[u := BridgedTo(w)], works[w := BridgedWith(u)];
          bridged := bridged + {(u, w)};
          return;
        }
        users, works := users[u := Dispatching], works[w := WorkClosed];
      }
    }

    /** The atomic check-and-increment of the connection counter. */
    method TryAccept(u: User) returns (accepted: bool)
      modifies this
      ensures View() == Accept(old(View()), u)
      ensures accepted <==> old(active) < maxActive
    {
      if active >= maxActive {
        return false;
      }
      active := active + 1;
      users := users[u := Dispatching];
      return true;
    }

    method NextWorkId(u: User) returns (id: nat)
      modifies this
      ensures View() == IssueId(old(View()), u) && id == old(workId) + 1
    {
      workId := workId + 1;
      users := users[u := Numbered(workId)];
      issued := issued[workId := u];
      return workId;
    }

    method AddPending(u: User, id: nat)
      modifies this
      ensures View() == InsertPending(old(View()), u, id)
    {
      pending := pending[id := PendingWork(u.proxy, u.sid, u, now)];
      users := users[u := Waiting(id)];
    }

    method DispatchUserConnection(u: User, alive: Work -> bool) returns (accepted: bool)
      requires u.sid in rows
      modifies this
      ensures View() == D.DispatchUser(old(View()), u, alive)
      ensures accepted <==> old(active) < maxActive
    {
      hide D.PopLive, PopPooled, IssueId, InsertPending;
      accepted := TryAccept(u);
      if !accepted {
        return;
      }
      var work := PopLivePooled(u, alive);
      if work.None? {
        var id := NextWorkId(u);
        AddPending(u, id);
      }
    }

    /** The periodic scan: collect the expired ids, then remove them one by one. */
    method SweepExpiredPending(timeout: nat) returns (n: nat)
      modifies this
      ensures View() == Evict(old(View()), Expired(old(View()), timeout))
      ensures n == |Expired(old(View()), timeout)|
    {
      var ids := set id | id in pending && now - pending[id].created >= timeout;
      ghost var all := ids;
      n := |ids|;
      while ids != {}
        invariant ids <= all && pending == old(pending) - (all - ids)
        invariant View() == old(View()).(pending := pending)
        decreases ids
      {
        var id :| id in ids;
        pending := pending - {id};
        ids := ids - {id};
      }
      users := Evict(old(View()), all).users;
    }

    /** The resend task gives up on a user whose request could not be sent. */
    method AbandonPending(id: nat)
      modifies this
      ensures View() == Evict(old(View()), {id})
    {
      ghost var before := View();
      pending := pending - {id};
      users := Evict(before, {id}).users;
    }

    // ---------------------------------------------------------------- work connections

    /** Find the session owning the proxy and check the token against it. */
    method Authenticate(w: Work) returns (owner: Option<Sid>)
      modifies this
      ensures View() == RouteWork(old(View()), w)
      ensures w in works && owner == (if works[w].Routed? then Some(works[w].sid) else None)
      ensures owner.Some? ==> owner.value in rows
    {
      works := works[w := WorkClosed];
      if w.proxy !in proxyIndex || proxyIndex[w.proxy] !in sessions {
        return None; // unknown proxy
      }
      var sid := sessions[proxyIndex[w.proxy]];
      if sid !in rows || w.token != Some(rows[sid].token) {
        return None; // invalid or missing token
      }
      works := works[w := Routed(sid)];
      return Some(sid);
    }

    method AddToPool(w: Work, sid: Sid)
      requires sid in rows
      modifies this
      ensures View() == PushPooled(old(View()), w, sid)
    {
      var row := rows[sid];
      var pool := if w.proxy in row.pools then row.pools[w.proxy] else [];
      if |pool| >= MAX_POOLED_WORK_CONNS_PER_PROXY {
        rows := rows[sid := row.(pools := row.pools[w.proxy := pool])];
        works := works[w := WorkClosed];
        return;
      }
      rows := rows[sid := row.(pools := row.pools[w.proxy := pool + [w]])];
      works := works[w := Pooled(sid)];
    }

    method ClaimPending(w: Work, sid: Sid) returns (user: Option<User>)
      modifies this
      ensures View() == Claim(old(View()), w, sid)
      ensures user == if Owned(old(View()), w, sid) then Some(old(pending)[w.workId].user) else None
    {
      if w.workId !in pending || pending[w.workId].sid != sid || pending[w.workId].proxy != w.proxy {
        works := works[w := WorkClosed];
        return None;
      }
      var u := pending[w.workId].user;
      pending := pending - {w.workId};
      users, works := users[u := BridgedTo(w)], works[w := BridgedWith(u)];
      bridged := bridged + {(u, w)};
      return Some(u);
    }

    method HandleWorkConnection(w: Work)
      modifies this
      ensures View() == D.HandleWork(old(View()), w)
    {
      hide RouteWork, PushPooled, Claim;
      var owner := Authenticate(w);
      if owner.None? {
        return;
      }
      if w.proxy in udp {
        works := works[w := if w.workId == WORK_ID_POOL_RESERVED then WorkClosed else HandedToUdp];
      } else if w.workId == WORK_ID_POOL_RESERVED {
        AddToPool(w, owner.value);
      } else {
        var user := ClaimPending(w, owner.value);
      }
    }

    // ---------------------------------------------------------------- sessions

    method UnregisterSession(sid: Sid)
      requires sid in rows
      modifies this
      ensures View() == Unregister(old(View()), sid)
    {
      var run := rows[sid].runId;
      if run in sessions && sessions[run] == sid {
        sessions := sessions - {run};
      }
    }

    method UnindexProxyNames(names: set<Name>)
      modifies this
      ensures View() == UnindexProxies(old(View()), names)
    {
      var todo := names;
      while todo != {}
        invariant todo <= names && proxyIndex == old(proxyIndex) - (names - todo)
        invariant View() == old(View()).(proxyIndex := proxyIndex)
        decreases todo
      {
        var n :| n in todo;
        proxyIndex := proxyIndex - {n};
        todo := todo - {n};
      }
    }

    method UnindexDomainNames(domains: set<Domain>)
      modifies this
      ensures View() == UnindexDomains(old(View()), domains)
    {
      var todo := domains;
      while todo != {}
        invariant todo <= domains && domainIndex == old(domainIndex) - (domains - todo)
        invariant View() == old(View()).(domainIndex := domainIndex)
        decreases todo
      {
        var d :| d in todo;
        domainIndex := domainIndex - {d};
        todo := todo - {d};
      }
    }

    method DropProxies(sid: Sid, udpNames: set<Name>)
      requires sid in rows
      modifies this
      ensures View() == ClearDomains(RemoveUdp(DrainProxies(old(View()), sid), udpNames), sid)
    {
      rows := rows[sid := rows[sid].(proxies := map[])];
      udp := udp - udpNames;
      rows := rows[sid := rows[sid].(domains := map[])];
    }

    method DropPools(sid: Sid)
      requires sid in rows
      modifies this
      ensures View() == DrainPools(old(View()), sid)
    {
      rows := rows[sid := rows[sid].(pools := map[])];
      works := map w | w in works :: if works[w] == Pooled(sid) then WorkClosed else works[w];
    }

    method RetainPending(sid: Sid)
      modifies this
      ensures View() == Evict(old(View()), OfSession(old(View()), sid))
    {
      ghost var before := View();
      var ids := set id | id in pending && pending[id].sid == sid;
      pending := pending - ids;
      users := Evict(before, ids).users;
    }

    method CleanupSession(sid: Sid)
      requires sid in rows
      modifies this
      ensures View() == Cleanup(old(View()), sid)
    {
      hide Evict, OfSession, DrainPools;
      var row := rows[sid];
      var udpNames := set n | n in row.proxies && row.proxies[n].kind == Udp;
      UnindexProxyNames(row.proxies.Keys);
      UnindexDomainNames(row.domains.Keys);
      DropProxies(sid, udpNames);
      DropPools(sid);
      RetainPending(sid);
    }

    method Teardown(sid: Sid)
      requires sid in rows
      modifies this
      ensures View() == Registry.Teardown(old(View()), sid)
    {
      UnregisterSession(sid);
      CleanupSession(sid);
    }

    method HandleLogin(sid: Sid, run: RunId, ip: Ip, token: Token) returns (r: Result<(), LoginError>)
      requires sid !in rows
      modifies this
      ensures r.Success? <==> Login(old(View()), sid, run, ip, token).Success?
      ensures r.Success? ==> View() == Login(old(View()), sid, run, ip, token).value
      ensures r.Failure? ==> View() == old(View()) && Login(old(View()), sid, run, ip, token) == Failure(r.error)
    {
      if run !in sessions {
        if |sessions| >= maxSessions {
          return Failure(GlobalLimit);
        }
        var same := set o | o in sessions && sessions[o] in rows && rows[sessions[o]].ip == ip;
        if |same| >= maxPerIp {
          return Failure(PerIpLimit);
        }
      }
      var previous := if run in sessions then Some(sessions[run]) else None;
      rows := rows[sid := Session(run, ip, token, map[], map[], map[])];
      sessions := sessions[run := sid];
      if previous.Some? && previous.value in rows {
        CleanupSession(previous.value);
      }
      return Success(());
    }

    // ---------------------------------------------------------------- registration and routing

    method IndexAll(ds: seq<Domain>, run: RunId, name: Name)
      modifies this
      ensures View() == IndexDomains(old(View()), ds, run, name)
    {
      var i := 0;
      while i < |ds|
        invariant 0 <= i <= |ds|
        invariant IndexDomains(View(), ds[i..], run, name) == IndexDomains(old(View()), ds, run, name)
      {
        domainIndex := domainIndex[ds[i] := (run, name)];
        i := i + 1;
      }
    }

    /** Whether some domain of the list is already routed to a registered session. */
    method FindConflict(domains: seq<Domain>) returns (conflict: bool)
      ensures conflict <==> Conflict(View(), domains)
    {
      for i := 0 to |domains|
        invariant forall j | 0 <= j < i :: SessionForDomain(View(), domains[j]).None?
      {
        var d := domains[i];
        if d in domainIndex && domainIndex[d].0 in sessions {
          assert domains[i] in domains && SessionForDomain(View(), domains[i]).Some?;
          return true;
        }
      }
      return false;
    }

    method CheckRegistration(sid: Sid, np: NewProxy, allowed: set<nat>, bind: BindOutcome)
      returns (error: Option<ProxyError>)
      requires sid in rows
      ensures error == RegisterError(View(), sid, np, allowed, bind)
    {
      var row := rows[sid];
      if |row.proxies| >= MAX_PROXIES_PER_SESSION {
        return Some(TooManyProxies);
      }
      if np.name in row.proxies {
        return Some(NameExists);
      }
      if np.kind in {Http, Https} && np.domains == [] {
        return Some(InvalidField);
      }
      var conflict := FindConflict(LowerAll(np.domains));
      if conflict {
        return Some(DomainConflict);
      }
      if np.kind in {Http, Https} {
        return None;
      }
      if np.port.None? {
        return Some(InvalidField);
      }
      if np.port.value !in allowed {
        return Some(PortNotAllowed);
      }
      match bind {
        case AddrInUse => return Some(PortOccupied);
        case BindFailed => return Some(Internal);
        case Bound => return None;
      }
    }

    method EnterProxy(sid: Sid, np: NewProxy)
      requires sid in rows
      modifies this
      ensures View() == Enter(old(View()), sid, np)
    {
      hide IndexDomains, Everywhere, LowerAll;
      var run := rows[sid].runId;
      var domains := LowerAll(np.domains);
      if np.kind == Udp {
        udp := udp + {np.name};
      }
      rows := rows[sid := rows[sid].(domains := rows[sid].domains + map d | d in domains :: np.name)];
      ghost var s2 := View();
      IndexAll(domains, run, np.name);
      IndexedRows(s2, domains, run, np.name);
      rows := rows[sid := rows[sid].(proxies := rows[sid].proxies[np.name := ProxyEntry(np.kind, np.port, domains)])];
      proxyIndex := proxyIndex[np.name := run];
    }

    method RegisterProxy(sid: Sid, np: NewProxy, allowed: set<nat>, bind: BindOutcome)
      returns (r: Result<(), ProxyError>)
      requires sid in rows
      modifies this
      ensures r.Success? <==> Register(old(View()), sid, np, allowed, bind).Success?
      ensures r.Success? ==> View() == Register(old(View()), sid, np, allowed, bind).value
      ensures r.Failure? ==> View() == old(View()) && Register(old(View()), sid, np, allowed, bind) == Failure(r.error)
    {
      hide RegisterError, Enter;
      var error := CheckRegistration(sid, np, allowed, bind);
      if error.Some? {
        return Failure(error.value);
      }
      EnterProxy(sid, np);
      return Success(());
    }

    /** The vhost path: look the host up, check the kind, dispatch. */
    method RouteAndDispatch(host: Domain, kind: Kind, tag: nat, alive: Work -> bool) returns (routed: bool)
      modifies this
      ensures routed <==> Route(old(View()), host, kind).Some?
      ensures !routed ==> View() == old(View())
      ensures routed ==>
        var (sid, name) := Route(old(View()), host, kind).value;
        sid in old(rows) && View() == D.DispatchUser(old(View()), User(tag, sid, name), alive)
    {
      var h := Lower(host);
      if h !in domainIndex || domainIndex[h].0 !in sessions {
        return false;
      }
      var sid, name := sessions[domainIndex[h].0], domainIndex[h].1;
      if sid !in rows || name !in rows[sid].proxies || rows[sid].proxies[name].kind != kind {
        return false;
      }
      var accepted := DispatchUserConnection(User(tag, sid, name), alive);
      return true;
    }
  }
}
