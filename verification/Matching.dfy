/**
 Every interleaving of the server's critical sections, and what all of them keep.

 An event is one critical section run by some task. `Enabled` says only what that task already
 knows from its own earlier steps (a stream it holds, an id it was given) and that new streams and
 new session ids are new; nothing orders the tasks. In particular the sections of a session's
 teardown, registration and index maintenance may come at any time, in any order, any number of
 times and with any arguments.
 */
module Matching {
  import opened Wrappers
  import opened ServerSections

  /** Sections run by the dispatch task of a user stream, or at the end of its life. */
  datatype UserStep =
    | Accepted(u: User)
    | Popped(u: User)
    | ProbedAlive(u: User)
    | ProbedDead(u: User)
    | Issued(u: User)
    | Inserted(u: User)
    | Dropped(u: User)
    | BridgeEnded(u: User)

  /** Sections that move a work stream or take users out of `pending`. */
  datatype WorkStep =
    | Arrived(w: Work)
    | ToUdp(w: Work)
    | Pushed(w: Work)
    | Claimed(w: Work)
    | Swept(timeout: nat)
    | RequestFailed(id: nat)
    | PendingRetained(sid: Sid)
    | PoolsDrained(sid: Sid)

  /** Sections on the registry and the indexes, and the passing of time. */
  datatype TableStep =
    | UdpIdIssued
    | Swapped(sid: Sid, row: Session)
    | Unregistered(sid: Sid)
    | ProxiesUnindexed(names: set<Name>)
    | DomainsUnindexed(domains: set<Domain>)
    | ProxiesDrained(sid: Sid)
    | UdpRemoved(names: set<Name>)
    | DomainsCleared(sid: Sid)
    | UdpAdded(name: Name)
    | DomainsAdded(sid: Sid, added: seq<Domain>, name: Name)
    | DomainIndexed(domain: Domain, run: RunId, name: Name)
    | ProxyAdded(sid: Sid, name: Name, entry: ProxyEntry)
    | ProxyIndexed(name: Name, run: RunId)
    | Ticked(elapsed: nat)

  datatype Event = ByUser(us: UserStep) | ByWork(ws: WorkStep) | ByTable(ts: TableStep)

  predicate UserAt(s: State, u: User, place: UserPlace) {
    u in s.users && s.users[u] == place
  }

  predicate UserEnabled(s: State, e: UserStep) {
    match e
    case Accepted(u) => u !in s.users && u.sid in s.rows
    case Popped(u) => UserAt(s, u, Dispatching) && u.sid in s.rows
    case ProbedAlive(u) => u in s.users && s.users[u].ProbingWork?
    case ProbedDead(u) => u in s.users && s.users[u].ProbingWork?
    case Issued(u) => UserAt(s, u, Missed)
    case Inserted(u) => u in s.users && s.users[u].Numbered?
    case Dropped(u) => UserAt(s, u, Closing)
    case BridgeEnded(u) => u in s.users && s.users[u].BridgedTo?
  }

  function ApplyUser(s: State, e: UserStep): State
    requires UserEnabled(s, e)
  {
    match e
    case Accepted(u) => Accept(s, u)
    case Popped(u) => PopPooled(s, u)
    case ProbedAlive(u) => Bridge(s, u, s.users[u].work)
    case ProbedDead(u) => DiscardProbed(s, u, s.users[u].work)
    case Issued(u) => IssueId(s, u)
    case Inserted(u) => InsertPending(s, u, s.users[u].id)
    case Dropped(u) => DropUser(s, u)
    case BridgeEnded(u) => EndBridge(s, u, s.users[u].work)
  }

  predicate WorkEnabled(s: State, e: WorkStep) {
    match e
    case Arrived(w) => w !in s.works
    case ToUdp(w) => w in s.works && s.works[w].Routed?
    case Pushed(w) => w in s.works && s.works[w].Routed? && s.works[w].sid in s.rows
         && w.workId == WORK_ID_POOL_RESERVED
    case Claimed(w) => w in s.works && s.works[w].Routed? && w.workId != WORK_ID_POOL_RESERVED
    case PoolsDrained(sid) => sid in s.rows
    case _ => true
  }

  function ApplyWork(s: State, e: WorkStep): State
    requires WorkEnabled(s, e)
  {
    match e
    case Arrived(w) => RouteWork(s, w)
    case ToUdp(w) => HandToUdp(s, w)
    case Pushed(w) => PushPooled(s, w, s.works[w].sid)
    case Claimed(w) => Claim(s, w, s.works[w].sid)
    case Swept(timeout) => Evict(s, Expired(s, timeout))
    case RequestFailed(id) => Evict(s, {id})
    case PendingRetained(sid) => Evict(s, OfSession(s, sid))
    case PoolsDrained(sid) => DrainPools(s, sid)
  }

  predicate TableEnabled(s: State, e: TableStep) {
    match e
    case Swapped(sid, row) => sid !in s.rows && row.pools == map[]
    case Unregistered(sid) => sid in s.rows
    case ProxiesDrained(sid) => sid in s.rows
    case DomainsCleared(sid) => sid in s.rows
    case DomainsAdded(sid, _, _) => sid in s.rows
    case ProxyAdded(sid, _, _) => sid in s.rows
    case _ => true
  }

  function ApplyTable(s: State, e: TableStep): State
    requires TableEnabled(s, e)
  {
    match e
    case UdpIdIssued => IssueUdpId(s)
    case Swapped(sid, row) => SwapSession(s, sid, row)
    case Unregistered(sid) => Unregister(s, sid)
    case ProxiesUnindexed(names) => UnindexProxies(s, names)
    case DomainsUnindexed(domains) => UnindexDomains(s, domains)
    case ProxiesDrained(sid) => DrainProxies(s, sid)
    case UdpRemoved(names) => RemoveUdp(s, names)
    case DomainsCleared(sid) => ClearDomains(s, sid)
    case UdpAdded(name) => AddUdp(s, name)
    case DomainsAdded(sid, added, name) => AddDomains(s, sid, added, name)
    case DomainIndexed(domain, run, name) => IndexDomain(s, domain, run, name)
    case ProxyAdded(sid, name, entry) => AddProxy(s, sid, name, entry)
    case ProxyIndexed(name, run) => IndexProxy(s, name, run)
    case Ticked(elapsed) => s.(now := s.now + elapsed)
  }

  predicate Enabled(s: State, e: Event) {
    match e
    case ByUser(us) => UserEnabled(s, us)
    case ByWork(ws) => WorkEnabled(s, ws)
    case ByTable(ts) => TableEnabled(s, ts)
  }

  function Apply(s: State, e: Event): State
    requires Enabled(s, e)
  {
    match e
    case ByUser(us) => ApplyUser(s, us)
    case ByWork(ws) => ApplyWork(s, ws)
    case ByTable(ts) => ApplyTable(s, ts)
  }

  // ------------------------------------------------------------------ the invariant

  /** The work stream proved itself to the session the user was dispatched on, for the same proxy. */
  predicate Matched(rows: map<Sid, Session>, issued: map<nat, User>, u: User, w: Work) {
    && u.sid in rows
    && w.token == Some(rows[u.sid].token)
    && w.proxy == u.proxy
    && (w.workId != WORK_ID_POOL_RESERVED ==> w.workId in issued && issued[w.workId] == u)
  }

  /** A stream that may sit in the pool of session `row` for proxy `name`. */
  predicate PoolMember(row: Session, name: Name, w: Work) {
    w.proxy == name && w.workId == WORK_ID_POOL_RESERVED && w.token == Some(row.token)
  }

  ghost predicate PoolOk(works: map<Work, WorkPlace>, sid: Sid, row: Session, name: Name, pool: seq<Work>) {
    && |pool| <= MAX_POOLED_WORK_CONNS_PER_PROXY
    && (forall i | 0 <= i < |pool| ::
          PoolMember(row, name, pool[i]) && pool[i] in works && works[pool[i]] == Pooled(sid))
    && (forall i, j | 0 <= i < j < |pool| :: pool[i] != pool[j])
  }

  ghost predicate PoolsInv(rows: map<Sid, Session>, works: map<Work, WorkPlace>) {
    && (forall sid, name | sid in rows && name in rows[sid].pools ::
          PoolOk(works, sid, rows[sid], name, rows[sid].pools[name]))
    && (forall w | w in works && works[w].Pooled? ::
          && works[w].sid in rows
          && w.proxy in rows[works[w].sid].pools
          && w in rows[works[w].sid].pools[w.proxy])
  }

  ghost predicate HandsInv(rows: map<Sid, Session>, issued: map<nat, User>, users: map<User, UserPlace>,
                           works: map<Work, WorkPlace>) {
    && (forall w | w in works && works[w].Routed? ::
          works[w].sid in rows && w.token == Some(rows[works[w].sid].token))
    && (forall u | u in users && users[u].ProbingWork? ::
          users[u].work in works && works[users[u].work] == ProbedBy(u) && Matched(rows, issued, u, users[u].work))
    && (forall w | w in works && works[w].ProbedBy? ::
          works[w].user in users && users[works[w].user] == ProbingWork(w))
    && (forall u | u in users :: u.sid in rows)
  }

  ghost predicate IdsInv(workId: nat, issued: map<nat, User>, users: map<User, UserPlace>) {
    && (forall id | id in issued :: 1 <= id <= workId)
    && (forall u | u in users && users[u].Numbered? ::
          users[u].id in issued && issued[users[u].id] == u)
  }

  ghost predicate PendingInv(pending: map<nat, PendingWork>, now: nat, issued: map<nat, User>,
                             users: map<User, UserPlace>) {
    && (forall id | id in pending ::
          && pending[id].user in users && users[pending[id].user] == Waiting(id)
          && pending[id].user.sid == pending[id].sid && pending[id].user.proxy == pending[id].proxy
          && id in issued && issued[id] == pending[id].user
          && pending[id].created <= now)
    && (forall u | u in users && users[u].Waiting? ::
          users[u].id in pending && pending[users[u].id].user == u)
  }

  /** `bridged` only ever grew by matched pairs, and no stream is in two of them. */
  ghost predicate BridgesInv(bridged: set<(User, Work)>, users: map<User, UserPlace>, works: map<Work, WorkPlace>) {
    && (forall p | p in bridged ::
          && p.0 in users && (users[p.0] == BridgedTo(p.1) || users[p.0] == UserClosed)
          && p.1 in works && (works[p.1] == BridgedWith(p.0) || works[p.1] == WorkClosed))
    && (forall u | u in users && users[u].BridgedTo? ::
          && (u, users[u].work) in bridged
          && users[u].work in works && works[users[u].work] == BridgedWith(u))
    && (forall w | w in works && works[w].BridgedWith? ::
          works[w].user in users && users[works[w].user] == BridgedTo(w))
    && (forall p, q | p in bridged && q in bridged :: p.0 == q.0 <==> p.1 == q.1)
  }

  ghost predicate MatchesInv(rows: map<Sid, Session>, issued: map<nat, User>, bridged: set<(User, Work)>) {
    forall p | p in bridged :: Matched(rows, issued, p.0, p.1)
  }

  function LiveUsers(users: map<User, UserPlace>): set<User> {
    set u | u in users && users[u] != UserClosed
  }

  ghost predicate ActiveInv(active: int, maxActive: nat, users: map<User, UserPlace>) {
    active == |LiveUsers(users)| && active <= maxActive
  }

  ghost predicate Inv(s: State) {
    && PoolsInv(s.rows, s.works)
    && HandsInv(s.rows, s.issued, s.users, s.works)
    && IdsInv(s.workId, s.issued, s.users)
    && PendingInv(s.pending, s.now, s.issued, s.users)
    && BridgesInv(s.bridged, s.users, s.works)
    && MatchesInv(s.rows, s.issued, s.bridged)
    && ActiveInv(s.active, s.maxActive, s.users)
  }

  // ------------------------------------------------------------------ frames and single moves

  ghost predicate SameTokens(rows: map<Sid, Session>, rows': map<Sid, Session>) {
    forall sid | sid in rows :: sid in rows' && rows'[sid].token == rows[sid].token
  }

  ghost predicate SamePools(rows: map<Sid, Session>, rows': map<Sid, Session>) {
    && SameTokens(rows, rows')
    && (forall sid | sid in rows :: rows'[sid].pools == rows[sid].pools)
    && (forall sid | sid in rows' && sid !in rows :: rows'[sid].pools == map[])
  }

  ghost predicate Extends(issued: map<nat, User>, issued': map<nat, User>) {
    forall id | id in issued :: id in issued' && issued'[id] == issued[id]
  }

  lemma PoolsFrame(rows: map<Sid, Session>, rows': map<Sid, Session>, works: map<Work, WorkPlace>)
    requires PoolsInv(rows, works) && SamePools(rows, rows')
    ensures PoolsInv(rows', works)
  {
    forall sid, name | sid in rows' && name in rows'[sid].pools
      ensures PoolOk(works, sid, rows'[sid], name, rows'[sid].pools[name])
    {
      assert PoolOk(works, sid, rows[sid], name, rows[sid].pools[name]);
    }
  }

  lemma HandsFrame(rows: map<Sid, Session>, rows': map<Sid, Session>, issued: map<nat, User>, issued': map<nat, User>,
                   users: map<User, UserPlace>, works: map<Work, WorkPlace>)
    requires HandsInv(rows, issued, users, works) && SameTokens(rows, rows') && Extends(issued, issued')
    ensures HandsInv(rows', issued', users, works)
  {
  }

  lemma MatchesFrame(rows: map<Sid, Session>, rows': map<Sid, Session>, issued: map<nat, User>, issued': map<nat, User>,
                     bridged: set<(User, Work)>)
    requires MatchesInv(rows, issued, bridged) && SameTokens(rows, rows') && Extends(issued, issued')
    ensures MatchesInv(rows', issued', bridged)
  {
    forall p | p in bridged ensures Matched(rows', issued', p.0, p.1) {
      assert Matched(rows, issued, p.0, p.1);
    }
  }

  lemma MatchesAdd(rows: map<Sid, Session>, issued: map<nat, User>, bridged: set<(User, Work)>, u: User, w: Work)
    requires MatchesInv(rows, issued, bridged) && Matched(rows, issued, u, w)
    ensures MatchesInv(rows, issued, bridged + {(u, w)})
  {
  }

  /** A work stream outside every pool moves to another place outside every pool. */
  lemma PoolsMove(rows: map<Sid, Session>, works: map<Work, WorkPlace>, w: Work, x: WorkPlace)
    requires PoolsInv(rows, works)
    requires w in works ==> !works[w].Pooled?
    requires !x.Pooled?
    ensures PoolsInv(rows, works[w := x])
  {
    var works' := works[w := x];
    forall sid, name | sid in rows && name in rows[sid].pools
      ensures PoolOk(works', sid, rows[sid], name, rows[sid].pools[name])
    {
      assert PoolOk(works, sid, rows[sid], name, rows[sid].pools[name]);
    }
  }

  lemma PoolsPop(s: State, sid: Sid, name: Name, x: WorkPlace)
    requires PoolsInv(s.rows, s.works) && sid in s.rows && Pool(s, sid, name) != [] && !x.Pooled?
    ensures
      var pool := Pool(s, sid, name);
      var w := pool[|pool| - 1];
      && PoolMember(s.rows[sid], name, w) && w in s.works && s.works[w] == Pooled(sid)
      && PoolsInv(SetPool(s, sid, name, pool[..|pool| - 1]).rows, s.works[w := x])
  {
    var pool := Pool(s, sid, name);
    assert PoolOk(s.works, sid, s.rows[sid], name, pool);
    var w := pool[|pool| - 1];
    var rows' := SetPool(s, sid, name, pool[..|pool| - 1]).rows;
    var works' := s.works[w := x];
    forall o, n | o in rows' && n in rows'[o].pools
      ensures PoolOk(works', o, rows'[o], n, rows'[o].pools[n])
    {
      assert PoolOk(s.works, o, s.rows[o], n, s.rows[o].pools[n]);
      assert w !in rows'[o].pools[n];
    }
    forall v | v in works' && works'[v].Pooled?
      ensures v.proxy in rows'[works'[v].sid].pools && v in rows'[works'[v].sid].pools[v.proxy]
    {
      var p := s.rows[s.works[v].sid].pools[v.proxy];
      assert v in p;
      if s.works[v].sid == sid && v.proxy == name {
        var i :| 0 <= i < |p| && p[i] == v;
        assert pool[..|pool| - 1][i] == v;
      }
    }
  }

  lemma PoolsPush(s: State, sid: Sid, w: Work)
    requires PoolsInv(s.rows, s.works) && sid in s.rows && w in s.works && !s.works[w].Pooled?
    requires PoolMember(s.rows[sid], w.proxy, w)
    requires |Pool(s, sid, w.proxy)| < MAX_POOLED_WORK_CONNS_PER_PROXY
    ensures PoolsInv(SetPool(s, sid, w.proxy, Pool(s, sid, w.proxy) + [w]).rows, s.works[w := Pooled(sid)])
  {
    var pool := Pool(s, sid, w.proxy);
    var rows' := SetPool(s, sid, w.proxy, pool + [w]).rows;
    var works' := s.works[w := Pooled(sid)];
    if w.proxy in s.rows[sid].pools {
      assert PoolOk(s.works, sid, s.rows[sid], w.proxy, pool);
    }
    forall o, n | o in rows' && n in rows'[o].pools
      ensures PoolOk(works', o, rows'[o], n, rows'[o].pools[n])
    {
      if o != sid || n != w.proxy {
        assert PoolOk(s.works, o, s.rows[o], n, s.rows[o].pools[n]);
      }
    }
  }

  lemma PoolsDrain(s: State, sid: Sid)
    requires PoolsInv(s.rows, s.works) && sid in s.rows
    ensures PoolsInv(DrainPools(s, sid).rows, DrainPools(s, sid).works)
  {
    var t := DrainPools(s, sid);
    forall o, n | o in t.rows && n in t.rows[o].pools
      ensures PoolOk(t.works, o, t.rows[o], n, t.rows[o].pools[n])
    {
      assert PoolOk(s.works, o, s.rows[o], n, s.rows[o].pools[n]);
    }
  }

  lemma HandsMoveUser(rows: map<Sid, Session>, issued: map<nat, User>, users: map<User, UserPlace>,
                      works: map<Work, WorkPlace>,
                      u: User, p: UserPlace)
    requires HandsInv(rows, issued, users, works) && u.sid in rows && !p.ProbingWork?
    requires u in users ==> !users[u].ProbingWork?
    ensures HandsInv(rows, issued, users[u := p], works)
  {
  }

  lemma HandsMoveWork(rows: map<Sid, Session>, issued: map<nat, User>, users: map<User, UserPlace>,
                      works: map<Work, WorkPlace>,
                      w: Work, x: WorkPlace)
    requires HandsInv(rows, issued, users, works) && !x.ProbedBy?
    requires w in works ==> !works[w].ProbedBy?
    requires x.Routed? ==> x.sid in rows && w.token == Some(rows[x.sid].token)
    ensures HandsInv(rows, issued, users, works[w := x])
  {
  }

  lemma HandsTake(rows: map<Sid, Session>, issued: map<nat, User>, users: map<User, UserPlace>,
                  works: map<Work, WorkPlace>,
                  u: User, w: Work)
    requires HandsInv(rows, issued, users, works) && Matched(rows, issued, u, w)
    requires w in works && works[w].Pooled? && u in users && users[u] == Dispatching
    ensures HandsInv(rows, issued, users[u := ProbingWork(w)], works[w := ProbedBy(u)])
  {
  }

  lemma HandsRelease(rows: map<Sid, Session>, issued: map<nat, User>, users: map<User, UserPlace>,
                     works: map<Work, WorkPlace>,
                     u: User, w: Work, p: UserPlace, x: WorkPlace)
    requires HandsInv(rows, issued, users, works) && u in users && users[u] == ProbingWork(w)
    requires !p.ProbingWork? && !x.ProbedBy? && !x.Routed?
    ensures HandsInv(rows, issued, users[u := p], works[w := x])
  {
  }

  lemma IdsMove(workId: nat, issued: map<nat, User>, users: map<User, UserPlace>, u: User, p: UserPlace)
    requires IdsInv(workId, issued, users)
    requires p.Numbered? ==> p.id in issued && issued[p.id] == u
    ensures IdsInv(workId, issued, users[u := p])
  {
  }

  lemma PendingMove(pending: map<nat, PendingWork>, now: nat, issued: map<nat, User>, users: map<User, UserPlace>,
                    u: User, p: UserPlace)
    requires PendingInv(pending, now, issued, users) && !p.Waiting?
    requires u in users ==> !users[u].Waiting?
    ensures PendingInv(pending, now, issued, users[u := p])
  {
  }

  lemma BridgesMove(bridged: set<(User, Work)>, users: map<User, UserPlace>, works: map<Work, WorkPlace>, u: User,
                    p: UserPlace)
    requires BridgesInv(bridged, users, works) && !p.BridgedTo?
    requires u in users ==> !users[u].BridgedTo? && !users[u].UserClosed?
    ensures BridgesInv(bridged, users[u := p], works)
  {
  }

  lemma BridgesMoveWork(bridged: set<(User, Work)>, users: map<User, UserPlace>, works: map<Work, WorkPlace>, w: Work,
                        x: WorkPlace)
    requires BridgesInv(bridged, users, works) && !x.BridgedWith?
    requires w in works ==> !works[w].BridgedWith? && !works[w].WorkClosed?
    ensures BridgesInv(bridged, users, works[w := x])
  {
  }

  lemma BridgesJoin(bridged: set<(User, Work)>, users: map<User, UserPlace>, works: map<Work, WorkPlace>, u: User,
                    w: Work)
    requires BridgesInv(bridged, users, works)
    requires u in users && !users[u].BridgedTo? && !users[u].UserClosed?
    requires w in works && !works[w].BridgedWith? && !works[w].WorkClosed?
    ensures BridgesInv(bridged + {(u, w)}, users[u := BridgedTo(w)], works[w := BridgedWith(u)])
  {
  }

  lemma BridgesEnd(bridged: set<(User, Work)>, users: map<User, UserPlace>, works: map<Work, WorkPlace>, u: User,
                   w: Work)
    requires BridgesInv(bridged, users, works) && u in users && users[u] == BridgedTo(w)
    ensures BridgesInv(bridged, users[u := UserClosed], works[w := WorkClosed])
  {
    assert (u, w) in bridged;
  }

  lemma ActiveMove(active: int, maxActive: nat, users: map<User, UserPlace>, u: User, p: UserPlace)
    requires ActiveInv(active, maxActive, users) && u in users && users[u] != UserClosed
    ensures p != UserClosed ==> ActiveInv(active, maxActive, users[u := p])
    ensures p == UserClosed ==> ActiveInv(active - 1, maxActive, users[u := p])
  {
    if p == UserClosed {
      assert LiveUsers(users[u := p]) == LiveUsers(users) - {u};
    } else {
      assert LiveUsers(users[u := p]) == LiveUsers(users);
    }
  }

  // ------------------------------------------------------------------ one section at a time

  /** A user of a dispatch task moves on inside that task, or from `pending` to nobody's hands. */
  lemma MoveKeepsInv(s: State, u: User, p: UserPlace)
    requires Inv(s) && u in s.users
    requires s.users[u] in {Dispatching, Missed} || s.users[u].Numbered?
    requires p in {Dispatching, Missed} || (p.Numbered? && p.id in s.issued && s.issued[p.id] == u)
    ensures Inv(s.(users := s.users[u := p]))
  {
    hide PoolsInv, IdsInv, PendingInv, BridgesInv, MatchesInv, ActiveInv;
    HandsMoveUser(s.rows, s.issued, s.users, s.works, u, p);
    IdsMove(s.workId, s.issued, s.users, u, p);
    PendingMove(s.pending, s.now, s.issued, s.users, u, p);
    BridgesMove(s.bridged, s.users, s.works, u, p);
    ActiveMove(s.active, s.maxActive, s.users, u, p);
  }

  /** A work stream in its handler's hands, or a new one, goes anywhere but into a pool or a bridge. */
  lemma MoveWorkKeepsInv(s: State, w: Work, x: WorkPlace)
    requires Inv(s) && (w in s.works ==> s.works[w].Routed?)
    requires x in {WorkClosed, HandedToUdp} || (x.Routed? && TokenAccepted(s, x.sid, w.token))
    ensures Inv(s.(works := s.works[w := x]))
  {
    hide PoolsInv, HandsInv, IdsInv, PendingInv, BridgesInv, MatchesInv, ActiveInv;
    PoolsMove(s.rows, s.works, w, x);
    HandsMoveWork(s.rows, s.issued, s.users, s.works, w, x);
    BridgesMoveWork(s.bridged, s.users, s.works, w, x);
  }

  lemma AcceptKeepsInv(s: State, u: User)
    requires Inv(s) && UserEnabled(s, Accepted(u))
    ensures Inv(Accept(s, u))
  {
    hide PoolsInv, HandsInv, IdsInv, PendingInv, BridgesInv, MatchesInv;
    HandsMoveUser(s.rows, s.issued, s.users, s.works, u, Dispatching);
    IdsMove(s.workId, s.issued, s.users, u, Dispatching);
    PendingMove(s.pending, s.now, s.issued, s.users, u, Dispatching);
    BridgesMove(s.bridged, s.users, s.works, u, Dispatching);
    assert LiveUsers(s.users[u := Dispatching]) == LiveUsers(s.users) + {u};
  }

  lemma PopKeepsInv(s: State, u: User)
    requires Inv(s) && UserEnabled(s, Popped(u))
    ensures Inv(PopPooled(s, u))
  {
    hide PoolsInv, HandsInv, IdsInv, PendingInv, BridgesInv, MatchesInv, ActiveInv;
    var pool := Pool(s, u.sid, u.proxy);
    if pool == [] {
      MoveKeepsInv(s, u, Missed);
    } else {
      var w := pool[|pool| - 1];
      var t := PopPooled(s, u);
      PoolsPop(s, u.sid, u.proxy, ProbedBy(u));
      HandsTake(s.rows, s.issued, s.users, s.works, u, w);
      HandsFrame(s.rows, t.rows, s.issued, s.issued, t.users, t.works);
      IdsMove(s.workId, s.issued, s.users, u, ProbingWork(w));
      PendingMove(s.pending, s.now, s.issued, s.users, u, ProbingWork(w));
      BridgesMove(s.bridged, s.users, s.works, u, ProbingWork(w));
      BridgesMoveWork(s.bridged, t.users, s.works, w, ProbedBy(u));
      MatchesFrame(s.rows, t.rows, s.issued, s.issued, s.bridged);
      ActiveMove(s.active, s.maxActive, s.users, u, ProbingWork(w));
    }
  }

  lemma BridgeProbedKeepsInv(s: State, u: User)
    requires Inv(s) && UserEnabled(s, ProbedAlive(u))
    ensures Inv(Bridge(s, u, s.users[u].work))
  {
    hide PoolsInv, IdsInv, MatchesInv, ActiveInv;
    var w := s.users[u].work;
    PoolsMove(s.rows, s.works, w, BridgedWith(u));
    HandsRelease(s.rows, s.issued, s.users, s.works, u, w, BridgedTo(w), BridgedWith(u));
    IdsMove(s.workId, s.issued, s.users, u, BridgedTo(w));
    PendingMove(s.pending, s.now, s.issued, s.users, u, BridgedTo(w));
    BridgesJoin(s.bridged, s.users, s.works, u, w);
    MatchesAdd(s.rows, s.issued, s.bridged, u, w);
    ActiveMove(s.active, s.maxActive, s.users, u, BridgedTo(w));
  }

  lemma DiscardKeepsInv(s: State, u: User)
    requires Inv(s) && UserEnabled(s, ProbedDead(u))
    ensures Inv(DiscardProbed(s, u, s.users[u].work))
  {
    hide PoolsInv, IdsInv, MatchesInv, ActiveInv;
    var w := s.users[u].work;
    PoolsMove(s.rows, s.works, w, WorkClosed);
    HandsRelease(s.rows, s.issued, s.users, s.works, u, w, Dispatching, WorkClosed);
    IdsMove(s.workId, s.issued, s.users, u, Dispatching);
    PendingMove(s.pending, s.now, s.issued, s.users, u, Dispatching);
    BridgesMove(s.bridged, s.users, s.works, u, Dispatching);
    BridgesMoveWork(s.bridged, s.users[u := Dispatching], s.works, w, WorkClosed);
    ActiveMove(s.active, s.maxActive, s.users, u, Dispatching);
  }

  lemma IssueKeepsIds(s: State, u: User)
    requires IdsInv(s.workId, s.issued, s.users) && PendingInv(s.pending, s.now, s.issued, s.users)
             && UserAt(s, u, Missed)
    ensures IdsInv(IssueId(s, u).workId, IssueId(s, u).issued, IssueId(s, u).users)
    ensures PendingInv(s.pending, s.now, IssueId(s, u).issued, IssueId(s, u).users)
    ensures Extends(s.issued, IssueId(s, u).issued)
  {
  }

  lemma IssueKeepsInv(s: State, u: User)
    requires Inv(s) && UserEnabled(s, Issued(u))
    ensures Inv(IssueId(s, u))
  {
    hide PoolsInv, IdsInv, PendingInv, BridgesInv, MatchesInv, ActiveInv, Extends;
    var t := IssueId(s, u);
    IssueKeepsIds(s, u);
    assert SameTokens(s.rows, s.rows);
    HandsMoveUser(s.rows, s.issued, s.users, s.works, u, Numbered(t.workId));
    HandsFrame(s.rows, s.rows, s.issued, t.issued, t.users, s.works);
    MatchesFrame(s.rows, s.rows, s.issued, t.issued, s.bridged);
    BridgesMove(s.bridged, s.users, s.works, u, Numbered(t.workId));
    ActiveMove(s.active, s.maxActive, s.users, u, Numbered(t.workId));
  }

  lemma InsertKeepsInv(s: State, u: User)
    requires Inv(s) && UserEnabled(s, Inserted(u))
    ensures Inv(InsertPending(s, u, s.users[u].id))
  {
    hide PoolsInv, MatchesInv, ActiveInv;
    var id := s.users[u].id;
    HandsMoveUser(s.rows, s.issued, s.users, s.works, u, Waiting(id));
    IdsMove(s.workId, s.issued, s.users, u, Waiting(id));
    BridgesMove(s.bridged, s.users, s.works, u, Waiting(id));
    ActiveMove(s.active, s.maxActive, s.users, u, Waiting(id));
  }

  lemma RouteKeepsInv(s: State, w: Work)
    requires Inv(s) && WorkEnabled(s, Arrived(w))
    ensures Inv(RouteWork(s, w))
  {
    hide Inv, SessionForProxy, TokenAccepted;
    var owner := SessionForProxy(s, w.proxy);
    if owner.Some? && TokenAccepted(s, owner.value, w.token) {
      assert RouteWork(s, w) == s.(works := s.works[w := Routed(owner.value)]);
      hide RouteWork;
      MoveWorkKeepsInv(s, w, Routed(owner.value));
    } else {
      assert RouteWork(s, w) == s.(works := s.works[w := WorkClosed]);
      hide RouteWork;
      MoveWorkKeepsInv(s, w, WorkClosed);
    }
  }

  lemma SetPoolSameTokens(s: State, sid: Sid, name: Name, pool: seq<Work>)
    requires sid in s.rows
    ensures SameTokens(s.rows, SetPool(s, sid, name, pool).rows)
    ensures Extends(s.issued, s.issued)
  {
  }

  lemma RoutedIsAccepted(s: State, w: Work)
    requires HandsInv(s.rows, s.issued, s.users, s.works) && w in s.works && s.works[w].Routed?
    ensures TokenAccepted(s, s.works[w].sid, w.token)
  {
  }

  lemma PushKeepsInv(s: State, w: Work)
    requires Inv(s) && WorkEnabled(s, Pushed(w))
    ensures Inv(PushPooled(s, w, s.works[w].sid))
  {
    hide PoolsInv, HandsInv, IdsInv, PendingInv, BridgesInv, MatchesInv, ActiveInv, SameTokens, Extends;
    var sid := s.works[w].sid;
    var pool := Pool(s, sid, w.proxy);
    var t := PushPooled(s, w, sid);
    RoutedIsAccepted(s, w);
    if |pool| >= MAX_POOLED_WORK_CONNS_PER_PROXY {
      assert s.rows[sid].pools[w.proxy := pool] == s.rows[sid].pools;
      assert t.rows == s.rows;
      MoveWorkKeepsInv(s, w, WorkClosed);
    } else {
      PoolsPush(s, sid, w);
      SetPoolSameTokens(s, sid, w.proxy, pool + [w]);
      HandsMoveWork(s.rows, s.issued, s.users, s.works, w, Pooled(sid));
      HandsFrame(s.rows, t.rows, s.issued, s.issued, s.users, t.works);
      BridgesMoveWork(s.bridged, s.users, s.works, w, Pooled(sid));
      MatchesFrame(s.rows, t.rows, s.issued, s.issued, s.bridged);
    }
  }

  /** A claim that passes the ownership test is a match. */
  lemma OwnedIsMatched(s: State, w: Work, sid: Sid)
    requires HandsInv(s.rows, s.issued, s.users, s.works) && PendingInv(s.pending, s.now, s.issued, s.users)
    requires w in s.works && s.works[w] == Routed(sid) && Owned(s, w, sid)
    ensures
      var u := s.pending[w.workId].user;
      Matched(s.rows, s.issued, u, w) && UserAt(s, u, Waiting(w.workId))
  {
  }

  lemma ClaimKeepsInv(s: State, w: Work)
    requires Inv(s) && WorkEnabled(s, Claimed(w))
    ensures Inv(Claim(s, w, s.works[w].sid))
  {
    hide PoolsInv, HandsInv, IdsInv, PendingInv, BridgesInv, MatchesInv, ActiveInv;
    var sid := s.works[w].sid;
    if Owned(s, w, sid) {
      var u := s.pending[w.workId].user;
      var t := Claim(s, w, sid);
      OwnedIsMatched(s, w, sid);
      PoolsMove(s.rows, s.works, w, BridgedWith(u));
      HandsMoveUser(s.rows, s.issued, s.users, s.works, u, BridgedTo(w));
      HandsMoveWork(s.rows, s.issued, t.users, s.works, w, BridgedWith(u));
      IdsMove(s.workId, s.issued, s.users, u, BridgedTo(w));
      BridgesJoin(s.bridged, s.users, s.works, u, w);
      MatchesAdd(s.rows, s.issued, s.bridged, u, w);
      ActiveMove(s.active, s.maxActive, s.users, u, BridgedTo(w));
      PendingClaimed(s, w.workId, BridgedTo(w));
    } else {
      MoveWorkKeepsInv(s, w, WorkClosed);
    }
  }

  lemma PendingClaimed(s: State, id: nat, p: UserPlace)
    requires PendingInv(s.pending, s.now, s.issued, s.users) && id in s.pending && !p.Waiting?
    ensures PendingInv(s.pending - {id}, s.now, s.issued, s.users[s.pending[id].user := p])
  {
  }

  lemma EvictKeepsIds(s: State, ids: set<nat>)
    requires IdsInv(s.workId, s.issued, s.users) && PendingInv(s.pending, s.now, s.issued, s.users)
    ensures IdsInv(s.workId, s.issued, Evict(s, ids).users)
    ensures PendingInv(Evict(s, ids).pending, s.now, s.issued, Evict(s, ids).users)
    ensures LiveUsers(Evict(s, ids).users) == LiveUsers(s.users)
  {
  }

  lemma EvictKeepsHands(s: State, ids: set<nat>)
    requires HandsInv(s.rows, s.issued, s.users, s.works) && BridgesInv(s.bridged, s.users, s.works)
    ensures HandsInv(s.rows, s.issued, Evict(s, ids).users, s.works)
    ensures BridgesInv(s.bridged, Evict(s, ids).users, s.works)
  {
  }

  lemma EvictKeepsInv(s: State, ids: set<nat>)
    requires Inv(s)
    ensures Inv(Evict(s, ids))
  {
    hide PoolsInv, HandsInv, IdsInv, PendingInv, BridgesInv, MatchesInv, LiveUsers;
    EvictKeepsIds(s, ids);
    EvictKeepsHands(s, ids);
  }

  lemma DropKeepsInv(s: State, u: User)
    requires Inv(s) && UserEnabled(s, Dropped(u))
    ensures Inv(DropUser(s, u))
  {
    hide PoolsInv, IdsInv, MatchesInv, ActiveInv;
    HandsMoveUser(s.rows, s.issued, s.users, s.works, u, UserClosed);
    IdsMove(s.workId, s.issued, s.users, u, UserClosed);
    PendingMove(s.pending, s.now, s.issued, s.users, u, UserClosed);
    BridgesMove(s.bridged, s.users, s.works, u, UserClosed);
    ActiveMove(s.active, s.maxActive, s.users, u, UserClosed);
  }

  lemma EndBridgeKeepsInv(s: State, u: User)
    requires Inv(s) && UserEnabled(s, BridgeEnded(u))
    ensures Inv(EndBridge(s, u, s.users[u].work))
  {
    hide PoolsInv, IdsInv, MatchesInv, ActiveInv;
    var w := s.users[u].work;
    PoolsMove(s.rows, s.works, w, WorkClosed);
    HandsMoveUser(s.rows, s.issued, s.users, s.works, u, UserClosed);
    HandsMoveWork(s.rows, s.issued, s.users[u := UserClosed], s.works, w, WorkClosed);
    IdsMove(s.workId, s.issued, s.users, u, UserClosed);
    PendingMove(s.pending, s.now, s.issued, s.users, u, UserClosed);
    BridgesEnd(s.bridged, s.users, s.works, u, w);
    ActiveMove(s.active, s.maxActive, s.users, u, UserClosed);
  }

  /** Pooled streams being closed is invisible to whoever holds a stream or bridges two. */
  lemma DrainKeepsHands(s: State, sid: Sid)
    requires sid in s.rows
    requires HandsInv(s.rows, s.issued, s.users, s.works) && BridgesInv(s.bridged, s.users, s.works)
    ensures HandsInv(s.rows, s.issued, s.users, DrainPools(s, sid).works)
    ensures BridgesInv(s.bridged, s.users, DrainPools(s, sid).works)
    ensures SameTokens(s.rows, DrainPools(s, sid).rows) && Extends(s.issued, s.issued)
  {
  }

  lemma DrainPoolsKeepsInv(s: State, sid: Sid)
    requires Inv(s) && sid in s.rows
    ensures Inv(DrainPools(s, sid))
  {
    hide PoolsInv, HandsInv, IdsInv, PendingInv, BridgesInv, MatchesInv, ActiveInv, SameTokens, Extends;
    var t := DrainPools(s, sid);
    PoolsDrain(s, sid);
    DrainKeepsHands(s, sid);
    HandsFrame(s.rows, t.rows, s.issued, s.issued, s.users, t.works);
    MatchesFrame(s.rows, t.rows, s.issued, s.issued, s.bridged);
  }

  /** Sections that touch no stream, no id and no token leave the invariant alone. */
  lemma RowsKeepInv(s: State, t: State)
    requires Inv(s) && SamePools(s.rows, t.rows)
    requires t.users == s.users && t.works == s.works && t.issued == s.issued && t.bridged == s.bridged
    requires t.pending == s.pending && t.workId == s.workId && t.now >= s.now
    requires t.active == s.active && t.maxActive == s.maxActive
    ensures Inv(t)
  {
    hide PoolsInv, HandsInv, IdsInv, BridgesInv, MatchesInv, ActiveInv;
    PoolsFrame(s.rows, t.rows, s.works);
    HandsFrame(s.rows, t.rows, s.issued, s.issued, s.users, s.works);
    MatchesFrame(s.rows, t.rows, s.issued, s.issued, s.bridged);
  }

  lemma UserStepKeepsInv(s: State, e: UserStep)
    requires Inv(s) && UserEnabled(s, e)
    ensures Inv(ApplyUser(s, e))
  {
    hide Inv;
    match e
    case Accepted(u) => AcceptKeepsInv(s, u);
    case Popped(u) => PopKeepsInv(s, u);
    case ProbedAlive(u) => BridgeProbedKeepsInv(s, u);
    case ProbedDead(u) => DiscardKeepsInv(s, u);
    case Issued(u) => IssueKeepsInv(s, u);
    case Inserted(u) => InsertKeepsInv(s, u);
    case Dropped(u) => DropKeepsInv(s, u);
    case BridgeEnded(u) => EndBridgeKeepsInv(s, u);
  }

  lemma WorkStepKeepsInv(s: State, e: WorkStep)
    requires Inv(s) && WorkEnabled(s, e)
    ensures Inv(ApplyWork(s, e))
  {
    hide Inv;
    match e
    case Arrived(w) => RouteKeepsInv(s, w);
    case ToUdp(w) => MoveWorkKeepsInv(s, w, HandToUdp(s, w).works[w]);
    case Pushed(w) => PushKeepsInv(s, w);
    case Claimed(w) => ClaimKeepsInv(s, w);
    case Swept(timeout) => EvictKeepsInv(s, Expired(s, timeout));
    case RequestFailed(id) => EvictKeepsInv(s, {id});
    case PendingRetained(sid) => EvictKeepsInv(s, OfSession(s, sid));
    case PoolsDrained(sid) => DrainPoolsKeepsInv(s, sid);
  }

  lemma RowUpdateSamePools(rows: map<Sid, Session>, sid: Sid, row: Session)
    requires sid in rows ==> row.token == rows[sid].token && row.pools == rows[sid].pools
    requires sid !in rows ==> row.pools == map[]
    ensures SamePools(rows, rows[sid := row])
  {
  }

  predicate SetsRow(e: TableStep) {
    e.Swapped? || e.ProxiesDrained? || e.DomainsCleared? || e.DomainsAdded? || e.ProxyAdded?
  }

  /** Registry and index sections leave every stream, id, pool and token alone. */
  lemma TableStepKeepsRows(s: State, e: TableStep)
    requires TableEnabled(s, e)
    ensures SamePools(s.rows, ApplyTable(s, e).rows)
  {
    var t := ApplyTable(s, e);
    if SetsRow(e) {
      hide SamePools;
      RowUpdateSamePools(s.rows, e.sid, t.rows[e.sid]);
    } else {
      assert t.rows == s.rows;
    }
  }

  predicate OnlyRowsAndTables(s: State, t: State) {
    && t.users == s.users && t.works == s.works && t.issued == s.issued && t.bridged == s.bridged
    && t.pending == s.pending && t.workId == s.workId && t.now >= s.now
    && t.active == s.active && t.maxActive == s.maxActive
  }

  lemma TableStepFrame(s: State, e: TableStep)
    requires TableEnabled(s, e) && !e.UdpIdIssued?
    ensures OnlyRowsAndTables(s, ApplyTable(s, e))
  {
  }

  lemma UdpIdKeepsInv(s: State)
    requires Inv(s)
    ensures Inv(IssueUdpId(s))
  {
    hide PoolsInv, HandsInv, PendingInv, BridgesInv, MatchesInv, ActiveInv;
  }

  lemma TableStepKeepsInv(s: State, e: TableStep)
    requires Inv(s) && TableEnabled(s, e)
    ensures Inv(ApplyTable(s, e))
  {
    hide Inv, SamePools, TableEnabled;
    if e.UdpIdIssued? {
      UdpIdKeepsInv(s);
    } else {
      TableStepFrame(s, e);
      TableStepKeepsRows(s, e);
      hide ApplyTable;
      RowsKeepInv(s, ApplyTable(s, e));
    }
  }

  lemma StepKeepsInv(s: State, e: Event)
    requires Inv(s) && Enabled(s, e)
    ensures Inv(Apply(s, e))
  {
    hide Inv, UserEnabled, WorkEnabled, TableEnabled, ApplyUser, ApplyWork, ApplyTable;
    match e
    case ByUser(us) => UserStepKeepsInv(s, us);
    case ByWork(ws) => WorkStepKeepsInv(s, ws);
    case ByTable(ts) => TableStepKeepsInv(s, ts);
  }

  // ------------------------------------------------------------------ whole runs

  /** The state after a run of enabled sections, or None when some section could not come next. */
  function Run(s: State, es: seq<Event>): Option<State>
    decreases |es|
  {
    if es == [] then Some(s)
    else if Enabled(s, es[0]) then Run(Apply(s, es[0]), es[1..])
    else None
  }

  lemma InitInv(maxActive: nat, maxSessions: nat, maxPerIp: nat)
    ensures Inv(Init(maxActive, maxSessions, maxPerIp))
  {
    assert LiveUsers(Init(maxActive, maxSessions, maxPerIp).users) == {};
  }

  lemma {:induction false} RunKeepsInv(s: State, es: seq<Event>)
    requires Inv(s) && Run(s, es).Some?
    ensures Inv(Run(s, es).value)
    decreases |es|
  {
    hide Inv, Apply, Enabled;
    if es != [] {
      StepKeepsInv(s, es[0]);
      RunKeepsInv(Apply(s, es[0]), es[1..]);
    }
  }

  ghost predicate Reachable(s: State) {
    exists maxActive, maxSessions, maxPerIp, es :: Run(Init(maxActive, maxSessions, maxPerIp), es) == Some(s)
  }

  lemma ReachableInv(s: State)
    requires Reachable(s)
    ensures Inv(s)
  {
    hide Inv, Apply, Enabled;
    var maxActive, maxSessions, maxPerIp, es :| Run(Init(maxActive, maxSessions, maxPerIp), es) == Some(s);
    InitInv(maxActive, maxSessions, maxPerIp);
    RunKeepsInv(Init(maxActive, maxSessions, maxPerIp), es);
  }

  /**
   Matching safety. Whatever the interleaving, a user stream is only ever bridged to a work stream
   that presented the token of the session the user was dispatched on and named the user's proxy;
   and when it came with a work id, that id had been issued for this very user.
   */
  lemma MatchingSafety(s: State, u: User, w: Work)
    requires Reachable(s) && (u, w) in s.bridged
    ensures u.sid in s.rows && w.token == Some(s.rows[u.sid].token)
    ensures w.proxy == u.proxy
    ensures w.workId != WORK_ID_POOL_RESERVED ==> w.workId in s.issued && s.issued[w.workId] == u
  {
    ReachableInv(s);
    assert Matched(s.rows, s.issued, u, w);
  }

  /** Neither a user stream nor a work stream is ever bridged twice. */
  lemma BridgedAtMostOnce(s: State, p: (User, Work), q: (User, Work))
    requires Reachable(s) && p in s.bridged && q in s.bridged && (p.0 == q.0 || p.1 == q.1)
    ensures p == q
  {
    ReachableInv(s);
  }

  /**
   Every accepted user stream is in exactly one place, and the tables agree: it is in `pending`
   under exactly one id when it waits, and under none otherwise.
   */
  lemma UserInOnePlace(s: State, u: User)
    requires Reachable(s) && u in s.users
    ensures s.users[u].Waiting? <==> exists id :: id in s.pending && s.pending[id].user == u
    ensures forall id, id' | id in s.pending && id' in s.pending ::
              s.pending[id].user == u && s.pending[id'].user == u ==> id == id'
    ensures forall w :: s.users[u] == BridgedTo(w) <==> (u, w) in s.bridged && s.users[u] != UserClosed
  {
    hide PoolsInv, HandsInv, IdsInv, MatchesInv, ActiveInv;
    ReachableInv(s);
  }

  /** Every authenticated work stream is in exactly one place: a pool holds it once, or it is nowhere pooled. */
  lemma WorkInOnePlace(s: State, w: Work, sid: Sid, name: Name)
    requires Reachable(s) && sid in s.rows && name in s.rows[sid].pools
    ensures w in s.rows[sid].pools[name] <==> w in s.works && s.works[w] == Pooled(sid) && w.proxy == name
    ensures multiset(s.rows[sid].pools[name])[w] <= 1
    ensures w in s.rows[sid].pools[name] ==> forall u :: (u, w) !in s.bridged
  {
    hide HandsInv, IdsInv, PendingInv, MatchesInv, ActiveInv;
    ReachableInv(s);
    var pool := s.rows[sid].pools[name];
    assert PoolOk(s.works, sid, s.rows[sid], name, pool);
    DistinctOccursOnce(pool, w);
  }

  lemma {:induction false} DistinctOccursOnce<T>(xs: seq<T>, x: T)
    requires forall i, j | 0 <= i < j < |xs| :: xs[i] != xs[j]
    ensures multiset(xs)[x] <= 1
  {
    if xs != [] {
      assert xs == [xs[0]] + xs[1..];
      DistinctOccursOnce(xs[1..], x);
      if xs[0] == x {
        assert x !in xs[1..];
      }
    }
  }

  /** `active_connections` is the number of live user streams, and never above the limit. */
  lemma ActiveCountsLiveUsers(s: State)
    requires Reachable(s)
    ensures s.active == |set u | u in s.users && s.users[u] != UserClosed|
    ensures 0 <= s.active <= s.maxActive
  {
    ReachableInv(s);
  }

  /** No pool ever holds more than 32 streams, and all of them are authenticated for its session. */
  lemma PoolsStayBounded(s: State, sid: Sid, name: Name)
    requires Reachable(s) && sid in s.rows && name in s.rows[sid].pools
    ensures |s.rows[sid].pools[name]| <= 32
    ensures forall w | w in s.rows[sid].pools[name] ::
              w.token == Some(s.rows[sid].token) && w.proxy == name && w.workId == WORK_ID_POOL_RESERVED
  {
    hide HandsInv, IdsInv, PendingInv, BridgesInv, MatchesInv, ActiveInv;
    ReachableInv(s);
    assert PoolOk(s.works, sid, s.rows[sid], name, s.rows[sid].pools[name]);
  }

  // ------------------------------------------------------------------ what never changes

  ghost predicate SameIdentity(rows: map<Sid, Session>, rows': map<Sid, Session>) {
    forall sid | sid in rows ::
        sid in rows' && rows'[sid].token == rows[sid].token && rows'[sid].runId == rows[sid].runId
  }

  /** Issued ids, bridged pairs and the identity of session rows are for good; the id counter only grows. */
  ghost predicate Later(s: State, t: State) {
    Extends(s.issued, t.issued) && SameIdentity(s.rows, t.rows) && s.workId <= t.workId && s.bridged <= t.bridged
  }

  lemma RowUpdateSameIdentity(rows: map<Sid, Session>, sid: Sid, row: Session)
    requires sid in rows ==> row.token == rows[sid].token && row.runId == rows[sid].runId
    ensures SameIdentity(rows, rows[sid := row])
  {
  }

  lemma SameIsLater(s: State)
    ensures SameIdentity(s.rows, s.rows) && Extends(s.issued, s.issued)
  {
  }

  lemma IssueIsLater(s: State, u: User)
    requires IdsInv(s.workId, s.issued, s.users)
    ensures Extends(s.issued, IssueId(s, u).issued)
  {
    assert s.workId + 1 !in s.issued;
  }

  /** Only issuing an id and popping a pool touch ids and rows. */
  lemma UserStepFrame(s: State, e: UserStep)
    requires UserEnabled(s, e) && !e.Issued? && !e.Popped?
    ensures
      var t := ApplyUser(s, e);
      t.rows == s.rows && t.issued == s.issued && t.workId == s.workId && s.bridged <= t.bridged
  {
  }

  lemma PopIsLater(s: State, u: User)
    requires UserEnabled(s, Popped(u))
    ensures Later(s, PopPooled(s, u))
  {
    hide SameIdentity, Extends;
    SameIsLater(s);
    RowUpdateSameIdentity(s.rows, u.sid, PopPooled(s, u).rows[u.sid]);
  }

  lemma UserStepIsLater(s: State, e: UserStep)
    requires IdsInv(s.workId, s.issued, s.users) && UserEnabled(s, e)
    ensures Later(s, ApplyUser(s, e))
  {
    hide SameIdentity, Extends, IdsInv;
    SameIsLater(s);
    if e.Issued? {
      IssueIsLater(s, e.u);
    } else if e.Popped? {
      hide Later;
      PopIsLater(s, e.u);
    } else {
      UserStepFrame(s, e);
      hide ApplyUser, UserEnabled;
    }
  }

  lemma ClaimIsLater(s: State, w: Work, sid: Sid)
    ensures Later(s, Claim(s, w, sid))
  {
    hide SameIdentity, Extends;
    SameIsLater(s);
  }

  lemma RouteIsLater(s: State, w: Work)
    ensures Later(s, RouteWork(s, w)) && Later(s, HandToUdp(s, w))
  {
    hide SameIdentity, Extends;
    SameIsLater(s);
  }

  lemma EvictIsLater(s: State, ids: set<nat>)
    ensures Later(s, Evict(s, ids))
  {
    hide SameIdentity, Extends;
    SameIsLater(s);
  }

  lemma SetPoolIsLater(s: State, sid: Sid, name: Name, pool: seq<Work>, works: map<Work, WorkPlace>)
    requires sid in s.rows
    ensures Later(s, SetPool(s, sid, name, pool).(works := works))
  {
    hide SameIdentity, Extends;
    SameIsLater(s);
    RowUpdateSameIdentity(s.rows, sid, SetPool(s, sid, name, pool).rows[sid]);
  }

  lemma PushIsLater(s: State, w: Work, sid: Sid)
    requires sid in s.rows
    ensures Later(s, PushPooled(s, w, sid))
  {
    hide Later, Pool, SetPool;
    var pool := Pool(s, sid, w.proxy);
    if |pool| >= MAX_POOLED_WORK_CONNS_PER_PROXY {
      SetPoolIsLater(s, sid, w.proxy, pool, s.works[w := WorkClosed]);
    } else {
      SetPoolIsLater(s, sid, w.proxy, pool + [w], s.works[w := Pooled(sid)]);
    }
  }

  lemma DrainIsLater(s: State, sid: Sid)
    requires sid in s.rows
    ensures Later(s, DrainPools(s, sid))
  {
    hide SameIdentity, Extends;
    SameIsLater(s);
    RowUpdateSameIdentity(s.rows, sid, DrainPools(s, sid).rows[sid]);
  }

  lemma WorkStepIsLater(s: State, e: WorkStep)
    requires WorkEnabled(s, e)
    ensures Later(s, ApplyWork(s, e))
  {
    hide Later, Claim, Evict, PushPooled, DrainPools, RouteWork, HandToUdp, Expired, OfSession;
    match e
    case Arrived(w) => RouteIsLater(s, w);
    case ToUdp(w) => RouteIsLater(s, w);
    case Pushed(w) => PushIsLater(s, w, s.works[w].sid);
    case Claimed(w) => ClaimIsLater(s, w, s.works[w].sid);
    case Swept(timeout) => EvictIsLater(s, Expired(s, timeout));
    case RequestFailed(id) => EvictIsLater(s, {id});
    case PendingRetained(sid) => EvictIsLater(s, OfSession(s, sid));
    case PoolsDrained(sid) => DrainIsLater(s, sid);
  }

  lemma TableStepIsLater(s: State, e: TableStep)
    requires TableEnabled(s, e)
    ensures Later(s, ApplyTable(s, e))
  {
    var t := ApplyTable(s, e);
    if SetsRow(e) {
      RowUpdateSameIdentity(s.rows, e.sid, t.rows[e.sid]);
    }
  }

  lemma StepIsLater(s: State, e: Event)
    requires Inv(s) && Enabled(s, e)
    ensures Later(s, Apply(s, e))
  {
    hide PoolsInv, HandsInv, IdsInv, PendingInv, BridgesInv, MatchesInv, ActiveInv,
      UserEnabled, WorkEnabled, TableEnabled, ApplyUser, ApplyWork, ApplyTable, Later;
    match e
    case ByUser(us) => UserStepIsLater(s, us);
    case ByWork(ws) => WorkStepIsLater(s, ws);
    case ByTable(ts) => TableStepIsLater(s, ts);
  }

  lemma {:induction false} RunIsLater(s: State, es: seq<Event>)
    requires Inv(s) && Run(s, es).Some?
    ensures Later(s, Run(s, es).value)
    decreases |es|
  {
    hide Inv, Apply, Enabled;
    if es != [] {
      StepIsLater(s, es[0]);
      StepKeepsInv(s, es[0]);
      RunIsLater(Apply(s, es[0]), es[1..]);
    }
  }

  /**
   Work ids are never 0 and never reused: the id issued by a step is new, positive and larger than
   every id issued before it, and it means the same user in every later state.
   */
  lemma IdsAreNeverReused(s: State, u: User, es: seq<Event>)
    requires Reachable(s) && UserEnabled(s, Issued(u)) && Run(IssueId(s, u), es).Some?
    ensures
      var id := IssueId(s, u).users[u].id;
      && id != WORK_ID_POOL_RESERVED && id !in s.issued && id !in s.pending
      && (forall k | k in s.issued :: k < id)
      && id in Run(IssueId(s, u), es).value.issued && Run(IssueId(s, u), es).value.issued[id] == u
  {
    hide PoolsInv, HandsInv, BridgesInv, MatchesInv, ActiveInv, Apply, Enabled;
    ReachableInv(s);
    IssueStep(s, u);
    RunIsLater(IssueId(s, u), es);
  }

  lemma IssueStep(s: State, u: User)
    requires Inv(s) && UserEnabled(s, Issued(u))
    ensures Inv(IssueId(s, u)) && UserAt(s, u, Missed)
  {
    hide Inv;
    IssueKeepsInv(s, u);
  }
}
