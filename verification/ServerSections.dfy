/**
 The shared state of the server and one function per critical section that touches it.

 Every lock-protected block (or atomic read-modify-write) of the control, listener, work and
 state components is one function from state to state; what a task does between two blocks is
 visible to every other task, so a run of the server is an arbitrary interleaving of these
 functions. Session objects live in `rows`, keyed by their session id: the registry `sessions`
 maps a run id to the session id that currently owns it, and a replaced session keeps its row.

 `users`, `works`, `issued` and `bridged` are history: where each accepted user stream and each
 authenticated work stream is, which user each work id was issued for, and which pairs have been
 bridged so far. No section reads them to decide what to do to the other fields.
 */
module ServerSections {
  import opened Wrappers

  type Sid = nat
  type RunId = string
  type Name = string
  type Token = string
  type Domain = string
  type Ip = nat

  const MAX_POOLED_WORK_CONNS_PER_PROXY: nat := 32
  const MAX_PROXIES_PER_SESSION: nat := 128
  const WORK_ID_POOL_RESERVED: nat := 0

  datatype Kind = Tcp | Udp | Http | Https

  datatype ProxyEntry = ProxyEntry(kind: Kind, port: Option<nat>, domains: seq<Domain>)

  /** An accepted user stream, tagged with the session and proxy it was dispatched on. */
  datatype User = User(tag: nat, sid: Sid, proxy: Name)

  /** A work connection, tagged with what its `StartWorkConn` frame said. */
  datatype Work = Work(tag: nat, proxy: Name, workId: nat, token: Option<Token>)

  datatype Session = Session(
    runId: RunId,
    ip: Ip,
    token: Token,
    proxies: map<Name, ProxyEntry>,
    domains: map<Domain, Name>,
    pools: map<Name, seq<Work>>)

  datatype PendingWork = PendingWork(proxy: Name, sid: Sid, user: User, created: nat)

  /** Where a user stream is. The first four places are inside its dispatch task. */
  datatype UserPlace =
    | Dispatching            // accepted, about to look in the pool
    | ProbingWork(work: Work)  // holding a pooled work stream that is being probed
    | Missed                 // no live pooled stream; needs a work id
    | Numbered(id: nat)      // has a work id, not yet in `pending`
    | Waiting(id: nat)       // in `pending`
    | Closing                // taken out of `pending`, not dropped yet
    | BridgedTo(work: Work)
    | UserClosed

  /** Where a work stream is, from the moment its token was judged; one that was refused is closed. */
  datatype WorkPlace =
    | Routed(sid: Sid)       // authenticated for this session, not yet placed
    | Pooled(sid: Sid)
    | ProbedBy(user: User)
    | BridgedWith(user: User)
    | HandedToUdp
    | WorkClosed

  datatype State = State(
    rows: map<Sid, Session>,
    sessions: map<RunId, Sid>,
    proxyIndex: map<Name, RunId>,
    domainIndex: map<Domain, (RunId, Name)>,
    udp: set<Name>,
    pending: map<nat, PendingWork>,
    workId: nat,
    active: int,
    maxActive: nat,
    maxSessions: nat,
    maxPerIp: nat,
    now: nat,
    users: map<User, UserPlace>,
    works: map<Work, WorkPlace>,
    issued: map<nat, User>,
    bridged: set<(User, Work)>)

  function Init(maxActive: nat, maxSessions: nat, maxPerIp: nat): State {
    State(map[], map[], map[], map[], {}, map[], 0, 0, maxActive, maxSessions, maxPerIp, 0,
          map[], map[], map[], {})
  }

  // ------------------------------------------------------------------ user dispatch

  /** The atomic check-and-increment of `active_connections`; a refused stream is dropped. */
  function Accept(s: State, u: User): State {
    if s.active >= s.maxActive then s
    else s.(active := s.active + 1, users := s.users[u := Dispatching])
  }

  function Pool(s: State, sid: Sid, name: Name): seq<Work> {
    if sid in s.rows && name in s.rows[sid].pools then s.rows[sid].pools[name] else []
  }

  function SetPool(s: State, sid: Sid, name: Name, pool: seq<Work>): State
    requires sid in s.rows
  {
    s.(rows := s.rows[sid := s.rows[sid].(pools := s.rows[sid].pools[name := pool])])
  }

  /** One round of the pop loop: take the newest pooled stream, or learn that there is none. */
  function PopPooled(s: State, u: User): State
    requires u.sid in s.rows
  {
    var pool := Pool(s, u.sid, u.proxy);
    if pool == [] then s.(users := s.users[u := Missed])
    else
      var w := pool[|pool| - 1];
      SetPool(s, u.sid, u.proxy, pool[..|pool| - 1])
      .(users := s.users[u := ProbingWork(w)], works := s.works[w := ProbedBy(u)])
  }

  function Bridge(s: State, u: User, w: Work): State {
    s.(users := s.users[u := BridgedTo(w)],
       works := s.works[w := BridgedWith(u)],
       bridged := s.bridged + {(u, w)})
  }

  /** The probe found the popped stream dead: drop it and go round the loop again. */
  function DiscardProbed(s: State, u: User, w: Work): State {
    s.(users := s.users[u := Dispatching], works := s.works[w := WorkClosed])
  }

  /** `next_work_id` on behalf of user `u`. */
  function IssueId(s: State, u: User): State {
    s.(workId := s.workId + 1,
       users := s.users[u := Numbered(s.workId + 1)],
       issued := s.issued[s.workId + 1 := u])
  }

  /** `next_work_id` on behalf of a UDP session. */
  function IssueUdpId(s: State): State {
    s.(workId := s.workId + 1)
  }

  function InsertPending(s: State, u: User, id: nat): State {
    s.(pending := s.pending[id := PendingWork(u.proxy, u.sid, u, s.now)],
       users := s.users[u := Waiting(id)])
  }

  // ------------------------------------------------------------------ leaving `pending`

  /** Take the entries `ids` out of `pending`; whoever took them out now has to drop the users. */
  function Evict(s: State, ids: set<nat>): State {
    s.(pending := s.pending - ids,
       users := map u | u in s.users ::
         if s.users[u].Waiting? && s.users[u].id in ids then Closing else s.users[u])
  }

  function Expired(s: State, timeout: nat): set<nat> {
    set id | id in s.pending && s.now - s.pending[id].created >= timeout
  }

  function OfSession(s: State, sid: Sid): set<nat> {
    set id | id in s.pending && s.pending[id].sid == sid
  }

  /** A user stream taken out of `pending` is dropped: its wrapper decrements the counter. */
  function DropUser(s: State, u: User): State {
    s.(active := s.active - 1, users := s.users[u := UserClosed])
  }

  /** The bridge between `u` and `w` ends: both streams are dropped. */
  function EndBridge(s: State, u: User, w: Work): State {
    s.(active := s.active - 1, users := s.users[u := UserClosed], works := s.works[w := WorkClosed])
  }

  // ------------------------------------------------------------------ work connections

  /** `session_for_proxy`: `proxy_index`, then `sessions` under it. */
  function SessionForProxy(s: State, name: Name): Option<Sid> {
    if name in s.proxyIndex && s.proxyIndex[name] in s.sessions
    then Some(s.sessions[s.proxyIndex[name]]) else None
  }

  predicate TokenAccepted(s: State, sid: Sid, token: Option<Token>) {
    sid in s.rows && token == Some(s.rows[sid].token)
  }

  /** A work connection arrives: find the session owning its proxy and check the token. */
  function RouteWork(s: State, w: Work): State {
    match SessionForProxy(s, w.proxy)
    case None => s.(works := s.works[w := WorkClosed])
    case Some(sid) =>
      s.(works := s.works[w := if TokenAccepted(s, sid, w.token) then Routed(sid) else WorkClosed])
  }

  /** A work connection of a UDP proxy is handed over; UDP proxies have no pool. */
  function HandToUdp(s: State, w: Work): State {
    s.(works := s.works[w := if w.workId == WORK_ID_POOL_RESERVED then WorkClosed else HandedToUdp])
  }

  /** A pool connection is kept only while the pool of its proxy has room. */
  function PushPooled(s: State, w: Work, sid: Sid): State
    requires sid in s.rows
  {
    var pool := Pool(s, sid, w.proxy);
    if |pool| >= MAX_POOLED_WORK_CONNS_PER_PROXY then
      SetPool(s, sid, w.proxy, pool).(works := s.works[w := WorkClosed])
    else
      SetPool(s, sid, w.proxy, pool + [w]).(works := s.works[w := Pooled(sid)])
  }

  predicate Owned(s: State, w: Work, sid: Sid) {
    w.workId in s.pending && s.pending[w.workId].sid == sid && s.pending[w.workId].proxy == w.proxy
  }

  /** An on-demand connection takes the pending user of its own session and proxy, or is closed. */
  function Claim(s: State, w: Work, sid: Sid): State {
    if Owned(s, w, sid) then
      Bridge(s.(pending := s.pending - {w.workId}),
             s.pending[w.workId].user, w)
    else
      s.(works := s.works[w := WorkClosed])
  }

  // ------------------------------------------------------------------ sessions

  function SwapSession(s: State, sid: Sid, row: Session): State {
    s.(rows := s.rows[sid := row], sessions := s.sessions[row.runId := sid])
  }

  /** Remove the registry entry, but only while it still is this very session. */
  function Unregister(s: State, sid: Sid): State
    requires sid in s.rows
  {
    var run := s.rows[sid].runId;
    if run in s.sessions && s.sessions[run] == sid
    then s.(sessions := s.sessions - {run})
    else s
  }

  function UnindexProxies(s: State, names: set<Name>): State {
    s.(proxyIndex := s.proxyIndex - names)
  }

  function UnindexDomains(s: State, domains: set<Domain>): State {
    s.(domainIndex := s.domainIndex - domains)
  }

  function DrainProxies(s: State, sid: Sid): State
    requires sid in s.rows
  {
    s.(rows := s.rows[sid := s.rows[sid].(proxies := map[])])
  }

  function RemoveUdp(s: State, names: set<Name>): State {
    s.(udp := s.udp - names)
  }

  function ClearDomains(s: State, sid: Sid): State
    requires sid in s.rows
  {
    s.(rows := s.rows[sid := s.rows[sid].(domains := map[])])
  }

  /** Every pooled stream of the session is dropped. */
  function DrainPools(s: State, sid: Sid): State
    requires sid in s.rows
  {
    s.(rows := s.rows[sid := s.rows[sid].(pools := map[])],
       works := map w | w in s.works :: if s.works[w] == Pooled(sid) then WorkClosed else s.works[w])
  }

  // ------------------------------------------------------------------ registration

  function AddUdp(s: State, name: Name): State {
    s.(udp := s.udp + {name})
  }

  function AddDomains(s: State, sid: Sid, domains: seq<Domain>, name: Name): State
    requires sid in s.rows
  {
    var row := s.rows[sid];
    s.(rows := s.rows[sid := row.(domains := row.domains + map d | d in domains :: name)])
  }

  function IndexDomain(s: State, domain: Domain, run: RunId, name: Name): State {
    s.(domainIndex := s.domainIndex[domain := (run, name)])
  }

  function AddProxy(s: State, sid: Sid, name: Name, entry: ProxyEntry): State
    requires sid in s.rows
  {
    var row := s.rows[sid];
    s.(rows := s.rows[sid := row.(proxies := row.proxies[name := entry])])
  }

  function IndexProxy(s: State, name: Name, run: RunId): State {
    s.(proxyIndex := s.proxyIndex[name := run])
  }

  // ------------------------------------------------------------------ what the sections do to the pending table

  lemma RoutingIsQuiet(s: State, w: Work)
    ensures RouteWork(s, w).pending == s.pending && RouteWork(s, w).now == s.now && RouteWork(s, w).udp == s.udp
  {
    if SessionForProxy(s, w.proxy).None? || !TokenAccepted(s, SessionForProxy(s, w.proxy).value, w.token) {
      assert RouteWork(s, w) == s.(works := s.works[w := WorkClosed]);
    } else {
      assert RouteWork(s, w) == s.(works := s.works[w := Routed(SessionForProxy(s, w.proxy).value)]);
    }
  }

  lemma PushingIsQuiet(s: State, w: Work, sid: Sid)
    requires sid in s.rows
    ensures PushPooled(s, w, sid).pending == s.pending && PushPooled(s, w, sid).now == s.now
    ensures PushPooled(s, w, sid).udp == s.udp
  {
    var pool := Pool(s, sid, w.proxy);
    if |pool| >= MAX_POOLED_WORK_CONNS_PER_PROXY {
      assert PushPooled(s, w, sid) == SetPool(s, sid, w.proxy, pool).(works := s.works[w := WorkClosed]);
    } else {
      assert PushPooled(s, w, sid) == SetPool(s, sid, w.proxy, pool + [w]).(works := s.works[w := Pooled(sid)]);
    }
  }

  lemma DrainingIsQuiet(s: State, sid: Sid)
    requires sid in s.rows
    ensures DrainPools(s, sid).pending == s.pending && DrainPools(s, sid).now == s.now
  {
  }

  lemma Evicts(s: State, ids: set<nat>)
    ensures Evict(s, ids).pending == s.pending - ids && Evict(s, ids).now == s.now
  {
  }

  lemma Bridges(s: State, u: User, w: Work)
    ensures Bridge(s, u, w).pending == s.pending && Bridge(s, u, w).now == s.now
  {
  }

  lemma Claims(s: State, w: Work, sid: Sid)
    ensures
      var t := Claim(s, w, sid);
      t.now == s.now && t.pending == if Owned(s, w, sid) then s.pending - {w.workId} else s.pending
  {
    if Owned(s, w, sid) {
      var u := s.pending[w.workId].user;
      hide Owned, Bridge;
      Bridges(s.(pending := s.pending - {w.workId}), u, w);
    }
  }
}
