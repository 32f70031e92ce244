/**
 A whole user dispatch and a whole work-connection arrival, each as the uninterrupted run of its own
 sections, and what comes out of them.
 */
module Dispatch {
  import opened Wrappers
  import opened ServerSections
  import opened Matching

  /** Pop pooled streams until one answers the probe, dropping the dead ones on the way. */
  function PopLive(s: State, u: User, alive: Work -> bool): State
    requires u.sid in s.rows
    decreases |Pool(s, u.sid, u.proxy)|
  {
    var pool := Pool(s, u.sid, u.proxy);
    var t := PopPooled(s, u);
    if pool == [] then t
    else
      var w := pool[|pool| - 1];
      if alive(w) then Bridge(t, u, w) else PopLive(DiscardProbed(t, u, w), u, alive)
  }

  function DispatchUser(s: State, u: User, alive: Work -> bool): State
    requires u.sid in s.rows
  {
    if s.active >= s.maxActive then s
    else
      var t := PopLive(Accept(s, u), u, alive);
      if UserAt(t, u, Missed) then InsertPending(IssueId(t, u), u, t.workId + 1) else t
  }

  /** The newest index of a stream that answers the probe, or -1. */
  function NewestLive(pool: seq<Work>, alive: Work -> bool): (k: int)
    ensures -1 <= k < |pool|
    ensures k >= 0 ==> alive(pool[k])
    ensures forall i | k < i < |pool| :: !alive(pool[i])
  {
    if pool == [] then -1
    else if alive(pool[|pool| - 1]) then |pool| - 1
    else NewestLive(pool[..|pool| - 1], alive)
  }

  /** What the pop loop may not change, and where it leaves the user and the pool it popped from. */
  ghost predicate PopLiveEffect(s: State, t: State, u: User, pool: seq<Work>, k: int)
    requires -1 <= k < |pool|
  {
    && t.pending == s.pending && t.workId == s.workId && t.issued == s.issued && t.active == s.active && t.now == s.now
    && (forall i | k < i < |pool| :: pool[i] in t.works && t.works[pool[i]] == WorkClosed)
    && (if k < 0 then UserAt(t, u, Missed) && Pool(t, u.sid, u.proxy) == [] && t.bridged == s.bridged
        else
          && UserAt(t, u, BridgedTo(pool[k])) && Pool(t, u.sid, u.proxy) == pool[..k]
          && t.bridged == s.bridged + {(u, pool[k])})
  }

  lemma PopOne(s: State, u: User)
    requires Inv(s) && UserAt(s, u, Dispatching) && u.sid in s.rows && Pool(s, u.sid, u.proxy) != []
    ensures
      var pool := Pool(s, u.sid, u.proxy);
      var t := PopPooled(s, u);
      && Inv(t) && UserAt(t, u, ProbingWork(pool[|pool| - 1])) && Pool(t, u.sid, u.proxy) == pool[..|pool| - 1]
      && u.sid in t.rows
  {
    hide Inv;
    PopKeepsInv(s, u);
  }

  /** A closed stream stays closed. */
  lemma {:induction false} PopLiveKeepsClosed(s: State, u: User, alive: Work -> bool, w: Work)
    requires Inv(s) && UserAt(s, u, Dispatching) && u.sid in s.rows
    requires w in s.works && s.works[w] == WorkClosed
    ensures w in PopLive(s, u, alive).works && PopLive(s, u, alive).works[w] == WorkClosed
    decreases |Pool(s, u.sid, u.proxy)|
  {
    hide Inv;
    var pool := Pool(s, u.sid, u.proxy);
    if pool != [] {
      var v := pool[|pool| - 1];
      PopOne(s, u);
      PooledNow(s, u.sid, u.proxy);
      if !alive(v) {
        DiscardKeepsInv(PopPooled(s, u), u);
        PopLiveKeepsClosed(DiscardProbed(PopPooled(s, u), u, v), u, alive, w);
      }
    }
  }

  lemma PooledNow(s: State, sid: Sid, name: Name)
    requires Inv(s) && Pool(s, sid, name) != []
    ensures
      var pool := Pool(s, sid, name);
      var w := pool[|pool| - 1];
      w in s.works && s.works[w] == Pooled(sid)
  {
    hide HandsInv, IdsInv, PendingInv, BridgesInv, MatchesInv, ActiveInv;
    assert PoolOk(s.works, sid, s.rows[sid], name, Pool(s, sid, name));
  }

  /** Popping the newest stream and bridging it. */
  lemma PopTake(s: State, u: User)
    requires Inv(s) && UserAt(s, u, Dispatching) && u.sid in s.rows && Pool(s, u.sid, u.proxy) != []
    ensures
      var pool := Pool(s, u.sid, u.proxy);
      var b := Bridge(PopPooled(s, u), u, pool[|pool| - 1]);
      Inv(b) && PopLiveEffect(s, b, u, pool, |pool| - 1)
  {
    hide Inv;
    PopOne(s, u);
    BridgeProbedKeepsInv(PopPooled(s, u), u);
  }

  /** Popping the newest stream and dropping it. */
  lemma PopDiscard(s: State, u: User)
    requires Inv(s) && UserAt(s, u, Dispatching) && u.sid in s.rows && Pool(s, u.sid, u.proxy) != []
    ensures
      var pool := Pool(s, u.sid, u.proxy);
      var w := pool[|pool| - 1];
      var d := DiscardProbed(PopPooled(s, u), u, w);
      && Inv(d) && UserAt(d, u, Dispatching) && u.sid in d.rows && Pool(d, u.sid, u.proxy) == pool[..|pool| - 1]
      && w in d.works && d.works[w] == WorkClosed
      && d.pending == s.pending && d.workId == s.workId && d.issued == s.issued && d.active == s.active
         && d.now == s.now
      && d.bridged == s.bridged
  {
    hide Inv;
    PopOne(s, u);
    DiscardKeepsInv(PopPooled(s, u), u);
  }

  lemma PopNothing(s: State, u: User)
    requires Inv(s) && UserAt(s, u, Dispatching) && u.sid in s.rows && Pool(s, u.sid, u.proxy) == []
    ensures Inv(PopPooled(s, u)) && PopLiveEffect(s, PopPooled(s, u), u, [], -1)
  {
    hide Inv;
    PopKeepsInv(s, u);
  }

  lemma EffectAfterDiscard(s: State, d: State, t: State, u: User, pool: seq<Work>, k: int)
    requires pool != [] && -1 <= k < |pool| - 1
    requires PopLiveEffect(d, t, u, pool[..|pool| - 1], k)
    requires pool[|pool| - 1] in t.works && t.works[pool[|pool| - 1]] == WorkClosed
    requires d.pending == s.pending && d.workId == s.workId && d.issued == s.issued && d.active == s.active
             && d.now == s.now
    requires d.bridged == s.bridged
    ensures PopLiveEffect(s, t, u, pool, k)
  {
    var shorter := pool[..|pool| - 1];
    forall i | k < i < |pool| ensures pool[i] in t.works && t.works[pool[i]] == WorkClosed {
      if i < |pool| - 1 {
        assert shorter[i] == pool[i];
      }
    }
    if k >= 0 {
      assert shorter[k] == pool[k] && shorter[..k] == pool[..k];
    }
  }

  /** The pop loop takes the newest live stream and closes exactly the dead ones above it. */
  lemma {:induction false} PopLiveTakesNewest(s: State, u: User, alive: Work -> bool)
    requires Inv(s) && UserAt(s, u, Dispatching) && u.sid in s.rows
    ensures
      var pool := Pool(s, u.sid, u.proxy);
      Inv(PopLive(s, u, alive)) && PopLiveEffect(s, PopLive(s, u, alive), u, pool, NewestLive(pool, alive))
    decreases |Pool(s, u.sid, u.proxy)|
  {
    hide Inv, PopLiveEffect, PopPooled, DiscardProbed, Bridge, Pool;
    var pool := Pool(s, u.sid, u.proxy);
    if pool == [] {
      PopNothing(s, u);
    } else if alive(pool[|pool| - 1]) {
      PopTake(s, u);
    } else {
      var w := pool[|pool| - 1];
      var d := DiscardProbed(PopPooled(s, u), u, w);
      PopDiscard(s, u);
      PopLiveTakesNewest(d, u, alive);
      PopLiveKeepsClosed(d, u, alive, w);
      EffectAfterDiscard(s, d, PopLive(d, u, alive), u, pool, NewestLive(pool, alive));
    }
  }

  /**
   A dispatched user is refused when the server is full, bridged to the newest live pooled stream
   when there is one, and otherwise left waiting under a work id no one had before.
   */
  lemma DispatchOutcome(s: State, u: User, alive: Work -> bool)
    requires Inv(s) && u !in s.users && u.sid in s.rows
    ensures
      var t := DispatchUser(s, u, alive);
      var pool := Pool(s, u.sid, u.proxy);
      var k := NewestLive(pool, alive);
      && Inv(t)
      && (s.active >= s.maxActive ==> t == s)
      && (s.active < s.maxActive ==>
            && t.active == s.active + 1
            && (k >= 0 ==> UserAt(t, u, BridgedTo(pool[k])) && t.pending == s.pending && t.workId == s.workId)
            && (k < 0 ==> && t.workId == s.workId + 1 && t.workId !in s.pending && t.workId !in s.issued
                          && t.pending == s.pending[t.workId := PendingWork(u.proxy, u.sid, u, s.now)]
                          && UserAt(t, u, Waiting(t.workId)) && t.bridged == s.bridged))
  {
    hide Inv, PopLive;
    if s.active < s.maxActive {
      var a := Accept(s, u);
      AcceptKeepsInv(s, u);
      assert Pool(a, u.sid, u.proxy) == Pool(s, u.sid, u.proxy);
      PopLiveTakesNewest(a, u, alive);
      var t := PopLive(a, u, alive);
      if UserAt(t, u, Missed) {
        IssueKeepsInv(t, u);
        InsertKeepsInv(IssueId(t, u), u);
        NextIdIsFree(s);
      }
    }
  }

  lemma NextIdIsFree(s: State)
    requires Inv(s)
    ensures s.workId + 1 !in s.pending && s.workId + 1 !in s.issued
  {
    hide PoolsInv, HandsInv, BridgesInv, MatchesInv, ActiveInv;
  }

  // ------------------------------------------------------------------ work connections

  /** A work connection from its first frame to its place. */
  function HandleWork(s: State, w: Work): State
  {
    var t := RouteWork(s, w);
    if !t.works[w].Routed? || t.works[w].sid !in t.rows then t
    else if w.proxy in t.udp then HandToUdp(t, w)
    else if w.workId == WORK_ID_POOL_RESERVED then PushPooled(t, w, t.works[w].sid)
    else Claim(t, w, t.works[w].sid)
  }

  /** The indexes lead from the proxy named to session `sid`, whose token is presented. Not used by the code. */
  predicate Proves(s: State, w: Work, sid: Sid) {
    && w.proxy in s.proxyIndex && s.proxyIndex[w.proxy] in s.sessions && s.sessions[s.proxyIndex[w.proxy]] == sid
    && sid in s.rows && w.token == Some(s.rows[sid].token)
  }

  /** The pending entry of the work id named was made on session `sid`, for the proxy named. Not used by the code. */
  predicate Names(s: State, w: Work, sid: Sid) {
    w.workId in s.pending && s.pending[w.workId].sid == sid && s.pending[w.workId].proxy == w.proxy
  }

  /** A work connection is authenticated for the session it proves itself to, and closed when there is none. */
  lemma RouteOutcome(s: State, w: Work)
    requires Inv(s) && w !in s.works
    ensures Inv(RouteWork(s, w))
    ensures forall sid | Proves(s, w, sid) :: RouteWork(s, w) == s.(works := s.works[w := Routed(sid)])
    ensures (forall sid :: !Proves(s, w, sid)) ==> RouteWork(s, w) == s.(works := s.works[w := WorkClosed])
  {
    hide Inv;
    RouteKeepsInv(s, w);
    if SessionForProxy(s, w.proxy).Some? {
      var sid := SessionForProxy(s, w.proxy).value;
      assert Proves(s, w, sid) <==> TokenAccepted(s, sid, w.token);
    }
  }

  /** Who proves itself to no session is closed, and nothing else happens. */
  lemma StrangersAreClosed(s: State, w: Work)
    requires Inv(s) && w !in s.works && forall sid :: !Proves(s, w, sid)
    ensures HandleWork(s, w) == s.(works := s.works[w := WorkClosed])
  {
    hide Inv, RouteWork;
    RouteOutcome(s, w);
  }

  /**
   An on-demand work connection takes the pending user it names exactly when it proves itself to the
   session that user was dispatched on, and names its proxy: then the two are bridged at once, whenever
   it comes. Otherwise it is closed and nothing else changes.
   */
  lemma ClaimSucceedsExactly(s: State, w: Work, sid: Sid)
    requires Inv(s) && w !in s.works && w.proxy !in s.udp && w.workId != 0 && Proves(s, w, sid)
    ensures Inv(HandleWork(s, w))
    ensures
      if Names(s, w, sid) then
        var u := s.pending[w.workId].user;
        HandleWork(s, w) == s.(pending := s.pending - {w.workId}, users := s.users[u := BridgedTo(w)],
                               works := s.works[w := BridgedWith(u)], bridged := s.bridged + {(u, w)})
      else HandleWork(s, w) == s.(works := s.works[w := WorkClosed])
  {
    hide Inv, RouteWork;
    RouteOutcome(s, w);
    var r := s.(works := s.works[w := Routed(sid)]);
    assert RouteWork(s, w) == r;
    ClaimKeepsInv(r, w);
    if Names(s, w, sid) {
      var u := s.pending[w.workId].user;
      assert r.works[w := BridgedWith(u)] == s.works[w := BridgedWith(u)];
    } else {
      assert r.works[w := WorkClosed] == s.works[w := WorkClosed];
    }
  }

  /**
   A user that waits, in any reachable state and however long it has waited, is bridged by the first
   connection that proves itself to its session and names its proxy and its id.
   */
  lemma WaitingUserIsServed(s: State, u: User, id: nat, w: Work)
    requires Reachable(s) && UserAt(s, u, Waiting(id))
    requires w !in s.works && w.proxy == u.proxy && w.workId == id && Proves(s, w, u.sid) && w.proxy !in s.udp
    ensures UserAt(HandleWork(s, w), u, BridgedTo(w)) && (u, w) in HandleWork(s, w).bridged
    ensures id !in HandleWork(s, w).pending
  {
    hide HandleWork, Proves, Reachable;
    ReachableInv(s);
    WaitingIsPending(s, u, id);
    hide Inv;
    ClaimSucceedsExactly(s, w, u.sid);
  }

  lemma WaitingIsPending(s: State, u: User, id: nat)
    requires Inv(s) && UserAt(s, u, Waiting(id))
    ensures id in s.pending && id != 0 && s.pending[id].user == u
    ensures s.pending[id].sid == u.sid && s.pending[id].proxy == u.proxy
  {
    hide PoolsInv, HandsInv, BridgesInv, MatchesInv, ActiveInv;
  }

  /**
   From dispatch to bridge. A user that finds no live pooled stream waits; whatever sections run after
   that, in any interleaving, as long as it still waits it is bridged by the first connection that comes
   with the token its session had at the dispatch, its proxy and its id, to where the indexes lead.
   */
  lemma DispatchedUserIsServed(s: State, u: User, alive: Work -> bool, es: seq<Event>, w: Work)
    requires Reachable(s) && u !in s.users && u.sid in s.rows && s.active < s.maxActive
    requires forall i | 0 <= i < |Pool(s, u.sid, u.proxy)| :: !alive(Pool(s, u.sid, u.proxy)[i])
    requires Run(DispatchUser(s, u, alive), es).Some?
    requires
      var t := Run(DispatchUser(s, u, alive), es).value;
      && UserAt(t, u, Waiting(s.workId + 1)) && w !in t.works && w.proxy == u.proxy && w.workId == s.workId + 1
      && w.token == Some(s.rows[u.sid].token) && w.proxy !in t.udp
      && w.proxy in t.proxyIndex && t.proxyIndex[w.proxy] in t.sessions && t.sessions[t.proxyIndex[w.proxy]] == u.sid
    ensures UserAt(DispatchUser(s, u, alive), u, Waiting(s.workId + 1))
    ensures
      var t := Run(DispatchUser(s, u, alive), es).value;
      UserAt(HandleWork(t, w), u, BridgedTo(w)) && (u, w) in HandleWork(t, w).bridged
  {
    hide Run, Inv, HandleWork, Reachable;
    ReachableInv(s);
    var d := DispatchUser(s, u, alive);
    DispatchOutcome(s, u, alive);
    assert NewestLive(Pool(s, u.sid, u.proxy), alive) == -1;
    DispatchKeepsTokens(s, u, alive);
    hide DispatchUser;
    RunIsLater(d, es);
    RunKeepsInv(d, es);
    var t := Run(d, es).value;
    LaterToken(d, t, u.sid);
    WaitingIsPending(t, u, s.workId + 1);
    ClaimSucceedsExactly(t, w, u.sid);
  }

  lemma LaterToken(s: State, t: State, sid: Sid)
    requires Later(s, t) && sid in s.rows
    ensures sid in t.rows && t.rows[sid].token == s.rows[sid].token
  {
    hide Extends;
  }

  lemma {:induction false} PopLiveKeepsTokens(s: State, u: User, alive: Work -> bool)
    requires u.sid in s.rows
    ensures u.sid in PopLive(s, u, alive).rows && PopLive(s, u, alive).rows[u.sid].token == s.rows[u.sid].token
    decreases |Pool(s, u.sid, u.proxy)|
  {
    var pool := Pool(s, u.sid, u.proxy);
    if pool != [] && !alive(pool[|pool| - 1]) {
      PopLiveKeepsTokens(DiscardProbed(PopPooled(s, u), u, pool[|pool| - 1]), u, alive);
    }
  }

  lemma DispatchKeepsTokens(s: State, u: User, alive: Work -> bool)
    requires u.sid in s.rows
    ensures u.sid in DispatchUser(s, u, alive).rows
    ensures DispatchUser(s, u, alive).rows[u.sid].token == s.rows[u.sid].token
  {
    hide PopLive;
    PopLiveKeepsTokens(Accept(s, u), u, alive);
  }

  /** A UDP proxy takes on-demand connections, which the proxy itself matches, and no pool connection. */
  lemma UdpHandOverExactly(s: State, w: Work, sid: Sid)
    requires Inv(s) && w !in s.works && w.proxy in s.udp && Proves(s, w, sid)
    ensures HandleWork(s, w) == s.(works := s.works[w := if w.workId == 0 then WorkClosed else HandedToUdp])
  {
    hide Inv, RouteWork;
    RouteOutcome(s, w);
    var r := s.(works := s.works[w := Routed(sid)]);
    assert RouteWork(s, w) == r;
    var place := if w.workId == 0 then WorkClosed else HandedToUdp;
    assert r.works[w := place] == s.works[w := place];
  }

  lemma PushOutcome(s: State, w: Work, sid: Sid)
    requires sid in s.rows
    ensures
      var t := PushPooled(s, w, sid);
      var pool := Pool(s, sid, w.proxy);
      && t.pending == s.pending && t.bridged == s.bridged && t.users == s.users
      && Pool(t, sid, w.proxy) == (if |pool| < 32 then pool + [w] else pool)
      && t.works == s.works[w := if |pool| < 32 then Pooled(sid) else WorkClosed]
  {
    hide Pool, SetPool;
    var pool := Pool(s, sid, w.proxy);
    SetThenGet(s, sid, w.proxy, pool);
    SetThenGet(s, sid, w.proxy, pool + [w]);
    SamePool(SetPool(s, sid, w.proxy, pool), SetPool(s, sid, w.proxy, pool).(works := s.works[w := WorkClosed]), sid,
      w.proxy);
    SamePool(SetPool(s, sid, w.proxy, pool + [w]),
      SetPool(s, sid, w.proxy, pool + [w]).(works := s.works[w := Pooled(sid)]), sid, w.proxy);
  }

  lemma SetThenGet(s: State, sid: Sid, name: Name, pool: seq<Work>)
    requires sid in s.rows
    ensures
      var t := SetPool(s, sid, name, pool);
      && Pool(t, sid, name) == pool && t.pending == s.pending && t.bridged == s.bridged && t.users == s.users
      && t.works == s.works
  {
  }

  lemma SamePool(s: State, t: State, sid: Sid, name: Name)
    requires s.rows == t.rows
    ensures Pool(s, sid, name) == Pool(t, sid, name)
  {
  }

  /** A pool connection that proves itself joins the pool exactly when the pool has room. */
  lemma PoolingSucceedsExactly(s: State, w: Work, sid: Sid)
    requires Inv(s) && w !in s.works && w.proxy !in s.udp && w.workId == 0 && Proves(s, w, sid)
    ensures
      var (t, pool) := (HandleWork(s, w), Pool(s, sid, w.proxy));
      && Inv(t) && t.pending == s.pending && t.bridged == s.bridged && t.users == s.users
      && Pool(t, sid, w.proxy) == (if |pool| < 32 then pool + [w] else pool)
      && t.works == s.works[w := if |pool| < 32 then Pooled(sid) else WorkClosed]
  {
    hide Inv, RouteWork, PushPooled;
    RouteOutcome(s, w);
    var r := s.(works := s.works[w := Routed(sid)]);
    assert RouteWork(s, w) == r;
    PushOutcome(r, w, sid);
    PushKeepsInv(r, w);
    SamePool(s, r, sid, w.proxy);
    var place := if |Pool(s, sid, w.proxy)| < 32 then Pooled(sid) else WorkClosed;
    assert r.works[w := place] == s.works[w := place];
  }
}
