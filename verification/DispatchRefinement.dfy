/**
 A whole dispatch and a whole work-connection arrival are particular interleavings of the critical
 sections of `Matching`: the sections of one function, run without interruption. So a state they
 lead to from a reachable one is reachable, and everything proved of all interleavings holds of it.
 */
module DispatchRefinement {
  import opened Wrappers
  import opened ServerSections
  import opened Dispatch
  import M = Matching
  import R = RegistryRefinement

  lemma {:induction false} PopLiveIsRun(s: State, u: User, alive: Work -> bool) returns (es: seq<M.Event>)
    requires M.UserAt(s, u, Dispatching) && u.sid in s.rows
    ensures M.Run(s, es) == Some(PopLive(s, u, alive))
    decreases |Pool(s, u.sid, u.proxy)|
  {
    hide M.Run;
    var pool := Pool(s, u.sid, u.proxy);
    var t := PopPooled(s, u);
    R.SingleIsRun(s, M.ByUser(M.Popped(u)));
    es := [M.ByUser(M.Popped(u))];
    if pool != [] {
      var w := pool[|pool| - 1];
      var e := M.ByUser(if alive(w) then M.ProbedAlive(u) else M.ProbedDead(u));
      R.RunThen(s, es, e);
      es := es + [e];
      if !alive(w) {
        var more := PopLiveIsRun(DiscardProbed(t, u, w), u, alive);
        R.RunAppend(s, es, more);
        es := es + more;
      }
    }
  }

  /** A dispatch is the run of its sections: the counter, the pops and probes, the work id, the pending entry. */
  lemma DispatchIsRun(s: State, u: User, alive: Work -> bool) returns (es: seq<M.Event>)
    requires u !in s.users && u.sid in s.rows
    ensures M.Run(s, es) == Some(DispatchUser(s, u, alive))
  {
    hide M.Run, PopLive;
    es := [];
    R.RunNothing(s);
    if s.active < s.maxActive {
      var a := Accept(s, u);
      R.SingleIsRun(s, M.ByUser(M.Accepted(u)));
      var pops := PopLiveIsRun(a, u, alive);
      var t := PopLive(a, u, alive);
      R.RunAppend(s, [M.ByUser(M.Accepted(u))], pops);
      es := [M.ByUser(M.Accepted(u))] + pops;
      if M.UserAt(t, u, Missed) {
        var more := WaitIsRun(t, u);
        R.RunAppend(s, es, more);
        es := es + more;
      }
    }
  }

  lemma WaitIsRun(s: State, u: User) returns (es: seq<M.Event>)
    requires M.UserAt(s, u, Missed)
    ensures M.Run(s, es) == Some(InsertPending(IssueId(s, u), u, s.workId + 1))
  {
    hide M.Run;
    R.SingleIsRun(s, M.ByUser(M.Issued(u)));
    R.RunThen(s, [M.ByUser(M.Issued(u))], M.ByUser(M.Inserted(u)));
    es := [M.ByUser(M.Issued(u))] + [M.ByUser(M.Inserted(u))];
  }

  /** A work-connection arrival is the run of its sections: the token, then the UDP hand-over, the pool or the claim. */
  lemma HandleWorkIsRun(s: State, w: Work) returns (es: seq<M.Event>)
    requires w !in s.works
    ensures M.Run(s, es) == Some(HandleWork(s, w))
  {
    hide M.Run, RouteWork, PushPooled, Claim, HandToUdp;
    var t := RouteWork(s, w);
    var arrived := M.ByWork(M.Arrived(w));
    R.SingleIsRun(s, arrived);
    es := [arrived];
    assert w in t.works by { RoutedIsPlaced(s, w); }
    if t.works[w].Routed? && t.works[w].sid in t.rows {
      var e := Placing(t, w);
      PlacingIsLast(s, w);
      R.RunThen(s, es, e);
      es := es + [e];
    }
  }

  lemma RoutedIsPlaced(s: State, w: Work)
    ensures w in RouteWork(s, w).works
  {
    var owner := SessionForProxy(s, w.proxy);
    if owner.None? {
      assert RouteWork(s, w) == s.(works := s.works[w := WorkClosed]);
    } else {
      var place := if TokenAccepted(s, owner.value, w.token) then Routed(owner.value) else WorkClosed;
      assert RouteWork(s, w) == s.(works := s.works[w := place]);
    }
  }

  /** Where an authenticated connection goes. */
  function Placing(t: State, w: Work): M.Event {
    M.ByWork(if w.proxy in t.udp then M.ToUdp(w) else if w.workId == WORK_ID_POOL_RESERVED then M.Pushed(w)
      else M.Claimed(w))
  }

  lemma PlacingIsLast(s: State, w: Work)
    requires w in RouteWork(s, w).works && RouteWork(s, w).works[w].Routed?
             && RouteWork(s, w).works[w].sid in RouteWork(s, w).rows
    ensures
      var t := RouteWork(s, w);
      M.Enabled(t, Placing(t, w)) && M.Apply(t, Placing(t, w)) == HandleWork(s, w)
  {
    hide RouteWork, PushPooled, Claim, HandToUdp;
    var t := RouteWork(s, w);
    if w.proxy in t.udp {
      assert HandleWork(s, w) == HandToUdp(t, w);
    } else if w.workId == WORK_ID_POOL_RESERVED {
      assert HandleWork(s, w) == PushPooled(t, w, t.works[w].sid);
    } else {
      assert HandleWork(s, w) == Claim(t, w, t.works[w].sid);
    }
  }

  lemma RunStaysReachable(s: State, es: seq<M.Event>)
    requires M.Reachable(s) && M.Run(s, es).Some?
    ensures M.Reachable(M.Run(s, es).value)
  {
    hide M.Run;
    var maxActive, maxSessions, maxPerIp, fs :| M.Run(Init(maxActive, maxSessions, maxPerIp), fs) == Some(s);
    R.RunAppend(Init(maxActive, maxSessions, maxPerIp), fs, es);
  }

  /** Whole dispatches and whole arrivals lead from reachable states to reachable states. */
  lemma WholeStepsStayReachable(s: State, u: User, alive: Work -> bool, w: Work)
    requires M.Reachable(s)
    ensures u !in s.users && u.sid in s.rows ==> M.Reachable(DispatchUser(s, u, alive))
    ensures w !in s.works ==> M.Reachable(HandleWork(s, w))
  {
    hide M.Run, M.Reachable, DispatchUser, HandleWork;
    if u !in s.users && u.sid in s.rows {
      var es := DispatchIsRun(s, u, alive);
      RunStaysReachable(s, es);
    }
    if w !in s.works {
      var es := HandleWorkIsRun(s, w);
      RunStaysReachable(s, es);
    }
  }
}
