/**
 How long a user waits for a work connection: the runs of `Matching` in which the sweep of the
 pending table comes once a period, on time. Times are in milliseconds.
 */
module PendingDeadlines {
  import opened Numbers
  import opened ServerSections
  import opened Wrappers
  import M = Matching

  const SWEEP_PERIOD: nat := 1_000

  /** The sweep runs once a period and on time; everything else may happen at any moment. */
  predicate Punctual(s: State, nextSweep: nat, e: M.Event) {
    match e
    case ByTable(Ticked(elapsed)) => s.now + elapsed <= nextSweep
    case ByWork(Swept(timeout)) => timeout == WORK_CONN_TIMEOUT && s.now == nextSweep
    case _ => true
  }

  function TimedRun(s: State, nextSweep: nat, es: seq<M.Event>): Option<(State, nat)>
    decreases |es|
  {
    if es == [] then Some((s, nextSweep))
    else if M.Enabled(s, es[0]) && Punctual(s, nextSweep, es[0]) then
      TimedRun(M.Apply(s, es[0]), NextSweep(nextSweep, es[0]), es[1..])
    else None
  }

  function NextSweep(nextSweep: nat, e: M.Event): nat {
    if e.ByWork? && e.ws.Swept? then nextSweep + SWEEP_PERIOD else nextSweep
  }

  /** No entry will be as old as its timeout and a period when the next sweep comes. */
  ghost predicate Young(s: State, nextSweep: nat) {
    && s.now <= nextSweep <= s.now + SWEEP_PERIOD
    && forall id | id in s.pending ::
         s.pending[id].created <= s.now && nextSweep < s.pending[id].created + WORK_CONN_TIMEOUT + SWEEP_PERIOD
  }

  /** An event other than the passing of time adds at most an entry made now; all others stay as they are or go. */
  predicate FreshOnly(s: State, t: State) {
    && t.now == s.now
    && forall id | id in t.pending ::
         (id in s.pending && t.pending[id] == s.pending[id]) || t.pending[id].created == s.now
  }

  lemma UserStepIsFresh(s: State, e: M.UserStep)
    requires M.UserEnabled(s, e)
    ensures FreshOnly(s, M.ApplyUser(s, e))
  {
  }

  /** The sections on work streams and pools do not look at the pending table. */
  predicate Quiet(e: M.WorkStep) {
    e.Arrived? || e.ToUdp? || e.Pushed? || e.PoolsDrained?
  }

  lemma QuietSteps(s: State, e: M.WorkStep)
    requires M.WorkEnabled(s, e) && Quiet(e)
    ensures M.ApplyWork(s, e).pending == s.pending && M.ApplyWork(s, e).now == s.now
  {
    hide RouteWork, PushPooled, DrainPools;
    match e
    case Arrived(w) => RoutingIsQuiet(s, w);
    case ToUdp(w) =>
    case Pushed(w) => PushingIsQuiet(s, w, s.works[w].sid);
    case PoolsDrained(sid) => DrainingIsQuiet(s, sid);
  }

  lemma WorkStepPending(s: State, e: M.WorkStep)
    requires M.WorkEnabled(s, e)
    ensures
      var t := M.ApplyWork(s, e);
      && t.now == s.now
      && match e
         case Claimed(w) => t.pending == if Owned(s, w, s.works[w].sid) then s.pending - {w.workId} else s.pending
         case Swept(timeout) => t.pending == s.pending - Expired(s, timeout)
         case RequestFailed(id) => t.pending == s.pending - {id}
         case PendingRetained(sid) => t.pending == s.pending - OfSession(s, sid)
         case _ => t.pending == s.pending
  {
    hide Expired, OfSession, Evict, Claim, Owned;
    if Quiet(e) {
      QuietSteps(s, e);
    } else {
      match e
      case Claimed(w) => Claims(s, w, s.works[w].sid);
      case Swept(timeout) => Evicts(s, Expired(s, timeout));
      case RequestFailed(id) => Evicts(s, {id});
      case PendingRetained(sid) => Evicts(s, OfSession(s, sid));
    }
  }

  lemma WorkStepIsFresh(s: State, e: M.WorkStep)
    requires M.WorkEnabled(s, e)
    ensures FreshOnly(s, M.ApplyWork(s, e))
  {
    hide Expired, OfSession, Owned, M.ApplyWork;
    WorkStepPending(s, e);
  }

  lemma TableStepIsFresh(s: State, e: M.TableStep)
    requires M.TableEnabled(s, e) && !e.Ticked?
    ensures FreshOnly(s, M.ApplyTable(s, e))
  {
  }

  lemma StepKeepsYoung(s: State, nextSweep: nat, e: M.Event)
    requires Young(s, nextSweep) && M.Enabled(s, e) && Punctual(s, nextSweep, e)
    ensures Young(M.Apply(s, e), NextSweep(nextSweep, e))
  {
    hide M.ApplyUser, M.ApplyWork, M.ApplyTable;
    match e
    case ByUser(us) => UserStepIsFresh(s, us);
    case ByWork(ws) =>
      WorkStepIsFresh(s, ws);
      if ws.Swept? {
        SweptAreYoung(s, ws.timeout);
      }
    case ByTable(ts) =>
      if ts.Ticked? {
        TickMovesTime(s, ts.elapsed);
      } else {
        TableStepIsFresh(s, ts);
      }
  }

  lemma SweptAreYoung(s: State, timeout: nat)
    ensures
      var t := M.ApplyWork(s, M.Swept(timeout));
      forall id | id in t.pending ::
          id in s.pending && t.pending[id] == s.pending[id] && s.now < s.pending[id].created + timeout
  {
  }

  lemma TickMovesTime(s: State, elapsed: nat)
    ensures M.ApplyTable(s, M.Ticked(elapsed)) == s.(now := s.now + elapsed)
  {
  }

  lemma {:induction false} RunKeepsYoung(s: State, nextSweep: nat, es: seq<M.Event>)
    requires Young(s, nextSweep) && TimedRun(s, nextSweep, es).Some?
    ensures
      var (t, n) := TimedRun(s, nextSweep, es).value;
      Young(t, n)
    decreases |es|
  {
    hide Young, Punctual, M.Enabled, M.Apply;
    if es != [] {
      StepKeepsYoung(s, nextSweep, es[0]);
      RunKeepsYoung(M.Apply(s, es[0]), NextSweep(nextSweep, es[0]), es[1..]);
    }
  }

  /** On every interleaving with a punctual sweep, no user waits 11 seconds or more. */
  lemma NoUserWaitsTooLong(maxActive: nat, maxSessions: nat, maxPerIp: nat, es: seq<M.Event>, id: nat)
    requires
      var r := TimedRun(Init(maxActive, maxSessions, maxPerIp), SWEEP_PERIOD, es);
      r.Some? && id in r.value.0.pending
    ensures
      var s := TimedRun(Init(maxActive, maxSessions, maxPerIp), SWEEP_PERIOD, es).value.0;
      s.pending[id].created <= s.now < s.pending[id].created + 11_000
  {
    RunKeepsYoung(Init(maxActive, maxSessions, maxPerIp), SWEEP_PERIOD, es);
  }

  /**
   An entry leaves the pending table exactly when a work connection of its session and proxy names it,
   its request cannot be sent, its session is torn down, or a sweep finds it past its timeout.
   */
  lemma WaitingEndsExactly(s: State, e: M.Event, id: nat)
    requires M.Enabled(s, e) && id in s.pending
    ensures id !in M.Apply(s, e).pending <==>
              && e.ByWork?
              && match e.ws
                 case Claimed(w) =>
                   w.workId == id && w.proxy == s.pending[id].proxy && s.works[w] == Routed(s.pending[id].sid)
                 case RequestFailed(failed) => failed == id
                 case PendingRetained(sid) => sid == s.pending[id].sid
                 case Swept(timeout) => s.now >= s.pending[id].created + timeout
                 case _ => false
  {
    hide M.ApplyUser, M.ApplyWork, M.ApplyTable;
    match e
    case ByUser(us) => UserStepsKeepWaiting(s, us, id);
    case ByTable(ts) => TableStepsKeepWaiting(s, ts, id);
    case ByWork(ws) => WorkStepPending(s, ws);
  }

  /** The timeout of a punctual sweep is ten seconds: an entry younger than that survives it. */
  lemma SweepsSpareTheYoung(s: State, nextSweep: nat, timeout: nat, id: nat)
    requires
      var sweep := M.ByWork(M.Swept(timeout));
      M.Enabled(s, sweep) && Punctual(s, nextSweep, sweep)
    requires id in s.pending && s.now < s.pending[id].created + 10_000
    ensures id in M.Apply(s, M.ByWork(M.Swept(timeout))).pending
  {
    hide M.Apply;
    WaitingEndsExactly(s, M.ByWork(M.Swept(timeout)), id);
  }

  lemma UserStepsKeepWaiting(s: State, e: M.UserStep, id: nat)
    requires M.UserEnabled(s, e) && id in s.pending
    ensures id in M.ApplyUser(s, e).pending
  {
    if e.Popped? {
      assert PopPooled(s, e.u).pending == s.pending;
    }
  }

  lemma TableStepsKeepWaiting(s: State, e: M.TableStep, id: nat)
    requires M.TableEnabled(s, e) && id in s.pending
    ensures id in M.ApplyTable(s, e).pending
  {
  }
}
