/**
 How long the entries of a UDP proxy's tables live: the runs of `UdpTables` in which sweeps come
 once a period, on time. Times are in milliseconds.
 */
module UdpDeadlines {
  import opened Bytes
  import opened Numbers
  import opened UdpSections
  import opened Wrappers
  import L = UdpLedger
  import T = UdpTables

  /** A UDP proxy's tables are swept every quarter of the session timeout, in whole seconds, at least one. */
  function Period(sessionTimeoutSecs: nat): (p: nat)
    ensures p >= 1_000 && p % 1_000 == 0
    ensures sessionTimeoutSecs >= 4 ==> p / 1_000 * 4 <= sessionTimeoutSecs < (p / 1_000 + 1) * 4
    ensures sessionTimeoutSecs < 4 ==> p == 1_000
  {
    Max(sessionTimeoutSecs / 4, 1) * 1_000
  }

  predicate Punctual(s: State, nextSweep: nat, secs: nat, h: T.Handler) {
    match h
    case Moved(Ticked(elapsed)) => s.now + elapsed <= nextSweep
    case Swept(st, pt) => st == secs * 1_000 && pt == WORK_CONN_TIMEOUT && s.now == nextSweep
    case _ => true
  }

  function NextSweep(nextSweep: nat, secs: nat, h: T.Handler): nat {
    if h.Swept? then nextSweep + Period(secs) else nextSweep
  }

  function TimedRun(s: State, nextSweep: nat, secs: nat, hs: seq<T.Handler>): Option<(State, nat)>
    decreases |hs|
  {
    if hs == [] then Some((s, nextSweep))
    else if T.Enabled(s, hs[0]) && Punctual(s, nextSweep, secs, hs[0]) then
      TimedRun(T.Apply(s, hs[0]), NextSweep(nextSweep, secs, hs[0]), secs, hs[1..])
    else None
  }

  ghost predicate Young(s: State, nextSweep: nat, secs: nat) {
    && s.now <= nextSweep <= s.now + Period(secs)
    && (forall a | a in s.sessions ::
          s.sessions[a].lastActive <= s.now && nextSweep < s.sessions[a].lastActive + secs * 1_000 + Period(secs))
    && (forall id | id in s.pendingById ::
          s.pendingById[id].created <= s.now
            && nextSweep < s.pendingById[id].created + WORK_CONN_TIMEOUT + Period(secs))
  }

  /** A handler leaves stamps as they are or sets them to now. */
  predicate FreshOnly(s: State, t: State) {
    && t.now == s.now
    && (forall a | a in t.sessions ::
          (a in s.sessions && t.sessions[a].lastActive == s.sessions[a].lastActive)
            || t.sessions[a].lastActive == s.now)
    && (forall id | id in t.pendingById ::
          (id in s.pendingById && t.pendingById[id] == s.pendingById[id]) || t.pendingById[id].created == s.now)
  }

  lemma DatagramIsFresh(s: State, client: Addr, data: seq<byte>, id: nat)
    requires T.Linked(s)
    ensures FreshOnly(s, T.HandleDatagram(s, client, data, id))
  {
    hide Send, Drop;
    var p := Packet(|s.arrivals|, client, data);
    var s1 := Receive(s, client, data);
    if client in s.sessions {
      SendKeepsStamps(s1, p, s1.hand.chan);
    } else if client in s.pendingClient {
      var s3 := LookupPending(LookupClient(s1, p), p, s.pendingClient[client]);
      if s3.hand.Sending? {
        SendKeepsStamps(s3, p, s3.hand.chan);
      }
    } else {
      DropKeepsStamps(LookupClient(s1, p), p);
    }
  }

  lemma DropKeepsStamps(s: State, p: Packet)
    requires p.no < |s.fate|
    ensures
      var t := Drop(s, p);
      t.sessions == s.sessions && t.pendingById == s.pendingById && t.now == s.now && t.hand == Idle
  {
  }

  lemma SendKeepsStamps(s: State, p: Packet, c: nat)
    requires p.no < |s.fate| && c in s.queues
    ensures
      var t := Send(s, p, c);
      t.sessions == s.sessions && t.pendingById == s.pendingById && t.now == s.now
  {
  }

  lemma RemovalIsFresh(s: State, id: nat, purpose: Purpose)
    requires T.Linked(s)
    ensures FreshOnly(s, T.RemovePending(s, id, purpose))
  {
  }

  lemma MoveIsFresh(s: State, e: L.TaskStep)
    requires T.Linked(s) && L.TaskEnabled(s, e) && T.InService(e) && !e.Ticked?
    ensures FreshOnly(s, L.ApplyTask(s, e))
  {
  }

  lemma StepKeepsYoung(s: State, nextSweep: nat, secs: nat, h: T.Handler)
    requires secs > 0 && Young(s, nextSweep, secs) && T.Enabled(s, h) && Punctual(s, nextSweep, secs, h)
    ensures Young(T.Apply(s, h), NextSweep(nextSweep, secs, h), secs)
  {
    hide T.HandleDatagram, T.RemovePending, L.TaskEnabled, Period;
    match h
    case Datagram(client, data, id) => DatagramIsFresh(s, client, data, id);
    case Failed(id) => RemovalIsFresh(s, id, Discard);
    case Connected(id) => RemovalIsFresh(s, id, Serve);
    case Swept(st, pt) =>
    case Finished(id) =>
    case Moved(ks) =>
      if !ks.Ticked? {
        MoveIsFresh(s, ks);
      }
  }

  lemma {:induction false} RunKeepsYoung(s: State, nextSweep: nat, secs: nat, hs: seq<T.Handler>)
    requires secs > 0 && Young(s, nextSweep, secs) && TimedRun(s, nextSweep, secs, hs).Some?
    ensures
      var (t, n) := TimedRun(s, nextSweep, secs, hs).value;
      Young(t, n, secs)
    decreases |hs|
  {
    hide Young, Punctual, T.Enabled, T.Apply;
    if hs != [] {
      StepKeepsYoung(s, nextSweep, secs, hs[0]);
      RunKeepsYoung(T.Apply(s, hs[0]), NextSweep(nextSweep, secs, hs[0]), secs, hs[1..]);
    }
  }

  /**
   On every run of handlers with punctual sweeps: no session is idle as long as its timeout and the
   larger of a second and a quarter of it, and no pending entry is older than ten seconds and that.
   */
  lemma EntriesStayYoung(secs: nat, hs: seq<T.Handler>)
    requires secs > 0 && TimedRun(Init(), Period(secs), secs, hs).Some?
    ensures
      var s := TimedRun(Init(), Period(secs), secs, hs).value.0;
      var slack := Max(1, secs / 4) * 1_000;
      && (forall a | a in s.sessions :: s.now - s.sessions[a].lastActive < secs * 1_000 + slack)
      && (forall id | id in s.pendingById :: s.now - s.pendingById[id].created < 10_000 + slack)
  {
    RunKeepsYoung(Init(), Period(secs), secs, hs);
  }

  /**
   A session ends exactly with a work connection of its client, or when a sweep finds it idle too long; a
   pending entry exactly when its request fails, a work connection takes it, or a sweep finds it too old.
   */
  lemma EntriesEndExactly(s: State, h: T.Handler, a: nat, id: nat)
    requires T.Enabled(s, h)
    ensures a in s.sessions ==>
              (a !in T.Apply(s, h).sessions <==>
                || (h.Finished? && s.queues[h.id].client == a)
                || (h.Swept? && s.now - s.sessions[a].lastActive >= h.sessionTimeout))
    ensures id in s.pendingById ==>
              (id !in T.Apply(s, h).pendingById <==>
                || h == T.Failed(id) || h == T.Connected(id)
                || (h.Swept? && s.now - s.pendingById[id].created >= h.pendingTimeout))
  {
    match h
    case Datagram(client, data, n) => DatagramKeepsEntries(s, client, data, n, a, id);
    case Failed(n) => RemovalEnds(s, n, Discard, a, id);
    case Connected(n) => RemovalEnds(s, n, Serve, a, id);
    case _ =>
  }

  /** The timeouts of a punctual sweep are the configured one and ten seconds: it spares what is younger. */
  lemma SweepsSpareTheYoung(s: State, nextSweep: nat, secs: nat, st: nat, pt: nat, a: nat, id: nat)
    requires T.Enabled(s, T.Swept(st, pt)) && Punctual(s, nextSweep, secs, T.Swept(st, pt))
    ensures a in s.sessions && s.now - s.sessions[a].lastActive < secs * 1_000 ==>
              a in T.Apply(s, T.Swept(st, pt)).sessions
    ensures id in s.pendingById && s.now - s.pendingById[id].created < 10_000 ==>
              id in T.Apply(s, T.Swept(st, pt)).pendingById
  {
    hide T.Apply;
    EntriesEndExactly(s, T.Swept(st, pt), a, id);
  }

  lemma RemovalEnds(s: State, n: nat, purpose: Purpose, a: nat, id: nat)
    requires T.Linked(s)
    ensures a in s.sessions ==> a in T.RemovePending(s, n, purpose).sessions
    ensures id in s.pendingById ==> (id !in T.RemovePending(s, n, purpose).pendingById <==> id == n)
  {
  }

  lemma DatagramKeepsEntries(s: State, client: Addr, data: seq<byte>, n: nat, a: nat, id: nat)
    requires T.Linked(s)
    ensures a in s.sessions ==> a in T.HandleDatagram(s, client, data, n).sessions
    ensures id in s.pendingById ==> id in T.HandleDatagram(s, client, data, n).pendingById
  {
  }

  // ------------------------------------------------------------------ what keeps a session alive

  /** A datagram from the client, a batch for it, a reply to it, or the work connection that starts its session. */
  predicate Uses(s: State, h: T.Handler, a: Addr) {
    match h
    case Datagram(client, _, _) => client == a
    case Connected(id) => id in s.pendingById && s.pendingById[id].client == a
    case Moved(BatchTaken(id, _)) => id in s.queues && s.queues[id].client == a
    case Moved(Replied(id)) => id in s.queues && s.queues[id].client == a
    case _ => false
  }

  lemma DatagramStamps(s: State, client: Addr, data: seq<byte>, id: nat, a: Addr)
    requires T.Settled(s) && L.Inv(s) && id !in s.queues && a in T.HandleDatagram(s, client, data, id).sessions
    ensures
      var t := T.HandleDatagram(s, client, data, id);
      a in s.sessions && t.sessions[a].lastActive == if client == a then s.now else s.sessions[a].lastActive
  {
    hide T.HandleDatagram, T.TablesOk, L.Inv;
    T.DatagramOutcome(s, client, data, id);
  }

  lemma ConnectedStamps(s: State, id: nat, a: Addr)
    requires T.Settled(s) && a in T.RemovePending(s, id, Serve).sessions
    ensures
      var t := T.RemovePending(s, id, Serve);
      if id in s.pendingById && s.pendingById[id].client == a then t.sessions[a].lastActive == s.now
      else a in s.sessions && t.sessions[a].lastActive == s.sessions[a].lastActive
  {
    if id in s.pendingById {
      T.ServeOutcome(s, id);
    }
    hide T.Settled;
  }

  lemma FailedStamps(s: State, id: nat)
    requires T.Settled(s)
    ensures T.RemovePending(s, id, Discard).sessions == s.sessions
  {
    if id in s.pendingById {
      T.DiscardOutcome(s, id);
      hide T.RemovePending;
    }
  }

  lemma MoveStamps(s: State, e: L.TaskStep, a: Addr)
    requires L.TaskEnabled(s, e) && T.InService(e) && a in L.ApplyTask(s, e).sessions
    ensures a in s.sessions
    ensures L.ApplyTask(s, e).sessions[a].lastActive
         == if Uses(s, T.Moved(e), a) then s.now else s.sessions[a].lastActive
  {
  }

  /** Exactly which handlers stamp a session, and with what: those that use it, with the time. */
  lemma StampExactly(s: State, h: T.Handler, a: Addr)
    requires T.Settled(s) && L.Inv(s) && T.Enabled(s, h) && a in T.Apply(s, h).sessions
    ensures
      if Uses(s, h, a) then T.Apply(s, h).sessions[a].lastActive == s.now
      else a in s.sessions && T.Apply(s, h).sessions[a].lastActive == s.sessions[a].lastActive
  {
    hide L.Inv, T.Settled, T.HandleDatagram, T.RemovePending, L.ApplyTask, L.TaskEnabled;
    match h
    case Datagram(client, data, id) => DatagramStamps(s, client, data, id, a);
    case Connected(id) => ConnectedStamps(s, id, a);
    case Failed(id) => FailedStamps(s, id);
    case Moved(ks) => MoveStamps(s, ks, a);
    case Swept(st, pt) =>
    case Finished(id) =>
  }

  /** The time of the last handler of the run that uses the client's session, or `last` when there is none. */
  function LastUse(s: State, hs: seq<T.Handler>, a: Addr, last: nat): nat
    requires T.Run(s, hs).Some?
    decreases |hs|
  {
    if hs == [] then last
    else LastUse(T.Apply(s, hs[0]), hs[1..], a, if Uses(s, hs[0], a) then s.now else last)
  }

  lemma {:induction false} RunStamps(s: State, hs: seq<T.Handler>, a: Addr, last: nat)
    requires T.Settled(s) && L.Inv(s) && T.Run(s, hs).Some?
    requires a in s.sessions ==> s.sessions[a].lastActive == last
    ensures a in T.Run(s, hs).value.sessions ==> T.Run(s, hs).value.sessions[a].lastActive == LastUse(s, hs, a, last)
    decreases |hs|
  {
    hide L.Inv, T.Settled, T.Enabled, T.Apply, Uses;
    if hs != [] {
      var t := T.Apply(s, hs[0]);
      T.StepKeepsBoth(s, hs[0]);
      if a in t.sessions {
        StampExactly(s, hs[0], a);
      }
      RunStamps(t, hs[1..], a, if Uses(s, hs[0], a) then s.now else last);
    }
  }

  /**
   On every run of handlers a session's stamp is the time it was last used: by a datagram of its client, by
   a batch for it or a reply to it, or by the work connection that started it.
   */
  lemma StampIsLastUse(hs: seq<T.Handler>, a: Addr)
    requires T.Run(Init(), hs).Some? && a in T.Run(Init(), hs).value.sessions
    ensures T.Run(Init(), hs).value.sessions[a].lastActive == LastUse(Init(), hs, a, 0)
  {
    L.InitInv();
    T.EmptyIsSettled();
    hide T.Run, LastUse;
    RunStamps(Init(), hs, a, 0);
  }
}
