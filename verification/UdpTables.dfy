/**
 The tables of a UDP proxy when every handler runs as one step: a received datagram, the removal of
 a pending entry, a sweep, the end of a work connection.

 Every such step is a run of the lock-sized steps of `UdpLedger`, so all of its results hold here;
 what is added is what only holds between handlers.
 */
module UdpTables {
  import opened Bytes
  import opened Wrappers
  import opened UdpSections
  import Ledger = UdpLedger

  /** Every sender in the tables belongs to a queue. */
  predicate Linked(s: State) {
    && |s.fate| == |s.arrivals|
    && (forall a | a in s.sessions :: s.sessions[a].chan in s.queues)
    && (forall a | a in s.pendingClient :: s.pendingClient[a] in s.queues)
    && (forall id | id in s.pendingById :: id in s.queues)
  }

  /** A received datagram, from the lookup to the queue; `id` is the next work id, should one be needed. */
  function HandleDatagram(s: State, client: Addr, data: seq<byte>, id: nat): State
    requires Linked(s)
  {
    var p := Packet(|s.arrivals|, client, data);
    var s1 := Receive(s, client, data);
    if s1.hand.Sending? then Send(s1, p, s1.hand.chan)
    else
      var s2 := LookupClient(s1, p);
      if s2.hand.HasId? then
        var s3 := LookupPending(s2, p, s2.hand.id);
        if s3.hand.Sending? then Send(s3, p, s3.hand.chan) else s3
      else
        var s3 := CheckLimit(s2, p);
        if s3.hand.Opening? then IndexClient(Open(s3, p, id), client, id) else s3
  }

  /** `remove_pending` and what its caller does with the entry. */
  function RemovePending(s: State, id: nat, purpose: Purpose): State
    requires Linked(s)
  {
    if id in s.pendingById then FinishRemoval(ClearClient(Remove(s, id, purpose), id), id) else s
  }

  /** The end of a work connection. */
  function Close(s: State, id: nat): State
    requires id in s.queues && |s.fate| == |s.arrivals|
  {
    DropQueue(Unpair(s, id), id)
  }

  function Expired(s: State, timeout: nat): set<nat> {
    set id | id in s.pendingById && s.now - s.pendingById[id].created >= timeout
  }

  /** All these pending entries go, with their queues. */
  function DiscardAll(s: State, ids: set<nat>): State
    requires |s.fate| == |s.arrivals|
  {
    s.(pendingById := s.pendingById - ids,
       pendingClient := s.pendingClient - (set a | a in s.pendingClient && s.pendingClient[a] in ids),
       queues := map id | id in s.queues ::
         if id in ids then s.queues[id].(items := [], batch := [], phase := Closed) else s.queues[id],
       fate := seq(|s.fate|, i requires 0 <= i < |s.fate| =>
         if (s.fate[i].Queued? || s.fate[i].InBatch?) && s.fate[i].chan in ids then Discarded(s.fate[i].chan)
           else s.fate[i]))
  }

  function Sweep(s: State, sessionTimeout: nat, pendingTimeout: nat): State
    requires |s.fate| == |s.arrivals|
  {
    DiscardAll(SweepSessions(s, sessionTimeout), Expired(s, pendingTimeout))
  }

  datatype Handler =
    | Datagram(client: Addr, data: seq<byte>, id: nat)
    | Failed(id: nat)
    | Connected(id: nat)
    | Swept(sessionTimeout: nat, pendingTimeout: nat)
    | Finished(id: nat)
    | Moved(ks: Ledger.TaskStep)

  /** What a work connection does between its start and its end, and the passing of time. */
  predicate InService(e: Ledger.TaskStep) {
    e.BatchTaken? || e.BatchWritten? || e.Replied? || e.Ticked?
  }

  // ------------------------------------------------------------------ invariant

  /** What holds of the three tables between handlers. */
  ghost predicate TablesOk(sessions: map<Addr, UdpSession>, byId: map<nat, PendingUdp>, byClient: map<Addr, nat>,
                           queues: map<nat, Queue>) {
    && (forall a | a in byClient :: byClient[a] in byId && byId[byClient[a]].client == a)
    && (forall id | id in byId :: byId[id].client in byClient && byClient[byId[id].client] == id)
    && (forall a | a in byClient :: a !in sessions)
    && (forall a | a in sessions :: sessions[a].chan in queues && queues[sessions[a].chan].client == a
                                    && queues[sessions[a].chan].phase in {Serving, Stopping})
    && (forall id | id in byId :: id in queues && queues[id].client == byId[id].client && queues[id].phase == Waiting)
  }

  ghost predicate Settled(s: State) {
    && s.hand == Idle && s.removals == map[] && Linked(s)
    && TablesOk(s.sessions, s.pendingById, s.pendingClient, s.queues)
  }

  predicate Enabled(s: State, h: Handler) {
    Linked(s) &&
    match h
    case Datagram(_, _, id) => id !in s.queues
    case Finished(id) => id in s.queues && s.queues[id].phase in {Serving, Stopping}
    case Moved(ks) => InService(ks) && Ledger.TaskEnabled(s, ks)
    case _ => true
  }

  function Apply(s: State, h: Handler): State
    requires Enabled(s, h)
  {
    match h
    case Datagram(client, data, id) => HandleDatagram(s, client, data, id)
    case Failed(id) => RemovePending(s, id, Discard)
    case Connected(id) => RemovePending(s, id, Serve)
    case Swept(sessionTimeout, pendingTimeout) => Sweep(s, sessionTimeout, pendingTimeout)
    case Finished(id) => Close(s, id)
    case Moved(ks) => Ledger.ApplyTask(s, ks)
  }

  // ------------------------------------------------------------------ datagrams

  /** The datagram is in queue `c` if that has room, and counted as dropped if not; the pending tables stay. */
  predicate Offered(s: State, t: State, p: Packet, c: nat) {
    && c in s.queues
    && t.pendingById == s.pendingById && t.pendingClient == s.pendingClient
    && if |s.queues[c].items| < 64 then
         && t.queues == s.queues[c := s.queues[c].(items := s.queues[c].items + [p])]
         && t.fate == s.fate + [Queued(c)] && t.dropped == s.dropped
       else Lost(s, t)
  }

  predicate Lost(s: State, t: State) {
    t.queues == s.queues && t.fate == s.fate + [Dropped] && t.dropped == s.dropped + 1
  }

  predicate OpenedFor(s: State, t: State, p: Packet, id: nat) {
    && t.sessions == s.sessions && t.pendingById == s.pendingById[id := PendingUdp(p.client, s.now)]
    && t.pendingClient == s.pendingClient[p.client := id]
    && t.queues == s.queues[id := Queue(p.client, p.no, [p], [], [], Waiting)]
    && t.fate == s.fate + [Queued(id)] && t.dropped == s.dropped
  }

  /**
   What becomes of a received datagram. It reaches the queue of its client's session, or of its
   client's pending entry, unless that queue holds 64; a client that has neither gets a new pending
   entry unless there are 256. Otherwise it is dropped and counted: the branch that drops without
   counting is never taken, and a closed queue is never met.
   */
  lemma DatagramOutcome(s: State, client: Addr, data: seq<byte>, id: nat)
    requires Settled(s) && Ledger.Inv(s) && id !in s.queues
    ensures
      var t := HandleDatagram(s, client, data, id);
      var p := Packet(|s.arrivals|, client, data);
      && t.hand == Idle && t.removals == s.removals && t.now == s.now && t.arrivals == s.arrivals + [p]
      && (if client in s.sessions then
            && Offered(s, t, p, s.sessions[client].chan)
            && t.sessions == s.sessions[client := s.sessions[client].(lastActive := s.now)]
          else if client in s.pendingClient then Offered(s, t, p, s.pendingClient[client]) && t.sessions == s.sessions
          else if |s.pendingById| == 256 then
            Lost(s, t) && t.sessions == s.sessions && t.pendingById == s.pendingById
              && t.pendingClient == s.pendingClient
          else OpenedFor(s, t, p, id))
  {
    hide Ledger.QueuesInv, Ledger.FateInv, Ledger.HandInv, Ledger.LinksInv, Ledger.DroppedNos;
    var p := Packet(|s.arrivals|, client, data);
    if client in s.sessions {
      var c := s.sessions[client].chan;
      SendIsOffer(s, Touch(s, client).(hand := Sending(p, c), arrivals := s.arrivals + [p], fate := s.fate + [InHand]),
        p, c);
    } else if client in s.pendingClient {
      var c := s.pendingClient[client];
      SendIsOffer(s, s.(hand := Sending(p, c), arrivals := s.arrivals + [p], fate := s.fate + [InHand]), p, c);
    } else {
      assert (s.fate + [InHand])[p.no := Queued(id)] == s.fate + [Queued(id)];
      assert (s.fate + [InHand])[p.no := Dropped] == s.fate + [Dropped];
    }
  }

  /** `try_send` on a queue that is open. */
  lemma SendIsOffer(s: State, s1: State, p: Packet, c: nat)
    requires p.no == |s.fate| == |s.arrivals| && s1.fate == s.fate + [InHand] && c in s.queues
             && s.queues[c].phase != Closed
    requires s1.queues == s.queues && s1.dropped == s.dropped
    requires s1.pendingById == s.pendingById && s1.pendingClient == s.pendingClient
    ensures Offered(s, Send(s1, p, c), p, c)
  {
    assert s1.fate[p.no := Dropped] == s.fate + [Dropped];
    assert s1.fate[p.no := Queued(c)] == s.fate + [Queued(c)];
  }

  lemma OfferedKeepsTables(s: State, t: State, p: Packet, c: nat)
    requires Settled(s) && Offered(s, t, p, c) && t.sessions.Keys == s.sessions.Keys
    requires forall a | a in s.sessions :: t.sessions[a].chan == s.sessions[a].chan
    ensures TablesOk(t.sessions, t.pendingById, t.pendingClient, t.queues)
  {
  }

  lemma OpenedKeepsTables(s: State, t: State, p: Packet, id: nat)
    requires Settled(s) && OpenedFor(s, t, p, id) && id !in s.queues && p.client !in s.sessions
             && p.client !in s.pendingClient
    ensures TablesOk(t.sessions, t.pendingById, t.pendingClient, t.queues)
  {
    assert id !in s.pendingById;
  }

  lemma DatagramKeepsSettled(s: State, client: Addr, data: seq<byte>, id: nat)
    requires Settled(s) && Ledger.Inv(s) && id !in s.queues
    ensures Settled(HandleDatagram(s, client, data, id))
  {
    hide Ledger.Inv, HandleDatagram, TablesOk, Offered, OpenedFor, Linked;
    var t := HandleDatagram(s, client, data, id);
    var p := Packet(|s.arrivals|, client, data);
    DatagramOutcome(s, client, data, id);
    SameSize(s, t, p, id);
    if client in s.sessions {
      OfferedKeepsTables(s, t, p, s.sessions[client].chan);
    } else if client in s.pendingClient {
      OfferedKeepsTables(s, t, p, s.pendingClient[client]);
    } else if |s.pendingById| != 256 {
      OpenedKeepsTables(s, t, p, id);
    }
    TablesAreLinked(t);
  }

  lemma TablesAreLinked(s: State)
    requires TablesOk(s.sessions, s.pendingById, s.pendingClient, s.queues) && |s.fate| == |s.arrivals|
    ensures Linked(s)
  {
  }

  lemma SameSize(s: State, t: State, p: Packet, id: nat)
    requires Linked(s) && t.arrivals == s.arrivals + [p]
    requires (exists c :: Offered(s, t, p, c)) || Lost(s, t) || OpenedFor(s, t, p, id)
    ensures |t.fate| == |t.arrivals|
  {
  }

  // ------------------------------------------------------------------ pending entries

  lemma DiscardKeepsTables(s: State, ids: set<nat>)
    requires Settled(s) && ids <= s.pendingById.Keys
    ensures Settled(DiscardAll(s, ids))
  {
    var t := DiscardAll(s, ids);
    assert TablesOk(t.sessions, t.pendingById, t.pendingClient, t.queues);
  }

  /** Removing entries one by one, in any order, comes to removing them all. */
  lemma DiscardOneMore(s: State, ids: set<nat>, id: nat)
    requires Settled(s) && ids <= s.pendingById.Keys && id in s.pendingById && id !in ids
    ensures Settled(DiscardAll(s, ids)) && id in DiscardAll(s, ids).pendingById
    ensures RemovePending(DiscardAll(s, ids), id, Discard) == DiscardAll(s, ids + {id})
  {
    DiscardKeepsTables(s, ids);
    var t := DiscardAll(s, ids);
    DiscardOne(t, id);
    DiscardTwice(s, ids, id);
  }

  lemma DiscardOne(s: State, id: nat)
    requires Settled(s) && id in s.pendingById
    ensures RemovePending(s, id, Discard) == DiscardAll(s, {id})
  {
    var r, d := RemovePending(s, id, Discard), DiscardAll(s, {id});
    var client := s.queues[id].client;
    assert r.pendingClient == d.pendingClient by {
      forall a | a in s.pendingClient ensures a == client <==> s.pendingClient[a] == id { }
    }
    assert r.removals == d.removals;
    assert r.queues == d.queues;
    assert r.fate == d.fate;
  }

  lemma DiscardOutcome(s: State, id: nat)
    requires Settled(s) && id in s.pendingById
    ensures
      var client := s.pendingById[id].client;
      id in s.queues && client in s.pendingClient && s.pendingClient[client] == id
    ensures RemovePending(s, id, Discard)
            == DropQueue(s.(pendingById := s.pendingById - {id},
                            pendingClient := s.pendingClient - {s.pendingById[id].client}), id)
  {
    assert RemovePending(s, id, Discard).removals == s.removals;
  }

  lemma DiscardTwice(s: State, ids: set<nat>, id: nat)
    requires |s.fate| == |s.arrivals|
    ensures DiscardAll(DiscardAll(s, ids), {id}) == DiscardAll(s, ids + {id})
  {
    var r, d := DiscardAll(DiscardAll(s, ids), {id}), DiscardAll(s, ids + {id});
    assert r.pendingById == d.pendingById;
    assert r.pendingClient == d.pendingClient;
    assert r.queues == d.queues;
    assert r.fate == d.fate;
  }

  /** A work connection takes its entry over: the client moves from the pending tables to the sessions. */
  lemma ServeOutcome(s: State, id: nat)
    requires Settled(s) && id in s.pendingById
    ensures
      var t := RemovePending(s, id, Serve);
      var client := s.pendingById[id].client;
      && t == s.(pendingById := s.pendingById - {id}, pendingClient := s.pendingClient - {client},
                 sessions := s.sessions[client := UdpSession(id, s.now)],
                 queues := s.queues[id := s.queues[id].(phase := Serving)])
      && Settled(t) && client in s.pendingClient && s.pendingClient[client] == id && id in s.queues
  {
    var t := RemovePending(s, id, Serve);
    assert t.removals == s.removals;
    ServeKeepsTables(s.sessions, s.pendingById, s.pendingClient, s.queues, id, s.now);
    TablesAreLinked(t);
  }

  lemma ServeKeepsTables(sessions: map<Addr, UdpSession>, byId: map<nat, PendingUdp>, byClient: map<Addr, nat>,
                         queues: map<nat, Queue>, id: nat, now: nat)
    requires TablesOk(sessions, byId, byClient, queues) && id in byId
    ensures TablesOk(sessions[byId[id].client := UdpSession(id, now)], byId - {id}, byClient - {byId[id].client},
                     queues[id := queues[id].(phase := Serving)])
  {
  }

  lemma CloseKeepsSettled(s: State, id: nat)
    requires Settled(s) && id in s.queues && s.queues[id].phase in {Serving, Stopping}
    ensures Settled(Close(s, id))
  {
    var t := Close(s, id);
    assert TablesOk(t.sessions, t.pendingById, t.pendingClient, t.queues);
  }

  lemma SweepKeepsSettled(s: State, sessionTimeout: nat, pendingTimeout: nat)
    requires Settled(s)
    ensures Settled(SweepSessions(s, sessionTimeout)) && Settled(Sweep(s, sessionTimeout, pendingTimeout))
  {
    var t := SweepSessions(s, sessionTimeout);
    assert TablesOk(t.sessions, t.pendingById, t.pendingClient, t.queues);
    DiscardKeepsTables(t, Expired(s, pendingTimeout));
  }

  /** A sweep removes exactly what is too old. */
  lemma SweepOutcome(s: State, sessionTimeout: nat, pendingTimeout: nat)
    requires Settled(s)
    ensures
      var t := Sweep(s, sessionTimeout, pendingTimeout);
      && (forall a :: a in t.sessions <==> a in s.sessions && s.now - s.sessions[a].lastActive < sessionTimeout)
      && (forall id :: id in t.pendingById <==>
           id in s.pendingById && s.now - s.pendingById[id].created < pendingTimeout)
      && (forall a | a in t.sessions :: t.sessions[a] == s.sessions[a])
      && (forall id | id in t.pendingById :: t.pendingById[id] == s.pendingById[id])
      && (forall id | id in s.queues && id !in s.pendingById :: t.queues[id] == s.queues[id])
  {
  }

  lemma TouchKeepsTables(s: State, client: Addr)
    requires Settled(s)
    ensures Settled(Touch(s, client))
  {
    var t := Touch(s, client);
    assert TablesOk(t.sessions, t.pendingById, t.pendingClient, t.queues);
  }

  /** A queue in service changes; the tables do not. */
  lemma ServingKeepsTables(s: State, id: nat, q: Queue)
    requires Settled(s) && id in s.queues && s.queues[id].phase == Serving
    requires q.client == s.queues[id].client && q.phase in {Serving, Stopping}
    ensures TablesOk(s.sessions, s.pendingById, s.pendingClient, s.queues[id := q])
  {
  }

  lemma MoveKeepsSettled(s: State, e: Ledger.TaskStep)
    requires Settled(s) && InService(e) && Ledger.TaskEnabled(s, e)
    ensures Settled(Ledger.ApplyTask(s, e))
  {
    hide TablesOk;
    var t := Ledger.ApplyTask(s, e);
    match e {
      case BatchTaken(id, n) =>
        var q := s.queues[id];
        TouchKeepsTables(s, q.client);
        ServingKeepsTables(Touch(s, q.client), id, q.(items := q.items[n..], batch := q.items[..n]));
        TablesAreLinked(t);
      case BatchWritten(id, ok) =>
        ServingKeepsTables(s, id, t.queues[id]);
        TablesAreLinked(t);
      case Replied(id) => TouchKeepsTables(s, s.queues[id].client);
      case _ =>
    }
  }

  lemma StepKeepsSettled(s: State, h: Handler)
    requires Settled(s) && Ledger.Inv(s) && Enabled(s, h)
    ensures Settled(Apply(s, h))
  {
    hide Ledger.Inv, Settled, HandleDatagram, RemovePending, Sweep, Close, Ledger.ApplyTask;
    match h
    case Datagram(client, data, id) => DatagramKeepsSettled(s, client, data, id);
    case Failed(id) => RemoveKeepsSettled(s, id, Discard);
    case Connected(id) => RemoveKeepsSettled(s, id, Serve);
    case Swept(sessionTimeout, pendingTimeout) => SweepKeepsSettled(s, sessionTimeout, pendingTimeout);
    case Finished(id) => CloseKeepsSettled(s, id);
    case Moved(ks) => MoveKeepsSettled(s, ks);
  }

  lemma RemoveKeepsSettled(s: State, id: nat, purpose: Purpose)
    requires Settled(s)
    ensures Settled(RemovePending(s, id, purpose))
  {
    if id in s.pendingById {
      if purpose == Serve {
        ServeOutcome(s, id);
      } else {
        DiscardOne(s, id);
        DiscardKeepsTables(s, {id});
      }
    }
  }

  // ------------------------------------------------------------------ handlers are runs

  lemma RunCons(s: State, e: Ledger.Event, es: seq<Ledger.Event>)
    requires Ledger.Enabled(s, e)
    ensures Ledger.Run(s, [e] + es) == Ledger.Run(Ledger.Apply(s, e), es)
  {
    assert ([e] + es)[1..] == es;
  }

  lemma RunOne(s: State, e: Ledger.Event)
    requires Ledger.Enabled(s, e)
    ensures Ledger.Run(s, [e]) == Some(Ledger.Apply(s, e))
  {
    assert [e] + [] == [e];
    RunCons(s, e, []);
  }

  lemma {:induction false} RunAppend(s: State, es: seq<Ledger.Event>, fs: seq<Ledger.Event>)
    requires Ledger.Run(s, es).Some?
    ensures Ledger.Run(s, es + fs) == Ledger.Run(Ledger.Run(s, es).value, fs)
    decreases |es|
  {
    hide Ledger.Enabled, Ledger.Apply;
    if es == [] {
      assert es + fs == fs;
    } else {
      RunAppend(Ledger.Apply(s, es[0]), es[1..], fs);
      assert es + fs == [es[0]] + (es[1..] + fs);
      RunCons(s, es[0], es[1..] + fs);
    }
  }

  lemma RunThen(s: State, es: seq<Ledger.Event>, e: Ledger.Event)
    requires Ledger.Run(s, es).Some? && Ledger.Enabled(Ledger.Run(s, es).value, e)
    ensures Ledger.Run(s, es + [e]) == Some(Ledger.Apply(Ledger.Run(s, es).value, e))
  {
    hide Ledger.Enabled, Ledger.Apply, Ledger.Run;
    RunAppend(s, es, [e]);
    RunOne(Ledger.Run(s, es).value, e);
  }

  lemma DatagramIsRun(s: State, client: Addr, data: seq<byte>, id: nat) returns (es: seq<Ledger.Event>)
    requires Settled(s) && Ledger.Inv(s) && id !in s.queues
    ensures Ledger.Run(s, es) == Some(HandleDatagram(s, client, data, id))
  {
    hide Ledger.Run, Ledger.Inv, TablesOk;
    var p := Packet(|s.arrivals|, client, data);
    var s1 := Receive(s, client, data);
    es := [Ledger.Loop(Ledger.Received(client, data))];
    RunOne(s, Ledger.Loop(Ledger.Received(client, data)));
    if s1.hand.Sending? {
      RunThen(s, es, Ledger.Loop(Ledger.Sent));
      es := es + [Ledger.Loop(Ledger.Sent)];
      return;
    }
    var s2 := LookupClient(s1, p);
    RunThen(s, es, Ledger.Loop(Ledger.LookedUp));
    es := es + [Ledger.Loop(Ledger.LookedUp)];
    if s2.hand.HasId? {
      var s3 := LookupPending(s2, p, s2.hand.id);
      RunThen(s, es, Ledger.Loop(Ledger.Fetched));
      es := es + [Ledger.Loop(Ledger.Fetched)];
      if s3.hand.Sending? {
        RunThen(s, es, Ledger.Loop(Ledger.Sent));
        es := es + [Ledger.Loop(Ledger.Sent)];
      }
    } else {
      var s3 := CheckLimit(s2, p);
      RunThen(s, es, Ledger.Loop(Ledger.LimitChecked));
      es := es + [Ledger.Loop(Ledger.LimitChecked)];
      if s3.hand.Opening? {
        var more := OpenIsRun(s3, p, id);
        RunAppend(s, es, more);
        es := es + more;
      }
    }
  }

  lemma OpenIsRun(s: State, p: Packet, id: nat) returns (es: seq<Ledger.Event>)
    requires |s.fate| == |s.arrivals| && s.hand == Opening(p) && p.no < |s.fate| && id !in s.queues
    ensures Ledger.Run(s, es) == Some(IndexClient(Open(s, p, id), p.client, id))
  {
    hide Ledger.Run;
    RunOne(s, Ledger.Loop(Ledger.Opened(id)));
    RunThen(s, [Ledger.Loop(Ledger.Opened(id))], Ledger.Loop(Ledger.Indexed));
    es := [Ledger.Loop(Ledger.Opened(id))] + [Ledger.Loop(Ledger.Indexed)];
  }

  lemma RemoveIsRun(s: State, id: nat, purpose: Purpose) returns (es: seq<Ledger.Event>)
    requires Settled(s)
    ensures Ledger.Run(s, es) == Some(RemovePending(s, id, purpose))
  {
    hide Ledger.Run, TablesOk;
    es := [];
    EmptyRun(s);
    if id in s.pendingById {
      var e0, e1 := Ledger.Task(Ledger.EntryRemoved(id, purpose)), Ledger.Task(Ledger.ClientCleared(id));
      RunOne(s, e0);
      RunThen(s, [e0], e1);
      RunThen(s, [e0] + [e1], Ledger.Task(Ledger.RemovalFinished(id)));
      es := [e0] + [e1] + [Ledger.Task(Ledger.RemovalFinished(id))];
    }
  }

  lemma EmptyRun(s: State)
    ensures Ledger.Run(s, []) == Some(s)
  {
  }

  /** The second half of a sweep, one `remove_pending` after the other. */
  lemma DiscardIsRun(s: State, ids: set<nat>) returns (es: seq<Ledger.Event>)
    requires Settled(s) && ids <= s.pendingById.Keys
    ensures Ledger.Run(s, es) == Some(DiscardAll(s, ids))
    decreases |ids|
  {
    hide Ledger.Run, DiscardAll, RemovePending, TablesOk;
    if ids == {} {
      es := [];
      EmptyRun(s);
      DiscardNone(s);
    } else {
      var id :| id in ids;
      var rest := ids - {id};
      es := DiscardIsRun(s, rest);
      DiscardOneMore(s, rest, id);
      var more := RemoveIsRun(DiscardAll(s, rest), id, Discard);
      RunAppend(s, es, more);
      es := es + more;
      assert rest + {id} == ids;
    }
  }

  lemma DiscardNone(s: State)
    requires Linked(s)
    ensures DiscardAll(s, {}) == s
  {
    var t := DiscardAll(s, {});
    assert t.pendingById == s.pendingById;
    assert t.pendingClient == s.pendingClient;
    assert t.queues == s.queues;
    assert t.fate == s.fate;
  }

  lemma SweepIsRun(s: State, sessionTimeout: nat, pendingTimeout: nat) returns (es: seq<Ledger.Event>)
    requires Settled(s)
    ensures Ledger.Run(s, es) == Some(Sweep(s, sessionTimeout, pendingTimeout))
  {
    hide Ledger.Run, DiscardAll, TablesOk;
    var e := Ledger.Loop(Ledger.SessionsSwept(sessionTimeout));
    RunOne(s, e);
    SweepKeepsSettled(s, sessionTimeout, pendingTimeout);
    var more := DiscardIsRun(SweepSessions(s, sessionTimeout), Expired(s, pendingTimeout));
    RunAppend(s, [e], more);
    es := [e] + more;
  }

  lemma CloseIsRun(s: State, id: nat) returns (es: seq<Ledger.Event>)
    requires Settled(s) && id in s.queues && s.queues[id].phase in {Serving, Stopping}
    ensures Ledger.Run(s, es) == Some(Close(s, id))
  {
    hide Ledger.Run, TablesOk;
    RunOne(s, Ledger.Task(Ledger.Unpaired(id)));
    RunThen(s, [Ledger.Task(Ledger.Unpaired(id))], Ledger.Task(Ledger.ReceiverDropped(id)));
    es := [Ledger.Task(Ledger.Unpaired(id))] + [Ledger.Task(Ledger.ReceiverDropped(id))];
  }

  lemma StepIsRun(s: State, h: Handler) returns (es: seq<Ledger.Event>)
    requires Settled(s) && Ledger.Inv(s) && Enabled(s, h)
    ensures Ledger.Run(s, es) == Some(Apply(s, h))
  {
    hide Ledger.Run, Ledger.Inv, Settled, HandleDatagram, RemovePending, Sweep, Close;
    match h
    case Datagram(client, data, id) => es := DatagramIsRun(s, client, data, id);
    case Failed(id) => es := RemoveIsRun(s, id, Discard);
    case Connected(id) => es := RemoveIsRun(s, id, Serve);
    case Swept(sessionTimeout, pendingTimeout) => es := SweepIsRun(s, sessionTimeout, pendingTimeout);
    case Finished(id) => es := CloseIsRun(s, id);
    case Moved(ks) => es := [Ledger.Task(ks)]; RunOne(s, Ledger.Task(ks));
  }

  lemma StepKeepsBoth(s: State, h: Handler)
    requires Settled(s) && Ledger.Inv(s) && Enabled(s, h)
    ensures Settled(Apply(s, h)) && Ledger.Inv(Apply(s, h))
  {
    hide Ledger.Run, Ledger.Inv, Settled, Enabled, Apply;
    var es := StepIsRun(s, h);
    Ledger.RunKeepsInv(s, es);
    StepKeepsSettled(s, h);
  }

  // ------------------------------------------------------------------ runs of handlers

  function Run(s: State, hs: seq<Handler>): Option<State>
    decreases |hs|
  {
    if hs == [] then Some(s)
    else if Enabled(s, hs[0]) then Run(Apply(s, hs[0]), hs[1..])
    else None
  }

  ghost predicate Reachable(s: State) {
    exists hs :: Run(Init(), hs) == Some(s)
  }

  lemma {:induction false} RunIsRun(s: State, hs: seq<Handler>) returns (es: seq<Ledger.Event>)
    requires Settled(s) && Ledger.Inv(s) && Run(s, hs).Some?
    ensures Ledger.Run(s, es) == Some(Run(s, hs).value) && Settled(Run(s, hs).value)
    decreases |hs|
  {
    hide Ledger.Run, Ledger.Inv, Settled, Enabled, Apply;
    if hs == [] {
      es := [];
      EmptyRun(s);
    } else {
      es := StepIsRun(s, hs[0]);
      StepKeepsBoth(s, hs[0]);
      var more := RunIsRun(Apply(s, hs[0]), hs[1..]);
      RunAppend(s, es, more);
      es := es + more;
    }
  }

  /** Whole handlers are particular interleavings of the lock-sized steps, so the ledger holds for them. */
  lemma HandlersAreInterleavings(s: State)
    requires Reachable(s)
    ensures Ledger.Reachable(s) && Settled(s)
  {
    hide Ledger.Run, Ledger.Inv, Settled, Enabled, Apply;
    var hs :| Run(Init(), hs) == Some(s);
    Ledger.InitInv();
    assert Settled(Init()) by { EmptyIsSettled(); }
    var es := RunIsRun(Init(), hs);
  }

  lemma EmptyIsSettled()
    ensures Settled(Init())
  {
  }

  /**
   The two pending tables are inverse to each other: so a client has at most one pending entry. There
   are at most 256, and no client with a paired session has one.
   */
  lemma TablesAreInverse(s: State, client: Addr, id: nat)
    requires Reachable(s)
    ensures (client in s.pendingClient && s.pendingClient[client] == id)
            <==> (id in s.pendingById && s.pendingById[id].client == client)
    ensures |s.pendingClient| == |s.pendingById| <= 256
    ensures client in s.sessions ==> client !in s.pendingClient
  {
    hide Ledger.Run, Ledger.QueuesInv, Ledger.FateInv, Ledger.HandInv, Ledger.LinksInv;
    HandlersAreInterleavings(s);
    Ledger.ReachableInv(s);
    SameCount(s.pendingById, s.pendingClient);
  }

  lemma {:induction false} SameCount(byId: map<nat, PendingUdp>, byClient: map<Addr, nat>)
    requires forall a | a in byClient :: byClient[a] in byId && byId[byClient[a]].client == a
    requires forall id | id in byId :: byId[id].client in byClient && byClient[byId[id].client] == id
    ensures |byClient| == |byId|
    decreases |byId|
  {
    if byId == map[] {
      assert byClient == map[] by {
        if a :| a in byClient {
          assert byClient[a] in byId;
        }
      }
    } else {
      var id :| id in byId;
      var client := byId[id].client;
      assert (byId - {id}).Keys == byId.Keys - {id};
      assert (byClient - {client}).Keys == byClient.Keys - {client};
      SameCount(byId - {id}, byClient - {client});
    }
  }

  /**
   A session or pending entry never leads to a closed queue: between handlers a datagram is refused
   only where 64 are waiting already or 256 clients are.
   */
  lemma NoDatagramVanishes(s: State, client: Addr, data: seq<byte>, id: nat)
    requires Reachable(s) && Enabled(s, Datagram(client, data, id))
    ensures
      var t := HandleDatagram(s, client, data, id);
      var full :=
        if client in s.sessions then |s.queues[s.sessions[client].chan].items| >= 64
        else if client in s.pendingClient then |s.queues[s.pendingClient[client]].items| >= 64
        else |s.pendingById| >= 256;
      && |t.fate| == |s.fate| + 1
      && (full ==> t.fate[|s.fate|] == Dropped && t.dropped == s.dropped + 1)
      && (!full ==> t.fate[|s.fate|].Queued? && t.dropped == s.dropped)
  {
    hide Ledger.Run, Ledger.QueuesInv, Ledger.FateInv, Ledger.HandInv, Ledger.LinksInv, HandleDatagram, TablesOk;
    HandlersAreInterleavings(s);
    Ledger.ReachableInv(s);
    DatagramOutcome(s, client, data, id);
  }
}
