/**
 When a client of a UDP proxy is cut off for good. The receive loop enters a new work id into
 `pending_by_id` first and into `pending_client` second; a work connection that takes and clears the
 entry in between leaves the client mapped to an id that nobody will clear again.
 */
module UdpCutOff {
  import opened Bytes
  import opened Wrappers
  import opened UdpSections
  import Ledger = UdpLedger
  import Losses = UdpLosses
  import T = UdpTables

  /** The work id a client is mapped to, or is about to be. */
  function Mapped(s: State, client: Addr): Option<nat> {
    if s.hand.Unindexed? && s.hand.client == client then Some(s.hand.id)
    else if client in s.pendingClient then Some(s.pendingClient[client])
    else None
  }

  /** Neither waiting nor between the halves of its removal: nobody will clear this id. */
  predicate Gone(s: State, id: nat) {
    id !in s.pendingById && !(id in s.removals && s.removals[id].Removed?)
  }

  predicate Stuck(s: State, client: Addr) {
    Mapped(s, client).Some? && Gone(s, Mapped(s, client).value)
  }

  /** No session, and no work connection about to make one. */
  predicate Unserved(s: State, client: Addr) {
    client !in s.sessions
    && forall id | id in s.removals && id in s.queues && s.queues[id].client == client ::
         s.removals[id].purpose == Discard
  }

  predicate CutOff(s: State, client: Addr) {
    Stuck(s, client) && Unserved(s, client)
  }

  // ------------------------------------------------------------------ the maps

  /** A client is only entered when it is not mapped, and every pending entry is the one its client is mapped to. */
  ghost predicate MapInv(s: State) {
    && ((s.hand.NoPending? || s.hand.Opening?) ==> s.hand.p.client !in s.pendingClient)
    && (s.hand.Unindexed? ==> s.hand.client !in s.pendingClient)
    && (forall id | id in s.pendingById :: Mapped(s, s.pendingById[id].client) == Some(id))
  }

  ghost predicate Linked(s: State) {
    && Ledger.LinksInv(s.sessions, s.pendingById, s.pendingClient, s.removals, s.queues)
    && Ledger.HandInv(s.hand, s.queues, s.arrivals, s.fate)
  }

  lemma InvIsLinked(s: State)
    requires Ledger.Inv(s)
    ensures Linked(s)
  {
  }

  /** What a step of the receive loop does to the tables. */
  ghost predicate LoopEffect(s: State, e: Ledger.LoopStep, t: State)
    requires Ledger.LoopEnabled(s, e)
  {
    SameClients(s, t) && LoopTables(s, e, t)
  }

  ghost predicate SameClients(s: State, t: State) {
    && t.removals == s.removals
    && (forall id | id in s.queues :: id in t.queues && t.queues[id].client == s.queues[id].client)
  }

  ghost predicate LoopTables(s: State, e: Ledger.LoopStep, t: State)
    requires Ledger.LoopEnabled(s, e)
  {
    match e
    case LookedUp => SameTables(s, t) && t.hand == LookupClient(s, s.hand.p).hand
    case LimitChecked => SameTables(s, t) && (t.hand.Idle? || t.hand == Opening(s.hand.p))
    case Opened(id) =>
      && t.hand == Unindexed(s.hand.p.client, id) && t.pendingClient == s.pendingClient && t.sessions == s.sessions
      && t.pendingById == s.pendingById[id := PendingUdp(s.hand.p.client, s.now)]
    case Indexed =>
      && t.hand.Idle? && t.pendingById == s.pendingById && t.sessions == s.sessions
      && t.pendingClient == s.pendingClient[s.hand.client := s.hand.id]
    case SessionsSwept(_) =>
      t.hand == s.hand && t.pendingById == s.pendingById && t.pendingClient == s.pendingClient
        && t.sessions.Keys <= s.sessions.Keys
    case _ => SameTables(s, t) && !t.hand.NoPending? && !t.hand.Opening? && !t.hand.Unindexed?
  }

  ghost predicate SameTables(s: State, t: State) {
    t.pendingById == s.pendingById && t.pendingClient == s.pendingClient && t.sessions.Keys == s.sessions.Keys
  }

  lemma LoopKeepsClients(s: State, e: Ledger.LoopStep)
    requires Ledger.LoopEnabled(s, e)
    ensures SameClients(s, Ledger.ApplyLoop(s, e))
  {
  }

  lemma LoopMovesTables(s: State, e: Ledger.LoopStep)
    requires Ledger.LoopEnabled(s, e)
    ensures LoopTables(s, e, Ledger.ApplyLoop(s, e))
  {
    match e
    case Received(client, data) => assert Touch(s, client).sessions.Keys == s.sessions.Keys;
    case LookedUp =>
    case Fetched =>
    case Sent =>
    case LimitChecked =>
    case Opened(id) =>
    case Indexed =>
    case SessionsSwept(timeout) =>
  }

  lemma LoopHasEffect(s: State, e: Ledger.LoopStep)
    requires Ledger.LoopEnabled(s, e)
    ensures LoopEffect(s, e, Ledger.ApplyLoop(s, e))
  {
    hide Ledger.ApplyLoop, Ledger.LoopEnabled, SameClients, LoopTables;
    LoopKeepsClients(s, e);
    LoopMovesTables(s, e);
  }

  /** What a step of another task does to the tables. */
  ghost predicate TaskEffect(s: State, e: Ledger.TaskStep, t: State) {
    SameQueues(s, t) && TaskTables(s, e, t)
  }

  ghost predicate SameQueues(s: State, t: State) {
    && t.hand == s.hand && t.queues.Keys == s.queues.Keys
    && forall id | id in s.queues :: t.queues[id].client == s.queues[id].client
  }

  ghost predicate TaskTables(s: State, e: Ledger.TaskStep, t: State) {
    match e
    case EntryRemoved(id, purpose) =>
      && t.pendingClient == s.pendingClient && t.sessions == s.sessions
      && (if id in s.pendingById
          then t.pendingById == s.pendingById - {id} && t.removals == s.removals[id := Removed(purpose)]
          else t.pendingById == s.pendingById && t.removals == s.removals)
    case ClientCleared(id) =>
      && id in s.removals && s.removals[id].Removed? && id in s.queues
      && t.pendingById == s.pendingById && t.sessions == s.sessions
         && t.removals == s.removals[id := Cleared(s.removals[id].purpose)]
      && t.pendingClient.Keys <= s.pendingClient.Keys
      && (forall a | a in s.pendingClient ::
            if a == s.queues[id].client && s.pendingClient[a] == id then a !in t.pendingClient
            else a in t.pendingClient && t.pendingClient[a] == s.pendingClient[a])
    case RemovalFinished(id) =>
      && id in s.removals && s.removals[id].Cleared? && id in s.queues
      && t.pendingById == s.pendingById && t.pendingClient == s.pendingClient && t.removals == s.removals - {id}
      && t.sessions.Keys == s.sessions.Keys + if s.removals[id].purpose == Serve then {s.queues[id].client} else {}
    case _ =>
      && t.pendingById == s.pendingById && t.pendingClient == s.pendingClient && t.removals == s.removals
      && t.sessions.Keys <= s.sessions.Keys
  }

  lemma TaskKeepsQueues(s: State, e: Ledger.TaskStep)
    requires Ledger.TaskEnabled(s, e)
    ensures SameQueues(s, Ledger.ApplyTask(s, e))
  {
  }

  lemma TaskMovesTables(s: State, e: Ledger.TaskStep)
    requires Ledger.TaskEnabled(s, e)
    ensures TaskTables(s, e, Ledger.ApplyTask(s, e))
  {
  }

  lemma TaskHasEffect(s: State, e: Ledger.TaskStep)
    requires Ledger.TaskEnabled(s, e)
    ensures TaskEffect(s, e, Ledger.ApplyTask(s, e))
  {
    hide Ledger.ApplyTask, Ledger.TaskEnabled, SameQueues, TaskTables;
    TaskKeepsQueues(s, e);
    TaskMovesTables(s, e);
  }

  lemma LoopKeepsMap(s: State, e: Ledger.LoopStep)
    requires Linked(s) && MapInv(s) && Ledger.LoopEnabled(s, e)
    ensures MapInv(Ledger.ApplyLoop(s, e))
  {
    LoopHasEffect(s, e);
    hide Ledger.ApplyLoop;
  }

  lemma ClearKeepsMap(s: State, id: nat)
    requires Linked(s) && MapInv(s) && Ledger.TaskEnabled(s, Ledger.ClientCleared(id))
    ensures MapInv(ClearClient(s, id))
  {
    TaskMovesTables(s, Ledger.ClientCleared(id));
    TaskKeepsHand(s, Ledger.ClientCleared(id));
    hide ClearClient;
  }

  lemma TaskKeepsMap(s: State, e: Ledger.TaskStep)
    requires Linked(s) && MapInv(s) && Ledger.TaskEnabled(s, e)
    ensures MapInv(Ledger.ApplyTask(s, e))
  {
    if e.ClientCleared? {
      ClearKeepsMap(s, e.id);
      hide MapInv, Linked;
    } else {
      TaskMovesTables(s, e);
      TaskKeepsHand(s, e);
      hide Ledger.ApplyTask, Ledger.TaskEnabled, Linked;
    }
  }

  lemma StepKeepsMap(s: State, e: Ledger.Event)
    requires Ledger.Inv(s) && MapInv(s) && Ledger.Enabled(s, e)
    ensures MapInv(Ledger.Apply(s, e))
  {
    InvIsLinked(s);
    hide Ledger.Inv, Linked, MapInv, Ledger.LoopEnabled, Ledger.TaskEnabled, Ledger.ApplyLoop, Ledger.ApplyTask;
    match e
    case Loop(ls) => LoopKeepsMap(s, ls);
    case Task(ks) => TaskKeepsMap(s, ks);
  }

  ghost predicate Inv(s: State) {
    Ledger.Inv(s) && MapInv(s)
  }

  lemma StepKeepsInv(s: State, e: Ledger.Event)
    requires Inv(s) && Ledger.Enabled(s, e)
    ensures Inv(Ledger.Apply(s, e))
  {
    hide Ledger.Inv, MapInv, Ledger.Enabled, Ledger.Apply;
    Ledger.StepKeepsInv(s, e);
    StepKeepsMap(s, e);
  }

  lemma {:induction false} RunKeepsInv(s: State, es: seq<Ledger.Event>)
    requires Inv(s) && Ledger.Run(s, es).Some?
    ensures Inv(Ledger.Run(s, es).value)
    decreases |es|
  {
    hide Inv, Ledger.Enabled, Ledger.Apply;
    if es != [] {
      StepKeepsInv(s, es[0]);
      RunKeepsInv(Ledger.Apply(s, es[0]), es[1..]);
    }
  }

  lemma ReachableInv(s: State)
    requires Ledger.Reachable(s)
    ensures Inv(s)
  {
    hide Ledger.Enabled, Ledger.Apply, Ledger.Run, Ledger.Inv;
    var es :| Ledger.Run(Init(), es) == Some(s);
    Ledger.InitInv();
    assert MapInv(Init());
    RunKeepsInv(Init(), es);
  }

  // ------------------------------------------------------------------ how a client gets stuck

  /** The entry that the loop has just opened is taken and cleared before its client is mapped. */
  predicate ClearedEarly(s: State, e: Ledger.Event, client: Addr) {
    s.hand.Unindexed? && s.hand.client == client && e == Ledger.Task(Ledger.ClientCleared(s.hand.id))
  }

  lemma LoopSticksNone(s: State, e: Ledger.LoopStep, client: Addr)
    requires Linked(s) && MapInv(s) && Ledger.LoopEnabled(s, e)
    ensures Stuck(Ledger.ApplyLoop(s, e), client) == Stuck(s, client)
    ensures Stuck(s, client) ==> Mapped(Ledger.ApplyLoop(s, e), client) == Mapped(s, client)
  {
    LoopHasEffect(s, e);
    hide Ledger.ApplyLoop;
  }

  lemma ClearSticksExactly(s: State, id: nat, client: Addr)
    requires Linked(s) && MapInv(s) && Ledger.TaskEnabled(s, Ledger.ClientCleared(id))
    ensures
      var t := ClearClient(s, id);
      && (Stuck(t, client) <==> Stuck(s, client) || ClearedEarly(s, Ledger.Task(Ledger.ClientCleared(id)), client))
      && (Stuck(s, client) ==> Mapped(t, client) == Mapped(s, client))
  {
    TaskHasEffect(s, Ledger.ClientCleared(id));
    hide ClearClient;
  }

  /** Removing an entry leaves it to be cleared; ending a removal that has cleared changes nothing here. */
  lemma OthersStickNone(s: State, e: Ledger.TaskStep, t: State, client: Addr)
    requires !e.ClientCleared? && TaskEffect(s, e, t)
    ensures Mapped(t, client) == Mapped(s, client) && Stuck(t, client) == Stuck(s, client)
  {
    assert Mapped(t, client) == Mapped(s, client);
    if Mapped(s, client).Some? {
      SameGone(s, e, t, Mapped(s, client).value);
    }
    hide Gone, Mapped, TaskEffect;
  }

  lemma SameGone(s: State, e: Ledger.TaskStep, t: State, id: nat)
    requires !e.ClientCleared? && TaskEffect(s, e, t)
    ensures Gone(t, id) == Gone(s, id)
  {
    hide SameQueues;
  }

  lemma TaskSticksExactly(s: State, e: Ledger.TaskStep, client: Addr)
    requires Linked(s) && MapInv(s) && Ledger.TaskEnabled(s, e)
    ensures Stuck(Ledger.ApplyTask(s, e), client) <==> Stuck(s, client) || ClearedEarly(s, Ledger.Task(e), client)
    ensures Stuck(s, client) ==> Mapped(Ledger.ApplyTask(s, e), client) == Mapped(s, client)
  {
    if e.ClientCleared? {
      ClearSticksExactly(s, e.id, client);
      hide Stuck, Linked, MapInv, Mapped;
    } else {
      TaskHasEffect(s, e);
      hide Linked, MapInv, Ledger.ApplyTask, Ledger.TaskEnabled, TaskEffect, Stuck, Mapped;
      OthersStickNone(s, e, Ledger.ApplyTask(s, e), client);
    }
  }

  lemma StepSticksExactly(s: State, e: Ledger.Event, client: Addr)
    requires Inv(s) && Ledger.Enabled(s, e)
    ensures Stuck(Ledger.Apply(s, e), client) <==> Stuck(s, client) || ClearedEarly(s, e, client)
    ensures Stuck(s, client) ==> Mapped(Ledger.Apply(s, e), client) == Mapped(s, client)
  {
    InvIsLinked(s);
    hide Ledger.Inv, Linked, MapInv, Stuck, Mapped, Ledger.LoopEnabled, Ledger.TaskEnabled, Ledger.ApplyLoop,
      Ledger.ApplyTask;
    match e
    case Loop(ls) => LoopSticksNone(s, ls, client);
    case Task(ks) => TaskSticksExactly(s, ks, client);
  }

  /**
   Exactly when a client gets stuck, on every interleaving: when the entry of its new work id is taken
   and cleared before the loop has mapped the client to that id. It stays stuck for good, on that id.
   */
  lemma StuckExactly(s: State, e: Ledger.Event, client: Addr)
    requires Ledger.Reachable(s) && Ledger.Enabled(s, e)
    ensures Stuck(Ledger.Apply(s, e), client) <==> Stuck(s, client) || ClearedEarly(s, e, client)
    ensures Stuck(s, client) ==> Mapped(Ledger.Apply(s, e), client) == Mapped(s, client)
  {
    hide Ledger.Reachable, Inv, Stuck, Mapped, ClearedEarly, Ledger.Apply, Ledger.Enabled;
    ReachableInv(s);
    StepSticksExactly(s, e, client);
  }

  /** Between whole handlers no client is ever stuck. */
  lemma HandlersStickNone(s: State, client: Addr)
    requires T.Reachable(s)
    ensures !Stuck(s, client)
  {
    hide T.Reachable, T.Run, Ledger.Reachable;
    T.HandlersAreInterleavings(s);
    if client in s.pendingClient {
      T.TablesAreInverse(s, client, s.pendingClient[client]);
    }
  }

  // ------------------------------------------------------------------ cut off is for good

  lemma LoopKeepsUnserved(s: State, e: Ledger.LoopStep, client: Addr)
    requires Linked(s) && Ledger.LoopEnabled(s, e)
    ensures Unserved(s, client) ==> Unserved(Ledger.ApplyLoop(s, e), client)
    ensures !e.SessionsSwept? && Unserved(Ledger.ApplyLoop(s, e), client) ==> Unserved(s, client)
  {
    LoopHasEffect(s, e);
    hide Ledger.ApplyLoop;
  }

  lemma TaskKeepsUnserved(s: State, e: Ledger.TaskStep, client: Addr)
    requires Linked(s) && MapInv(s) && Ledger.TaskEnabled(s, e) && CutOff(s, client)
    ensures Unserved(Ledger.ApplyTask(s, e), client)
  {
    TaskHasEffect(s, e);
    hide Ledger.ApplyTask;
  }

  lemma StepKeepsCutOff(s: State, e: Ledger.Event, client: Addr)
    requires Inv(s) && Ledger.Enabled(s, e) && CutOff(s, client)
    ensures CutOff(Ledger.Apply(s, e), client) && Mapped(Ledger.Apply(s, e), client) == Mapped(s, client)
  {
    StepSticksExactly(s, e, client);
    InvIsLinked(s);
    hide Ledger.Inv, Linked, MapInv, Stuck, Mapped, Unserved, Ledger.LoopEnabled, Ledger.TaskEnabled, Ledger.ApplyLoop,
      Ledger.ApplyTask;
    match e
    case Loop(ls) => LoopKeepsUnserved(s, ls, client);
    case Task(ks) => TaskKeepsUnserved(s, ks, client);
  }

  /** Since there were `from` arrivals, every datagram of the client has been missed, but for one still in hand. */
  predicate AllMissed(s: State, client: Addr, from: nat) {
    |s.fate| == |s.arrivals|
    && forall n | from <= n < |s.fate| && s.arrivals[n].client == client :: s.fate[n].InHand? || s.fate[n].Missed?
  }

  /** A later datagram of the client that is in hand is on its way to be missed. */
  predicate HandLost(s: State, client: Addr, from: nat) {
    Ledger.Holding(s.hand) && s.hand.p.client == client && s.hand.p.no >= from ==>
      s.hand.NoSession? || (s.hand.HasId? && Mapped(s, client) == Some(s.hand.id))
  }

  lemma LoopKeepsLost(s: State, e: Ledger.LoopStep, client: Addr, from: nat)
    requires Linked(s) && Ledger.LoopEnabled(s, e) && CutOff(s, client) && from <= |s.arrivals|
    requires AllMissed(s, client, from) && HandLost(s, client, from)
    ensures AllMissed(Ledger.ApplyLoop(s, e), client, from) && HandLost(Ledger.ApplyLoop(s, e), client, from)
  {
    LoopHasEffect(s, e);
    Ledger.LoopSettles(s, e);
    Losses.LoopSizes(s, e);
    LoopHand(s, e);
    hide Ledger.ApplyLoop, Ledger.LinksInv;
    HandStaysLost(s, e, Ledger.ApplyLoop(s, e), client, from);
    hide HandLost, LoopEffect, CutOff;
    if s.hand.HasId? && e.Fetched? {
      assert Ledger.Settling(s, e) in {None, Some(Missed(s.hand.id))};
    }
  }

  lemma HandStaysLost(s: State, e: Ledger.LoopStep, t: State, client: Addr, from: nat)
    requires Ledger.LoopEnabled(s, e) && CutOff(s, client) && HandLost(s, client, from) && LoopEffect(s, e, t)
    requires
      match e
      case Received(c, _) => Ledger.Holding(t.hand) && t.hand.p.client == c && (c !in s.sessions ==> t.hand.NoSession?)
      case Fetched => t.hand == if s.hand.id in s.pendingById then Sending(s.hand.p, s.hand.id) else Idle
      case Sent => t.hand == Idle
      case _ => true
    ensures HandLost(t, client, from)
    ensures Ledger.Holding(s.hand) && s.hand.p.client == client && s.hand.p.no >= from ==>
              (e.LookedUp? && s.hand.NoSession?) || (e.Fetched? && s.hand.HasId? && s.hand.id !in s.pendingById)
  {
    assert forall id | id in s.removals && id in s.queues && s.queues[id].client == client ::
        s.removals[id].purpose == Discard;
  }

  lemma LoopHand(s: State, e: Ledger.LoopStep)
    requires Ledger.LoopEnabled(s, e)
    ensures
      var t := Ledger.ApplyLoop(s, e);
      match e
      case Received(client, _) =>
        Ledger.Holding(t.hand) && t.hand.p.client == client && (client !in s.sessions ==> t.hand.NoSession?)
      case Fetched => t.hand == if s.hand.id in s.pendingById then Sending(s.hand.p, s.hand.id) else Idle
      case Sent => t.hand == Idle
      case _ => true
  {
  }

  lemma TaskKeepsInHand(s: State, e: Ledger.TaskStep, n: nat)
    requires Ledger.Inv(s) && Ledger.TaskEnabled(s, e) && n < |s.fate| && s.fate[n].InHand?
    ensures n < |Ledger.ApplyTask(s, e).fate| && Ledger.ApplyTask(s, e).fate[n].InHand?
  {
    Losses.TaskSizes(s, e);
    TaskKeepsHand(s, e);
    Ledger.TaskStepKeepsInv(s, e);
    hide Ledger.ApplyTask, Ledger.TaskEnabled, Ledger.QueuesInv, Ledger.FateInv, Ledger.LinksInv, Ledger.CountsInv;
    assert n == s.hand.p.no;
  }

  lemma TaskKeepsMissed(s: State, e: Ledger.TaskStep, n: nat)
    requires Ledger.Inv(s) && Ledger.TaskEnabled(s, e) && n < |s.fate| && s.fate[n].Missed?
    ensures n < |Ledger.ApplyTask(s, e).fate| && Ledger.ApplyTask(s, e).fate[n].Missed?
  {
    Ledger.TaskStepIsLater(s, e);
    hide Ledger.ApplyTask, Ledger.TaskEnabled, Ledger.Inv;
    assert Ledger.Final(s.fate[n]);
  }

  lemma TaskKeepsLost(s: State, e: Ledger.TaskStep, client: Addr, from: nat)
    requires Ledger.Inv(s) && Ledger.TaskEnabled(s, e) && AllMissed(s, client, from)
    ensures AllMissed(Ledger.ApplyTask(s, e), client, from)
  {
    var t := Ledger.ApplyTask(s, e);
    Losses.TaskSizes(s, e);
    hide Ledger.ApplyTask, Ledger.TaskEnabled, Ledger.Inv;
    forall n | from <= n < |t.fate| && t.arrivals[n].client == client ensures t.fate[n].InHand? || t.fate[n].Missed? {
      if s.fate[n].InHand? {
        TaskKeepsInHand(s, e, n);
      } else {
        TaskKeepsMissed(s, e, n);
      }
    }
  }

  lemma StepKeepsLost(s: State, e: Ledger.Event, client: Addr, from: nat)
    requires Inv(s) && Ledger.Enabled(s, e) && CutOff(s, client) && from <= |s.arrivals|
    requires AllMissed(s, client, from) && HandLost(s, client, from)
    ensures AllMissed(Ledger.Apply(s, e), client, from) && HandLost(Ledger.Apply(s, e), client, from)
  {
    InvIsLinked(s);
    StepKeepsCutOff(s, e, client);
    hide Ledger.Inv, Linked, CutOff, AllMissed, Mapped, Ledger.LoopEnabled, Ledger.TaskEnabled, Ledger.ApplyLoop,
      Ledger.ApplyTask;
    match e
    case Loop(ls) => LoopKeepsLost(s, ls, client, from);
    case Task(ks) =>
      TaskKeepsLost(s, ks, client, from);
      TaskKeepsHand(s, ks);
  }

  lemma TaskKeepsHand(s: State, e: Ledger.TaskStep)
    requires Ledger.TaskEnabled(s, e)
    ensures Ledger.ApplyTask(s, e).hand == s.hand
  {
    TaskHasEffect(s, e);
    Losses.TaskSizes(s, e);
    hide Ledger.ApplyTask;
  }

  lemma ArrivalsGrow(s: State, e: Ledger.Event)
    requires Ledger.Enabled(s, e) && |s.fate| == |s.arrivals|
    ensures |s.arrivals| <= |Ledger.Apply(s, e).arrivals|
  {
    Losses.Sizes(s, e);
    hide Ledger.Enabled, Ledger.Apply;
  }

  lemma SameLength(s: State, client: Addr, from: nat)
    requires AllMissed(s, client, from)
    ensures |s.fate| == |s.arrivals|
  {
  }

  lemma {:induction false} RunKeepsLost(s: State, es: seq<Ledger.Event>, client: Addr, from: nat)
    requires Inv(s) && CutOff(s, client) && from <= |s.arrivals| && Ledger.Run(s, es).Some?
    requires AllMissed(s, client, from) && HandLost(s, client, from)
    ensures AllMissed(Ledger.Run(s, es).value, client, from)
    decreases |es|
  {
    hide Inv, CutOff, AllMissed, HandLost, Ledger.Enabled, Ledger.Apply;
    if es != [] {
      StepKeepsInv(s, es[0]);
      StepKeepsCutOff(s, es[0], client);
      StepKeepsLost(s, es[0], client, from);
      SameLength(s, client, from);
      ArrivalsGrow(s, es[0]);
      RunKeepsLost(Ledger.Apply(s, es[0]), es[1..], client, from);
    }
  }

  // ------------------------------------------------------------------ a client that is not cut off can be served

  /**
   After `es` some datagram of the client waits in a queue, or was counted as dropped, of those after
   the first `from`.
   */
  ghost predicate Served(s: State, es: seq<Ledger.Event>, client: Addr, from: nat) {
    && Ledger.Run(s, es).Some?
    && var t := Ledger.Run(s, es).value;
       && |t.fate| == |t.arrivals|
       && exists n | from <= n < |t.arrivals| ::
            t.arrivals[n].client == client && (t.fate[n].Queued? || t.fate[n].Dropped?)
  }

  lemma Prepend(s: State, e: Ledger.Event, es: seq<Ledger.Event>, client: Addr, from: nat)
    requires Ledger.Enabled(s, e) && Served(Ledger.Apply(s, e), es, client, from)
    ensures Served(s, [e] + es, client, from)
  {
    hide Ledger.Run, Ledger.Enabled, Ledger.Apply;
    T.RunCons(s, e, es);
  }

  lemma {:induction false} FreshId(ids: set<nat>) returns (id: nat)
    ensures forall k | k in ids :: k < id
  {
    if ids == {} {
      id := 0;
    } else {
      var o :| o in ids;
      var rest := FreshId(ids - {o});
      id := if rest > o then rest else o + 1;
      forall k | k in ids ensures k < id {
        assert k == o || k in ids - {o};
      }
    }
  }

  /** The loop holds a datagram of the client, one of those after the first `from`. */
  predicate HasOne(s: State, client: Addr, from: nat) {
    Ledger.Holding(s.hand) && s.hand.p.client == client && s.hand.p.no >= from
  }

  lemma SendServes(s: State, client: Addr, from: nat) returns (es: seq<Ledger.Event>)
    requires Ledger.Inv(s) && s.hand.Sending? && HasOne(s, client, from)
    ensures Served(s, es, client, from)
  {
    hide Ledger.QueuesInv, Ledger.CountsInv, Ledger.LinksInv, Ledger.Run;
    var e := Ledger.Loop(Ledger.Sent);
    var n := s.hand.p.no;
    var t := Send(s, s.hand.p, s.hand.chan);
    assert t.fate[n].Queued? || t.fate[n].Dropped?;
    assert t.arrivals == s.arrivals && t.arrivals[n].client == client;
    es := [e];
    T.RunOne(s, e);
  }

  lemma FetchServes(s: State, client: Addr, from: nat) returns (es: seq<Ledger.Event>)
    requires Ledger.Inv(s) && s.hand.HasId? && s.hand.id in s.pendingById && HasOne(s, client, from)
    ensures Served(s, es, client, from)
  {
    hide Ledger.Inv, Served;
    var e := Ledger.Loop(Ledger.Fetched);
    NextIsEnabled(s, Ledger.Fetched);
    Ledger.StepKeepsInv(s, e);
    var t := s.(hand := Sending(s.hand.p, s.hand.id));
    assert Ledger.Enabled(s, e) && Ledger.Apply(s, e) == t;
    assert HasOne(t, client, from);
    hide Ledger.Enabled, Ledger.Apply, HasOne;
    var more := SendServes(t, client, from);
    Prepend(s, e, more, client, from);
    es := [e] + more;
  }

  lemma LookupServes(s: State, client: Addr, from: nat) returns (es: seq<Ledger.Event>)
    requires Ledger.Inv(s) && s.hand.NoSession? && HasOne(s, client, from)
    requires client in s.pendingClient ==> s.pendingClient[client] in s.pendingById
    ensures Served(s, es, client, from)
  {
    hide Ledger.Inv, Served;
    var e := Ledger.Loop(Ledger.LookedUp);
    NextIsEnabled(s, Ledger.LookedUp);
    Ledger.StepKeepsInv(s, e);
    var t := LookupClient(s, s.hand.p);
    assert Ledger.Enabled(s, e) && Ledger.Apply(s, e) == t;
    assert HasOne(t, client, from);
    assert t.pendingById == s.pendingById;
    assert if client in s.pendingClient then t.hand.HasId? && t.hand.id == s.pendingClient[client]
      else t.hand.NoPending?;
    hide Ledger.Enabled, Ledger.Apply, LookupClient, HasOne;
    var more;
    if client in s.pendingClient {
      more := FetchServes(t, client, from);
    } else {
      more := LimitServes(t, client, from);
    }
    Prepend(s, e, more, client, from);
    es := [e] + more;
  }

  lemma LimitServes(s: State, client: Addr, from: nat) returns (es: seq<Ledger.Event>)
    requires Ledger.Inv(s) && s.hand.NoPending? && HasOne(s, client, from)
    ensures Served(s, es, client, from)
  {
    hide Ledger.QueuesInv, Ledger.CountsInv, Ledger.LinksInv, Ledger.Run;
    var e := Ledger.Loop(Ledger.LimitChecked);
    NextIsEnabled(s, Ledger.LimitChecked);
    Ledger.StepKeepsInv(s, e);
    var n := s.hand.p.no;
    var t := CheckLimit(s, s.hand.p);
    T.RunOne(s, e);
    if t.hand.Opening? {
      hide Served, Ledger.Inv;
      var more := OpenServes(t, client, from);
      Prepend(s, e, more, client, from);
      es := [e] + more;
    } else {
      assert t.fate[n] == Dropped && t.arrivals[n].client == client;
      es := [e];
    }
  }

  lemma OpenServes(s: State, client: Addr, from: nat) returns (es: seq<Ledger.Event>)
    requires Ledger.Inv(s) && s.hand.Opening? && HasOne(s, client, from)
    ensures Served(s, es, client, from)
  {
    hide Ledger.QueuesInv, Ledger.CountsInv, Ledger.LinksInv, Ledger.Run;
    var id := FreshId(s.queues.Keys);
    var e := Ledger.Loop(Ledger.Opened(id));
    NextIsEnabled(s, Ledger.Opened(id));
    var n := s.hand.p.no;
    var t := Open(s, s.hand.p, id);
    assert t.fate[n] == Queued(id) && t.arrivals[n].client == client;
    es := [e];
    T.RunOne(s, e);
  }

  /** The next datagram of a client with a session, with a pending entry, or with neither. */
  lemma ArrivalServes(s: State, client: Addr) returns (es: seq<Ledger.Event>)
    requires Ledger.Inv(s) && s.hand.Idle?
    requires client in s.sessions || (client in s.pendingClient ==> s.pendingClient[client] in s.pendingById)
    ensures Served(s, es, client, |s.arrivals|)
  {
    hide Ledger.Inv, Served;
    var e := Ledger.Loop(Ledger.Received(client, []));
    SameCounts(s);
    Ledger.StepKeepsInv(s, e);
    var t := Receive(s, client, []);
    var more;
    if client in s.sessions {
      more := SendServes(t, client, |s.arrivals|);
    } else {
      more := LookupServes(t, client, |s.arrivals|);
    }
    Prepend(s, e, more, client, |s.arrivals|);
    es := [e] + more;
  }

  lemma SameCounts(s: State)
    requires Ledger.Inv(s)
    ensures |s.fate| == |s.arrivals|
  {
    hide Ledger.QueuesInv, Ledger.HandInv, Ledger.LinksInv, Ledger.CountsInv;
  }

  /**
   The hand is empty and the client is not stuck: its next datagram finds its way, once a removal under
   way has cleared it.
   */
  lemma UnstuckServes(s: State, client: Addr) returns (es: seq<Ledger.Event>)
    requires Inv(s) && s.hand.Idle? && client !in s.sessions && !Stuck(s, client)
    ensures Served(s, es, client, |s.arrivals|)
  {
    hide Served, MapInv, Ledger.Inv;
    if client !in s.pendingClient || s.pendingClient[client] in s.pendingById {
      es := ArrivalServes(s, client);
    } else {
      var id := s.pendingClient[client];
      ClearFrees(s, client);
      var e := Ledger.Task(Ledger.ClientCleared(id));
      StepKeepsInv(s, e);
      assert Ledger.Apply(s, e) == ClearClient(s, id);
      hide Stuck, Ledger.Apply, ClearClient;
      var more := ArrivalServes(ClearClient(s, id), client);
      Prepend(s, e, more, client, |s.arrivals|);
      es := [e] + more;
    }
  }

  lemma ClearFrees(s: State, client: Addr)
    requires Ledger.Inv(s) && s.hand.Idle? && !Stuck(s, client)
    requires client in s.pendingClient && s.pendingClient[client] !in s.pendingById
    ensures
      var id := s.pendingClient[client];
      && Ledger.TaskEnabled(s, Ledger.ClientCleared(id)) && client !in ClearClient(s, id).pendingClient
      && ClearClient(s, id).hand == s.hand && ClearClient(s, id).sessions == s.sessions
         && ClearClient(s, id).arrivals == s.arrivals
  {
    hide Ledger.QueuesInv, Ledger.HandInv, Ledger.CountsInv;
  }

  /** A work connection that has taken an entry of the client makes a session of it. */
  lemma RemovalServes(s: State, id: nat) returns (es: seq<Ledger.Event>)
    requires Inv(s) && s.hand.Idle? && id in s.removals && id in s.queues && s.removals[id].purpose == Serve
    ensures Served(s, es, s.queues[id].client, |s.arrivals|)
    decreases s.removals[id].Removed?
  {
    hide Served, MapInv, Ledger.Inv;
    SameCounts(s);
    var client := s.queues[id].client;
    if s.removals[id].Removed? {
      var e := Ledger.Task(Ledger.ClientCleared(id));
      StepKeepsInv(s, e);
      var more := RemovalServes(ClearClient(s, id), id);
      Prepend(s, e, more, client, |s.arrivals|);
      es := [e] + more;
    } else {
      var e := Ledger.Task(Ledger.RemovalFinished(id));
      StepKeepsInv(s, e);
      var more := ArrivalServes(FinishRemoval(s, id), client);
      Prepend(s, e, more, client, |s.arrivals|);
      es := [e] + more;
    }
  }

  lemma IdleServes(s: State, client: Addr) returns (es: seq<Ledger.Event>)
    requires Inv(s) && s.hand.Idle? && !CutOff(s, client)
    ensures Served(s, es, client, |s.arrivals|)
  {
    hide Ledger.Run, Served, Ledger.Inv, MapInv, Stuck;
    if client in s.sessions {
      es := ArrivalServes(s, client);
    } else if !Stuck(s, client) {
      es := UnstuckServes(s, client);
    } else {
      var id :| id in s.removals && id in s.queues && s.queues[id].client == client && s.removals[id].purpose == Serve;
      es := RemovalServes(s, id);
    }
  }

  function StepsLeft(hand: Hand): nat {
    match hand
    case Idle => 0
    case NoSession(_) => 4
    case HasId(_, _) => 2
    case Sending(_, _) => 1
    case NoPending(_) => 3
    case Opening(_) => 2
    case Unindexed(_, _) => 1
  }

  /** What the loop does next with what it has in hand. */
  function Next(s: State, unused: nat): Ledger.LoopStep
    requires !s.hand.Idle?
  {
    match s.hand
    case NoSession(_) => Ledger.LookedUp
    case HasId(_, _) => Ledger.Fetched
    case Sending(_, _) => Ledger.Sent
    case NoPending(_) => Ledger.LimitChecked
    case Opening(_) => Ledger.Opened(unused)
    case Unindexed(_, _) => Ledger.Indexed
  }

  lemma NextProgresses(s: State, unused: nat)
    requires !s.hand.Idle? && Ledger.LoopEnabled(s, Next(s, unused))
    ensures
      var t := Ledger.ApplyLoop(s, Next(s, unused));
      StepsLeft(t.hand) < StepsLeft(s.hand) && t.arrivals == s.arrivals
  {
    var e := Next(s, unused);
    LoopMovesTables(s, e);
    LoopHand(s, e);
    Losses.LoopSizes(s, e);
    hide Ledger.ApplyLoop, SameTables;
  }

  /** The loop can go on, which cuts nobody off. */
  lemma LoopGoesOn(s: State, client: Addr) returns (e: Ledger.LoopStep)
    requires Inv(s) && !s.hand.Idle? && !CutOff(s, client)
    ensures Ledger.LoopEnabled(s, e)
    ensures
      var t := Ledger.ApplyLoop(s, e);
      StepsLeft(t.hand) < StepsLeft(s.hand) && !CutOff(t, client) && t.arrivals == s.arrivals
  {
    var id := FreshId(s.queues.Keys);
    e := Next(s, id);
    NextIsEnabled(s, e);
    InvIsLinked(s);
    hide Ledger.Inv, MapInv, Linked, Stuck, Unserved, Ledger.ApplyLoop, Ledger.LoopEnabled;
    NextProgresses(s, id);
    LoopSticksNone(s, e, client);
    LoopKeepsUnserved(s, e, client);
  }

  lemma NextIsEnabled(s: State, e: Ledger.LoopStep)
    requires Ledger.Inv(s) && !e.Received? && !e.SessionsSwept?
    requires e.LookedUp? ==> s.hand.NoSession?
    requires e.Fetched? ==> s.hand.HasId?
    requires e.Sent? ==> s.hand.Sending?
    requires e.LimitChecked? ==> s.hand.NoPending?
    requires e.Opened? ==> s.hand.Opening? && e.id !in s.queues
    requires e.Indexed? ==> s.hand.Unindexed?
    ensures Ledger.LoopEnabled(s, e)
  {
    hide Ledger.QueuesInv, Ledger.LinksInv, Ledger.CountsInv;
  }

  lemma {:induction false} CanBeServed(s: State, client: Addr) returns (es: seq<Ledger.Event>)
    requires Inv(s) && !CutOff(s, client)
    ensures Served(s, es, client, |s.arrivals|)
    decreases StepsLeft(s.hand)
  {
    hide Ledger.Run, Served, CutOff, Ledger.ApplyLoop, Ledger.LoopEnabled;
    if s.hand.Idle? {
      es := IdleServes(s, client);
    } else {
      var ls := LoopGoesOn(s, client);
      var e := Ledger.Loop(ls);
      StepKeepsInv(s, e);
      var more := CanBeServed(Ledger.ApplyLoop(s, ls), client);
      Prepend(s, e, more, client, |s.arrivals|);
      es := [e] + more;
    }
  }

  // ------------------------------------------------------------------ exactly who is cut off

  /** Every datagram of the client that comes from now on is missed, or still in hand. */
  ghost predicate NeverServed(s: State, client: Addr) {
    forall es | Ledger.Run(s, es).Some? :: AllMissed(Ledger.Run(s, es).value, client, |s.arrivals|)
  }

  /**
   Exactly who is cut off for good. In every reachable state, all later datagrams of a client are missed
   on every continuation if and only if the client is stuck with no session and no work connection about
   to make one; for everybody else some continuation queues one, or at least counts it as dropped.
   */
  lemma CutOffExactly(s: State, client: Addr)
    requires Ledger.Reachable(s)
    ensures CutOff(s, client) <==> NeverServed(s, client)
  {
    hide Ledger.Run, Ledger.Reachable, CutOff, Ledger.Inv, MapInv;
    ReachableInv(s);
    if CutOff(s, client) {
      InvIsLinked(s);
      NoneYet(s, client);
      forall es | Ledger.Run(s, es).Some? ensures AllMissed(Ledger.Run(s, es).value, client, |s.arrivals|) {
        RunKeepsLost(s, es, client, |s.arrivals|);
      }
    } else {
      var es := CanBeServed(s, client);
      assert !AllMissed(Ledger.Run(s, es).value, client, |s.arrivals|);
    }
  }

  lemma NoneYet(s: State, client: Addr)
    requires Ledger.Inv(s)
    ensures AllMissed(s, client, |s.arrivals|) && HandLost(s, client, |s.arrivals|)
  {
    hide Ledger.QueuesInv, Ledger.LinksInv, Ledger.CountsInv;
  }

  /** A work connection that names the id before it is asked for: when it ends, its client is cut off. */
  lemma EarlyConnectionCutsOff(client: Addr, id: nat)
    ensures exists s :: Ledger.Reachable(s) && s.hand.Idle? && CutOff(s, client)
  {
    var p := Packet(0, client, []);
    var s0 := Receive(Init(), client, []);
    var s1 := LookupClient(s0, p);
    var s2 := CheckLimit(s1, p);
    var s3 := Open(s2, p, id);
    OpenedFirst(client, id);
    var early := [Ledger.Task(Ledger.EntryRemoved(id, Serve)), Ledger.Task(Ledger.ClientCleared(id)),
                  Ledger.Task(Ledger.RemovalFinished(id)), Ledger.Loop(Ledger.Indexed),
                    Ledger.Task(Ledger.Unpaired(id))];
    var s8 := ServedEarly(s3, client, id, early);
    var first := [Ledger.Loop(Ledger.Received(client, [])), Ledger.Loop(Ledger.LookedUp),
      Ledger.Loop(Ledger.LimitChecked), Ledger.Loop(Ledger.Opened(id))];
    hide Ledger.Run, Receive, LookupClient, CheckLimit, Open;
    T.RunAppend(Init(), first, early);
    assert Ledger.Run(Init(), first + early) == Some(s8);
  }

  lemma OpenedFirst(client: Addr, id: nat)
    ensures
      var p := Packet(0, client, []);
      var s := Open(CheckLimit(LookupClient(Receive(Init(), client, []), p), p), p, id);
      && Ledger.Run(Init(), [Ledger.Loop(Ledger.Received(client, [])), Ledger.Loop(Ledger.LookedUp),
         Ledger.Loop(Ledger.LimitChecked),
                             Ledger.Loop(Ledger.Opened(id))]) == Some(s)
      && s.hand == Unindexed(client, id) && s.pendingById == map[id := PendingUdp(client, 0)]
         && s.pendingClient == map[]
      && s.sessions == map[] && s.removals == map[] && s.queues == map[id := Queue(client, 0, [p], [], [], Waiting)]
      && |s.fate| == |s.arrivals|
  {
    hide Ledger.Run;
    var p := Packet(0, client, []);
    var e0, e1, e2, e3 :=
      Ledger.Loop(Ledger.Received(client, [])), Ledger.Loop(Ledger.LookedUp), Ledger.Loop(Ledger.LimitChecked),
        Ledger.Loop(Ledger.Opened(id));
    assert |Init().pendingById| == 0;
    T.RunOne(Init(), e0);
    T.RunThen(Init(), [e0], e1);
    T.RunThen(Init(), [e0] + [e1], e2);
    T.RunThen(Init(), [e0] + [e1] + [e2], e3);
    assert [e0] + [e1] + [e2] + [e3] == [e0, e1, e2, e3];
  }

  lemma ServedEarly(s: State, client: Addr, id: nat, es: seq<Ledger.Event>) returns (t: State)
    requires es == [Ledger.Task(Ledger.EntryRemoved(id, Serve)), Ledger.Task(Ledger.ClientCleared(id)),
                    Ledger.Task(Ledger.RemovalFinished(id)), Ledger.Loop(Ledger.Indexed),
                      Ledger.Task(Ledger.Unpaired(id))]
    requires s.hand == Unindexed(client, id) && s.pendingById.Keys == {id} && s.pendingClient == map[]
    requires s.sessions == map[] && s.removals == map[] && |s.fate| == |s.arrivals|
    requires s.queues.Keys == {id} && s.queues[id].client == client && s.queues[id].phase == Waiting
    ensures Ledger.Run(s, es) == Some(t) && t.hand.Idle? && CutOff(t, client)
  {
    hide Ledger.Run;
    var t0 := Remove(s, id, Serve);
    var t1 := ClearClient(t0, id);
    var t2 := FinishRemoval(t1, id);
    var t3 := IndexClient(t2, client, id);
    t := Unpair(t3, id);
    T.RunOne(s, es[0]);
    T.RunThen(s, [es[0]], es[1]);
    T.RunThen(s, [es[0]] + [es[1]], es[2]);
    T.RunThen(s, [es[0]] + [es[1]] + [es[2]], es[3]);
    T.RunThen(s, [es[0]] + [es[1]] + [es[2]] + [es[3]], es[4]);
    assert [es[0]] + [es[1]] + [es[2]] + [es[3]] + [es[4]] == es;
    assert t.removals == map[] && t.pendingClient == map[client := id] && t.sessions == map[] && t.pendingById == map[];
  }
}
