/**
 Which steps lose a datagram: exactly when one is counted as dropped, missed, or discarded with its
 queue, under every interleaving and for whole handlers.
 */
module UdpLosses {
  import opened Bytes
  import opened Wrappers
  import opened UdpSections
  import Ledger = UdpLedger
  import T = UdpTables

  /** Lost without being counted. */
  predicate Uncounted(place: Place) {
    place.Missed? || place.Discarded?
  }

  // ------------------------------------------------------------------ one lock-sized step

  /** The receive loop looks for the sender of an entry that is gone. */
  predicate Misses(s: State, e: Ledger.Event, n: nat) {
    e == Ledger.Loop(Ledger.Fetched) && s.hand.HasId? && s.hand.p.no == n && s.hand.id !in s.pendingById
  }

  /** Queue `c` is dropped with what it holds, by its work connection or with its pending entry, or a write fails. */
  predicate Discards(s: State, e: Ledger.Event, n: nat, c: nat)
    requires n < |s.fate|
  {
    || ((s.fate[n] == Queued(c) || s.fate[n] == InBatch(c))
        && (|| e == Ledger.Task(Ledger.ReceiverDropped(c))
            || (e == Ledger.Task(Ledger.RemovalFinished(c)) && c in s.removals && s.removals[c].purpose == Discard)))
    || (s.fate[n] == InBatch(c) && e == Ledger.Task(Ledger.BatchWritten(c, false)))
  }

  /** The queue is full or closed, or too many clients are waiting. */
  predicate Drops(s: State, e: Ledger.Event, n: nat) {
    || (e == Ledger.Loop(Ledger.Sent) && s.hand.Sending? && s.hand.p.no == n
        && s.hand.chan in s.queues && !Accepts(s.queues[s.hand.chan]))
    || (e == Ledger.Loop(Ledger.LimitChecked) && s.hand.NoPending? && s.hand.p.no == n
        && |s.pendingById| >= MAX_PENDING_UDP_SESSIONS)
  }

  ghost predicate LossIs(s: State, e: Ledger.Event, t: State, n: nat)
    requires n < |s.fate|
  {
    && n < |t.fate|
    && (t.fate[n].Missed? <==> Misses(s, e, n)) && (Misses(s, e, n) ==> t.fate[n] == Missed(s.hand.id))
    && (forall c :: t.fate[n] == Discarded(c) <==> Discards(s, e, n, c))
    && (t.fate[n].Dropped? <==> Drops(s, e, n))
    && t.dropped == if Drops(s, e, n) then s.dropped + 1 else if Uncounted(t.fate[n]) then s.dropped else t.dropped
  }

  lemma LoopDiscardsNone(s: State, e: Ledger.LoopStep, n: nat)
    requires n < |s.fate|
    ensures forall c :: !Discards(s, Ledger.Loop(e), n, c)
  {
  }

  /** The loop misses or drops exactly the datagram that it settles so. */
  lemma SettlingIsLoss(s: State, e: Ledger.LoopStep, n: nat)
    requires Ledger.LoopEnabled(s, e)
    ensures Misses(s, Ledger.Loop(e), n) <==>
              && Ledger.Settling(s, e).Some? && Ledger.Holding(s.hand) && s.hand.p.no == n
              && Ledger.Settling(s, e).value.Missed?
    ensures Drops(s, Ledger.Loop(e), n) <==>
              && Ledger.Settling(s, e).Some? && Ledger.Holding(s.hand) && s.hand.p.no == n
              && Ledger.Settling(s, e).value.Dropped?
    ensures Ledger.Settling(s, e).Some? && Ledger.Settling(s, e).value.Missed? ==>
              s.hand.HasId? && Ledger.Settling(s, e).value == Missed(s.hand.id)
    ensures Ledger.Settling(s, e).Some? ==> !Ledger.Settling(s, e).value.Discarded?
  {
  }

  /** A datagram that was not settled, or settled at `x`. */
  lemma LossOf(s: State, e: Ledger.Event, t: State, n: nat, x: Option<Place>)
    requires n < |s.fate| && n < |t.fate| && !Ledger.Final(s.fate[n])
    requires t.fate[n] == if x.Some? then x.value else s.fate[n]
    requires x.Some? ==> !x.value.Discarded? && (x.value.Missed? ==> s.hand.HasId? && x.value == Missed(s.hand.id))
    requires Misses(s, e, n) <==> x.Some? && x.value.Missed?
    requires Drops(s, e, n) <==> x.Some? && x.value.Dropped?
    requires forall c :: !Discards(s, e, n, c)
    requires x.Some? ==> t.dropped == s.dropped + (if x.value.Dropped? then 1 else 0)
    ensures LossIs(s, e, t, n)
  {
    hide Misses, Discards, Drops;
    forall c ensures t.fate[n] != Discarded(c) { }
  }

  lemma LoopLossIs(s: State, e: Ledger.LoopStep, n: nat)
    requires Ledger.Inv(s) && Ledger.LoopEnabled(s, e) && n < |s.fate| && !Ledger.Final(s.fate[n])
    ensures LossIs(s, Ledger.Loop(e), Ledger.ApplyLoop(s, e), n)
  {
    HandIsLast(s);
    Ledger.LoopSettles(s, e);
    LoopDiscardsNone(s, e, n);
    SettlingIsLoss(s, e, n);
    hide Ledger.Inv, Ledger.LoopEnabled, Ledger.ApplyLoop, Misses, Discards, Drops, Ledger.Settling, LossIs;
    var mine := Ledger.Settling(s, e).Some? && s.hand.p.no == n;
    LossOf(s, Ledger.Loop(e), Ledger.ApplyLoop(s, e), n, if mine then Ledger.Settling(s, e) else None);
  }

  lemma HandIsLast(s: State)
    requires Ledger.Inv(s)
    ensures Ledger.Holding(s.hand) ==> s.hand.p.no == |s.fate| - 1 && s.fate[s.hand.p.no] == InHand
  {
    hide Ledger.QueuesInv, Ledger.LinksInv, Ledger.CountsInv;
  }

  lemma TakeLosesNone(s: State, id: nat, k: nat, n: nat)
    requires Ledger.TaskEnabled(s, Ledger.BatchTaken(id, k)) && Ledger.Inv(s) && n < |s.fate|
             && !Ledger.Final(s.fate[n])
    ensures LossIs(s, Ledger.Task(Ledger.BatchTaken(id, k)), Ledger.ApplyTask(s, Ledger.BatchTaken(id, k)), n)
  {
    hide Ledger.Inv;
  }

  lemma TaskLossIs(s: State, e: Ledger.TaskStep, n: nat)
    requires Ledger.Inv(s) && Ledger.TaskEnabled(s, e) && n < |s.fate| && !Ledger.Final(s.fate[n])
    ensures LossIs(s, Ledger.Task(e), Ledger.ApplyTask(s, e), n)
  {
    hide Ledger.Inv;
    if e.BatchTaken? {
      TakeLosesNone(s, e.id, e.n, n);
    }
  }

  lemma StepLossIs(s: State, e: Ledger.Event, n: nat)
    requires Ledger.Inv(s) && Ledger.Enabled(s, e) && n < |s.fate| && !Ledger.Final(s.fate[n])
    ensures LossIs(s, e, Ledger.Apply(s, e), n)
  {
    hide Ledger.Inv, LossIs, Ledger.LoopEnabled, Ledger.TaskEnabled, Ledger.ApplyLoop, Ledger.ApplyTask;
    match e
    case Loop(ls) => LoopLossIs(s, ls, n);
    case Task(ks) => TaskLossIs(s, ks, n);
  }

  /**
   Exactly when a datagram is lost, on every interleaving. It is missed if and only if the receive loop
   looks for the sender of an entry that is gone; discarded if and only if the queue or batch it is in
   is dropped or cannot be written; dropped if and only if its queue is full or closed or too many
   clients wait. Only the last kind is counted.
   */
  lemma LostExactly(s: State, e: Ledger.Event, n: nat)
    requires Ledger.Reachable(s) && Ledger.Enabled(s, e) && n < |s.fate| && !Ledger.Final(s.fate[n])
    ensures
      var t := Ledger.Apply(s, e);
      && n < |t.fate|
      && (t.fate[n].Missed? <==> Misses(s, e, n))
      && (forall c :: t.fate[n] == Discarded(c) <==> Discards(s, e, n, c))
      && (t.fate[n].Dropped? <==> Drops(s, e, n))
      && (t.fate[n].Dropped? ==> t.dropped == s.dropped + 1) && (Uncounted(t.fate[n]) ==> t.dropped == s.dropped)
  {
    hide Ledger.Inv, Ledger.Reachable, Ledger.Enabled, Ledger.Apply, Misses, Discards, Drops;
    Ledger.ReachableInv(s);
    StepLossIs(s, e, n);
  }

  // ------------------------------------------------------------------ what an uncounted loss leaves behind

  /** The removal of the entry has begun. */
  predicate Leaving(s: State, id: nat) {
    id in s.queues && (s.queues[id].phase != Waiting || id in s.removals)
  }

  predicate Ended(s: State, id: nat) {
    id in s.queues && s.queues[id].phase in {Stopping, Closed}
  }

  predicate Explained(s: State, p: Packet, place: Place) {
    match place
    case Missed(id) => Leaving(s, id) && s.queues[id].client == p.client
    case Discarded(c) => Ended(s, c) && s.queues[c].client == p.client
    case _ => true
  }

  ghost predicate AllExplained(s: State) {
    |s.fate| == |s.arrivals| && forall n | 0 <= n < |s.fate| :: Explained(s, s.arrivals[n], s.fate[n])
  }

  ghost predicate GoesOn(s: State, t: State, c: nat)
    requires c in s.queues
  {
    && c in t.queues && t.queues[c].client == s.queues[c].client
    && (Leaving(s, c) ==> Leaving(t, c)) && (Ended(s, c) ==> Ended(t, c))
  }

  lemma LoopGoesOn(s: State, e: Ledger.LoopStep, c: nat)
    requires Ledger.LoopEnabled(s, e) && c in s.queues
    ensures GoesOn(s, Ledger.ApplyLoop(s, e), c)
  {
    var t := Ledger.ApplyLoop(s, e);
    assert t.removals == s.removals;
    assert c in t.queues && t.queues[c].client == s.queues[c].client && t.queues[c].phase == s.queues[c].phase;
  }

  lemma FinishGoesOn(s: State, id: nat, c: nat)
    requires Ledger.LinksInv(s.sessions, s.pendingById, s.pendingClient, s.removals, s.queues)
    requires Ledger.TaskEnabled(s, Ledger.RemovalFinished(id)) && c in s.queues
    ensures GoesOn(s, FinishRemoval(s, id), c)
  {
    assert s.queues[id].phase == Waiting;
  }

  lemma TaskGoesOn(s: State, e: Ledger.TaskStep, c: nat)
    requires Ledger.LinksInv(s.sessions, s.pendingById, s.pendingClient, s.removals, s.queues)
    requires Ledger.TaskEnabled(s, e) && c in s.queues
    ensures GoesOn(s, Ledger.ApplyTask(s, e), c)
  {
    if e.RemovalFinished? {
      FinishGoesOn(s, e.id, c);
    } else {
      hide Ledger.LinksInv;
    }
  }

  /** A queue keeps its client, never waits again and never comes back. */
  lemma QueuesGoOn(s: State, e: Ledger.Event, c: nat)
    requires Ledger.Inv(s) && Ledger.Enabled(s, e) && c in s.queues
    ensures GoesOn(s, Ledger.Apply(s, e), c)
  {
    hide Ledger.LoopEnabled, Ledger.TaskEnabled, Ledger.ApplyLoop, Ledger.ApplyTask, GoesOn;
    hide Ledger.LinksInv, Ledger.QueuesInv, Ledger.FateInv, Ledger.HandInv, Ledger.CountsInv;
    match e
    case Loop(ls) => LoopGoesOn(s, ls, c);
    case Task(ks) => TaskGoesOn(s, ks, c);
  }

  lemma StaysExplained(s: State, e: Ledger.Event, p: Packet, place: Place)
    requires Ledger.Inv(s) && Ledger.Enabled(s, e) && Explained(s, p, place)
    ensures Explained(Ledger.Apply(s, e), p, place)
  {
    hide Ledger.Inv, Ledger.Enabled, Ledger.Apply, Leaving, Ended;
    match place
    case Missed(id) => LeavingIsQueue(s, id); QueuesGoOn(s, e, id);
    case Discarded(c) => EndedIsQueue(s, c); QueuesGoOn(s, e, c);
    case _ =>
  }

  lemma LeavingIsQueue(s: State, id: nat)
    requires Leaving(s, id)
    ensures id in s.queues
  {
  }

  lemma EndedIsQueue(s: State, id: nat)
    requires Ended(s, id)
    ensures id in s.queues
  {
  }

  lemma MissedIsExplained(s: State, e: Ledger.Event, n: nat)
    requires Ledger.Inv(s) && n < |s.fate| && Misses(s, e, n)
    ensures Explained(s, s.arrivals[n], Missed(s.hand.id))
  {
    hide Ledger.QueuesInv, Ledger.FateInv, Ledger.CountsInv;
  }

  /** What is in a queue is from its client. */
  lemma InQueueOfClient(s: State, n: nat, c: nat)
    requires Ledger.QueuesInv(s.queues, s.arrivals, s.fate) && Ledger.FateInv(s.queues, s.arrivals, s.fate)
    requires n < |s.fate| && s.fate[n] in {Queued(c), InBatch(c)}
    ensures c in s.queues && s.queues[c].client == s.arrivals[n].client
  {
    assert Ledger.Held(s.queues, s.arrivals[n], s.fate[n]);
    assert Ledger.QueueOk(s.arrivals, s.fate, c, s.queues[c]);
    hide Ledger.QueuesInv, Ledger.Increasing, Ledger.Before, Ledger.StartsWithOpener;
  }

  lemma DiscardEnds(s: State, e: Ledger.Event, n: nat, c: nat)
    requires Ledger.Enabled(s, e) && n < |s.fate| && Discards(s, e, n, c) && c in s.queues
    ensures Ended(Ledger.Apply(s, e), c) && Ledger.Apply(s, e).queues[c].client == s.queues[c].client
  {
    hide Ledger.ApplyLoop, Ledger.LoopEnabled;
  }

  lemma DiscardedIsExplained(s: State, e: Ledger.Event, n: nat, c: nat)
    requires Ledger.Inv(s) && Ledger.Enabled(s, e) && n < |s.fate| && Discards(s, e, n, c)
    ensures Explained(Ledger.Apply(s, e), s.arrivals[n], Discarded(c))
  {
    hide Ledger.QueuesInv, Ledger.HandInv, Ledger.CountsInv, Ledger.LinksInv, Ledger.Apply, Ledger.Enabled, Ended;
    InQueueOfClient(s, n, c);
    DiscardEnds(s, e, n, c);
  }

  lemma StepKeepsExplained(s: State, e: Ledger.Event)
    requires Ledger.Inv(s) && Ledger.Enabled(s, e) && AllExplained(s)
    ensures AllExplained(Ledger.Apply(s, e))
  {
    hide Ledger.Inv, Ledger.Enabled, Ledger.Apply, Explained;
    var t := Ledger.Apply(s, e);
    Sizes(s, e);
    forall n | 0 <= n < |t.fate| ensures Explained(t, t.arrivals[n], t.fate[n]) {
      if n < |s.fate| {
        ExplainedAfter(s, e, n);
      } else {
        Unexciting(t, t.arrivals[n], t.fate[n]);
      }
    }
  }

  lemma Unexciting(s: State, p: Packet, place: Place)
    requires !Uncounted(place)
    ensures Explained(s, p, place)
  {
  }

  /** Only an arrival extends the history, with a datagram in hand. */
  ghost predicate Extended(s: State, e: Ledger.Event, t: State) {
    && |t.fate| == |t.arrivals|
    && if e.Loop? && e.ls.Received?
       then t.fate == s.fate + [InHand] && t.arrivals == s.arrivals + [Packet(|s.arrivals|, e.ls.client, e.ls.data)]
       else |t.fate| == |s.fate| && t.arrivals == s.arrivals
  }

  lemma Sizes(s: State, e: Ledger.Event)
    requires Ledger.Enabled(s, e) && |s.fate| == |s.arrivals|
    ensures Extended(s, e, Ledger.Apply(s, e))
  {
    match e
    case Loop(ls) =>
      hide Ledger.TaskEnabled, Ledger.ApplyTask;
      LoopSizes(s, ls);
    case Task(ks) =>
      hide Ledger.LoopEnabled, Ledger.ApplyLoop;
      TaskSizes(s, ks);
  }

  lemma LoopSizes(s: State, e: Ledger.LoopStep)
    requires Ledger.LoopEnabled(s, e) && |s.fate| == |s.arrivals|
    ensures Extended(s, Ledger.Loop(e), Ledger.ApplyLoop(s, e))
  {
    if e.Received? {
      hide Ledger.LoopEnabled;
      assert Receive(s, e.client, e.data).fate == s.fate + [InHand];
    } else {
      assert Ledger.ApplyLoop(s, e).arrivals == s.arrivals;
    }
  }

  lemma TaskSizes(s: State, e: Ledger.TaskStep)
    requires Ledger.TaskEnabled(s, e) && |s.fate| == |s.arrivals|
    ensures Extended(s, Ledger.Task(e), Ledger.ApplyTask(s, e))
  {
    assert Ledger.ApplyTask(s, e).arrivals == s.arrivals;
  }

  lemma ExplainedAfter(s: State, e: Ledger.Event, n: nat)
    requires Ledger.Inv(s) && Ledger.Enabled(s, e) && n < |s.fate| == |s.arrivals|
             && Explained(s, s.arrivals[n], s.fate[n])
    ensures
      var t := Ledger.Apply(s, e);
      n < |t.fate| && Explained(t, s.arrivals[n], t.fate[n])
  {
    var t := Ledger.Apply(s, e);
    if Ledger.Final(s.fate[n]) {
      StaysFinal(s, e, n);
      hide Ledger.Inv, Ledger.Enabled, Ledger.Apply, Explained;
      StaysExplained(s, e, s.arrivals[n], s.fate[n]);
    } else {
      hide Ledger.Inv, Ledger.Enabled, Ledger.Apply, Explained, Misses, Discards, Drops;
      StepLossIs(s, e, n);
      match t.fate[n]
      case Missed(id) =>
        MissedIsExplained(s, e, n);
        StaysExplained(s, e, s.arrivals[n], Missed(id));
      case Discarded(c) => DiscardedIsExplained(s, e, n, c);
      case _ => Unexciting(t, s.arrivals[n], t.fate[n]);
    }
  }

  lemma StaysFinal(s: State, e: Ledger.Event, n: nat)
    requires Ledger.Inv(s) && Ledger.Enabled(s, e) && n < |s.fate| && Ledger.Final(s.fate[n])
    ensures n < |Ledger.Apply(s, e).fate| && Ledger.Apply(s, e).fate[n] == s.fate[n]
  {
    hide Ledger.Inv, Ledger.ApplyLoop, Ledger.ApplyTask, Ledger.LoopEnabled, Ledger.TaskEnabled;
    match e
    case Loop(ls) => Ledger.LoopStepIsLater(s, ls);
    case Task(ks) => Ledger.TaskStepIsLater(s, ks);
  }

  lemma {:induction false} RunKeepsExplained(s: State, es: seq<Ledger.Event>)
    requires Ledger.Inv(s) && AllExplained(s) && Ledger.Run(s, es).Some?
    ensures AllExplained(Ledger.Run(s, es).value)
    decreases |es|
  {
    hide Ledger.Inv, AllExplained, Ledger.Apply, Ledger.Enabled;
    if es != [] {
      StepKeepsExplained(s, es[0]);
      Ledger.StepKeepsInv(s, es[0]);
      RunKeepsExplained(Ledger.Apply(s, es[0]), es[1..]);
    }
  }

  /**
   On every interleaving an uncounted loss has a cause that the tables still show: a missed datagram was
   looked up under an id of its own client whose entry somebody has taken, a discarded one was in a
   queue of its own client that has ended.
   */
  lemma LossesAreExplained(s: State, n: nat)
    requires Ledger.Reachable(s) && n < |s.fate|
    ensures |s.arrivals| == |s.fate|
    ensures
      match s.fate[n]
      case Missed(id) =>
        && id in s.queues && s.queues[id].client == s.arrivals[n].client && id !in s.pendingById
        && (s.queues[id].phase == Waiting ==> id in s.removals)
      case Discarded(c) =>
        c in s.queues && s.queues[c].client == s.arrivals[n].client && s.queues[c].phase in {Stopping, Closed}
      case _ => true
  {
    hide Ledger.Run, Ledger.QueuesInv, Ledger.FateInv, Ledger.HandInv, Ledger.CountsInv;
    var es :| Ledger.Run(Init(), es) == Some(s);
    Ledger.InitInv();
    assert Ledger.Inv(Init()) && AllExplained(Init());
    RunKeepsExplained(Init(), es);
    Ledger.ReachableInv(s);
    assert Explained(s, s.arrivals[n], s.fate[n]);
  }

  // ------------------------------------------------------------------ whole handlers

  /** A pending entry fails or is too old, a work connection ends, or a write fails. */
  predicate HandlerDiscards(s: State, h: T.Handler, n: nat, c: nat)
    requires n < |s.fate|
  {
    || (s.fate[n] == Queued(c) && c in s.pendingById
        && (h == T.Failed(c) || (h.Swept? && s.now - s.pendingById[c].created >= h.pendingTimeout)))
    || ((s.fate[n] == Queued(c) || s.fate[n] == InBatch(c)) && h == T.Finished(c))
    || (s.fate[n] == InBatch(c) && h == T.Moved(Ledger.BatchWritten(c, false)))
  }

  /** The batch of a queue that waits is empty. */
  lemma WaitingIsQueued(s: State, n: nat, c: nat)
    requires Ledger.Inv(s) && T.Settled(s) && n < |s.fate| && c in s.pendingById
    ensures s.fate[n] != InBatch(c)
  {
    hide Ledger.HandInv, Ledger.CountsInv, Ledger.LinksInv;
    assert Ledger.Held(s.queues, s.arrivals[n], s.fate[n]);
    assert Ledger.QueueOk(s.arrivals, s.fate, c, s.queues[c]);
  }

  lemma DropLosses(s: State, id: nat, n: nat)
    requires |s.fate| == |s.arrivals| && id in s.queues && n < |s.fate| && s.fate[n] != InBatch(id)
    ensures
      var t := DropQueue(s, id);
      && n < |t.fate| && t.dropped == s.dropped
      && t.fate[n] == if s.fate[n] == Queued(id) then Discarded(id) else s.fate[n]
  {
  }

  lemma RemovalLosses(s: State, id: nat, purpose: Purpose, n: nat)
    requires Ledger.Inv(s) && T.Settled(s) && n < |s.fate|
    ensures
      var t := T.RemovePending(s, id, purpose);
      && n < |t.fate| && t.dropped == s.dropped
      && t.fate[n] == if purpose == Discard && id in s.pendingById && s.fate[n] == Queued(id) then Discarded(id)
         else s.fate[n]
  {
    hide Ledger.Inv, T.TablesOk;
    if id in s.pendingById {
      hide T.RemovePending, DropQueue;
      if purpose == Serve {
        T.ServeOutcome(s, id);
      } else {
        WaitingIsQueued(s, n, id);
        T.DiscardOutcome(s, id);
        DropLosses(s.(pendingById := s.pendingById - {id},
                      pendingClient := s.pendingClient - {s.pendingById[id].client}), id, n);
      }
    }
  }

  lemma SweepLosses(s: State, sessionTimeout: nat, pendingTimeout: nat, n: nat)
    requires Ledger.Inv(s) && T.Settled(s) && n < |s.fate|
    ensures
      var t := T.Sweep(s, sessionTimeout, pendingTimeout);
      && n < |t.fate| && t.dropped == s.dropped
      && t.fate[n] == if s.fate[n].Queued? && s.fate[n].chan in T.Expired(s, pendingTimeout)
                      then Discarded(s.fate[n].chan) else s.fate[n]
  {
    if s.fate[n].InBatch? && s.fate[n].chan in s.pendingById {
      WaitingIsQueued(s, n, s.fate[n].chan);
    }
    hide Ledger.Inv;
  }

  lemma DatagramLosses(s: State, client: Addr, data: seq<byte>, id: nat, n: nat)
    requires Ledger.Inv(s) && T.Settled(s) && id !in s.queues && n < |s.fate|
    ensures
      var t := T.HandleDatagram(s, client, data, id);
      && |t.fate| == |s.fate| + 1 && t.fate[n] == s.fate[n] && !Uncounted(t.fate[|s.fate|])
  {
    hide Ledger.Inv, T.HandleDatagram, T.TablesOk;
    T.DatagramOutcome(s, client, data, id);
  }

  lemma CloseLosses(s: State, id: nat, n: nat)
    requires T.Settled(s) && id in s.queues && n < |s.fate|
    ensures
      var t := T.Close(s, id);
      && n < |t.fate| && t.dropped == s.dropped
      && t.fate[n] == if s.fate[n] in {Queued(id), InBatch(id)} then Discarded(id) else s.fate[n]
  {
  }

  lemma MoveLosses(s: State, e: Ledger.TaskStep, n: nat)
    requires Ledger.Inv(s) && T.InService(e) && Ledger.TaskEnabled(s, e) && n < |s.fate| && !Ledger.Final(s.fate[n])
    ensures
      var t := Ledger.ApplyTask(s, e);
      && n < |t.fate| && !t.fate[n].Missed? && t.dropped == s.dropped
      && forall c :: t.fate[n] == Discarded(c) <==> s.fate[n] == InBatch(c) && e == Ledger.BatchWritten(c, false)
  {
    hide Ledger.Inv, Ledger.ApplyTask, Ledger.TaskEnabled;
    TaskLossIs(s, e, n);
    MoveCounts(s, e);
  }

  lemma MoveCounts(s: State, e: Ledger.TaskStep)
    requires Ledger.TaskEnabled(s, e)
    ensures Ledger.ApplyTask(s, e).dropped == s.dropped
  {
  }

  /**
   Exactly when whole handlers lose a datagram uncounted: a received one never, a waiting one when its
   pending entry fails or is swept as too old, one in a session's queue when the work connection ends
   or cannot write it. None is ever missed.
   */
  lemma HandlersLoseExactly(s: State, h: T.Handler, n: nat)
    requires T.Reachable(s) && T.Enabled(s, h) && n < |s.fate| && !Ledger.Final(s.fate[n])
    ensures
      var t := T.Apply(s, h);
      && n < |t.fate| && !t.fate[n].Missed?
      && (forall c :: t.fate[n] == Discarded(c) <==> HandlerDiscards(s, h, n, c))
      && (t.fate[n].Discarded? ==> t.dropped == s.dropped)
      && (h.Datagram? ==> |t.fate| == |s.fate| + 1 && !Uncounted(t.fate[|s.fate|]))
  {
    hide Ledger.Inv, Ledger.Reachable, T.Settled, T.HandleDatagram, T.RemovePending, T.Sweep, T.Close, Ledger.ApplyTask;
    T.HandlersAreInterleavings(s);
    Ledger.ReachableInv(s);
    match h
    case Datagram(client, data, id) => DatagramLosses(s, client, data, id, n);
    case Failed(id) => RemovalLosses(s, id, Discard, n);
    case Connected(id) => RemovalLosses(s, id, Serve, n);
    case Swept(sessionTimeout, pendingTimeout) => SweepLosses(s, sessionTimeout, pendingTimeout, n);
    case Finished(id) => CloseLosses(s, id, n);
    case Moved(ks) => MoveLosses(s, ks, n);
  }

  lemma FirstWaits(client: Addr, data: seq<byte>, id: nat)
    ensures T.Enabled(Init(), T.Datagram(client, data, id))
    ensures
      var s := T.HandleDatagram(Init(), client, data, id);
      && s.fate == [Queued(id)] && s.arrivals == [Packet(0, client, data)] && s.dropped == 0 && s.sessions == map[]
      && s.pendingById == map[id := PendingUdp(client, 0)] && s.pendingClient == map[client := id]
      && s.queues.Keys == {id} && s.now == 0
  {
    assert |Init().pendingById| == 0;
  }

  /** A waiting client's datagram goes with its entry, uncounted, when no work connection comes in time. */
  lemma SweepLosesUncounted(client: Addr, data: seq<byte>, id: nat, sessionTimeout: nat, pendingTimeout: nat)
    ensures exists s :: T.Reachable(s) && s.fate == [Discarded(id)] && s.dropped == 0
  {
    hide T.HandleDatagram;
    FirstWaits(client, data, id);
    var s1 := T.HandleDatagram(Init(), client, data, id);
    var h1, h2, h3 := T.Datagram(client, data, id), T.Moved(Ledger.Ticked(pendingTimeout)),
      T.Swept(sessionTimeout, pendingTimeout);
    var s2 := s1.(now := pendingTimeout);
    var s3 := T.Sweep(s2, sessionTimeout, pendingTimeout);
    assert id in T.Expired(s2, pendingTimeout);
    assert s3.fate == [Discarded(id)] && s3.dropped == 0;
    assert T.Apply(Init(), h1) == s1;
    assert T.Enabled(s1, h2) && T.Apply(s1, h2) == s2;
    assert T.Enabled(s2, h3) && T.Apply(s2, h3) == s3;
    hide T.Apply, T.Enabled, T.Sweep;
    assert [h1, h2, h3][1..] == [h2, h3] && [h2, h3][1..] == [h3] && [h3][1..] == [];
    assert T.Run(s3, []) == Some(s3);
    assert T.Run(s2, [h3]) == Some(s3);
    assert T.Run(s1, [h2, h3]) == Some(s3);
    assert T.Run(Init(), [h1, h2, h3]) == Some(s3);
  }
}
