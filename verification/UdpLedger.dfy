/**
 The datagram ledger of a UDP proxy under every interleaving of the receive loop, the tasks that
 remove pending entries and the work connections.

 Work connections may present any id at any time; the only order imposed is each task's own.
 */
module UdpLedger {
  import opened Bytes
  import opened Wrappers
  import opened UdpSections
  import Maps

  /** Steps of the receive loop, which also runs the sweep. */
  datatype LoopStep =
    | Received(client: Addr, data: seq<byte>)
    | LookedUp
    | Fetched
    | Sent
    | LimitChecked
    | Opened(id: nat)
    | Indexed
    | SessionsSwept(timeout: nat)

  /** Steps of the other tasks. */
  datatype TaskStep =
    | EntryRemoved(id: nat, purpose: Purpose)
    | ClientCleared(id: nat)
    | RemovalFinished(id: nat)
    | BatchTaken(id: nat, n: nat)
    | BatchWritten(id: nat, ok: bool)
    | Replied(id: nat)
    | Unpaired(id: nat)
    | ReceiverDropped(id: nat)
    | Ticked(elapsed: nat)

  datatype Event = Loop(ls: LoopStep) | Task(ks: TaskStep)

  predicate LoopEnabled(s: State, e: LoopStep) {
    |s.fate| == |s.arrivals| &&
    match e
    case Received(_, _) => s.hand.Idle?
    case LookedUp => s.hand.NoSession?
    case Fetched => s.hand.HasId? && s.hand.p.no < |s.fate|
    case Sent => s.hand.Sending? && s.hand.p.no < |s.fate| && s.hand.chan in s.queues
    case LimitChecked => s.hand.NoPending? && s.hand.p.no < |s.fate|
    case Opened(id) => s.hand.Opening? && s.hand.p.no < |s.fate| && id !in s.queues
    case Indexed => s.hand.Unindexed?
    case SessionsSwept(_) => s.hand.Idle?
  }

  function ApplyLoop(s: State, e: LoopStep): State
    requires LoopEnabled(s, e)
  {
    match e
    case Received(client, data) => Receive(s, client, data)
    case LookedUp => LookupClient(s, s.hand.p)
    case Fetched => LookupPending(s, s.hand.p, s.hand.id)
    case Sent => Send(s, s.hand.p, s.hand.chan)
    case LimitChecked => CheckLimit(s, s.hand.p)
    case Opened(id) => Open(s, s.hand.p, id)
    case Indexed => IndexClient(s, s.hand.client, s.hand.id)
    case SessionsSwept(timeout) => SweepSessions(s, timeout)
  }

  predicate TaskEnabled(s: State, e: TaskStep) {
    |s.fate| == |s.arrivals| &&
    match e
    case ClientCleared(id) => id in s.queues && id in s.removals && s.removals[id].Removed?
    case RemovalFinished(id) => id in s.queues && id in s.removals && s.removals[id].Cleared?
    case BatchTaken(id, n) =>
      && id in s.queues && s.queues[id].phase == Serving && s.queues[id].batch == []
      && 1 <= n <= UDP_WRITE_BATCH && n <= |s.queues[id].items|
    case BatchWritten(id, _) => id in s.queues && s.queues[id].batch != [] && s.queues[id].phase == Serving
    case Replied(id) => id in s.queues && s.queues[id].phase == Serving
    case Unpaired(id) => id in s.queues && s.queues[id].phase in {Serving, Stopping}
    case ReceiverDropped(id) => id in s.queues && s.queues[id].phase == Stopping
    case _ => true
  }

  function ApplyTask(s: State, e: TaskStep): State
    requires TaskEnabled(s, e)
  {
    match e
    case EntryRemoved(id, purpose) => Remove(s, id, purpose)
    case ClientCleared(id) => ClearClient(s, id)
    case RemovalFinished(id) => FinishRemoval(s, id)
    case BatchTaken(id, n) => TakeBatch(s, id, n)
    case BatchWritten(id, ok) => WriteBatch(s, id, ok)
    case Replied(id) => Touch(s, s.queues[id].client)
    case Unpaired(id) => Unpair(s, id)
    case ReceiverDropped(id) => DropQueue(s, id)
    case Ticked(elapsed) => s.(now := s.now + elapsed)
  }

  predicate Enabled(s: State, e: Event) {
    match e case Loop(ls) => LoopEnabled(s, ls) case Task(ks) => TaskEnabled(s, ks)
  }

  function Apply(s: State, e: Event): State
    requires Enabled(s, e)
  {
    match e case Loop(ls) => ApplyLoop(s, ls) case Task(ks) => ApplyTask(s, ks)
  }

  // ------------------------------------------------------------------ invariant

  predicate Increasing(ps: seq<Packet>) {
    forall i, j | 0 <= i < j < |ps| :: ps[i].no < ps[j].no
  }

  predicate Before(ps: seq<Packet>, qs: seq<Packet>) {
    forall i, j | 0 <= i < |ps| && 0 <= j < |qs| :: ps[i].no < qs[j].no
  }

  /** Every packet of the list is an arrival of this client, and the ledger says it is at `place`. */
  predicate Located(arrivals: seq<Packet>, fate: seq<Place>, client: Addr, ps: seq<Packet>, place: Place) {
    forall i | 0 <= i < |ps| ::
      && ps[i].no < |arrivals| && ps[i].no < |fate|
      && arrivals[ps[i].no] == ps[i] && ps[i].client == client && fate[ps[i].no] == place
  }

  /** While nothing has been lost, what the queue has ever held starts with the datagram that opened it. */
  predicate StartsWithOpener(q: Queue) {
    && (q.written != [] ==> q.written[0].no == q.opener)
    && (q.phase == Waiting ==> q.written == [] && q.batch == [])
    && (q.phase in {Waiting, Serving} && q.written == [] ==>
          if q.batch != [] then q.batch[0].no == q.opener else q.items != [] && q.items[0].no == q.opener)
    && (q.phase == Closed ==> q.items == [] && q.batch == [])
  }

  ghost predicate QueueOk(arrivals: seq<Packet>, fate: seq<Place>, id: nat, q: Queue) {
    && Increasing(q.items) && Increasing(q.batch) && Increasing(q.written)
    && Before(q.written, q.batch) && Before(q.written, q.items) && Before(q.batch, q.items)
    && Located(arrivals, fate, q.client, q.items, Queued(id))
    && Located(arrivals, fate, q.client, q.batch, InBatch(id))
    && Located(arrivals, fate, q.client, q.written, WrittenTo(id))
    && StartsWithOpener(q)
  }

  ghost predicate QueuesInv(queues: map<nat, Queue>, arrivals: seq<Packet>, fate: seq<Place>) {
    forall id | id in queues :: QueueOk(arrivals, fate, id, queues[id])
  }

  /** The container a place points to does hold the datagram. */
  predicate Held(queues: map<nat, Queue>, p: Packet, place: Place) {
    match place
    case Queued(c) => c in queues && p in queues[c].items
    case InBatch(c) => c in queues && p in queues[c].batch
    case WrittenTo(c) => c in queues && p in queues[c].written
    case _ => true
  }

  ghost predicate FateInv(queues: map<nat, Queue>, arrivals: seq<Packet>, fate: seq<Place>) {
    && |fate| == |arrivals|
    && (forall n | 0 <= n < |arrivals| :: arrivals[n].no == n)
    && (forall n | 0 <= n < |fate| :: Held(queues, arrivals[n], fate[n]))
  }

  predicate Holding(hand: Hand) {
    !hand.Idle? && !hand.Unindexed?
  }

  ghost predicate HandInv(hand: Hand, queues: map<nat, Queue>, arrivals: seq<Packet>, fate: seq<Place>) {
    && (Holding(hand) ==>
          && |arrivals| > 0 && hand.p == arrivals[|arrivals| - 1] && hand.p.no == |arrivals| - 1
          && |fate| == |arrivals| && fate[hand.p.no] == InHand)
    && (hand.HasId? ==> hand.id in queues && queues[hand.id].client == hand.p.client)
    && (hand.Sending? ==> hand.chan in queues && queues[hand.chan].client == hand.p.client)
    && (hand.Unindexed? ==> hand.id in queues && queues[hand.id].client == hand.client)
    && (forall n | 0 <= n < |fate| :: fate[n] == InHand ==> Holding(hand) && n == hand.p.no)
  }

  /** All tables agree on the client of a work id; a queue waits exactly while its entry is somewhere. */
  ghost predicate LinksInv(sessions: map<Addr, UdpSession>, byId: map<nat, PendingUdp>, byClient: map<Addr, nat>,
                           removals: map<nat, Removal>, queues: map<nat, Queue>) {
    && (forall a | a in byClient :: byClient[a] in queues && queues[byClient[a]].client == a)
    && (forall a | a in sessions :: sessions[a].chan in queues && queues[sessions[a].chan].client == a)
    && (forall id | id in byId :: id in queues && byId[id].client == queues[id].client && id !in removals)
    && (forall id | id in removals :: id in queues)
    && (forall id | id in queues :: queues[id].phase == Waiting <==> id in byId || id in removals)
  }

  function DroppedNos(fate: seq<Place>): set<nat> {
    set n | 0 <= n < |fate| && fate[n] == Dropped
  }

  ghost predicate CountsInv(dropped: nat, fate: seq<Place>, byId: map<nat, PendingUdp>, hand: Hand) {
    && dropped == |DroppedNos(fate)|
    && |byId| <= MAX_PENDING_UDP_SESSIONS
    && (hand.Opening? ==> |byId| < MAX_PENDING_UDP_SESSIONS)
  }

  ghost predicate Inv(s: State) {
    && QueuesInv(s.queues, s.arrivals, s.fate)
    && FateInv(s.queues, s.arrivals, s.fate)
    && HandInv(s.hand, s.queues, s.arrivals, s.fate)
    && LinksInv(s.sessions, s.pendingById, s.pendingClient, s.removals, s.queues)
    && CountsInv(s.dropped, s.fate, s.pendingById, s.hand)
  }

  // ------------------------------------------------------------------ frames

  /** The ledger keeps every entry that is about queue `id`. */
  ghost predicate KeepsPlacesOf(fate: seq<Place>, fate': seq<Place>, id: nat) {
    && |fate| <= |fate'|
    && (forall n | 0 <= n < |fate| && fate[n] in {Queued(id), InBatch(id), WrittenTo(id)} :: fate'[n] == fate[n])
  }

  lemma QueueFrame(arrivals: seq<Packet>, arrivals': seq<Packet>, fate: seq<Place>, fate': seq<Place>, id: nat,
                   q: Queue)
    requires QueueOk(arrivals, fate, id, q) && arrivals <= arrivals' && KeepsPlacesOf(fate, fate', id)
    ensures QueueOk(arrivals', fate', id, q)
  {
  }

  /** One queue changes; the others only need their own ledger entries left alone. */
  lemma QueuesUpdate(queues: map<nat, Queue>, arrivals: seq<Packet>, arrivals': seq<Packet>,
                     fate: seq<Place>, fate': seq<Place>, id: nat, q: Queue)
    requires QueuesInv(queues, arrivals, fate) && arrivals <= arrivals'
    requires forall o | o in queues && o != id :: KeepsPlacesOf(fate, fate', o)
    requires QueueOk(arrivals', fate', id, q)
    ensures QueuesInv(queues[id := q], arrivals', fate')
  {
    hide QueueOk, KeepsPlacesOf;
    forall o | o in queues && o != id ensures QueueOk(arrivals', fate', o, queues[o]) {
      QueueFrame(arrivals, arrivals', fate, fate', o, queues[o]);
    }
  }

  lemma QueuesSame(queues: map<nat, Queue>, arrivals: seq<Packet>, arrivals': seq<Packet>, fate: seq<Place>,
                   fate': seq<Place>)
    requires QueuesInv(queues, arrivals, fate) && arrivals <= arrivals'
    requires forall o | o in queues :: KeepsPlacesOf(fate, fate', o)
    ensures QueuesInv(queues, arrivals', fate')
  {
    hide QueueOk, KeepsPlacesOf;
    forall o | o in queues ensures QueueOk(arrivals', fate', o, queues[o]) {
      QueueFrame(arrivals, arrivals', fate, fate', o, queues[o]);
    }
  }

  /** Settling the datagram in hand at a place that is no queue. */
  lemma SettleHand(queues: map<nat, Queue>, arrivals: seq<Packet>, fate: seq<Place>, hand: Hand, place: Place)
    requires QueuesInv(queues, arrivals, fate) && FateInv(queues, arrivals, fate)
             && HandInv(hand, queues, arrivals, fate)
    requires Holding(hand) && (place.Dropped? || place.Missed?)
    ensures
      var fate' := fate[hand.p.no := place];
      && QueuesInv(queues, arrivals, fate') && FateInv(queues, arrivals, fate')
         && HandInv(Idle, queues, arrivals, fate')
      && DroppedNos(fate') == (if place == Dropped then DroppedNos(fate) + {hand.p.no} else DroppedNos(fate))
      && hand.p.no !in DroppedNos(fate)
  {
    var fate' := fate[hand.p.no := place];
    forall o | o in queues ensures KeepsPlacesOf(fate, fate', o) { }
    QueuesSame(queues, arrivals, arrivals, fate, fate');
  }

  // ------------------------------------------------------------------ steps on one queue

  lemma OpenOk(arrivals: seq<Packet>, fate: seq<Place>, id: nat, p: Packet)
    requires |fate| == |arrivals| && p.no < |arrivals| && arrivals[p.no] == p
    ensures QueueOk(arrivals, fate[p.no := Queued(id)], id, Queue(p.client, p.no, [p], [], [], Waiting))
  {
  }

  lemma AppendOk(arrivals: seq<Packet>, fate: seq<Place>, id: nat, q: Queue, p: Packet)
    requires QueueOk(arrivals, fate, id, q) && |fate| == |arrivals|
    requires p.no == |arrivals| - 1 && arrivals[p.no] == p && fate[p.no] == InHand && q.client == p.client
             && q.phase != Closed
    ensures QueueOk(arrivals, fate[p.no := Queued(id)], id, q.(items := q.items + [p]))
  {
    var fate' := fate[p.no := Queued(id)];
    assert Located(arrivals, fate', q.client, q.items + [p], Queued(id)) by { hide Increasing, Before; }
    assert Located(arrivals, fate', q.client, q.batch, InBatch(id)) by { hide Increasing, Before; }
    assert Located(arrivals, fate', q.client, q.written, WrittenTo(id)) by { hide Increasing, Before; }
    assert Increasing(q.items + [p]) && Before(q.written, q.items + [p]) && Before(q.batch, q.items + [p]);
  }

  function TakenFate(arrivals: seq<Packet>, fate: seq<Place>, id: nat, taken: seq<Packet>): seq<Place>
    requires |fate| == |arrivals|
  {
    seq(|fate|, i requires 0 <= i < |fate| => if arrivals[i] in taken then InBatch(id) else fate[i])
  }

  lemma TakeOk(arrivals: seq<Packet>, fate: seq<Place>, id: nat, q: Queue, n: nat)
    requires QueueOk(arrivals, fate, id, q) && |fate| == |arrivals| && 1 <= n <= |q.items| && q.batch == []
             && q.phase == Serving
    requires forall i | 0 <= i < |arrivals| :: arrivals[i].no == i
    ensures QueueOk(arrivals, TakenFate(arrivals, fate, id, q.items[..n]), id,
            q.(items := q.items[n..], batch := q.items[..n]))
    ensures forall i | 0 <= i < |fate| && arrivals[i] in q.items[..n] :: fate[i] == Queued(id)
  {
    var taken, rest := q.items[..n], q.items[n..];
    var fate' := TakenFate(arrivals, fate, id, taken);
    assert forall i | 0 <= i < |rest| :: rest[i] == q.items[n + i];
    assert forall i | 0 <= i < |taken| :: taken[i] == q.items[i];
    forall i | 0 <= i < |rest| ensures rest[i] !in taken {
      assert q.items[n + i].no == rest[i].no;
    }
    assert Located(arrivals, fate', q.client, q.written, WrittenTo(id)) by {
      forall i | 0 <= i < |q.written| ensures q.written[i] !in taken { }
    }
    assert Located(arrivals, fate', q.client, rest, Queued(id));
    assert Located(arrivals, fate', q.client, taken, InBatch(id));
  }

  function EndedFate(fate: seq<Place>, id: nat, ok: bool): seq<Place> {
    seq(|fate|, i requires 0 <= i < |fate| =>
      if fate[i] == InBatch(id) then (if ok then WrittenTo(id) else Discarded(id)) else fate[i])
  }

  lemma WriteOk(arrivals: seq<Packet>, fate: seq<Place>, id: nat, q: Queue, ok: bool)
    requires QueueOk(arrivals, fate, id, q) && |fate| == |arrivals| && q.batch != [] && q.phase == Serving
    ensures QueueOk(arrivals, EndedFate(fate, id, ok), id,
                    q.(batch := [], written := if ok then q.written + q.batch else q.written,
                       phase := if ok then q.phase else Stopping))
  {
    var fate' := EndedFate(fate, id, ok);
    assert Located(arrivals, fate', q.client, q.items, Queued(id));
    assert Located(arrivals, fate', q.client, q.written, WrittenTo(id));
    if ok {
      JoinOk(arrivals, fate', id, q.client, q.written, q.batch, q.items);
    }
  }

  lemma JoinOk(arrivals: seq<Packet>, fate: seq<Place>, id: nat, client: Addr, a: seq<Packet>, b: seq<Packet>,
               c: seq<Packet>)
    requires Increasing(a) && Increasing(b) && Before(a, b) && Before(a, c) && Before(b, c)
    requires Located(arrivals, fate, client, a, WrittenTo(id)) && Located(arrivals, fate, client, b, WrittenTo(id))
    ensures Increasing(a + b) && Before(a + b, c) && Located(arrivals, fate, client, a + b, WrittenTo(id))
  {
  }

  function ClosedFate(fate: seq<Place>, id: nat): seq<Place> {
    seq(|fate|, i requires 0 <= i < |fate| =>
      if fate[i] == Queued(id) || fate[i] == InBatch(id) then Discarded(id) else fate[i])
  }

  lemma CloseOk(arrivals: seq<Packet>, fate: seq<Place>, id: nat, q: Queue)
    requires QueueOk(arrivals, fate, id, q) && |fate| == |arrivals|
    ensures QueueOk(arrivals, ClosedFate(fate, id), id, q.(items := [], batch := [], phase := Closed))
  {
  }

  // ------------------------------------------------------------------ one step at a time

  /** A queue changed, but neither its client nor whether it waits. */
  lemma LinksUpdate(sessions: map<Addr, UdpSession>, byId: map<nat, PendingUdp>, byClient: map<Addr, nat>,
                    removals: map<nat, Removal>, queues: map<nat, Queue>, id: nat, q: Queue)
    requires LinksInv(sessions, byId, byClient, removals, queues)
    requires id in queues && q.client == queues[id].client && (q.phase == Waiting <==> queues[id].phase == Waiting)
    ensures LinksInv(sessions, byId, byClient, removals, queues[id := q])
  {
  }

  lemma LinksTouch(s: State, client: Addr)
    requires LinksInv(s.sessions, s.pendingById, s.pendingClient, s.removals, s.queues)
    ensures LinksInv(Touch(s, client).sessions, s.pendingById, s.pendingClient, s.removals, s.queues)
  {
  }

  lemma ArriveKeeps(s: State, client: Addr, data: seq<byte>)
    requires QueuesInv(s.queues, s.arrivals, s.fate) && FateInv(s.queues, s.arrivals, s.fate)
    requires s.hand.Idle? && HandInv(s.hand, s.queues, s.arrivals, s.fate)
    requires LinksInv(s.sessions, s.pendingById, s.pendingClient, s.removals, s.queues)
    ensures
      var t := Receive(s, client, data);
      && QueuesInv(t.queues, t.arrivals, t.fate) && FateInv(t.queues, t.arrivals, t.fate)
      && HandInv(t.hand, t.queues, t.arrivals, t.fate) && DroppedNos(t.fate) == DroppedNos(s.fate)
  {
    var p := Packet(|s.arrivals|, client, data);
    forall o | o in s.queues ensures KeepsPlacesOf(s.fate, s.fate + [InHand], o) { }
    QueuesSame(s.queues, s.arrivals, s.arrivals + [p], s.fate, s.fate + [InHand]);
    hide QueuesInv, KeepsPlacesOf;
    ArriveFate(s.queues, s.arrivals, s.fate, p);
    ArriveHand(s, client, data);
  }

  lemma ArriveFate(queues: map<nat, Queue>, arrivals: seq<Packet>, fate: seq<Place>, p: Packet)
    requires FateInv(queues, arrivals, fate) && p.no == |arrivals|
    ensures FateInv(queues, arrivals + [p], fate + [InHand]) && DroppedNos(fate + [InHand]) == DroppedNos(fate)
  {
    forall n | 0 <= n < |fate| ensures Held(queues, (arrivals + [p])[n], (fate + [InHand])[n]) {
      assert Held(queues, arrivals[n], fate[n]);
    }
  }

  lemma ArriveHand(s: State, client: Addr, data: seq<byte>)
    requires FateInv(s.queues, s.arrivals, s.fate) && s.hand.Idle? && HandInv(s.hand, s.queues, s.arrivals, s.fate)
    requires LinksInv(s.sessions, s.pendingById, s.pendingClient, s.removals, s.queues)
    ensures
      var t := Receive(s, client, data);
      HandInv(t.hand, t.queues, t.arrivals, t.fate)
  {
    hide Held;
  }

  lemma ReceiveKeepsInv(s: State, client: Addr, data: seq<byte>)
    requires Inv(s) && LoopEnabled(s, Received(client, data))
    ensures Inv(Receive(s, client, data))
  {
    hide QueuesInv, FateInv, HandInv, LinksInv, DroppedNos;
    ArriveKeeps(s, client, data);
    LinksTouch(s, client);
  }

  lemma DropKeepsInv(s: State)
    requires Inv(s) && Holding(s.hand)
    ensures s.hand.p.no < |s.fate| && Inv(Drop(s, s.hand.p))
  {
    hide QueuesInv, FateInv, LinksInv, DroppedNos;
    SettleHand(s.queues, s.arrivals, s.fate, s.hand, Dropped);
  }

  lemma FetchKeepsInv(s: State)
    requires Inv(s) && LoopEnabled(s, Fetched)
    ensures Inv(LookupPending(s, s.hand.p, s.hand.id))
  {
    hide QueuesInv, FateInv, DroppedNos;
    if s.hand.id !in s.pendingById {
      SettleHand(s.queues, s.arrivals, s.fate, s.hand, Missed(s.hand.id));
    }
  }

  /** The datagram in hand joins a queue. */
  lemma JoinKeeps(queues: map<nat, Queue>, arrivals: seq<Packet>, fate: seq<Place>, hand: Hand, id: nat, q: Queue)
    requires FateInv(queues, arrivals, fate) && HandInv(hand, queues, arrivals, fate) && Holding(hand)
    requires hand.p in q.items
    requires id in queues ==>
               queues[id].items <= q.items && q.batch == queues[id].batch && q.written == queues[id].written
    ensures
      var fate' := fate[hand.p.no := Queued(id)];
      && FateInv(queues[id := q], arrivals, fate') && HandInv(Idle, queues[id := q], arrivals, fate')
      && DroppedNos(fate') == DroppedNos(fate)
      && (forall o | o in queues && o != id :: KeepsPlacesOf(fate, fate', o))
  {
    var fate' := fate[hand.p.no := Queued(id)];
    forall n | 0 <= n < |fate'| ensures Held(queues[id := q], arrivals[n], fate'[n]) {
      assert Held(queues, arrivals[n], fate[n]);
    }
  }

  lemma SendKeepsInv(s: State)
    requires Inv(s) && LoopEnabled(s, Sent)
    ensures Inv(Send(s, s.hand.p, s.hand.chan))
  {
    hide QueueOk, FateInv, LinksInv, DroppedNos, KeepsPlacesOf;
    var p, c := s.hand.p, s.hand.chan;
    var q := s.queues[c];
    if Accepts(q) {
      AppendOk(s.arrivals, s.fate, c, q, p);
      JoinKeeps(s.queues, s.arrivals, s.fate, s.hand, c, q.(items := q.items + [p]));
      QueuesUpdate(s.queues, s.arrivals, s.arrivals, s.fate, s.fate[p.no := Queued(c)], c, q.(items := q.items + [p]));
      LinksUpdate(s.sessions, s.pendingById, s.pendingClient, s.removals, s.queues, c, q.(items := q.items + [p]));
    } else {
      DropKeepsInv(s);
    }
  }

  lemma LinksOpen(sessions: map<Addr, UdpSession>, byId: map<nat, PendingUdp>, byClient: map<Addr, nat>,
                  removals: map<nat, Removal>, queues: map<nat, Queue>, id: nat, q: Queue, entry: PendingUdp)
    requires LinksInv(sessions, byId, byClient, removals, queues)
    requires id !in queues && q.phase == Waiting && q.client == entry.client
    ensures LinksInv(sessions, byId[id := entry], byClient, removals, queues[id := q])
  {
  }

  lemma NotPendingYet(s: State, id: nat)
    requires LinksInv(s.sessions, s.pendingById, s.pendingClient, s.removals, s.queues) && id !in s.queues
    ensures id !in s.pendingById
  {
  }

  lemma OpenKeepsInv(s: State, id: nat)
    requires Inv(s) && LoopEnabled(s, Opened(id))
    ensures Inv(Open(s, s.hand.p, id))
  {
    hide QueuesInv, QueueOk, LinksInv, DroppedNos, KeepsPlacesOf;
    var p := s.hand.p;
    var q := Queue(p.client, p.no, [p], [], [], Waiting);
    OpenOk(s.arrivals, s.fate, id, p);
    JoinKeeps(s.queues, s.arrivals, s.fate, s.hand, id, q);
    QueuesUpdate(s.queues, s.arrivals, s.arrivals, s.fate, s.fate[p.no := Queued(id)], id, q);
    NotPendingYet(s, id);
    Maps.UpdateSize(s.pendingById, id, PendingUdp(p.client, s.now));
    LinksOpen(s.sessions, s.pendingById, s.pendingClient, s.removals, s.queues, id, q, PendingUdp(p.client, s.now));
  }

  lemma LookupKeepsInv(s: State)
    requires Inv(s) && LoopEnabled(s, LookedUp)
    ensures Inv(LookupClient(s, s.hand.p))
  {
    hide QueuesInv, FateInv, DroppedNos;
  }

  lemma LimitKeepsInv(s: State)
    requires Inv(s) && LoopEnabled(s, LimitChecked)
    ensures Inv(CheckLimit(s, s.hand.p))
  {
    hide QueuesInv, FateInv, LinksInv, DroppedNos;
    if |s.pendingById| >= MAX_PENDING_UDP_SESSIONS {
      DropKeepsInv(s);
    }
  }

  lemma IndexKeepsInv(s: State)
    requires Inv(s) && LoopEnabled(s, Indexed)
    ensures Inv(IndexClient(s, s.hand.client, s.hand.id))
  {
    hide QueuesInv, FateInv, DroppedNos;
  }

  lemma SweepKeepsInv(s: State, timeout: nat)
    requires Inv(s)
    ensures Inv(SweepSessions(s, timeout))
  {
    hide QueuesInv, FateInv, HandInv, DroppedNos;
  }

  lemma LoopStepKeepsInv(s: State, e: LoopStep)
    requires Inv(s) && LoopEnabled(s, e)
    ensures Inv(ApplyLoop(s, e))
  {
    hide Inv;
    match e
    case Received(client, data) => ReceiveKeepsInv(s, client, data);
    case LookedUp => LookupKeepsInv(s);
    case Fetched => FetchKeepsInv(s);
    case Sent => SendKeepsInv(s);
    case LimitChecked => LimitKeepsInv(s);
    case Opened(id) => OpenKeepsInv(s, id);
    case Indexed => IndexKeepsInv(s);
    case SessionsSwept(timeout) => SweepKeepsInv(s, timeout);
  }

  // ------------------------------------------------------------------ the other tasks

  lemma RemoveLinks(s: State, id: nat, purpose: Purpose)
    requires LinksInv(s.sessions, s.pendingById, s.pendingClient, s.removals, s.queues) && id in s.pendingById
    ensures
      var t := Remove(s, id, purpose);
      && LinksInv(t.sessions, t.pendingById, t.pendingClient, t.removals, t.queues)
      && |t.pendingById| == |s.pendingById| - 1
  {
    assert (s.pendingById - {id}).Keys == s.pendingById.Keys - {id};
  }

  lemma RemoveKeepsInv(s: State, id: nat, purpose: Purpose)
    requires Inv(s)
    ensures Inv(Remove(s, id, purpose))
  {
    hide QueuesInv, FateInv, HandInv, LinksInv, DroppedNos;
    if id in s.pendingById {
      RemoveLinks(s, id, purpose);
    }
  }

  lemma ClearKeepsInv(s: State, id: nat)
    requires Inv(s) && TaskEnabled(s, ClientCleared(id))
    ensures Inv(ClearClient(s, id))
  {
    hide QueuesInv, FateInv, HandInv, CountsInv;
  }

  /** Ledger entries of one queue move together with the datagrams; everything else stays. */
  lemma FateMoves(queues: map<nat, Queue>, arrivals: seq<Packet>, fate: seq<Place>, fate': seq<Place>, hand: Hand,
                  id: nat, q: Queue)
    requires FateInv(queues, arrivals, fate) && HandInv(hand, queues, arrivals, fate) && id in queues
             && q.client == queues[id].client
    requires |fate'| == |fate|
    requires forall n | 0 <= n < |fate| :: fate'[n] == fate[n] || fate[n] in {Queued(id), InBatch(id)}
    requires forall n | 0 <= n < |fate| && fate'[n] != fate[n] :: fate'[n] !in {Dropped, InHand}
    requires forall n | 0 <= n < |fate| && fate'[n] in {Queued(id), InBatch(id), WrittenTo(id)} ::
               Held(queues[id := q], arrivals[n], fate'[n])
    requires forall n, c | 0 <= n < |fate| && fate'[n] in {Queued(c), InBatch(c), WrittenTo(c)} && c != id ::
               fate'[n] == fate[n]
    ensures FateInv(queues[id := q], arrivals, fate') && HandInv(hand, queues[id := q], arrivals, fate')
    ensures DroppedNos(fate') == DroppedNos(fate)
    ensures forall o | o in queues && o != id :: KeepsPlacesOf(fate, fate', o)
  {
    forall n | 0 <= n < |fate'| ensures Held(queues[id := q], arrivals[n], fate'[n]) {
      assert Held(queues, arrivals[n], fate[n]);
    }
  }

  lemma CloseMoves(queues: map<nat, Queue>, arrivals: seq<Packet>, fate: seq<Place>, hand: Hand, id: nat)
    requires FateInv(queues, arrivals, fate) && HandInv(hand, queues, arrivals, fate) && id in queues
    ensures
      var q := queues[id].(items := [], batch := [], phase := Closed);
      var fate' := ClosedFate(fate, id);
      && FateInv(queues[id := q], arrivals, fate') && HandInv(hand, queues[id := q], arrivals, fate')
      && DroppedNos(fate') == DroppedNos(fate)
      && (forall o | o in queues && o != id :: KeepsPlacesOf(fate, fate', o))
  {
    var q := queues[id].(items := [], batch := [], phase := Closed);
    forall n | 0 <= n < |fate| && ClosedFate(fate, id)[n] == WrittenTo(id)
      ensures Held(queues[id := q], arrivals[n], WrittenTo(id))
    {
      assert Held(queues, arrivals[n], fate[n]);
    }
    FateMoves(queues, arrivals, fate, ClosedFate(fate, id), hand, id, q);
  }

  lemma CloseKeepsInv(s: State, id: nat)
    requires QueuesInv(s.queues, s.arrivals, s.fate) && FateInv(s.queues, s.arrivals, s.fate)
    requires HandInv(s.hand, s.queues, s.arrivals, s.fate) && CountsInv(s.dropped, s.fate, s.pendingById, s.hand)
    requires id in s.queues && |s.fate| == |s.arrivals|
    ensures
      var t := DropQueue(s, id);
      && QueuesInv(t.queues, t.arrivals, t.fate) && FateInv(t.queues, t.arrivals, t.fate)
      && HandInv(t.hand, t.queues, t.arrivals, t.fate) && CountsInv(t.dropped, t.fate, t.pendingById, t.hand)
  {
    hide QueueOk, FateInv, HandInv, DroppedNos, KeepsPlacesOf;
    CloseOk(s.arrivals, s.fate, id, s.queues[id]);
    CloseMoves(s.queues, s.arrivals, s.fate, s.hand, id);
    QueuesUpdate(s.queues, s.arrivals, s.arrivals, s.fate, ClosedFate(s.fate, id), id,
                 s.queues[id].(items := [], batch := [], phase := Closed));
    assert DropQueue(s, id).fate == ClosedFate(s.fate, id);
  }

  /** A removal ends; its queue no longer waits. */
  lemma LinksEnd(sessions: map<Addr, UdpSession>, byId: map<nat, PendingUdp>, byClient: map<Addr, nat>,
                 removals: map<nat, Removal>, queues: map<nat, Queue>, id: nat, q: Queue)
    requires LinksInv(sessions, byId, byClient, removals, queues)
    requires id in removals && id in queues && q.client == queues[id].client && q.phase != Waiting
    ensures LinksInv(sessions, byId, byClient, removals - {id}, queues[id := q])
  {
    forall o | o in queues[id := q]
      ensures queues[id := q][o].phase == Waiting <==> o in byId || o in removals - {id}
    {
    }
  }

  lemma LinksPair(sessions: map<Addr, UdpSession>, byId: map<nat, PendingUdp>, byClient: map<Addr, nat>,
                  removals: map<nat, Removal>, queues: map<nat, Queue>, client: Addr, session: UdpSession)
    requires LinksInv(sessions, byId, byClient, removals, queues)
    requires session.chan in queues && queues[session.chan].client == client
    ensures LinksInv(sessions[client := session], byId, byClient, removals, queues)
  {
  }

  lemma ServeOk(arrivals: seq<Packet>, fate: seq<Place>, id: nat, q: Queue)
    requires QueueOk(arrivals, fate, id, q) && q.phase == Waiting
    ensures QueueOk(arrivals, fate, id, q.(phase := Serving))
  {
  }

  lemma StopOk(arrivals: seq<Packet>, fate: seq<Place>, id: nat, q: Queue)
    requires QueueOk(arrivals, fate, id, q) && q.phase in {Serving, Stopping}
    ensures QueueOk(arrivals, fate, id, q.(phase := Stopping))
  {
  }

  /** Only the phase of a queue changes. */
  lemma PhaseMoves(queues: map<nat, Queue>, arrivals: seq<Packet>, fate: seq<Place>, hand: Hand, id: nat, phase: Phase)
    requires QueuesInv(queues, arrivals, fate) && FateInv(queues, arrivals, fate)
             && HandInv(hand, queues, arrivals, fate)
    requires id in queues && QueueOk(arrivals, fate, id, queues[id].(phase := phase))
    ensures
      var queues' := queues[id := queues[id].(phase := phase)];
      QueuesInv(queues', arrivals, fate) && FateInv(queues', arrivals, fate) && HandInv(hand, queues', arrivals, fate)
  {
    hide QueueOk;
    forall n | 0 <= n < |fate| ensures Held(queues[id := queues[id].(phase := phase)], arrivals[n], fate[n]) {
      assert Held(queues, arrivals[n], fate[n]);
    }
  }

  lemma FinishKeepsInv(s: State, id: nat)
    requires Inv(s) && TaskEnabled(s, RemovalFinished(id))
    ensures Inv(FinishRemoval(s, id))
  {
    hide QueueOk, FateInv, HandInv, CountsInv, LinksInv;
    var t := s.(removals := s.removals - {id});
    var q := s.queues[id];
    if s.removals[id].purpose == Discard {
      CloseKeepsInv(t, id);
      LinksEnd(s.sessions, s.pendingById, s.pendingClient, s.removals, s.queues, id,
        q.(items := [], batch := [], phase := Closed));
    } else {
      WaitsInRemoval(s, id);
      ServeOk(s.arrivals, s.fate, id, q);
      PhaseMoves(s.queues, s.arrivals, s.fate, s.hand, id, Serving);
      LinksEnd(s.sessions, s.pendingById, s.pendingClient, s.removals, s.queues, id, q.(phase := Serving));
      LinksPair(s.sessions, s.pendingById, s.pendingClient, t.removals, s.queues[id := q.(phase := Serving)], q.client,
                UdpSession(id, s.now));
    }
  }

  lemma WaitsInRemoval(s: State, id: nat)
    requires LinksInv(s.sessions, s.pendingById, s.pendingClient, s.removals, s.queues) && id in s.removals
    ensures id in s.queues && s.queues[id].phase == Waiting
  {
  }

  lemma TakeMoves(queues: map<nat, Queue>, arrivals: seq<Packet>, fate: seq<Place>, hand: Hand, id: nat, n: nat)
    requires QueuesInv(queues, arrivals, fate) && FateInv(queues, arrivals, fate)
             && HandInv(hand, queues, arrivals, fate)
    requires id in queues && n <= |queues[id].items| && queues[id].batch == []
    requires forall i | 0 <= i < |fate| && arrivals[i] in queues[id].items[..n] :: fate[i] == Queued(id)
    ensures
      var q := queues[id].(items := queues[id].items[n..], batch := queues[id].items[..n]);
      var fate' := TakenFate(arrivals, fate, id, queues[id].items[..n]);
      && FateInv(queues[id := q], arrivals, fate') && HandInv(hand, queues[id := q], arrivals, fate')
      && DroppedNos(fate') == DroppedNos(fate)
      && (forall o | o in queues && o != id :: KeepsPlacesOf(fate, fate', o))
  {
    hide QueueOk;
    var items := queues[id].items;
    var q := queues[id].(items := items[n..], batch := items[..n]);
    var fate' := TakenFate(arrivals, fate, id, items[..n]);
    assert items == items[..n] + items[n..];
    forall i | 0 <= i < |fate| && fate'[i] in {Queued(id), InBatch(id), WrittenTo(id)}
      ensures Held(queues[id := q], arrivals[i], fate'[i])
    {
      assert Held(queues, arrivals[i], fate[i]);
    }
    FateMoves(queues, arrivals, fate, fate', hand, id, q);
  }

  lemma TakeKeepsInv(s: State, id: nat, n: nat)
    requires TaskEnabled(s, BatchTaken(id, n)) && Inv(s)
    ensures Inv(ApplyTask(s, BatchTaken(id, n)))
  {
    hide QueueOk, HandInv, LinksInv, DroppedNos, KeepsPlacesOf;
    var q := s.queues[id];
    var fate' := TakenFate(s.arrivals, s.fate, id, q.items[..n]);
    var q' := q.(items := q.items[n..], batch := q.items[..n]);
    TakeOk(s.arrivals, s.fate, id, q, n);
    TakeMoves(s.queues, s.arrivals, s.fate, s.hand, id, n);
    QueuesUpdate(s.queues, s.arrivals, s.arrivals, s.fate, fate', id, q');
    LinksTouch(s, q.client);
    LinksUpdate(Touch(s, q.client).sessions, s.pendingById, s.pendingClient, s.removals, s.queues, id, q');
    assert TakeBatch(s, id, n).fate == fate';
  }

  lemma WriteMoves(queues: map<nat, Queue>, arrivals: seq<Packet>, fate: seq<Place>, hand: Hand, id: nat, ok: bool)
    requires FateInv(queues, arrivals, fate) && HandInv(hand, queues, arrivals, fate) && id in queues
    ensures
      var q := queues[id];
      var q' := q.(batch := [], written := if ok then q.written + q.batch else q.written,
                   phase := if ok then q.phase else Stopping);
      var fate' := EndedFate(fate, id, ok);
      && FateInv(queues[id := q'], arrivals, fate') && HandInv(hand, queues[id := q'], arrivals, fate')
      && DroppedNos(fate') == DroppedNos(fate)
      && (forall o | o in queues && o != id :: KeepsPlacesOf(fate, fate', o))
  {
    var q := queues[id];
    var q' := q.(batch := [], written := if ok then q.written + q.batch else q.written,
                 phase := if ok then q.phase else Stopping);
    var fate' := EndedFate(fate, id, ok);
    forall i | 0 <= i < |fate| && fate'[i] in {Queued(id), InBatch(id), WrittenTo(id)}
      ensures Held(queues[id := q'], arrivals[i], fate'[i])
    {
      assert Held(queues, arrivals[i], fate[i]);
    }
    FateMoves(queues, arrivals, fate, fate', hand, id, q');
  }

  lemma WriteKeepsInv(s: State, id: nat, ok: bool)
    requires Inv(s) && TaskEnabled(s, BatchWritten(id, ok))
    ensures Inv(WriteBatch(s, id, ok))
  {
    hide QueueOk, FateInv, HandInv, LinksInv, DroppedNos, KeepsPlacesOf;
    var q := s.queues[id];
    var q' := q.(batch := [], written := if ok then q.written + q.batch else q.written,
                 phase := if ok then q.phase else Stopping);
    WriteOk(s.arrivals, s.fate, id, q, ok);
    WriteMoves(s.queues, s.arrivals, s.fate, s.hand, id, ok);
    QueuesUpdate(s.queues, s.arrivals, s.arrivals, s.fate, EndedFate(s.fate, id, ok), id, q');
    LinksUpdate(s.sessions, s.pendingById, s.pendingClient, s.removals, s.queues, id, q');
    assert WriteBatch(s, id, ok).fate == EndedFate(s.fate, id, ok);
  }

  lemma LinksUnpair(s: State, id: nat)
    requires LinksInv(s.sessions, s.pendingById, s.pendingClient, s.removals, s.queues) && id in s.queues
    ensures LinksInv(s.sessions - {s.queues[id].client}, s.pendingById, s.pendingClient, s.removals, s.queues)
  {
  }

  lemma UnpairKeepsInv(s: State, id: nat)
    requires Inv(s) && TaskEnabled(s, Unpaired(id))
    ensures Inv(Unpair(s, id))
  {
    hide QueueOk, FateInv, HandInv, LinksInv, DroppedNos;
    StopOk(s.arrivals, s.fate, id, s.queues[id]);
    PhaseMoves(s.queues, s.arrivals, s.fate, s.hand, id, Stopping);
    LinksUnpair(s, id);
    LinksUpdate(s.sessions - {s.queues[id].client}, s.pendingById, s.pendingClient, s.removals, s.queues, id,
                s.queues[id].(phase := Stopping));
  }

  lemma DropReceiverKeepsInv(s: State, id: nat)
    requires Inv(s) && TaskEnabled(s, ReceiverDropped(id))
    ensures Inv(DropQueue(s, id))
  {
    hide QueuesInv, FateInv, HandInv, CountsInv, LinksInv;
    CloseKeepsInv(s, id);
    LinksUpdate(s.sessions, s.pendingById, s.pendingClient, s.removals, s.queues, id,
                s.queues[id].(items := [], batch := [], phase := Closed));
  }

  lemma ReplyKeepsInv(s: State, client: Addr)
    requires Inv(s)
    ensures Inv(Touch(s, client))
  {
    hide QueuesInv, FateInv, HandInv, CountsInv, LinksInv;
    LinksTouch(s, client);
  }

  lemma TickKeepsInv(s: State, elapsed: nat)
    requires Inv(s)
    ensures Inv(s.(now := s.now + elapsed))
  {
    hide QueuesInv, FateInv, HandInv, CountsInv, LinksInv;
  }

  lemma TaskStepKeepsInv(s: State, e: TaskStep)
    requires Inv(s) && TaskEnabled(s, e)
    ensures Inv(ApplyTask(s, e))
  {
    hide Inv;
    match e
    case EntryRemoved(id, purpose) => RemoveKeepsInv(s, id, purpose);
    case ClientCleared(id) => ClearKeepsInv(s, id);
    case RemovalFinished(id) => FinishKeepsInv(s, id);
    case BatchTaken(id, n) => TakeKeepsInv(s, id, n);
    case BatchWritten(id, ok) => WriteKeepsInv(s, id, ok);
    case Replied(id) => ReplyKeepsInv(s, s.queues[id].client);
    case Unpaired(id) => UnpairKeepsInv(s, id);
    case ReceiverDropped(id) => DropReceiverKeepsInv(s, id);
    case Ticked(elapsed) => TickKeepsInv(s, elapsed);
  }

  lemma StepKeepsInv(s: State, e: Event)
    requires Inv(s) && Enabled(s, e)
    ensures Inv(Apply(s, e))
  {
    hide Inv, LoopEnabled, TaskEnabled, ApplyLoop, ApplyTask;
    match e
    case Loop(ls) => LoopStepKeepsInv(s, ls);
    case Task(ks) => TaskStepKeepsInv(s, ks);
  }

  // ------------------------------------------------------------------ runs

  function Run(s: State, es: seq<Event>): Option<State>
    decreases |es|
  {
    if es == [] then Some(s)
    else if Enabled(s, es[0]) then Run(Apply(s, es[0]), es[1..])
    else None
  }

  lemma InitInv()
    ensures Inv(Init())
  {
  }

  lemma {:induction false} RunKeepsInv(s: State, es: seq<Event>)
    requires Inv(s) && Run(s, es).Some?
    ensures Inv(Run(s, es).value)
    decreases |es|
  {
    hide Inv, Apply, Enabled;
    if es != [] {
      StepKeepsInv(s, es[0]);
      RunKeepsInv(Apply(s, es[0]), es[1..]);
    }
  }

  ghost predicate Reachable(s: State) {
    exists es :: Run(Init(), es) == Some(s)
  }

  lemma ReachableInv(s: State)
    requires Reachable(s)
    ensures Inv(s)
  {
    hide Inv, Apply, Enabled;
    var es :| Run(Init(), es) == Some(s);
    InitInv();
    RunKeepsInv(Init(), es);
  }

  // ------------------------------------------------------------------ main results

  /**
   The ledger is exact: a received datagram is in one container, once, and it is the one its ledger
   entry names. A datagram that no container holds is in the hand of the receive loop, counted as
   dropped, missed, or discarded with its queue.
   */
  lemma DatagramInOnePlace(s: State, n: nat, c: nat)
    requires Reachable(s) && n < |s.arrivals| && c in s.queues
    ensures |s.fate| == |s.arrivals|
    ensures s.arrivals[n] in s.queues[c].items <==> s.fate[n] == Queued(c)
    ensures s.arrivals[n] in s.queues[c].batch <==> s.fate[n] == InBatch(c)
    ensures s.arrivals[n] in s.queues[c].written <==> s.fate[n] == WrittenTo(c)
    ensures multiset(s.queues[c].items)[s.arrivals[n]] + multiset(s.queues[c].batch)[s.arrivals[n]]
            + multiset(s.queues[c].written)[s.arrivals[n]] <= 1
    ensures s.fate[n] == InHand <==> Holding(s.hand) && s.hand.p == s.arrivals[n]
  {
    hide LinksInv, CountsInv, QueueOk, Increasing;
    ReachableInv(s);
    var q, p := s.queues[c], s.arrivals[n];
    assert Held(s.queues, p, s.fate[n]);
    InOneList(s.arrivals, s.fate, c, q, n);
  }

  lemma InOneList(arrivals: seq<Packet>, fate: seq<Place>, c: nat, q: Queue, n: nat)
    requires QueueOk(arrivals, fate, c, q) && n < |arrivals| == |fate| && arrivals[n].no == n
    ensures arrivals[n] in q.items ==> fate[n] == Queued(c)
    ensures arrivals[n] in q.batch ==> fate[n] == InBatch(c)
    ensures arrivals[n] in q.written ==> fate[n] == WrittenTo(c)
    ensures multiset(q.items)[arrivals[n]] + multiset(q.batch)[arrivals[n]] + multiset(q.written)[arrivals[n]] <= 1
  {
    IncreasingOnce(q.items, arrivals[n]);
    IncreasingOnce(q.batch, arrivals[n]);
    IncreasingOnce(q.written, arrivals[n]);
    hide Increasing, Before, StartsWithOpener;
  }

  lemma {:induction false} IncreasingOnce(ps: seq<Packet>, p: Packet)
    requires Increasing(ps)
    ensures multiset(ps)[p] <= 1
  {
    if ps != [] {
      var init := ps[..|ps| - 1];
      assert ps == init + [ps[|ps| - 1]];
      IncreasingOnce(init, p);
      if p == ps[|ps| - 1] {
        assert p !in init;
      }
    }
  }

  /** The drop counter is the number of dropped datagrams; what is missed or discarded it does not count. */
  lemma DropsAreCounted(s: State)
    requires Reachable(s)
    ensures s.dropped == |set n | 0 <= n < |s.fate| && s.fate[n] == Dropped|
    ensures |s.pendingById| <= 256
  {
    ReachableInv(s);
  }

  function FromClient(ps: seq<Packet>, client: Addr): seq<Packet> {
    if ps == [] then [] else (if ps[0].client == client then [ps[0]] else []) + FromClient(ps[1..], client)
  }

  /** `xs` is `ys` with some elements left out. */
  predicate Subsequence<T(==)>(xs: seq<T>, ys: seq<T>)
    decreases |ys|
  {
    || xs == []
    || (ys != [] && if xs[0] == ys[0] then Subsequence(xs[1..], ys[1..]) else Subsequence(xs, ys[1..]))
  }

  lemma {:induction false} PrefixOfSubsequence<T>(xs: seq<T>, more: seq<T>, ys: seq<T>)
    requires Subsequence(xs + more, ys)
    ensures Subsequence(xs, ys)
    decreases |ys|
  {
    if xs != [] {
      if xs[0] == ys[0] {
        assert (xs + more)[1..] == xs[1..] + more;
        PrefixOfSubsequence(xs[1..], more, ys[1..]);
      } else {
        PrefixOfSubsequence(xs, more, ys[1..]);
      }
    }
  }

  lemma {:induction false} OrderedIsSubsequence(arrivals: seq<Packet>, k: nat, client: Addr, xs: seq<Packet>)
    requires k <= |arrivals| && Increasing(xs)
    requires forall n | 0 <= n < |arrivals| :: arrivals[n].no == n
    requires forall i | 0 <= i < |xs| ::
               k <= xs[i].no < |arrivals| && arrivals[xs[i].no] == xs[i] && xs[i].client == client
    ensures Subsequence(xs, FromClient(arrivals[k..], client))
    decreases |arrivals| - k
  {
    if xs != [] {
      assert k <= xs[0].no;
      assert arrivals[k..][1..] == arrivals[k + 1..];
      if xs[0].no == k {
        OrderedIsSubsequence(arrivals, k + 1, client, xs[1..]);
        assert FromClient(arrivals[k..], client) == [xs[0]] + FromClient(arrivals[k + 1..], client);
      } else {
        OrderedIsSubsequence(arrivals, k + 1, client, xs);
        assert arrivals[k..][0] == arrivals[k] != xs[0];
        SkipOne(xs, arrivals[k..], client);
      }
    }
  }

  lemma SkipOne(xs: seq<Packet>, ys: seq<Packet>, client: Addr)
    requires ys != [] && xs != [] && ys[0] != xs[0] && Subsequence(xs, FromClient(ys[1..], client))
    ensures Subsequence(xs, FromClient(ys, client))
  {
    var rest := FromClient(ys[1..], client);
    if ys[0].client == client {
      assert FromClient(ys, client) == [ys[0]] + rest;
      assert ([ys[0]] + rest)[1..] == rest;
    } else {
      assert FromClient(ys, client) == rest;
    }
  }

  /**
   Whatever the interleaving, what a work connection has written, and what is about to follow, is an
   in-order subsequence without repetition of the datagrams of its client, and it starts with the
   datagram that opened it.
   */
  lemma OutputFollowsArrivals(s: State, c: nat)
    requires Reachable(s) && c in s.queues
    ensures
      var q := s.queues[c];
      && Subsequence(q.written + q.batch + q.items, FromClient(s.arrivals, q.client))
      && Increasing(q.written + q.batch + q.items)
      && (q.written != [] ==> q.written[0].no == q.opener)
  {
    hide HandInv, LinksInv, CountsInv, QueueOk, Increasing, Subsequence;
    ReachableInv(s);
    var q := s.queues[c];
    InOrder(s.arrivals, s.fate, c, q);
    assert s.arrivals[0..] == s.arrivals;
    OrderedIsSubsequence(s.arrivals, 0, q.client, q.written + q.batch + q.items);
  }

  lemma InOrder(arrivals: seq<Packet>, fate: seq<Place>, c: nat, q: Queue)
    requires QueueOk(arrivals, fate, c, q)
    ensures
      var all := q.written + q.batch + q.items;
      && Increasing(all) && (q.written != [] ==> q.written[0].no == q.opener)
      && (forall i | 0 <= i < |all| ::
            all[i].no < |arrivals| && arrivals[all[i].no] == all[i] && all[i].client == q.client)
  {
    var front := q.written + q.batch;
    assert Increasing(front) && Before(front, q.items);
    assert Increasing(front + q.items);
  }

  // ------------------------------------------------------------------ what never changes

  predicate Final(place: Place) {
    place.WrittenTo? || place.Dropped? || place.Missed? || place.Discarded?
  }

  /**
   `t` comes after `s`: a datagram that has been written, dropped, missed or discarded stays so, and
   output is only appended to.
   */
  ghost predicate Later(s: State, t: State) {
    && s.arrivals <= t.arrivals && |s.fate| <= |t.fate| && s.dropped <= t.dropped
    && (forall n | 0 <= n < |s.fate| && Final(s.fate[n]) :: t.fate[n] == s.fate[n])
    && (forall c | c in s.queues ::
          && c in t.queues && t.queues[c].client == s.queues[c].client && t.queues[c].opener == s.queues[c].opener
          && s.queues[c].written <= t.queues[c].written)
  }

  /** Where a step of the receive loop puts the datagram in hand, if it does. */
  function Settling(s: State, e: LoopStep): Option<Place>
    requires LoopEnabled(s, e)
  {
    match e
    case Fetched => if s.hand.id in s.pendingById then None else Some(Missed(s.hand.id))
    case Sent => Some(if Accepts(s.queues[s.hand.chan]) then Queued(s.hand.chan) else Dropped)
    case LimitChecked => if |s.pendingById| >= MAX_PENDING_UDP_SESSIONS then Some(Dropped) else None
    case Opened(id) => Some(Queued(id))
    case _ => None
  }

  lemma LoopSettles(s: State, e: LoopStep)
    requires LoopEnabled(s, e)
    ensures
      var (t, x) := (ApplyLoop(s, e), Settling(s, e));
      && t.dropped == s.dropped + (if x == Some(Dropped) then 1 else 0)
      && (x.Some? ==> Holding(s.hand) && s.hand.p.no < |s.fate| && t.fate == s.fate[s.hand.p.no := x.value])
      && (x.None? ==> t.fate == if e.Received? then s.fate + [InHand] else s.fate)
  {
  }

  /** The loop makes queues longer and new ones, and writes nothing. */
  lemma LoopStepQueues(s: State, e: LoopStep)
    requires LoopEnabled(s, e)
    ensures
      var t := ApplyLoop(s, e);
      forall c | c in s.queues ::
        && c in t.queues && t.queues[c].client == s.queues[c].client && t.queues[c].opener == s.queues[c].opener
        && t.queues[c].written == s.queues[c].written
  {
  }

  lemma LoopStepArrivals(s: State, e: LoopStep)
    requires LoopEnabled(s, e)
    ensures s.arrivals <= ApplyLoop(s, e).arrivals
  {
    if !e.Received? {
      assert ApplyLoop(s, e).arrivals == s.arrivals;
    }
  }

  lemma LoopStepIsLater(s: State, e: LoopStep)
    requires Inv(s) && LoopEnabled(s, e)
    ensures Later(s, ApplyLoop(s, e))
  {
    hide QueuesInv, FateInv, LinksInv, CountsInv;
    LoopSettles(s, e);
    LoopStepQueues(s, e);
    LoopStepArrivals(s, e);
    hide ApplyLoop, LoopEnabled, Settling;
  }

  lemma TakeIsLater(s: State, id: nat, n: nat)
    requires TaskEnabled(s, BatchTaken(id, n)) && Inv(s)
    ensures Later(s, ApplyTask(s, BatchTaken(id, n)))
  {
    hide HandInv, LinksInv, CountsInv;
    TakeOk(s.arrivals, s.fate, id, s.queues[id], n);
  }

  lemma TaskStepIsLater(s: State, e: TaskStep)
    requires Inv(s) && TaskEnabled(s, e)
    ensures Later(s, ApplyTask(s, e))
  {
    hide Inv;
    if e.BatchTaken? {
      TakeIsLater(s, e.id, e.n);
    }
  }

  lemma {:induction false} RunIsLater(s: State, es: seq<Event>)
    requires Inv(s) && Run(s, es).Some?
    ensures Later(s, Run(s, es).value)
    decreases |es|
  {
    hide Inv, ApplyLoop, ApplyTask, LoopEnabled, TaskEnabled;
    if es != [] {
      match es[0] {
        case Loop(ls) => LoopStepIsLater(s, ls);
        case Task(ks) => TaskStepIsLater(s, ks);
      }
      StepKeepsInv(s, es[0]);
      RunIsLater(Apply(s, es[0]), es[1..]);
    }
  }

  /**
   A datagram that has reached a work connection, been counted as dropped, missed or discarded is never
   seen again.
   */
  lemma FatesAreFinal(s: State, es: seq<Event>, n: nat)
    requires Reachable(s) && Run(s, es).Some? && n < |s.fate| && Final(s.fate[n])
    ensures
      var t := Run(s, es).value;
      && n < |t.fate| && t.fate[n] == s.fate[n] && s.arrivals <= t.arrivals
      && (forall c | c in s.queues :: c in t.queues && s.queues[c].written <= t.queues[c].written)
  {
    hide Inv, Apply, Enabled;
    ReachableInv(s);
    RunIsLater(s, es);
  }

  // ------------------------------------------------------------------ the loss nobody counts

  /** A work connection takes over while the next datagram of the same client is on its way. */
  const TAKEOVER_RACE: seq<Event> := [
    Loop(Received(7, [1])), Loop(LookedUp), Loop(LimitChecked), Loop(Opened(1)), Loop(Indexed),
    Task(EntryRemoved(1, Serve)),
    Loop(Received(7, [2])), Loop(LookedUp), Loop(Fetched)]

  /**
   Exactly when a datagram is missed. Its client was found waiting under an id; fetching the sender of
   that id loses the datagram, uncounted, if and only if the removal of the entry has begun: it is
   between its halves, or over, so that the queue no longer waits.
   */
  lemma MissedExactly(s: State)
    requires Reachable(s) && s.hand.HasId?
    ensures
      var p, id := s.hand.p, s.hand.id;
      && p.no < |s.fate| && id in s.queues
      && var t := LookupPending(s, p, id);
         && (t.hand.Idle? <==> s.queues[id].phase != Waiting || id in s.removals)
         && (t.hand.Idle? <==> t.fate[p.no] == Missed(id))
         && t.dropped == s.dropped
  {
    hide QueuesInv, FateInv, CountsInv;
    ReachableInv(s);
  }

  /** The last datagram is gone without a count although its client's queue is waiting and has room. */
  predicate LostUncounted(s: State) {
    && |s.fate| == 2 && s.fate[1] == Missed(1) && s.dropped == 0
    && 1 in s.queues && s.queues[1].phase == Waiting && |s.queues[1].items| < UDP_SESSION_QUEUE_DEPTH
  }

  /**
   Between the two halves of `remove_pending` the second datagram of a client is lost: it finds the
   client in `pending_client`, no entry in `pending_by_id`, and goes neither to a queue nor to the
   drop counter.
   */
  lemma TakeoverLosesUncounted()
    ensures exists s :: Reachable(s) && LostUncounted(s)
  {
    hide Run;
    var es := TAKEOVER_RACE;
    var s5 := FirstDatagramPending(es);
    var s9 := SecondDatagramLost(s5, es);
    assert es[0..] == es;
    assert Run(Init(), es) == Some(s9);
  }

  lemma FirstDatagramPending(es: seq<Event>) returns (s: State)
    requires es == TAKEOVER_RACE
    ensures s.sessions == map[] && s.pendingClient == map[7 := 1] && s.pendingById.Keys == {1} && s.hand == Idle
    ensures s.queues == map[1 := Queue(7, 0, [Packet(0, 7, [1])], [], [], Waiting)] && s.removals == map[]
            && s.dropped == 0
    ensures s.arrivals == [Packet(0, 7, [1])] && s.fate == [Queued(1)]
    ensures Run(Init(), es[0..]) == Run(s, es[5..])
  {
    hide Run;
    var p := Packet(0, 7, [1]);
    var s1 := Receive(Init(), 7, [1]);
    var s2 := LookupClient(s1, p);
    var s3 := CheckLimit(s2, p);
    var s4 := Open(s3, p, 1);
    s := IndexClient(s4, 7, 1);
    RunUnfold(Init(), es, 0);
    RunUnfold(s1, es, 1);
    RunUnfold(s2, es, 2);
    RunUnfold(s3, es, 3);
    RunUnfold(s4, es, 4);
  }

  lemma SecondDatagramLost(s: State, es: seq<Event>) returns (t: State)
    requires es == TAKEOVER_RACE
    requires s.sessions == map[] && s.pendingClient == map[7 := 1] && s.pendingById.Keys == {1} && s.hand == Idle
    requires s.queues == map[1 := Queue(7, 0, [Packet(0, 7, [1])], [], [], Waiting)] && s.removals == map[]
             && s.dropped == 0
    requires s.arrivals == [Packet(0, 7, [1])] && s.fate == [Queued(1)]
    ensures Run(s, es[5..]) == Some(t) && LostUncounted(t)
  {
    hide Run;
    var p := Packet(1, 7, [2]);
    var s6 := Remove(s, 1, Serve);
    assert 1 !in s6.pendingById;
    var s7 := Receive(s6, 7, [2]);
    var s8 := LookupClient(s7, p);
    t := LookupPending(s8, p, 1);
    RunUnfold(s, es, 5);
    RunUnfold(s6, es, 6);
    RunUnfold(s7, es, 7);
    RunUnfold(s8, es, 8);
    RunEnd(t, es);
  }

  lemma RunUnfold(s: State, es: seq<Event>, k: nat)
    requires k < |es| && Enabled(s, es[k])
    ensures Run(s, es[k..]) == Run(Apply(s, es[k]), es[k + 1..])
  {
    assert es[k..][1..] == es[k + 1..];
  }

  lemma RunEnd(s: State, es: seq<Event>)
    ensures Run(s, es[|es|..]) == Some(s)
  {
  }
}
