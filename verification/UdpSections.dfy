/**
 One UDP proxy: its three tables, the queue behind every work id, and one function per step that
 touches them.

 A queue is made together with its work id and is named by it; the sending half is cloned into the
 pending entry, the session entry and the hands of the receive loop, the receiving half belongs to
 the pending entry and then to the work connection. `batch` is what a work connection has taken out
 of its queue and not written yet, `written` what it has handed to the stream. `arrivals` is the
 history of received datagrams and `fate` says where each of them is.
 */
module UdpSections {
  import opened Bytes
  import opened Wrappers

  type Addr = nat

  const MAX_PENDING_UDP_SESSIONS: nat := 256
  const UDP_SESSION_QUEUE_DEPTH: nat := 64
  const UDP_WRITE_BATCH: nat := 32

  /** A received datagram; `no` is its position among all datagrams received. */
  datatype Packet = Packet(no: nat, client: Addr, data: seq<byte>)

  function Datas(ps: seq<Packet>): seq<seq<byte>> {
    seq(|ps|, i requires 0 <= i < |ps| => ps[i].data)
  }

  datatype PendingUdp = PendingUdp(client: Addr, created: nat)

  datatype UdpSession = UdpSession(chan: nat, lastActive: nat)

  /** Waiting for a work connection, served by one, about to be closed, closed. */
  datatype Phase = Waiting | Serving | Stopping | Closed

  datatype Queue = Queue(client: Addr, opener: nat, items: seq<Packet>, batch: seq<Packet>, written: seq<Packet>,
    phase: Phase)

  /** Where the receive loop is with the datagram it is handling. */
  datatype Hand =
    | Idle
    | NoSession(p: Packet)
    | HasId(p: Packet, id: nat)
    | Sending(p: Packet, chan: nat)
    | NoPending(p: Packet)
    | Opening(p: Packet)
    | Unindexed(client: Addr, id: nat)

  /** What a task that removes a pending entry wants it for. */
  datatype Purpose = Serve | Discard

  /** Such a task after it has removed the entry: before and after it has looked at `pending_client`. */
  datatype Removal = Removed(purpose: Purpose) | Cleared(purpose: Purpose)

  /**
   Where a datagram is. Four places are for good: written; dropped and counted; missed, when the entry
   of the work id it was looked up under was gone; discarded with the queue it was in.
   */
  datatype Place =
    | InHand
    | Queued(chan: nat)
    | InBatch(chan: nat)
    | WrittenTo(chan: nat)
    | Dropped
    | Missed(id: nat)
    | Discarded(chan: nat)

  datatype State = State(
    sessions: map<Addr, UdpSession>,
    pendingById: map<nat, PendingUdp>,
    pendingClient: map<Addr, nat>,
    queues: map<nat, Queue>,
    hand: Hand,
    removals: map<nat, Removal>,
    dropped: nat,
    now: nat,
    arrivals: seq<Packet>,
    fate: seq<Place>)

  function Init(): State {
    State(map[], map[], map[], map[], Idle, map[], 0, 0, [], [])
  }

  // ------------------------------------------------------------------ the receive loop

  function Touch(s: State, client: Addr): State {
    if client in s.sessions then s.(sessions := s.sessions[client := s.sessions[client].(lastActive := s.now)]) else s
  }

  /** A datagram arrives; look its client up among the paired sessions. */
  function Receive(s: State, client: Addr, data: seq<byte>): State {
    var p := Packet(|s.arrivals|, client, data);
    Touch(s, client)
    .(hand := if client in s.sessions then Sending(p, s.sessions[client].chan) else NoSession(p),
      arrivals := s.arrivals + [p], fate := s.fate + [InHand])
  }

  /** Not paired: is the client waiting for a work connection? */
  function LookupClient(s: State, p: Packet): State {
    s.(hand := if p.client in s.pendingClient then HasId(p, s.pendingClient[p.client]) else NoPending(p))
  }

  /** It is: fetch the sender of the pending entry, or give up without counting when there is none. */
  function LookupPending(s: State, p: Packet, id: nat): State
    requires p.no < |s.fate|
  {
    if id in s.pendingById then s.(hand := Sending(p, id))
    else s.(hand := Idle, fate := s.fate[p.no := Missed(id)])
  }

  function Drop(s: State, p: Packet): State
    requires p.no < |s.fate|
  {
    s.(hand := Idle, dropped := s.dropped + 1, fate := s.fate[p.no := Dropped])
  }

  predicate Accepts(q: Queue) {
    q.phase != Closed && |q.items| < UDP_SESSION_QUEUE_DEPTH
  }

  /** `try_send`: never waits; a full or closed queue loses the datagram and counts it. */
  function Send(s: State, p: Packet, chan: nat): State
    requires p.no < |s.fate| && chan in s.queues
  {
    var q := s.queues[chan];
    if Accepts(q) then
      s.(hand := Idle, queues := s.queues[chan := q.(items := q.items + [p])], fate := s.fate[p.no := Queued(chan)])
    else Drop(s, p)
  }

  function CheckLimit(s: State, p: Packet): State
    requires p.no < |s.fate|
  {
    if |s.pendingById| >= MAX_PENDING_UDP_SESSIONS then Drop(s, p) else s.(hand := Opening(p))
  }

  /** The first datagram of a client: a new work id, a queue that already holds it, a pending entry. */
  function Open(s: State, p: Packet, id: nat): State
    requires p.no < |s.fate|
  {
    s.(hand := Unindexed(p.client, id),
       queues := s.queues[id := Queue(p.client, p.no, [p], [], [], Waiting)],
       pendingById := s.pendingById[id := PendingUdp(p.client, s.now)],
       fate := s.fate[p.no := Queued(id)])
  }

  function IndexClient(s: State, client: Addr, id: nat): State {
    s.(hand := Idle, pendingClient := s.pendingClient[client := id])
  }

  /** `retain` on the paired sessions. */
  function SweepSessions(s: State, timeout: nat): State {
    s.(sessions := s.sessions - (set a | a in s.sessions && s.now - s.sessions[a].lastActive >= timeout))
  }

  // ------------------------------------------------------------------ removing a pending entry

  /** First half of `remove_pending`: whoever removes the entry owns what was in it. */
  function Remove(s: State, id: nat, purpose: Purpose): State {
    if id in s.pendingById
    then s.(pendingById := s.pendingById - {id}, removals := s.removals[id := Removed(purpose)])
    else s
  }

  /** Second half: forget the client, but only while it is still mapped to this very id. */
  function ClearClient(s: State, id: nat): State
    requires id in s.queues && id in s.removals
  {
    var client := s.queues[id].client;
    s.(removals := s.removals[id := Cleared(s.removals[id].purpose)],
       pendingClient := if client in s.pendingClient && s.pendingClient[client] == id
                        then s.pendingClient - {client} else s.pendingClient)
  }

  /** A queue is dropped with whatever it still holds. */
  function DropQueue(s: State, id: nat): State
    requires id in s.queues && |s.fate| == |s.arrivals|
  {
    var q := s.queues[id];
    s.(queues := s.queues[id := q.(items := [], batch := [], phase := Closed)],
       fate := seq(|s.fate|, i requires 0 <= i < |s.fate| =>
         if s.fate[i] == Queued(id) || s.fate[i] == InBatch(id) then Discarded(id) else s.fate[i]))
  }

  /** The removal ends: the entry is dropped, or its client becomes a paired session. */
  function FinishRemoval(s: State, id: nat): State
    requires id in s.queues && id in s.removals && |s.fate| == |s.arrivals|
  {
    var t := s.(removals := s.removals - {id});
    if s.removals[id].purpose == Discard then DropQueue(t, id)
    else
      var q := s.queues[id];
      t.(sessions := s.sessions[q.client := UdpSession(id, s.now)], queues := s.queues[id := q.(phase := Serving)])
  }

  // ------------------------------------------------------------------ a work connection at work

  /** `recv_many`: take up to a batch out of the queue. */
  function TakeBatch(s: State, id: nat, n: nat): State
    requires id in s.queues && n <= |s.queues[id].items| && |s.fate| == |s.arrivals|
  {
    var q := s.queues[id];
    var taken := q.items[..n];
    Touch(s, q.client)
    .(queues := s.queues[id := q.(items := q.items[n..], batch := taken)],
      fate := seq(|s.fate|, i requires 0 <= i < |s.fate| => if s.arrivals[i] in taken then InBatch(id) else s.fate[i]))
  }

  /** The batch is written as a whole, or the write fails and the connection stops. */
  function WriteBatch(s: State, id: nat, ok: bool): State
    requires id in s.queues && |s.fate| == |s.arrivals|
  {
    var q := s.queues[id];
    s.(queues := s.queues[id := q.(batch := [], written := if ok then q.written + q.batch else q.written,
                                   phase := if ok then q.phase else Stopping)],
       fate := seq(|s.fate|, i requires 0 <= i < |s.fate| =>
         if s.fate[i] == InBatch(id) then (if ok then WrittenTo(id) else Discarded(id)) else s.fate[i]))
  }

  /** The connection ends: it removes its client's session entry, whichever that is by now. */
  function Unpair(s: State, id: nat): State
    requires id in s.queues
  {
    s.(sessions := s.sessions - {s.queues[id].client},
       queues := s.queues[id := s.queues[id].(phase := Stopping)])
  }
}
