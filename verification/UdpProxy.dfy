/**
 A UDP proxy as an object: the handlers of the receive loop, the sweep and the work connections,
 updating its tables, queues and recycled buffers in place. Each is proved against the step of
 `UdpTables` that specifies it.
 */
module UdpProxy {
  import opened Bytes
  import opened Numbers
  import opened Wrappers
  import opened UdpSections
  import Ledger = UdpLedger
  import T = UdpTables

  const UDP_PACKET_POOL_MAX: nat := 256

  /** How many more buffers the pool takes. */
  function Room(pool: seq<seq<byte>>): nat {
    if |pool| < UDP_PACKET_POOL_MAX then UDP_PACKET_POOL_MAX - |pool| else 0
  }

  class UdpProxy {
    var sessions: map<Addr, UdpSession>
    var pendingById: map<nat, PendingUdp>
    var pendingClient: map<Addr, nat>
    var queues: map<nat, Queue>
    var packetPool: seq<seq<byte>>
    var dropped: nat
    var received: nat
    var now: nat
    const sessionTimeout: nat
    const pendingTimeout: nat

    ghost var arrivals: seq<Packet>
    ghost var fate: seq<Place>

    ghost function View(): State
      reads this
    {
      State(sessions, pendingById, pendingClient, queues, Idle, map[], dropped, now, arrivals, fate)
    }

    ghost predicate Valid()
      reads this
    {
      T.Settled(View()) && Ledger.Inv(View()) && received == |arrivals| && |packetPool| <= UDP_PACKET_POOL_MAX
    }

    constructor (sessionTimeout: nat, pendingTimeout: nat)
      ensures Valid() && View() == Init() && packetPool == []
    {
      this.sessionTimeout, this.pendingTimeout := sessionTimeout, pendingTimeout;
      sessions, pendingById, pendingClient, queues := map[], map[], map[], map[];
      packetPool, dropped, received, now := [], 0, 0, 0;
      arrivals, fate := [], [];
      new;
      Ledger.InitInv();
    }

    // ---------------------------------------------------------------- buffers

    /** A packet with a copy of the datagram, in a recycled buffer when there is one; what the buffer held is gone. */
    method AllocUdpPacket(client: Addr, data: seq<byte>) returns (p: Packet)
      modifies this`packetPool
      ensures p == Packet(received, client, data)
      ensures packetPool == if old(packetPool) == [] then [] else old(packetPool)[..|old(packetPool)| - 1]
    {
      var buf: seq<byte> := [];
      if packetPool != [] {
        buf := packetPool[|packetPool| - 1];
        packetPool := packetPool[..|packetPool| - 1];
      }
      buf := [];
      buf := buf + data;
      p := Packet(received, client, buf);
    }

    /** The written packets give their buffers back while there is room; the batch is empty either way. */
    method RecyclePackets(packets: seq<Packet>) returns (left: seq<Packet>)
      modifies this`packetPool
      ensures left == []
      ensures
        var room := if |old(packetPool)| < 256 then 256 - |old(packetPool)| else 0;
        packetPool == old(packetPool) + Datas(packets[..Min(|packets|, room)])
    {
      var i := 0;
      while i < |packets| && |packetPool| < UDP_PACKET_POOL_MAX
        invariant i <= Min(|packets|, Room(old(packetPool)))
        invariant packetPool == old(packetPool) + Datas(packets[..i])
      {
        assert Datas(packets[..i + 1]) == Datas(packets[..i]) + [packets[i].data];
        packetPool := packetPool + [packets[i].data];
        i := i + 1;
      }
      left := [];
    }

    // ---------------------------------------------------------------- the receive loop

    /** Put a packet into a queue if it has room; `false` means the packet is gone. */
    method TrySend(p: Packet, chan: nat) returns (sent: bool)
      requires chan in queues
      modifies this`queues
      ensures sent <==> Accepts(old(queues)[chan])
      ensures queues == if sent then old(queues)[chan := old(queues)[chan].(items := old(queues)[chan].items + [p])]
              else old(queues)
    {
      var q := queues[chan];
      sent := q.phase != Closed && |q.items| < UDP_SESSION_QUEUE_DEPTH;
      if sent {
        queues := queues[chan := q.(items := q.items + [p])];
      }
    }

    /** Allocate a packet and offer it to a queue; a refusal is counted. */
    method Deliver(client: Addr, data: seq<byte>, chan: nat)
      requires chan in queues && received == |arrivals| == |fate|
      modifies this`packetPool, this`queues, this`dropped, this`received, this`arrivals, this`fate
      ensures received == old(received) + 1 && |packetPool| <= |old(packetPool)|
      ensures
        var p := Packet(|old(arrivals)|, client, data);
        View() == Send(old(View()).(hand := Sending(p, chan), arrivals := old(arrivals) + [p],
          fate := old(fate) + [InHand]), p, chan)
    {
      var p := AllocUdpPacket(client, data);
      var sent := TrySend(p, chan);
      if !sent {
        dropped := dropped + 1;
      }
      received := received + 1;
      arrivals, fate := arrivals + [p], (fate + [InHand])[p.no := if sent then Queued(chan) else Dropped];
    }

    method HandleDatagram(client: Addr, data: seq<byte>, id: nat)
      requires Valid() && id !in queues
      modifies this
      ensures Valid() && View() == T.HandleDatagram(old(View()), client, data, id)
    {
      hide Ledger.Inv, T.TablesOk;
      T.StepKeepsBoth(View(), T.Datagram(client, data, id));
      DatagramBody(client, data, id);
    }

    method DatagramBody(client: Addr, data: seq<byte>, id: nat)
      requires T.Linked(View()) && id !in queues && received == |arrivals|
      modifies this
      ensures View() == T.HandleDatagram(old(View()), client, data, id)
      ensures received == |arrivals| && |packetPool| <= |old(packetPool)|
    {
      if client in sessions {
        sessions := sessions[client := sessions[client].(lastActive := now)];
        Deliver(client, data, sessions[client].chan);
      } else if client in pendingClient {
        var waiting := pendingClient[client];
        if waiting in pendingById {
          Deliver(client, data, waiting);
        } else {
          received := received + 1;
          arrivals, fate := arrivals + [Packet(|arrivals|, client, data)],
            (fate + [InHand])[|arrivals| := Missed(waiting)];
        }
      } else if |pendingById| >= MAX_PENDING_UDP_SESSIONS {
        dropped, received := dropped + 1, received + 1;
        arrivals, fate := arrivals + [Packet(|arrivals|, client, data)], (fate + [InHand])[|arrivals| := Dropped];
      } else {
        var p := AllocUdpPacket(client, data);
        received := received + 1;
        arrivals, fate := arrivals + [p], (fate + [InHand])[p.no := Queued(id)];
        queues := queues[id := Queue(client, p.no, [p], [], [], Waiting)];
        pendingById := pendingById[id := PendingUdp(client, now)];
        pendingClient := pendingClient[client := id];
      }
    }

    // ---------------------------------------------------------------- pending entries

    /** Remove a pending entry; its client is forgotten only while it is still mapped to this id. */
    method RemovePending(id: nat) returns (pending: Option<PendingUdp>)
      modifies this`pendingById, this`pendingClient
      ensures pending == if id in old(pendingById) then Some(old(pendingById)[id]) else None
      ensures pendingById == if pending.Some? then old(pendingById) - {id} else old(pendingById)
      ensures
        pendingClient == if pending.Some? && pending.value.client in old(pendingClient)
                            && old(pendingClient)[pending.value.client] == id
                         then old(pendingClient) - {pending.value.client} else old(pendingClient)
    {
      if id !in pendingById {
        return None;
      }
      pending := Some(pendingById[id]);
      pendingById := pendingById - {id};
      var client := pending.value.client;
      if client in pendingClient && pendingClient[client] == id {
        pendingClient := pendingClient - {client};
      }
    }

    /** The request for a work connection could not be sent, or nobody answered it in time. */
    method DiscardPending(id: nat)
      requires Valid()
      modifies this
      ensures Valid() && View() == T.RemovePending(old(View()), id, Discard) && now == old(now)
    {
      hide Ledger.Inv, DropQueue, T.TablesOk;
      ghost var s := View();
      T.StepKeepsBoth(s, T.Failed(id));
      if id in pendingById {
        T.DiscardOutcome(s, id);
      }
      var pending := RemovePending(id);
      if pending.Some? {
        CloseQueue(id);
      }
    }

    /** The receiving half of a queue goes out of scope. */
    method CloseQueue(id: nat)
      requires id in queues && |fate| == |arrivals|
      modifies this`queues, this`fate
      ensures View() == DropQueue(old(View()), id)
    {
      assert DropQueue(View(), id).fate == Ledger.ClosedFate(fate, id);
      fate := Ledger.ClosedFate(fate, id);
      queues := queues[id := queues[id].(items := [], batch := [], phase := Closed)];
    }

    method Sweep()
      requires Valid()
      modifies this
      ensures Valid() && View() == T.Sweep(old(View()), sessionTimeout, pendingTimeout)
      ensures forall a | a in sessions :: now - sessions[a].lastActive < sessionTimeout
      ensures forall id | id in pendingById :: now - pendingById[id].created < pendingTimeout
    {
      hide Ledger.Inv, T.TablesOk, T.DiscardAll;
      T.SweepOutcome(View(), sessionTimeout, pendingTimeout);
      T.SweepKeepsSettled(View(), sessionTimeout, pendingTimeout);
      Ledger.SweepKeepsInv(View(), sessionTimeout);
      sessions := sessions - (set a | a in sessions && now - sessions[a].lastActive >= sessionTimeout);
      var expired := set id | id in pendingById && now - pendingById[id].created >= pendingTimeout;
      DiscardExpired(expired);
    }

    method DiscardExpired(expired: set<nat>)
      requires Valid() && expired <= pendingById.Keys
      modifies this
      ensures Valid() && View() == T.DiscardAll(old(View()), expired) && unchanged(`now)
    {
      hide Ledger.Inv, T.TablesOk, T.RemovePending, T.DiscardAll;
      ghost var start := View();
      var todo := expired;
      T.DiscardNone(start);
      assert expired - todo == {};
      while todo != {}
        invariant Valid() && todo <= expired
        invariant View() == T.DiscardAll(start, expired - todo) && now == old(now)
        decreases |todo|
      {
        var id :| id in todo;
        T.DiscardOneMore(start, expired - todo, id);
        DiscardPending(id);
        assert expired - todo + {id} == expired - (todo - {id});
        todo := todo - {id};
      }
      assert expired - todo == expired;
    }

    // ---------------------------------------------------------------- work connections

    /** A work connection presents an id: it takes the pending entry over, or finds none and goes away. */
    method StartWorkConnection(id: nat) returns (started: bool)
      requires Valid()
      modifies this
      ensures Valid() && View() == T.RemovePending(old(View()), id, Serve)
      ensures started <==> id in old(pendingById)
    {
      hide Ledger.Inv, T.TablesOk, DropQueue, ClearClient, FinishRemoval;
      T.StepKeepsBoth(View(), T.Connected(id));
      if id in pendingById {
        T.ServeOutcome(View(), id);
      }
      var pending := RemovePending(id);
      if pending.None? {
        return false;
      }
      var client := pending.value.client;
      sessions := sessions[client := UdpSession(id, now)];
      queues := queues[id := queues[id].(phase := Serving)];
      return true;
    }

    method TouchSession(client: Addr)
      modifies this`sessions
      ensures View() == Touch(old(View()), client)
    {
      if client in sessions {
        sessions := sessions[client := sessions[client].(lastActive := now)];
      }
    }

    /** `recv_many`: the `n` oldest waiting datagrams leave the queue and become the batch. */
    method TakeBatch(id: nat, n: nat) returns (batch: seq<Packet>)
      requires Valid() && Ledger.TaskEnabled(View(), Ledger.BatchTaken(id, n))
      modifies this
      ensures batch == old(queues)[id].items[..n] && 1 <= |batch| <= 32
      ensures id in queues && queues[id].items == old(queues)[id].items[n..]
      ensures Valid() && View() == UdpSections.TakeBatch(old(View()), id, n)
    {
      hide Ledger.Inv, T.TablesOk;
      T.StepKeepsBoth(View(), T.Moved(Ledger.BatchTaken(id, n)));
      ghost var next := UdpSections.TakeBatch(View(), id, n);
      var q := queues[id];
      batch := q.items[..n];
      queues := queues[id := q.(items := q.items[n..], batch := batch)];
      fate := next.fate;
      TouchSession(q.client);
    }

    /** The batch has been written, and its buffers are recycled, or the write failed and it is gone. */
    method FinishBatch(id: nat, ok: bool)
      requires Valid() && Ledger.TaskEnabled(View(), Ledger.BatchWritten(id, ok))
      modifies this
      ensures
        var (batch, room) := (old(queues)[id].batch, if |old(packetPool)| < 256 then 256 - |old(packetPool)| else 0);
        packetPool == old(packetPool) + if ok then Datas(batch[..Min(|batch|, room)]) else []
      ensures id in queues && queues[id].batch == []
      ensures Valid() && View() == UdpSections.WriteBatch(old(View()), id, ok)
    {
      hide Ledger.Inv, T.TablesOk;
      T.StepKeepsBoth(View(), T.Moved(Ledger.BatchWritten(id, ok)));
      ghost var next := UdpSections.WriteBatch(View(), id, ok);
      var q := queues[id];
      fate := next.fate;
      if ok {
        var left := RecyclePackets(q.batch);
        queues := queues[id := q.(batch := left, written := q.written + q.batch)];
      } else {
        queues := queues[id := q.(batch := [], phase := Stopping)];
      }
    }

    /** The work connection ends: the session of its client goes, and with it the queue. */
    method CloseWorkConnection(id: nat)
      requires Valid() && id in queues && queues[id].phase in {Serving, Stopping}
      modifies this
      ensures Valid() && View() == T.Close(old(View()), id)
    {
      hide Ledger.Inv, T.TablesOk, DropQueue;
      T.StepKeepsBoth(View(), T.Finished(id));
      sessions := sessions - {queues[id].client};
      queues := queues[id := queues[id].(phase := Stopping)];
      assert sessions == old(sessions) - {queues[id].client};
      CloseQueue(id);
    }
  }
}
