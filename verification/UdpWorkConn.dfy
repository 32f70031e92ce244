/**
 A UDP work connection from end to end: what the proxy's receive loop put into a queue comes out of
 the reader at the other end of the stream.
 */
module UdpWorkConn {
  import opened Bytes
  import opened Streams
  import opened UdpFraming
  import opened UdpSections
  import opened Wrappers
  import Ledger = UdpLedger
  import T = UdpTables
  import U = UdpProxy

  lemma DatasAppend(ps: seq<Packet>, qs: seq<Packet>)
    ensures Datas(ps + qs) == Datas(ps) + Datas(qs)
  {
  }

  /** Datagrams come out of a receive buffer of this size, so they never exceed it. */
  predicate Received(ps: seq<Packet>) {
    AllFit(Datas(ps))
  }

  /** One turn of the upstream branch: take what is ready, write it as one block, recycle the buffers. */
  method ServeBatch(proxy: U.UdpProxy, id: nat, n: nat, w: Sink, scratch: Scratch) returns (ok: bool)
    requires proxy.Valid() && Ledger.TaskEnabled(proxy.View(), Ledger.BatchTaken(id, n))
    requires Received(proxy.queues[id].written) && w.sent == Wire(Datas(proxy.queues[id].written))
    modifies proxy, w, scratch
    ensures proxy.Valid() && id in proxy.queues
    ensures ok <==> Received(old(proxy.queues)[id].items[..n])
    ensures proxy.queues[id].written
            == old(proxy.queues)[id].written + if ok then old(proxy.queues)[id].items[..n] else []
    ensures Received(proxy.queues[id].written) && w.sent == Wire(Datas(proxy.queues[id].written))
  {
    hide Ledger.Inv, T.Settled, Wire;
    ghost var before := proxy.queues[id].written;
    var batch := proxy.TakeBatch(id, n);
    assert proxy.queues[id].written == before && proxy.queues[id].batch == batch;
    ok := WriteUdpFramesBuffered(w, scratch, Datas(batch));
    proxy.FinishBatch(id, ok);
    if ok {
      WireAppend(Datas(before), Datas(batch));
      DatasAppend(before, batch);
    }
  }

  /**
   For every run of the proxy, every work connection, every cut of its bytes on the way and every
   limit per read: the other end gets exactly the datagrams that were written, which are an in-order
   subsequence of its client's datagrams starting with the one that opened the connection.
   */
  lemma DatagramsArriveInOrder(s: State, c: nat, r: Reader, limits: seq<nat>)
    requires Ledger.Reachable(s) && c in s.queues && Received(s.queues[c].written)
    requires Ahead(r) == Wire(Datas(s.queues[c].written))
    requires Positive(limits) && |limits| > |s.queues[c].written| + Interrupts(r.items)
    ensures
      var q, got := s.queues[c], ReadOn(r, Eof, limits);
      && got.out == Datas(q.written) && got.final == Some(Batch([]))
      && Ledger.Subsequence(q.written, Ledger.FromClient(s.arrivals, q.client))
      && (q.written != [] ==> q.written[0].no == q.opener)
  {
    hide Wire, Content, ReadOn, Interrupts, Ledger.Reachable, Ledger.FromClient;
    BatchingIsTransparent(Datas(s.queues[c].written), r, limits);
    Ledger.OutputFollowsArrivals(s, c);
    var q := s.queues[c];
    assert q.written + (q.batch + q.items) == q.written + q.batch + q.items;
    Ledger.PrefixOfSubsequence(q.written, q.batch + q.items, Ledger.FromClient(s.arrivals, q.client));
  }
}
