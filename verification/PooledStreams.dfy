/**
 Taking a work connection out of a pool: each one is probed with a single read that does not wait,
 and a byte that the probe happens to consume is put back in front of the stream.
 */
module PooledStreams {
  import opened Bytes
  import opened Streams
  import opened Wrappers

  /** Bytes to replay first, then the stream itself. */
  datatype Source = Source(front: seq<byte>, items: seq<Item>)

  function Remaining(s: Source): seq<byte> {
    s.front + Content(s.items)
  }

  function ReadSource(s: Source, end: End, max: nat): (ReadEvent, Source) {
    if s.front != [] then
      var n := if |s.front| <= max then |s.front| else max;
      (Data(s.front[..n]), Source(s.front[n..], s.items))
    else
      var (r, items) := ReadPlain(s.items, end, max);
      (r, Source([], items))
  }

  /** A connection is dead when a read would end or fail at once. */
  predicate Dead(items: seq<Item>) {
    items == []
  }

  /** `None` for a dead connection, otherwise the stream to use from now on. */
  function Probe(items: seq<Item>, end: End): Option<Source> {
    var (r, rest) := ReadPlain(items, end, 1);
    match r
    case Interrupted => Some(Source([], rest))
    case Data(data) => if data == [] then None else Some(Source(data, rest))
    case _ => None
  }

  /** What a reader gets with buffers of these sizes, and what is left. */
  function ReadAll(s: Source, end: End, sizes: seq<nat>): (seq<byte>, ReadEvent, Source)
    decreases |sizes|
  {
    if sizes == [] then ([], Interrupted, s)
    else
      var (r, t) := ReadSource(s, end, sizes[0]);
      if r.Ended? || r.Broken? then ([], r, t)
      else
        var (got, last, u) := ReadAll(t, end, sizes[1..]);
        ((if r.Data? then r.data else []) + got, last, u)
  }

  lemma ReadKeepsBytes(s: Source, end: End, max: nat)
    ensures
      var (r, t) := ReadSource(s, end, max);
      && Remaining(s) == (if r.Data? then r.data else []) + Remaining(t)
      && (r.Ended? || r.Broken? ==> Remaining(s) == [] && (r.Ended? <==> end == Eof))
  {
    if s.front == [] && s.items != [] && s.items[0].Chunk? && |s.items[0].data| > max {
      var data := s.items[0].data;
      assert data == data[..max] + data[max..];
      assert ([Chunk(data[max..])] + s.items[1..])[1..] == s.items[1..];
    }
  }

  lemma {:induction false} ReadAllKeepsBytes(s: Source, end: End, sizes: seq<nat>)
    ensures
      var (got, last, t) := ReadAll(s, end, sizes);
      && Remaining(s) == got + Remaining(t)
      && (last.Ended? || last.Broken? ==> got == Remaining(s) && (last.Ended? <==> end == Eof))
    decreases |sizes|
  {
    hide ReadSource, Content;
    if sizes != [] {
      ReadKeepsBytes(s, end, sizes[0]);
      ReadAllKeepsBytes(ReadSource(s, end, sizes[0]).1, end, sizes[1..]);
    }
  }

  /**
   The probe leaves no trace: with every sequence of buffer sizes, reading the probed stream yields
   the bytes of the original one in order, all of them by the time it ends, and it ends the same way.
   */
  lemma ProbeIsTransparent(items: seq<Item>, end: End, sizes: seq<nat>)
    requires WellCut(items) && Probe(items, end).Some?
    ensures
      var (got, last, left) := ReadAll(Probe(items, end).value, end, sizes);
      && Content(items) == got + Remaining(left)
      && (last.Ended? || last.Broken? ==> got == Content(items) && (last.Ended? <==> end == Eof))
  {
    hide Content, ReadAll;
    ReadKeepsBytes(Source([], items), end, 1);
    assert Remaining(Source([], items)) == Content(items);
    ReadAllKeepsBytes(Probe(items, end).value, end, sizes);
  }

  /** A probe finds exactly the dead. */
  lemma ProbeFindsTheDead(items: seq<Item>, end: End)
    requires WellCut(items)
    ensures Probe(items, end).None? <==> Dead(items)
    ensures Probe(items, end).Some? ==> Remaining(Probe(items, end).value) == Content(items)
  {
    hide Content;
    if items != [] {
      assert items[0].Chunk? ==> items[0].data != [];
      ProbedContent(items, end);
    }
  }

  lemma ProbedContent(items: seq<Item>, end: End)
    requires items != [] && (items[0].Chunk? ==> items[0].data != [])
    ensures Probe(items, end).Some? && Remaining(Probe(items, end).value) == Content(items)
  {
    var rest := items[1..];
    match items[0]
    case Interrupt => assert [] + Content(rest) == Content(rest);
    case Chunk(data) =>
      if |data| > 1 {
        assert ([Chunk(data[1..])] + rest)[1..] == rest;
        hide Content;
        assert data == data[..1] + data[1..];
        assert data[..1] + (data[1..] + Content(rest)) == data + Content(rest);
        assert Content([Chunk(data[1..])] + rest) == data[1..] + Content(rest) by {
          ContentCons(Chunk(data[1..]), rest);
        }
        assert Content(items) == data + Content(rest) by {
          ContentCons(items[0], rest);
          assert [items[0]] + rest == items;
        }
      }
  }

  lemma ContentCons(item: Item, rest: seq<Item>)
    ensures Content([item] + rest) == (if item.Chunk? then item.data else []) + Content(rest)
  {
    assert ([item] + rest)[1..] == rest;
  }

  // ------------------------------------------------------------------ the objects

  class PrependStream {
    var buf: seq<byte>
    const inner: Stream

    constructor (buf: seq<byte>, inner: Stream)
      ensures this.buf == buf && this.inner == inner
    {
      this.buf, this.inner := buf, inner;
    }

    method PollRead(max: nat) returns (r: ReadEvent)
      requires WellCut(inner.items) && max > 0
      modifies this, inner
      ensures WellCut(inner.items)
      ensures (r, Source(buf, inner.items)) == ReadSource(old(Source(buf, inner.items)), inner.end, max)
    {
      if buf != [] {
        var n := if |buf| <= max then |buf| else max;
        r := Data(buf[..n]);
        buf := buf[n..];
      } else {
        r := inner.Read(max);
      }
    }
  }

  /** A connection as it is, or one with a byte to replay. */
  datatype Boxed = Direct(plain: Stream) | Replaying(wrapped: PrependStream)

  ghost function Ahead(b: Boxed): seq<byte>
    reads if b.Direct? then {b.plain} else {b.wrapped, b.wrapped.inner}
  {
    match b
    case Direct(plain) => Content(plain.items)
    case Replaying(wrapped) => wrapped.buf + Content(wrapped.inner.items)
  }

  method ProbeAlive(work: Stream) returns (r: Option<Boxed>)
    requires WellCut(work.items)
    modifies work
    ensures WellCut(work.items)
    ensures r.None? <==> Dead(old(work.items))
    ensures r.Some? ==> Ahead(r.value) == old(Content(work.items))
    ensures r.Some? ==>
              || (r.value.Direct? && r.value.plain == work)
              || (r.value.Replaying? && r.value.wrapped.inner == work && fresh(r.value.wrapped))
  {
    var e := work.Read(1);
    match e
    case Interrupted => return Some(Direct(work));
    case Data(data) =>
      var p := new PrependStream(data, work);
      return Some(Replaying(p));
    case _ => return None;
  }

  class SessionPool {
    var streams: seq<Stream>

    ghost predicate Valid()
      reads this, streams
    {
      && (forall i, j | 0 <= i < j < |streams| :: streams[i] != streams[j])
      && (forall i | 0 <= i < |streams| :: WellCut(streams[i].items))
    }

    /**
     The newest connection that is alive, with all its bytes; the dead ones above it are gone, those
     below it untouched. The loop ends because every turn takes one connection out.
     */
    method PopLivePooled() returns (r: Option<Boxed>)
      requires Valid()
      modifies this, streams
      ensures Valid() && streams <= old(streams)
      ensures forall i | |streams| < i < |old(streams)| :: Dead(old(streams[i].items))
      ensures forall i | 0 <= i < |streams| :: streams[i].items == old(streams[i].items)
      ensures r.None? ==> streams == [] && forall i | 0 <= i < |old(streams)| :: Dead(old(streams[i].items))
      ensures
        var k := |streams|;
        r.Some? ==>
          k < |old(streams)| && !Dead(old(streams[k].items)) && Ahead(r.value) == old(Content(streams[k].items))
    {
      hide Content, ReadPlain;
      ghost var start := streams;
      while streams != []
        invariant Valid() && streams <= start
        invariant forall i | |streams| <= i < |start| :: Dead(old(start[i].items))
        invariant forall i | 0 <= i < |streams| :: start[i].items == old(start[i].items)
        decreases |streams|
      {
        var work := streams[|streams| - 1];
        streams := streams[..|streams| - 1];
        r := ProbeAlive(work);
        if r.Some? {
          return;
        }
      }
      return None;
    }
  }
}
