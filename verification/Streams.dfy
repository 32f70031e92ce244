/**
 Byte streams as the readers see them. What the peer sent arrives cut into pieces in any way at all;
 between two pieces a reader may be interrupted, which is what happens to a read inside a `select!`
 when another branch wins. After the last piece comes the end of the stream, or an I/O error.
 */
module Streams {
  import opened Bytes

  datatype Item = Chunk(data: seq<byte>) | Interrupt

  datatype End = Eof | Failed

  /** A read that returns no bytes means end of stream, so pieces are not empty. */
  predicate WellCut(items: seq<Item>) {
    forall i | 0 <= i < |items| && items[i].Chunk? :: items[i].data != []
  }

  /** All the bytes, whatever the cuts. */
  function Content(items: seq<Item>): seq<byte> {
    if items == [] then []
    else (if items[0].Chunk? then items[0].data else []) + Content(items[1..])
  }

  function Interrupts(items: seq<Item>): nat {
    if items == [] then 0 else (if items[0].Interrupt? then 1 else 0) + Interrupts(items[1..])
  }

  datatype ReadEvent = Data(data: seq<byte>) | Ended | Broken | Interrupted

  /** What one read with room for `max` bytes returns, and what is still to come. */
  function ReadPlain(items: seq<Item>, end: End, max: nat): (ReadEvent, seq<Item>) {
    if items == [] then (if end == Eof then Ended else Broken, [])
    else
      match items[0]
      case Interrupt => (Interrupted, items[1..])
      case Chunk(data) =>
        if |data| <= max then (Data(data), items[1..]) else (Data(data[..max]), [Chunk(data[max..])] + items[1..])
  }

  class Stream {
    var items: seq<Item>
    const end: End

    constructor (items: seq<Item>, end: End)
      ensures this.items == items && this.end == end
    {
      this.items, this.end := items, end;
    }

    /** One read into a buffer that grows as needed. */
    method ReadPiece() returns (r: ReadEvent)
      requires WellCut(items)
      modifies this
      ensures WellCut(items) && |items| <= |old(items)| && r != Data([])
      ensures old(items) == [] ==> items == [] && r == if end == Eof then Ended else Broken
      ensures old(items) != [] ==>
                && items == old(items)[1..]
                && r == if old(items)[0].Chunk? then Data(old(items)[0].data) else Interrupted
    {
      if items == [] {
        return if end == Eof then Ended else Broken;
      }
      r := if items[0].Chunk? then Data(items[0].data) else Interrupted;
      items := items[1..];
    }

    /** One read into a buffer with room for `max` bytes. */
    method Read(max: nat) returns (r: ReadEvent)
      requires WellCut(items) && max > 0
      modifies this
      ensures WellCut(items) && (r, items) == ReadPlain(old(items), end, max)
      ensures old(items) == [] ==> items == [] && r == if end == Eof then Ended else Broken
      ensures old(items) != [] && old(items)[0].Interrupt? ==> r == Interrupted && items == old(items)[1..]
      ensures old(items) != [] && old(items)[0].Chunk? ==>
                && r.Data? && 0 < |r.data| <= max && Content(old(items)) == r.data + Content(items)
                && Interrupts(items) == Interrupts(old(items))
    {
      if items == [] {
        return if end == Eof then Ended else Broken;
      }
      match items[0]
      case Interrupt =>
        items := items[1..];
        return Interrupted;
      case Chunk(data) =>
        if |data| <= max {
          items := items[1..];
          return Data(data);
        }
        items := [Chunk(data[max..])] + items[1..];
        return Data(data[..max]);
    }
  }

  /** Fill `want` bytes, read by read; fewer mean the stream ended or failed. */
  method ReadExact(s: Stream, want: nat) returns (got: seq<byte>, broken: bool)
    requires WellCut(s.items) && Interrupts(s.items) == 0
    modifies s
    ensures WellCut(s.items) && Interrupts(s.items) == 0
    ensures old(Content(s.items)) == got + Content(s.items) && |got| <= want
    ensures |got| < want ==> Content(s.items) == [] && (broken <==> s.end == Failed)
  {
    got, broken := [], false;
    while |got| < want
      invariant WellCut(s.items) && Interrupts(s.items) == 0
      invariant old(Content(s.items)) == got + Content(s.items) && |got| <= want
      decreases want - |got|
    {
      var r := s.Read(want - |got|);
      if !r.Data? {
        return got, r == Broken;
      }
      got := got + r.data;
    }
  }
}
