/**
 Datagrams on a work connection: a 4-byte big-endian length and the data, in a row.

 The writers put a whole batch into one buffer; the readers see the bytes cut in any way. `Parse` is
 the one-shot meaning of a byte string, and both readers are proved against it.
 */
module UdpFraming {
  import opened Bytes
  import opened Streams
  import opened Wrappers

  const MAX_UDP_PACKET_SIZE: nat := 65507

  type Datagram = seq<byte>

  predicate Fits(d: Datagram) {
    |d| <= MAX_UDP_PACKET_SIZE
  }

  predicate AllFit(ds: seq<Datagram>) {
    forall i | 0 <= i < |ds| :: Fits(ds[i])
  }

  function Frame(d: Datagram): seq<byte>
    requires Fits(d)
  {
    ToBe32(|d|) + d
  }

  function Wire(ds: seq<Datagram>): seq<byte>
    requires AllFit(ds)
  {
    if ds == [] then [] else Frame(ds[0]) + Wire(ds[1..])
  }

  /** The length a frame announces, byte by byte. */
  function Announced(b: seq<byte>): nat
    requires |b| >= 4
  {
    ((b[0] as int * 256 + b[1] as int) * 256 + b[2] as int) * 256 + b[3] as int
  }

  /** Where everything is in a frame, byte by byte; a datagram fits up to 65507 bytes. */
  lemma FrameLayout(d: Datagram)
    ensures Fits(d) <==> |d| <= 65507
    ensures Fits(d) ==>
              var b := Frame(d);
              && |b| == 4 + |d| && b[4..] == d
              && Announced(b) == |d|
  {
    if Fits(d) {
      var b := Frame(d);
      DecodeEncoded(|d|);
      assert b[..4] == ToBe32(|d|);
      assert b[0] == b[..4][0] && b[1] == b[..4][1] && b[2] == b[..4][2] && b[3] == b[..4][3];
      hide ToBe32;
    }
  }

  // ------------------------------------------------------------------ one-shot meaning

  /** What is left after the last whole frame: nothing, part of a frame, or a length above the limit. */
  datatype Tail = Clean | Partial | Oversized

  datatype Parsed = Parsed(frames: seq<Datagram>, tail: Tail, rest: seq<byte>)

  /** The frame at the front, if it is whole. */
  datatype Head = Whole(d: Datagram, rest: seq<byte>) | Unfinished | TooLong

  function ParseHead(b: seq<byte>): (h: Head)
    ensures h.Whole? ==> Fits(h.d) && |h.rest| < |b|
  {
    if |b| < 4 then Unfinished
    else
      var len := Be32(b[..4]);
      if len > MAX_UDP_PACKET_SIZE then TooLong
      else if |b| < 4 + len then Unfinished
      else Whole(b[4..4 + len], b[4 + len..])
  }

  lemma HeadIsFrame(b: seq<byte>)
    requires ParseHead(b).Whole?
    ensures b == Frame(ParseHead(b).d) + ParseHead(b).rest
  {
    EncodeDecoded(b[..4]);
    var len := Be32(b[..4]);
    hide Be32, ToBe32;
    assert b == b[..4] + b[4..4 + len] + b[4 + len..];
  }

  function Parse(b: seq<byte>): (r: Parsed)
    ensures AllFit(r.frames)
    ensures r.tail == Clean <==> r.rest == []
    decreases |b|
  {
    match ParseHead(b)
    case TooLong => Parsed([], Oversized, b)
    case Unfinished => Parsed([], if b == [] then Clean else Partial, b)
    case Whole(d, rest) =>
      var p := Parse(rest);
      Parsed([d] + p.frames, p.tail, p.rest)
  }

  /** A byte string is its frames and what is left of it. */
  lemma {:induction false} ParseKeepsBytes(b: seq<byte>)
    ensures b == Wire(Parse(b).frames) + Parse(b).rest
    decreases |b|
  {
    hide ParseHead, Frame;
    if ParseHead(b).Whole? {
      HeadIsFrame(b);
      ParseKeepsBytes(ParseHead(b).rest);
      ConsKeepsBytes(ParseHead(b).d, Parse(ParseHead(b).rest), b);
    }
  }

  /**
   What any byte string is: frames of at most 65507 bytes, and a rest that is empty, announces more than
   that, or is not a whole frame yet.
   */
  lemma {:induction false} ParseExactly(b: seq<byte>)
    ensures
      var p := Parse(b);
      && b == Wire(p.frames) + p.rest
      && match p.tail
         case Clean => p.rest == []
         case Oversized => |p.rest| >= 4 && Announced(p.rest) > 65507
         case Partial =>
           p.rest != [] && (|p.rest| < 4 || (Announced(p.rest) <= 65507 && |p.rest| < 4 + Announced(p.rest)))
    decreases |b|
  {
    hide Frame, Wire, Be32, Announced;
    ParseKeepsBytes(b);
    if |b| >= 4 {
      AnnouncedIsBe(b);
    }
    if ParseHead(b).Whole? {
      ParseExactly(ParseHead(b).rest);
    }
  }

  lemma AnnouncedIsBe(b: seq<byte>)
    requires |b| >= 4
    ensures Be32(b[..4]) == Announced(b)
  {
    assert b[..4][0] == b[0] && b[..4][1] == b[1] && b[..4][2] == b[2] && b[..4][3] == b[3];
  }

  lemma ConsKeepsBytes(d: Datagram, p: Parsed, b: seq<byte>)
    requires Fits(d) && AllFit(p.frames) && b == Frame(d) + (Wire(p.frames) + p.rest)
    ensures b == Wire([d] + p.frames) + p.rest
  {
    assert ([d] + p.frames)[1..] == p.frames;
  }

  lemma HeadOfFrame(d: Datagram, more: seq<byte>)
    requires Fits(d)
    ensures ParseHead(Frame(d) + more) == Whole(d, more)
  {
    var b := Frame(d) + more;
    DecodeEncoded(|d|);
    hide Be32, ToBe32;
    assert b[..4] == ToBe32(|d|);
    assert b[4..4 + |d|] == d;
    assert b[4 + |d|..] == more;
  }

  lemma ParseCons(d: Datagram, rest: seq<byte>)
    requires Fits(d)
    ensures Parse(Frame(d) + rest) == Parsed([d] + Parse(rest).frames, Parse(rest).tail, Parse(rest).rest)
  {
    hide ParseHead, Frame;
    HeadOfFrame(d, rest);
  }

  lemma WireCons(ds: seq<Datagram>, more: seq<byte>)
    requires AllFit(ds) && ds != []
    ensures Wire(ds) + more == Frame(ds[0]) + (Wire(ds[1..]) + more)
  {
    hide Frame;
  }

  /** Reading what was written gives back the datagrams, whatever follows. */
  lemma {:induction false} ParseWire(ds: seq<Datagram>, more: seq<byte>)
    requires AllFit(ds)
    ensures
      var p := Parse(more);
      Parse(Wire(ds) + more) == Parsed(ds + p.frames, p.tail, p.rest)
  {
    hide Parse, Frame;
    if ds == [] {
      assert Wire(ds) + more == more;
      assert ds + Parse(more).frames == Parse(more).frames;
    } else {
      hide Wire;
      WireCons(ds, more);
      ParseCons(ds[0], Wire(ds[1..]) + more);
      ParseWire(ds[1..], more);
      JoinHead(ds, Parse(more).frames);
    }
  }

  lemma JoinHead<T>(xs: seq<T>, ys: seq<T>)
    requires xs != []
    ensures [xs[0]] + (xs[1..] + ys) == xs + ys
  {
  }

  /** The grouping of datagrams into writes leaves no trace on the wire. */
  lemma {:induction false} WireAppend(ds: seq<Datagram>, es: seq<Datagram>)
    requires AllFit(ds) && AllFit(es)
    ensures AllFit(ds + es) && Wire(ds + es) == Wire(ds) + Wire(es)
  {
    hide Frame;
    if ds == [] {
      assert ds + es == es;
    } else {
      assert (ds + es)[1..] == ds[1..] + es;
      WireAppend(ds[1..], es);
      WireCons(ds, Wire(es));
      assert Wire(ds + es) == Frame(ds[0]) + (Wire(ds[1..]) + Wire(es));
    }
  }

  // ------------------------------------------------------------------ writers

  class Scratch {
    var data: seq<byte>
  }

  /** The sending side of a stream: all the bytes handed to it. */
  class Sink {
    var sent: seq<byte>
  }

  method AppendUdpFrame(scratch: Scratch, data: Datagram) returns (ok: bool)
    modifies scratch
    ensures ok <==> |data| <= 65507
    ensures scratch.data == old(scratch.data) + if ok then Frame(data) else []
  {
    if |data| > MAX_UDP_PACKET_SIZE {
      return false;
    }
    scratch.data := scratch.data + ToBe32(|data|);
    scratch.data := scratch.data + data;
    return true;
  }

  /** One write for the whole batch; a datagram above the limit fails the batch and nothing is sent. */
  method WriteUdpFramesBuffered(w: Sink, scratch: Scratch, batch: seq<Datagram>) returns (ok: bool)
    modifies w, scratch
    ensures ok <==> forall i | 0 <= i < |batch| :: |batch[i]| <= 65507
    ensures w.sent == old(w.sent) + if ok then Wire(batch) else []
  {
    scratch.data := [];
    for i := 0 to |batch|
      invariant AllFit(batch[..i]) && scratch.data == Wire(batch[..i]) && w.sent == old(w.sent)
    {
      var fits := AppendUdpFrame(scratch, batch[i]);
      if !fits {
        return false;
      }
      WireAppend(batch[..i], [batch[i]]);
      assert batch[..i + 1] == batch[..i] + [batch[i]];
    }
    assert batch[..|batch|] == batch;
    w.sent := w.sent + scratch.data;
    return true;
  }

  // ------------------------------------------------------------------ the batch reader, as a function

  datatype Outcome =
    | Batch(frames: seq<Datagram>)
    | TooLarge(lost: seq<Datagram>)
    | Truncated
    | IoError
    | Cancelled

  /** Where a reader stands: bytes it holds, and what the stream has still to deliver. */
  datatype Reader = Reader(buf: seq<byte>, items: seq<Item>)

  function Ahead(r: Reader): seq<byte> {
    r.buf + Content(r.items)
  }

  datatype Taken = Taken(frames: seq<Datagram>, rest: seq<byte>, oversized: bool)

  /** Whole frames from the front of the buffer, up to `limit`. */
  function TakeFrames(buf: seq<byte>, limit: nat): Taken
    decreases limit
  {
    if limit == 0 then Taken([], buf, false)
    else
      match ParseHead(buf)
      case TooLong => Taken([], buf, true)
      case Unfinished => Taken([], buf, false)
      case Whole(d, rest) =>
        var t := TakeFrames(rest, limit - 1);
        Taken([d] + t.frames, t.rest, t.oversized)
  }

  function After(out: seq<Datagram>, t: Taken): Taken {
    Taken(out + t.frames, t.rest, t.oversized)
  }

  /** What the inner loop does at a full length field. */
  lemma TakeNext(b: seq<byte>, n: nat, out: seq<Datagram>)
    requires n > 0 && |b| >= 4
    ensures
      var len, all := Be32(b[..4]), After(out, TakeFrames(b, n));
      if len > MAX_UDP_PACKET_SIZE then all == Taken(out, b, true)
      else if |b| < 4 + len then all == Taken(out, b, false)
      else all == After(out + [b[4..4 + len]], TakeFrames(b[4 + len..], n - 1))
  {
    hide Be32;
    var len := Be32(b[..4]);
    if len <= MAX_UDP_PACKET_SIZE && |b| >= 4 + len {
      var t := TakeFrames(b[4 + len..], n - 1);
      assert out + ([b[4..4 + len]] + t.frames) == (out + [b[4..4 + len]]) + t.frames;
    }
  }

  lemma TakeNoMore(b: seq<byte>, n: nat, out: seq<Datagram>)
    requires n == 0 || |b| < 4
    ensures After(out, TakeFrames(b, n)) == Taken(out, b, false)
  {
  }

  /** `read_batch`: frames in the buffer are handed over at once; only when there is none it reads on. */
  function BatchCall(r: Reader, end: End, limit: nat): (Outcome, Reader)
    decreases |r.items|
  {
    var t := TakeFrames(r.buf, limit);
    if t.oversized then (TooLarge(t.frames), Reader(t.rest, r.items))
    else if t.frames != [] then (Batch(t.frames), Reader(t.rest, r.items))
    else if r.items == [] then
      (if end == Failed then IoError else if t.rest == [] then Batch([]) else Truncated, Reader(t.rest, []))
    else
      match r.items[0]
      case Interrupt => (Cancelled, Reader(t.rest, r.items[1..]))
      case Chunk(data) => BatchCall(Reader(t.rest + data, r.items[1..]), end, limit)
  }

  /** Taking frames out of the buffer is parsing, as far as it goes. */
  lemma {:induction false} TakeIsParse(buf: seq<byte>, limit: nat, more: seq<byte>)
    ensures
      var t := TakeFrames(buf, limit);
      var p := Parse(t.rest + more);
      && Parse(buf + more) == Parsed(t.frames + p.frames, p.tail, p.rest)
      && (t.oversized ==> p.frames == [] && p.tail == Oversized)
    decreases limit
  {
    hide Frame, ParseHead;
    if limit > 0 {
      match ParseHead(buf)
      case TooLong => HeadStays(buf, more);
      case Unfinished =>
      case Whole(d, rest) =>
        var t := TakeFrames(rest, limit - 1);
        TakeIsParse(rest, limit - 1, more);
        HeadIsFrame(buf);
        assert buf + more == Frame(d) + (rest + more);
        HeadOfFrame(d, rest + more);
        assert [d] + (t.frames + Parse(t.rest + more).frames) == [d] + t.frames + Parse(t.rest + more).frames;
    }
  }

  /** A length above the limit stays one, whatever follows. */
  lemma HeadStays(buf: seq<byte>, more: seq<byte>)
    requires ParseHead(buf) == TooLong
    ensures ParseHead(buf + more) == TooLong
  {
    assert (buf + more)[..4] == buf[..4];
  }

  /** Nothing is lost in the buffer, and the limit is kept. */
  lemma {:induction false} TakeKeepsBytes(buf: seq<byte>, limit: nat)
    ensures
      var t := TakeFrames(buf, limit);
      && |t.frames| <= limit && (t.oversized ==> |t.frames| < limit) && AllFit(t.frames)
         && buf == Wire(t.frames) + t.rest
      && (t.frames == [] ==> t.rest == buf)
    decreases limit
  {
    hide Frame, ParseHead;
    if limit > 0 && ParseHead(buf).Whole? {
      var t := TakeFrames(ParseHead(buf).rest, limit - 1);
      TakeKeepsBytes(ParseHead(buf).rest, limit - 1);
      HeadIsFrame(buf);
      ConsKeepsBytes(ParseHead(buf).d, Parsed(t.frames, Clean, t.rest), buf);
    }
  }

  lemma UnfinishedParse(b: seq<byte>)
    requires ParseHead(b) == Unfinished || b == []
    ensures Parse(b) == Parsed([], if b == [] then Clean else Partial, b)
  {
  }

  function Handed(o: Outcome): seq<Datagram> {
    match o case Batch(frames) => frames case TooLarge(lost) => lost case _ => []
  }

  /** What one call says about the bytes ahead of it, by how it ends. */
  predicate Explains(o: Outcome, p: Parsed, p': Parsed, end: End, limit: nat) {
    && p == Parsed(Handed(o) + p'.frames, p'.tail, p'.rest)
    && match o
       case Batch(frames) => |frames| <= limit && (frames == [] ==> end == Eof && p == Parsed([], Clean, []))
       case TooLarge(lost) => |lost| < limit && p.frames == lost && p.tail == Oversized
       case Truncated => end == Eof && (limit > 0 ==> p.frames == [] && p.tail == Partial)
       case IoError => end == Failed && (limit > 0 ==> p.frames == [] && p.tail != Oversized)
       case Cancelled => true
  }

  /**
   One call of the batch reader, whatever the cuts: what it hands over is what the bytes ahead of it
   start with, and every other byte is still ahead of the next call. An interrupted call loses nothing.
   */
  lemma {:induction false} BatchIsParse(r: Reader, end: End, limit: nat)
    ensures
      var (o, r') := BatchCall(r, end, limit);
      Explains(o, Parse(Ahead(r)), Parse(Ahead(r')), end, limit)
    decreases |r.items|
  {
    hide Parse, ParseHead;
    var t := TakeFrames(r.buf, limit);
    TakeIsParse(r.buf, limit, Content(r.items));
    TakeKeepsBytes(r.buf, limit);
    if t.frames == [] && !t.oversized {
      if r.items == [] {
        assert Ahead(r) == r.buf;
        if limit > 0 || r.buf == [] {
          UnfinishedParse(r.buf);
        }
      } else if r.items[0].Chunk? {
        var r1 := Reader(r.buf + r.items[0].data, r.items[1..]);
        assert Ahead(r1) == Ahead(r);
        BatchIsParse(r1, end, limit);
      } else {
        assert Ahead(Reader(r.buf, r.items[1..])) == Ahead(r);
      }
    }
  }

  /** Only an interruption uses one up. */
  lemma {:induction false} BatchInterrupts(r: Reader, end: End, limit: nat)
    ensures
      var (o, r') := BatchCall(r, end, limit);
      Interrupts(r.items) == Interrupts(r'.items) + if o == Cancelled then 1 else 0
    decreases |r.items|
  {
    var t := TakeFrames(r.buf, limit);
    hide TakeFrames;
    if t.frames == [] && !t.oversized && r.items != [] && r.items[0].Chunk? {
      BatchInterrupts(Reader(t.rest + r.items[0].data, r.items[1..]), end, limit);
    }
  }

  // ------------------------------------------------------------------ many calls

  /** What a caller has got, how its last call ended if that ended the stream, and where it stands. */
  datatype Calls = Calls(out: seq<Datagram>, final: Option<Outcome>, left: Reader)

  /** A caller that reads on until end of stream or an error, with any limits. */
  function ReadOn(r: Reader, end: End, limits: seq<nat>): Calls
    decreases |limits|
  {
    if limits == [] then Calls([], None, r)
    else
      var (o, r1) := BatchCall(r, end, limits[0]);
      if o == Cancelled || (o.Batch? && o.frames != []) then
        var c := ReadOn(r1, end, limits[1..]);
        Calls(Handed(o) + c.out, c.final, c.left)
      else Calls([], Some(o), r1)
  }

  /** How reading ends, given what is left after the last whole frame. */
  function EndOf(tail: Tail, end: End): Outcome
    requires tail != Oversized
  {
    if end == Failed then IoError else if tail == Clean then Batch([]) else Truncated
  }

  predicate Positive(limits: seq<nat>) {
    forall i | 0 <= i < |limits| :: limits[i] > 0
  }

  /** What a sequence of calls says about the bytes ahead of it and those ahead of where it stopped. */
  predicate AllExplained(p: Parsed, left: Parsed, c: Calls, end: End, calls: nat, interrupts: nat) {
    && (c.final.None? ==> p.frames == c.out + left.frames && p.tail == left.tail && calls <= |p.frames| + interrupts)
    && (c.final.Some? && p.tail == Oversized ==> c.final.value.TooLarge? && p.frames == c.out + c.final.value.lost)
    && (c.final.Some? && p.tail != Oversized ==> p.frames == c.out && c.final.value == EndOf(p.tail, end))
  }

  lemma OneMoreCall(p: Parsed, p1: Parsed, left: Parsed, o: Outcome, c: Calls, end: End, limit: nat, calls: nat,
                    interrupts: nat)
    requires limit > 0 && Explains(o, p, p1, end, limit) && (o == Cancelled || (o.Batch? && o.frames != []))
    requires AllExplained(p1, left, c, end, calls, if o == Cancelled && interrupts > 0 then interrupts - 1
             else interrupts)
    requires o == Cancelled ==> interrupts > 0
    ensures AllExplained(p, left, Calls(Handed(o) + c.out, c.final, c.left), end, calls + 1, interrupts)
  {
    assert Handed(o) + (c.out + left.frames) == (Handed(o) + c.out) + left.frames;
  }

  lemma LastCall(p: Parsed, p1: Parsed, o: Outcome, left: Reader, end: End, limit: nat, calls: nat, interrupts: nat)
    requires limit > 0 && Explains(o, p, p1, end, limit) && o != Cancelled && (o.Batch? ==> o.frames == [])
    ensures AllExplained(p, p1, Calls([], Some(o), left), end, calls, interrupts)
  {
    assert [] + p1.frames == p1.frames;
  }

  /**
   The calls together read exactly the frames of the stream, in order, whatever the cuts, the limits
   and the interruptions. Only when a length above the limit follows, the frames of the failing call
   are lost with it. Each call that does not end the stream delivers a datagram or was interrupted.
   */
  lemma {:induction false} CallsAreParse(r: Reader, end: End, limits: seq<nat>)
    requires Positive(limits)
    ensures
      var c := ReadOn(r, end, limits);
      AllExplained(Parse(Ahead(r)), Parse(Ahead(c.left)), c, end, |limits|, Interrupts(r.items))
    decreases |limits|
  {
    hide Parse, Ahead, BatchCall, Interrupts, Explains;
    if limits != [] {
      hide AllExplained;
      var (o, r1) := BatchCall(r, end, limits[0]);
      BatchIsParse(r, end, limits[0]);
      BatchInterrupts(r, end, limits[0]);
      var p, p1 := Parse(Ahead(r)), Parse(Ahead(r1));
      if o == Cancelled || (o.Batch? && o.frames != []) {
        CallsAreParse(r1, end, limits[1..]);
        var c := ReadOn(r1, end, limits[1..]);
        OneMoreCall(p, p1, Parse(Ahead(c.left)), o, c, end, limits[0], |limits| - 1, Interrupts(r.items));
      } else {
        LastCall(p, p1, o, r1, end, limits[0], |limits|, Interrupts(r.items));
      }
    }
  }

  /**
   Batched framing is transparent: for every list of datagrams within the limit, every cut of the
   bytes, every limit per call and every interruption, the calls deliver exactly the list, followed
   by a clean end of stream.
   */
  lemma BatchingIsTransparent(ds: seq<Datagram>, r: Reader, limits: seq<nat>)
    requires AllFit(ds) && Ahead(r) == Wire(ds) && Positive(limits)
    ensures
      var c := ReadOn(r, Eof, limits);
      && c.out <= ds
      && (|limits| > |ds| + Interrupts(r.items) ==> c.final.Some?)
      && (c.final.Some? ==> c.out == ds && c.final.value == Batch([]))
  {
    hide Parse, Wire, Content, ReadOn, Interrupts;
    ParseWhole(ds);
    CallsAreParse(r, Eof, limits);
  }

  lemma ParseWhole(ds: seq<Datagram>)
    requires AllFit(ds)
    ensures Parse(Wire(ds)) == Parsed(ds, Clean, [])
  {
    UnfinishedParse([]);
    hide Parse, Wire;
    ParseWire(ds, []);
    assert Wire(ds) + [] == Wire(ds) && ds + [] == ds;
  }

  // ------------------------------------------------------------------ the one-at-a-time reader

  datatype Single = Got(d: Datagram) | NoMore | BadLength | CutShort | Unreadable

  function ReadSingle(b: seq<byte>, end: End): (Single, seq<byte>) {
    match ParseHead(b)
    case Whole(d, rest) => (Got(d), rest)
    case TooLong => (BadLength, b[4..])
    case Unfinished => (if end == Failed then Unreadable else if b == [] then NoMore else CutShort, [])
  }

  /** Reading one frame after the other until something else happens. */
  function Singles(b: seq<byte>, end: End): (seq<Datagram>, Single)
    decreases |b|
  {
    var (o, rest) := ReadSingle(b, end);
    if o.Got? then var (ds, last) := Singles(rest, end); ([o.d] + ds, last) else ([], o)
  }

  lemma {:induction false} SinglesAreParse(b: seq<byte>, end: End)
    ensures
      var (ds, last) := Singles(b, end);
      && ds == Parse(b).frames
      && last == (if Parse(b).tail == Oversized then BadLength
                  else if end == Failed then Unreadable
                  else if Parse(b).tail == Clean then NoMore else CutShort)
    decreases |b|
  {
    if ParseHead(b).Whole? {
      SinglesAreParse(ParseHead(b).rest, end);
    }
  }

  /** The two readers end a stream in the same way. */
  predicate SameEnd(o: Outcome, last: Single) {
    match o
    case Batch(frames) => frames == [] && last == NoMore
    case TooLarge(_) => last == BadLength
    case Truncated => last == CutShort
    case IoError => last == Unreadable
    case Cancelled => false
  }

  /**
   On any byte stream, well-formed or not: what the batch reader hands over is a prefix of what the
   one-at-a-time reader yields; once it has ended, it ended the same way, and the prefix is the whole
   unless the end was a length above the limit.
   */
  lemma BatchAgainstSingle(r: Reader, end: End, limits: seq<nat>)
    requires Positive(limits)
    ensures
      var c := ReadOn(r, end, limits);
      var (ds, last) := Singles(Ahead(r), end);
      && c.out <= ds
      && (|limits| > |ds| + Interrupts(r.items) ==> c.final.Some?)
      && (c.final.Some? ==> SameEnd(c.final.value, last))
      && (c.final.Some? && last != BadLength ==> c.out == ds)
  {
    hide Parse, Content, ReadOn, Interrupts, Singles;
    CallsAreParse(r, end, limits);
    SinglesAreParse(Ahead(r), end);
  }

  /** A caller that always asks for the same number, for up to `k` calls. */
  function Same(limit: nat, k: nat): seq<nat> {
    seq(k, _ => limit)
  }

  /**
   Every way to cut the bytes, every sequence of limits that reaches the end: what is handed over is
   what the single reader yields.
   */
  ghost predicate AlwaysDelivers(b: seq<byte>, end: End) {
    forall r, limits | Ahead(r) == b && Positive(limits) && ReadOn(r, end, limits).final.Some? ::
      ReadOn(r, end, limits).out == Singles(b, end).0
  }

  /** Every way to cut the bytes, for a fresh reader that always asks for `limit`. */
  ghost predicate DeliversAt(b: seq<byte>, end: End, limit: nat) {
    forall items, k: nat | WellCut(items) && Content(items) == b
      && ReadOn(Reader([], items), end, Same(limit, k)).final.Some? ::
      ReadOn(Reader([], items), end, Same(limit, k)).out == Singles(b, end).0
  }

  /** A length above the limit comes after at least one whole frame. */
  predicate BadAfterGood(b: seq<byte>) {
    Parse(b).tail == Oversized && Parse(b).frames != []
  }

  /**
   Exactly which byte strings can lose datagrams to a caller that always asks for `limit`, two or
   more: those in which a length above the limit follows at least one whole frame. All others are
   delivered as the one-at-a-time reader would, even with limits that vary.
   */
  lemma LossExactly(b: seq<byte>, end: End, limit: nat)
    requires limit >= 2
    ensures DeliversAt(b, end, limit) <==> !BadAfterGood(b)
    ensures !BadAfterGood(b) ==> AlwaysDelivers(b, end)
  {
    hide Parse, Content, ReadOn, Singles, Interrupts, WellCut;
    SinglesAreParse(b, end);
    if BadAfterGood(b) {
      LosingCutLoses(b, end, limit);
      var c := ReadOn(Reader([], LosingCut(b)), end, Same(limit, |Parse(b).frames|));
      assert c.final.Some? && c.out != Singles(b, end).0;
    } else {
      forall r, limits | Ahead(r) == b && Positive(limits) && ReadOn(r, end, limits).final.Some?
        ensures ReadOn(r, end, limits).out == Singles(b, end).0
      {
        CallsAreParse(r, end, limits);
      }
      assert AlwaysDelivers(b, end);
      AlwaysIsAt(b, end, limit);
    }
  }

  lemma AlwaysIsAt(b: seq<byte>, end: End, limit: nat)
    requires AlwaysDelivers(b, end) && limit > 0
    ensures DeliversAt(b, end, limit)
  {
    hide Content, ReadOn, Singles, WellCut;
    forall items, k: nat | WellCut(items) && Content(items) == b
      && ReadOn(Reader([], items), end, Same(limit, k)).final.Some?
      ensures ReadOn(Reader([], items), end, Same(limit, k)).out == Singles(b, end).0
    {
      assert [] + Content(items) == Content(items);
      assert Ahead(Reader([], items)) == b && Positive(Same(limit, k));
    }
  }

  /** One frame a piece, but the last together with the bad length: pieces that one read can return. */
  function LosingCut(b: seq<byte>): seq<Item>
    requires BadAfterGood(b)
    decreases |b|
  {
    var (d, rest) := (ParseHead(b).d, ParseHead(b).rest);
    if Parse(rest).frames != [] then [Chunk(Frame(d))] + LosingCut(rest)
    else
      [Chunk(Frame(d) + rest[..4])] + if |rest| > 4 then [Chunk(rest[4..])] else []
  }

  lemma TakeOne(d: Datagram, limit: nat)
    requires Fits(d) && limit > 0
    ensures TakeFrames(Frame(d), limit) == Taken([d], [], false)
  {
    HeadOfFrame(d, []);
    assert Frame(d) + [] == Frame(d);
    NothingAtFront();
    assert TakeFrames([], limit - 1) == Taken([], [], false);
    hide ParseHead, Frame;
  }

  lemma TakeOneAndFail(d: Datagram, bad: seq<byte>, limit: nat)
    requires Fits(d) && limit >= 2 && ParseHead(bad) == TooLong
    ensures TakeFrames(Frame(d) + bad, limit) == Taken([d], bad, true)
  {
    HeadOfFrame(d, bad);
    hide ParseHead, Frame;
    assert TakeFrames(bad, limit - 1) == Taken([], bad, true);
  }

  /** A fresh reader reads the next piece. */
  lemma ReadNext(data: seq<byte>, more: seq<Item>, end: End, limit: nat)
    requires limit > 0
    ensures BatchCall(Reader([], [Chunk(data)] + more), end, limit) == BatchCall(Reader(data, more), end, limit)
  {
    var items := [Chunk(data)] + more;
    NothingAtFront();
    assert TakeFrames([], limit) == Taken([], [], false);
    assert items[1..] == more && [] + data == data;
    hide TakeFrames;
  }

  lemma CutContent(data: seq<byte>, more: seq<Item>)
    requires data != [] && WellCut(more)
    ensures Content([Chunk(data)] + more) == data + Content(more) && WellCut([Chunk(data)] + more)
  {
    assert ([Chunk(data)] + more)[1..] == more;
  }

  lemma {:induction false} LosingCutContent(b: seq<byte>)
    requires BadAfterGood(b)
    ensures Content(LosingCut(b)) == b && WellCut(LosingCut(b))
    decreases |b|
  {
    hide Frame, Content, WellCut;
    var (d, rest) := (ParseHead(b).d, ParseHead(b).rest);
    HeadIsFrame(b);
    assert |Frame(d)| >= 4 by { FrameSize(d); }
    NoItems();
    if Parse(rest).frames != [] {
      LosingCutContent(rest);
      CutContent(Frame(d), LosingCut(rest));
    } else {
      var more := if |rest| > 4 then [Chunk(rest[4..])] else [];
      if |rest| > 4 {
        assert [Chunk(rest[4..])] + [] == [Chunk(rest[4..])] && rest[4..] + [] == rest[4..];
        CutContent(rest[4..], []);
      }
      assert Content(more) == rest[4..];
      CutContent(Frame(d) + rest[..4], more);
      assert (Frame(d) + rest[..4]) + rest[4..] == Frame(d) + rest;
    }
  }

  lemma FrameSize(d: Datagram)
    requires Fits(d)
    ensures |Frame(d)| == 4 + |d|
  {
  }

  lemma NoItems()
    ensures Content([]) == [] && WellCut([])
  {
  }

  /** A call that hands datagrams over is followed by the next. */
  lemma ReadOnStep(r: Reader, end: End, limit: nat, k: nat, frames: seq<Datagram>, r1: Reader)
    requires k > 0 && frames != [] && BatchCall(r, end, limit) == (Batch(frames), r1)
    ensures
      var c := ReadOn(r1, end, Same(limit, k - 1));
      ReadOn(r, end, Same(limit, k)) == Calls(frames + c.out, c.final, c.left)
  {
    hide BatchCall;
    assert Same(limit, k)[1..] == Same(limit, k - 1);
  }

  lemma ReadOnEnd(r: Reader, end: End, limit: nat, k: nat, lost: seq<Datagram>, r1: Reader)
    requires k > 0 && BatchCall(r, end, limit) == (TooLarge(lost), r1)
    ensures ReadOn(r, end, Same(limit, k)) == Calls([], Some(TooLarge(lost)), r1)
  {
    hide BatchCall;
  }

  /** With that cut the last datagram before the bad length is lost, whatever the limit. */
  lemma {:induction false} LosingCutLoses(b: seq<byte>, end: End, limit: nat)
    requires BadAfterGood(b) && limit >= 2
    ensures Content(LosingCut(b)) == b && WellCut(LosingCut(b))
    ensures
      var n := |Parse(b).frames|;
      var c := ReadOn(Reader([], LosingCut(b)), end, Same(limit, n));
      c.final.Some? && c.final.value == TooLarge([Parse(b).frames[n - 1]]) && |c.out| == n - 1
    decreases |b|
  {
    LosingCutContent(b);
    var (d, rest) := (ParseHead(b).d, ParseHead(b).rest);
    var n := |Parse(b).frames|;
    assert Parse(b).frames == [d] + Parse(rest).frames;
    hide Frame, Content, WellCut, ParseHead, TakeFrames, BatchCall, ReadOn, Same, Parse;
    if Parse(rest).frames != [] {
      FirstIsHanded(d, LosingCut(rest), end, limit);
      LosingCutLoses(rest, end, limit);
      ReadOnStep(Reader([], [Chunk(Frame(d))] + LosingCut(rest)), end, limit, n, [d], Reader([], LosingCut(rest)));
    } else {
      var more := if |rest| > 4 then [Chunk(rest[4..])] else [];
      BadHead(rest);
      TakeOneAndFail(d, rest[..4], limit);
      ReadNext(Frame(d) + rest[..4], more, end, limit);
      CallTakes(Reader(Frame(d) + rest[..4], more), end, limit);
      ReadOnEnd(Reader([], [Chunk(Frame(d) + rest[..4])] + more), end, limit, n, [d], Reader(rest[..4], more));
    }
  }

  lemma FirstIsHanded(d: Datagram, more: seq<Item>, end: End, limit: nat)
    requires Fits(d) && limit > 0
    ensures BatchCall(Reader([], [Chunk(Frame(d))] + more), end, limit) == (Batch([d]), Reader([], more))
  {
    hide Frame, TakeFrames, BatchCall;
    TakeOne(d, limit);
    ReadNext(Frame(d), more, end, limit);
    CallTakes(Reader(Frame(d), more), end, limit);
  }

  lemma BadHead(b: seq<byte>)
    requires Parse(b).tail == Oversized && Parse(b).frames == []
    ensures |b| >= 4 && ParseHead(b) == TooLong && ParseHead(b[..4]) == TooLong
  {
    hide Parse, ParseHead;
    BadTail(b);
    HeadPrefix(b);
  }

  /** The first four bytes decide that a length is too large. */
  lemma HeadPrefix(b: seq<byte>)
    requires ParseHead(b) == TooLong
    ensures |b| >= 4 && ParseHead(b[..4]) == TooLong
  {
    hide Be32;
    var head := b[..4];
    assert head[..4] == head;
  }

  lemma BadTail(b: seq<byte>)
    requires Parse(b).tail == Oversized && Parse(b).frames == []
    ensures ParseHead(b) == TooLong
  {
    hide ParseHead;
  }

  /** A call that finds frames or a bad length in the buffer does not read. */
  lemma CallTakes(r: Reader, end: End, limit: nat)
    requires TakeFrames(r.buf, limit).frames != []
    ensures
      var t := TakeFrames(r.buf, limit);
      BatchCall(r, end, limit) == (if t.oversized then TooLarge(t.frames) else Batch(t.frames), Reader(t.rest, r.items))
  {
    hide TakeFrames;
  }

  /** Never more than one datagram less than the limit is lost; so a caller that asks for one at a time loses none. */
  lemma {:induction false} LossIsBounded(r: Reader, end: End, limit: nat, k: nat)
    requires limit > 0
    ensures
      var c := ReadOn(r, end, Same(limit, k));
      c.final.Some? ==>
        && Parse(Ahead(r)).frames == c.out + Handed(c.final.value)
        && |Handed(c.final.value)| < limit && (Handed(c.final.value) != [] ==> c.final.value.TooLarge?)
    decreases k
  {
    hide Parse, Ahead, BatchCall;
    CallsAreParse(r, end, Same(limit, k));
    if k > 0 {
      assert Same(limit, k)[1..] == Same(limit, k - 1);
      BatchIsParse(r, end, limit);
      LossIsBounded(BatchCall(r, end, limit).1, end, limit, k - 1);
    }
  }

  /** The smallest such string: one datagram read together with an oversized length is lost. */
  lemma OversizedLosesItsBatch(d: Datagram)
    requires Fits(d)
    ensures
      var b := Frame(d) + ToBe32(65508);
      && ReadOn(Reader([], [Chunk(b)]), Eof, [2]).out == [] && Singles(b, Eof).0 == [d]
  {
    var b := Frame(d) + ToBe32(65508);
    HeadOfFrame(d, ToBe32(65508));
    DecodeEncoded(65508);
    assert ToBe32(65508)[..4] == ToBe32(65508);
    assert ParseHead(ToBe32(65508)) == TooLong;
    hide ParseHead, Frame, ToBe32;
    assert TakeFrames(b, 2) == Taken([d], ToBe32(65508), true);
    assert ParseHead([]) == Unfinished by { NothingAtFront(); }
    assert [] + b == b && [Chunk(b)][1..] == [];
    assert TakeFrames([], 2) == Taken([], [], false);
    assert BatchCall(Reader([], [Chunk(b)]), Eof, 2) == BatchCall(Reader(b, []), Eof, 2);
  }

  lemma NothingAtFront()
    ensures ParseHead([]) == Unfinished
  {
  }

  // ------------------------------------------------------------------ the readers

  class UdpFrameBuf {
    var buf: seq<byte>

    constructor ()
      ensures buf == []
    {
      buf := [];
    }

    /** Up to `limit` datagrams: those in the buffer at once, or the first ones that further reads complete. */
    method ReadBatch(s: Stream, limit: nat) returns (o: Outcome)
      requires WellCut(s.items)
      modifies this, s
      ensures WellCut(s.items)
      ensures (o, Reader(buf, s.items)) == BatchCall(old(Reader(buf, s.items)), s.end, limit)
    {
      hide ParseHead;
      while true
        invariant WellCut(s.items)
        invariant BatchCall(Reader(buf, s.items), s.end, limit) == BatchCall(old(Reader(buf, s.items)), s.end, limit)
        decreases |s.items|
      {
        var out, oversized := TakeWhole(limit);
        if oversized {
          return TooLarge(out);
        }
        if out != [] {
          return Batch(out);
        }
        var r := s.ReadPiece();
        match r
        case Data(data) => buf := buf + data;
        case Interrupted => return Cancelled;
        case Broken => return IoError;
        case Ended => return if buf == [] then Batch([]) else Truncated;
      }
    }

    /** The inner loop: whole frames leave the buffer until the limit, a half frame or a bad length. */
    method TakeWhole(limit: nat) returns (out: seq<Datagram>, oversized: bool)
      modifies this
      ensures Taken(out, buf, oversized) == TakeFrames(old(buf), limit)
    {
      hide Be32, TakeFrames;
      out := [];
      while |out| < limit && |buf| >= 4
        invariant |out| <= limit
        invariant After([], TakeFrames(old(buf), limit)) == After(out, TakeFrames(buf, limit - |out|))
      {
        TakeNext(buf, limit - |out|, out);
        var len := Be32(buf[..4]);
        if len > MAX_UDP_PACKET_SIZE {
          return out, true;
        }
        if |buf| < 4 + len {
          return out, false;
        }
        out := out + [buf[4..4 + len]];
        buf := buf[4 + len..];
      }
      TakeNoMore(buf, limit - |out|, out);
      return out, false;
    }
  }

  /** One frame: four bytes of length, filled by as many reads as it takes, then the data. */
  method ReadUdpFrameInto(s: Stream) returns (o: Single)
    requires WellCut(s.items) && Interrupts(s.items) == 0
    modifies s
    ensures WellCut(s.items) && Interrupts(s.items) == 0
    ensures (o, Content(s.items)) == ReadSingle(old(Content(s.items)), s.end)
  {
    ghost var b := Content(s.items);
    var header, broken := ReadExact(s, 4);
    if |header| < 4 {
      assert header == b;
      return if broken then Unreadable else if header == [] then NoMore else CutShort;
    }
    assert b[..4] == header;
    var len := Be32(header);
    if len > MAX_UDP_PACKET_SIZE {
      assert Content(s.items) == b[4..];
      return BadLength;
    }
    var data: seq<byte>;
    data, broken := ReadExact(s, len);
    assert b == header + data + Content(s.items);
    if |data| < len {
      return if broken then Unreadable else CutShort;
    }
    assert b[4..4 + len] == data && b[4 + len..] == Content(s.items);
    return Got(data);
  }
}
