/**
 Frames of the control protocol: version, type, 4-byte big-endian length, payload.

 The codec decodes from a growing buffer; `Parse` is the one-shot meaning of a byte string it is
 proved against. `ReadOneFrame` reads the first frame of a connection and nothing more.
 */
module ControlFraming {
  import opened Bytes
  import opened Streams
  import opened Wrappers

  const PROTOCOL_VERSION: byte := 2
  const FRAME_HEADER_LEN: nat := 6
  const FRAME_MAX_PAYLOAD: nat := 16 * 1024 * 1024

  datatype Frame = Frame(version: byte, msgType: byte, payload: seq<byte>)

  datatype Error = UnsupportedVersion(version: byte) | PayloadTooLarge(length: nat) | UnexpectedEnd

  predicate Fits(f: Frame) {
    |f.payload| <= FRAME_MAX_PAYLOAD
  }

  /** Within the payload limit and of the version this program speaks. */
  predicate Current(f: Frame) {
    Fits(f) && f.version == PROTOCOL_VERSION
  }

  function Encoded(f: Frame): seq<byte>
    requires Fits(f)
  {
    [f.version, f.msgType] + ToBe32(|f.payload|) + f.payload
  }

  predicate AllFit(fs: seq<Frame>) {
    forall i | 0 <= i < |fs| :: Fits(fs[i])
  }

  predicate AllCurrent(fs: seq<Frame>) {
    AllFit(fs) && forall i | 0 <= i < |fs| :: fs[i].version == PROTOCOL_VERSION
  }

  function Wire(fs: seq<Frame>): seq<byte>
    requires AllFit(fs)
  {
    if fs == [] then [] else Encoded(fs[0]) + Wire(fs[1..])
  }

  // ------------------------------------------------------------------ one-shot meaning

  datatype Head = Whole(f: Frame, rest: seq<byte>) | Unfinished | Bad(error: Error)

  /** The header is judged as soon as it is there: version first, then length, then the payload is awaited. */
  function ParseHead(b: seq<byte>): (h: Head)
    ensures h.Whole? ==> Current(h.f) && |h.rest| < |b|
  {
    if |b| < FRAME_HEADER_LEN then Unfinished
    else
      var length := Be32(b[2..6]);
      if b[0] != PROTOCOL_VERSION then Bad(UnsupportedVersion(b[0]))
      else if length > FRAME_MAX_PAYLOAD then Bad(PayloadTooLarge(length))
      else if |b| < FRAME_HEADER_LEN + length then Unfinished
      else Whole(Frame(b[0], b[1], b[6..6 + length]), b[6 + length..])
  }

  datatype Parsed = Parsed(frames: seq<Frame>, error: Option<Error>, rest: seq<byte>)

  function Parse(b: seq<byte>): (p: Parsed)
    ensures AllCurrent(p.frames)
    decreases |b|
  {
    match ParseHead(b)
    case Unfinished => Parsed([], None, b)
    case Bad(e) => Parsed([], Some(e), b)
    case Whole(f, rest) =>
      var p := Parse(rest);
      Parsed([f] + p.frames, p.error, p.rest)
  }

  lemma HeadOfEncoded(f: Frame, more: seq<byte>)
    requires Fits(f)
    ensures ParseHead(Encoded(f) + more)
         == if f.version == PROTOCOL_VERSION then Whole(f, more) else Bad(UnsupportedVersion(f.version))
  {
    var b := Encoded(f) + more;
    DecodeEncoded(|f.payload|);
    hide Be32, ToBe32;
    assert b[2..6] == ToBe32(|f.payload|);
    assert b[6..6 + |f.payload|] == f.payload;
    assert b[6 + |f.payload|..] == more;
  }

  lemma HeadIsEncoded(b: seq<byte>)
    requires ParseHead(b).Whole?
    ensures b == Encoded(ParseHead(b).f) + ParseHead(b).rest
  {
    EncodeDecoded(b[2..6]);
    var length := Be32(b[2..6]);
    hide Be32, ToBe32;
    assert b == [b[0], b[1]] + b[2..6] + b[6..6 + length] + b[6 + length..];
  }

  /** What has been decoded from a buffer stays the same whatever arrives later. */
  lemma HeadIsStable(b: seq<byte>, more: seq<byte>)
    ensures ParseHead(b).Whole? ==> ParseHead(b + more) == Whole(ParseHead(b).f, ParseHead(b).rest + more)
    ensures ParseHead(b).Bad? ==> ParseHead(b + more) == ParseHead(b)
  {
    if ParseHead(b).Whole? {
      HeadIsEncoded(b);
      HeadOfEncoded(ParseHead(b).f, ParseHead(b).rest + more);
      hide Encoded;
      assert b + more == Encoded(ParseHead(b).f) + (ParseHead(b).rest + more);
    } else if ParseHead(b).Bad? {
      assert (b + more)[2..6] == b[2..6];
    }
  }

  /** An unfinished frame never keeps a full header and 16 MiB waiting. */
  lemma UnfinishedIsShort(b: seq<byte>)
    requires ParseHead(b) == Unfinished
    ensures |b| < FRAME_HEADER_LEN + FRAME_MAX_PAYLOAD
  {
  }

  lemma {:induction false} ParseIsStable(b: seq<byte>, more: seq<byte>)
    ensures
      var p, q := Parse(b), Parse(Parse(b).rest + more);
      && Parse(b + more).frames == p.frames + q.frames && Parse(b + more).error == q.error
      && (p.error.Some? ==> q.frames == [] && q.error == p.error)
    decreases |b|
  {
    hide ParseHead;
    HeadIsStable(b, more);
    if ParseHead(b).Whole? {
      var f, rest := ParseHead(b).f, ParseHead(b).rest;
      ParseIsStable(rest, more);
      var p, q := Parse(rest), Parse(Parse(rest).rest + more);
      assert [f] + (p.frames + q.frames) == [f] + p.frames + q.frames;
    }
  }

  // ------------------------------------------------------------------ any chunking

  function Concat(chunks: seq<seq<byte>>): seq<byte> {
    if chunks == [] then [] else chunks[0] + Concat(chunks[1..])
  }

  /** The buffer after all frames that can be decoded have been; an error stops the connection. */
  datatype Decoder = Decoder(frames: seq<Frame>, error: Option<Error>, buf: seq<byte>)

  /** Repeated `decode` after every chunk, until `None` or an error. */
  function Feed(buf: seq<byte>, chunks: seq<seq<byte>>): Decoder
    decreases |chunks|
  {
    var p := Parse(buf);
    if chunks == [] || p.error.Some? then Decoder(p.frames, p.error, p.rest)
    else
      var d := Feed(p.rest + chunks[0], chunks[1..]);
      Decoder(p.frames + d.frames, d.error, d.buf)
  }

  /**
   Decoding piece by piece is decoding at once: for every byte string and every cut, the same frames
   and the same error. While there is none, the buffer stays below a header and 16 MiB.
   */
  lemma {:induction false} ChunkingIsInvisible(buf: seq<byte>, chunks: seq<seq<byte>>)
    ensures
      var d, p := Feed(buf, chunks), Parse(buf + Concat(chunks));
      && d.frames == p.frames && d.error == p.error
      && (d.error.None? ==> |d.buf| < FRAME_HEADER_LEN + FRAME_MAX_PAYLOAD)
    decreases |chunks|
  {
    hide Parse;
    var p := Parse(buf);
    ParseIsStable(buf, Concat(chunks));
    RestIsUnfinished(buf);
    if chunks == [] {
      assert buf + Concat(chunks) == buf;
    } else if p.error.None? {
      ChunkingIsInvisible(p.rest + chunks[0], chunks[1..]);
      assert p.rest + chunks[0] + Concat(chunks[1..]) == p.rest + Concat(chunks);
    }
  }

  lemma {:induction false} RestIsUnfinished(b: seq<byte>)
    ensures Parse(b).error.None? ==>
              ParseHead(Parse(b).rest) == Unfinished && |Parse(b).rest| < FRAME_HEADER_LEN + FRAME_MAX_PAYLOAD
    decreases |b|
  {
    match ParseHead(b)
    case Whole(_, rest) => RestIsUnfinished(rest);
    case Unfinished => UnfinishedIsShort(b);
    case Bad(_) =>
  }

  lemma {:induction false} ParseWire(fs: seq<Frame>)
    requires AllCurrent(fs)
    ensures Parse(Wire(fs)) == Parsed(fs, None, [])
  {
    if fs != [] {
      hide ParseHead, Encoded;
      HeadOfEncoded(fs[0], Wire(fs[1..]));
      ParseWire(fs[1..]);
    }
  }

  /** Every list of current frames, encoded, cut anywhere and fed piece by piece, comes out as it was. */
  lemma FramesSurviveChunking(fs: seq<Frame>, chunks: seq<seq<byte>>)
    requires AllCurrent(fs) && Concat(chunks) == Wire(fs)
    ensures Feed([], chunks).frames == fs && Feed([], chunks).error == None
  {
    hide Parse, Wire, Feed;
    ParseWire(fs);
    ChunkingIsInvisible([], chunks);
    assert [] + Concat(chunks) == Concat(chunks);
  }

  /** What is encoded is decoded again, exactly when it carries the current version. */
  lemma RoundTripExactly(f: Frame, more: seq<byte>)
    requires Fits(f)
    ensures ParseHead(Encoded(f) + more) == Whole(f, more) <==> f.version == 2
    ensures f.version != 2 ==> ParseHead(Encoded(f) + more) == Bad(UnsupportedVersion(f.version))
  {
    hide ParseHead, Encoded;
    HeadOfEncoded(f, more);
  }

  /** The length a header announces, byte by byte. */
  function Announced(b: seq<byte>): nat
    requires |b| >= 6
  {
    ((b[2] as int * 256 + b[3] as int) * 256 + b[4] as int) * 256 + b[5] as int
  }

  lemma AnnouncedIsBe(b: seq<byte>)
    requires |b| >= 6
    ensures Be32(b[2..6]) == Announced(b)
  {
    assert b[2..6][0] == b[2] && b[2..6][1] == b[3] && b[2..6][2] == b[4] && b[2..6][3] == b[5];
  }

  /**
   What any byte string is: encoded frames of version 2, and a rest that is refused for another version
   or, after that, for a length above 16 MiB, or else is not a whole frame yet.
   */
  lemma {:induction false} ParseExactly(b: seq<byte>)
    ensures
      var p := Parse(b);
      && b == Wire(p.frames) + p.rest && (forall i | 0 <= i < |p.frames| :: p.frames[i].version == 2)
      && match p.error
         case Some(UnsupportedVersion(v)) => |p.rest| >= 6 && p.rest[0] == v && v != 2
         case Some(PayloadTooLarge(n)) =>
           |p.rest| >= 6 && p.rest[0] == 2 && n == Announced(p.rest) && n > 16 * 1024 * 1024
         case Some(UnexpectedEnd) => false
         case None =>
           || |p.rest| < 6
           || (p.rest[0] == 2 && Announced(p.rest) <= 16 * 1024 * 1024 && |p.rest| < 6 + Announced(p.rest))
    decreases |b|
  {
    hide Encoded, Be32, Announced;
    if |b| >= 6 {
      AnnouncedIsBe(b);
    }
    if ParseHead(b).Whole? {
      HeadIsEncoded(b);
      ParseExactly(ParseHead(b).rest);
      ConsKeepsBytes(ParseHead(b).f, Parse(ParseHead(b).rest), b);
    }
  }

  lemma ConsKeepsBytes(f: Frame, p: Parsed, b: seq<byte>)
    requires Fits(f) && AllFit(p.frames) && b == Encoded(f) + (Wire(p.frames) + p.rest)
    ensures b == Wire([f] + p.frames) + p.rest
  {
    assert ([f] + p.frames)[1..] == p.frames;
  }

  /** Where everything is in a frame, byte by byte. */
  lemma FrameLayout(f: Frame)
    requires Fits(f)
    ensures
      var b := Encoded(f);
      && |b| == 6 + |f.payload| && b[0] == f.version && b[1] == f.msgType && b[6..] == f.payload
      && Announced(b) == |f.payload|
  {
    var b := Encoded(f);
    DecodeEncoded(|f.payload|);
    assert b[2..6] == ToBe32(|f.payload|);
    assert b[2] == b[2..6][0] && b[3] == b[2..6][1] && b[4] == b[2..6][2] && b[5] == b[2..6][3];
    hide ToBe32;
  }

  // ------------------------------------------------------------------ the codec

  class Buffer {
    var data: seq<byte>
  }

  /** The next frame, if it is there. `None` and errors consume nothing. */
  method Decode(src: Buffer) returns (r: Result<Option<Frame>, Error>)
    modifies src
    ensures
      match ParseHead(old(src.data))
      case Whole(f, rest) => r == Success(Some(f)) && src.data == rest && old(src.data) == Encoded(f) + rest
      case Unfinished => r == Success(None) && src.data == old(src.data)
           && |src.data| < FRAME_HEADER_LEN + FRAME_MAX_PAYLOAD
      case Bad(e) => r == Failure(e) && src.data == old(src.data)
  {
    if |src.data| < FRAME_HEADER_LEN {
      return Success(None);
    }
    var version, msgType := src.data[0], src.data[1];
    var length := Be32(src.data[2..6]);
    if version != PROTOCOL_VERSION {
      return Failure(UnsupportedVersion(version));
    }
    if length > FRAME_MAX_PAYLOAD {
      return Failure(PayloadTooLarge(length));
    }
    if |src.data| < FRAME_HEADER_LEN + length {
      return Success(None);
    }
    HeadIsEncoded(src.data);
    hide Encoded;
    ghost var b := src.data;
    src.data := src.data[FRAME_HEADER_LEN..];
    var payload := src.data[..length];
    src.data := src.data[length..];
    assert payload == b[6..6 + length] && src.data == b[6 + length..];
    return Success(Some(Frame(version, msgType, payload)));
  }

  method Encode(frame: Frame, dst: Buffer) returns (r: Result<(), Error>)
    modifies dst
    ensures r.Success? <==> |frame.payload| <= 16 * 1024 * 1024
    ensures dst.data == old(dst.data) + if |frame.payload| <= 16 * 1024 * 1024 then Encoded(frame) else []
  {
    if |frame.payload| > FRAME_MAX_PAYLOAD {
      return Failure(PayloadTooLarge(|frame.payload|));
    }
    dst.data := dst.data + [frame.version];
    dst.data := dst.data + [frame.msgType];
    dst.data := dst.data + ToBe32(|frame.payload|);
    dst.data := dst.data + frame.payload;
    return Success(());
  }

  /** `Framed` decodes until `None`: all frames of the buffer, and what is left of it. */
  method DecodeAll(src: Buffer) returns (frames: seq<Frame>, error: Option<Error>)
    modifies src
    ensures Parsed(frames, error, src.data) == Parse(old(src.data))
  {
    frames := [];
    while true
      invariant
        var p := Parse(src.data);
        Parse(old(src.data)) == Parsed(frames + p.frames, p.error, p.rest)
      decreases |src.data|
    {
      ghost var before := src.data;
      var r := Decode(src);
      hide ParseHead;
      match r
      case Failure(e) => return frames, Some(e);
      case Success(None) => return frames, None;
      case Success(Some(f)) =>
        assert frames + ([f] + Parse(src.data).frames) == (frames + [f]) + Parse(src.data).frames;
        frames := frames + [f];
    }
  }

  // ------------------------------------------------------------------ the first frame of a connection

  /**
   Exactly one frame is read: what follows it stays in the stream. It is the frame the codec would
   decode first, and it fails where the codec would; a stream that ends inside it is an error.
   */
  method ReadOneFrame(s: Stream) returns (r: Result<Frame, Error>)
    requires WellCut(s.items) && Interrupts(s.items) == 0
    modifies s
    ensures WellCut(s.items)
    ensures
      match ParseHead(old(Content(s.items)))
      case Whole(f, rest) => r == Success(f) && Content(s.items) == rest
      case Unfinished => r == Failure(UnexpectedEnd) && Content(s.items) == []
      case Bad(e) => r == Failure(e) && old(Content(s.items))[FRAME_HEADER_LEN..] == Content(s.items)
  {
    ghost var b := Content(s.items);
    var header, broken := ReadExact(s, FRAME_HEADER_LEN);
    if |header| < FRAME_HEADER_LEN {
      return Failure(UnexpectedEnd);
    }
    assert b[..6] == header && b[6..] == Content(s.items);
    assert b[2..6] == header[2..6];
    var length := Be32(header[2..6]);
    if header[0] != PROTOCOL_VERSION {
      return Failure(UnsupportedVersion(header[0]));
    }
    if length > FRAME_MAX_PAYLOAD {
      return Failure(PayloadTooLarge(length));
    }
    var payload: seq<byte> := [];
    if length > 0 {
      payload, broken := ReadExact(s, length);
      if |payload| < length {
        return Failure(UnexpectedEnd);
      }
    }
    assert b == header + payload + Content(s.items);
    assert b[6..6 + length] == payload && b[6 + length..] == Content(s.items);
    return Success(Frame(header[0], header[1], payload));
  }
}
