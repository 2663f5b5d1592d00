/** The TCP frame format and its incremental decoder (crates/grimoire-net/src/lib.rs). */
module FrameCodec {
  import opened Common

  const MAGIC: seq<byte> := [0x4D, 0x54]
  const VERSION: byte := 1
  const HEADER_LEN := 16
  const MAX_PAYLOAD: u32 := 4 * 1024 * 1024

  datatype PType = Request | Response | Push | Heartbeat | Close {
    function ToU8(): byte {
      match this
      case Request => 0
      case Response => 1
      case Push => 2
      case Heartbeat => 3
      case Close => 4
    }
  }

  function PTypeFromU8(v: byte): (t: Option<PType>)
    ensures t == Some(Request) <==> v == 0
    ensures t == Some(Response) <==> v == 1
    ensures t == Some(Push) <==> v == 2
    ensures t == Some(Heartbeat) <==> v == 3
    ensures t == Some(Close) <==> v == 4
    ensures t == None <==> v > 4
    ensures t.Some? ==> t.value.ToU8() == v
  {
    match v
    case 0 => Some(Request)
    case 1 => Some(Response)
    case 2 => Some(Push)
    case 3 => Some(Heartbeat)
    case 4 => Some(Close)
    case _ => None
  }

  datatype Frame = Frame(ptype: PType, msgId: u32, seqNo: u32, payload: seq<byte>)

  datatype FrameError = BadMagic | BadVersion(version: byte) | BadPType(code: byte) | TooLarge(len: u32)

  datatype Decoded = NeedMore | Bad(error: FrameError) | Got(frame: Frame, rest: seq<byte>)

  predicate Fits(f: Frame) {
    |f.payload| <= MAX_PAYLOAD
  }

  // ----- Specification functions -----

  /** The bytes of one frame. The length field keeps only 32 bits of the payload length. */
  function EncodeFrame(f: Frame): (s: seq<byte>)
    ensures |s| == HEADER_LEN + |f.payload|
  {
    MAGIC + [VERSION] + [f.ptype.ToU8()] + ToBe32(f.msgId) + ToBe32(f.seqNo)
    + ToBe32(|f.payload| % TWO_32) + f.payload
  }

  function DecodeFrame(src: seq<byte>): Decoded {
    if |src| < HEADER_LEN then NeedMore
    else if src[..2] != MAGIC then Bad(BadMagic)
    else if src[2] != VERSION then Bad(BadVersion(src[2]))
    else if PTypeFromU8(src[3]).None? then Bad(BadPType(src[3]))
    else
      var len := FromBe32(src[12..16]);
      if len > MAX_PAYLOAD then Bad(TooLarge(len))
      else if |src| < HEADER_LEN + len then NeedMore
      else Got(Frame(PTypeFromU8(src[3]).value, FromBe32(src[4..8]), FromBe32(src[8..12]),
                     src[HEADER_LEN..HEADER_LEN + len]),
               src[HEADER_LEN + len..])
  }

  function EncodeAll(fs: seq<Frame>): seq<byte> {
    if fs == [] then [] else EncodeFrame(fs[0]) + EncodeAll(fs[1..])
  }

  /** What repeated decoding takes off a buffer: the frames, how it stopped, and what is left. */
  datatype Drained = Drained(frames: seq<Frame>, error: Option<FrameError>, rest: seq<byte>)

  function Drain(src: seq<byte>): Drained
    decreases |src|
  {
    match DecodeFrame(src)
    case NeedMore => Drained([], None, src)
    case Bad(e) => Drained([], Some(e), src)
    case Got(f, rest) =>
      var d := Drain(rest);
      d.(frames := [f] + d.frames)
  }

  /** A framed reader after some chunks: once it has failed it delivers nothing more. */
  datatype Stream = Stream(buffer: seq<byte>, delivered: seq<Frame>, error: Option<FrameError>)

  const FRESH := Stream([], [], None)

  function Feed(r: Stream, chunk: seq<byte>): Stream {
    if r.error.Some? then r
    else
      var d := Drain(r.buffer + chunk);
      Stream(d.rest, r.delivered + d.frames, d.error)
  }

  function FeedAll(r: Stream, chunks: seq<seq<byte>>): Stream
    decreases |chunks|
  {
    if chunks == [] then r else FeedAll(Feed(r, chunks[0]), chunks[1..])
  }

  function Concat(chunks: seq<seq<byte>>): seq<byte> {
    if chunks == [] then [] else chunks[0] + Concat(chunks[1..])
  }

  // ----- One frame: the decoder accepts exactly the encodings -----

  lemma HeaderOf(f: Frame, tail: seq<byte>)
    ensures var s := EncodeFrame(f) + tail;
            && s[..2] == MAGIC && s[2] == VERSION && s[3] == f.ptype.ToU8()
            && s[4..8] == ToBe32(f.msgId) && s[8..12] == ToBe32(f.seqNo)
            && s[12..16] == ToBe32(|f.payload| % TWO_32)
            && s[16..] == f.payload + tail
  {}

  lemma EncodedNumbers(f: Frame, tail: seq<byte>)
    requires Fits(f)
    ensures var s := EncodeFrame(f) + tail;
            && s[..2] == MAGIC && s[2] == VERSION && PTypeFromU8(s[3]) == Some(f.ptype)
            && FromBe32(s[4..8]) == f.msgId && FromBe32(s[8..12]) == f.seqNo
            && FromBe32(s[12..16]) == |f.payload| && s[16..] == f.payload + tail
  {
    HeaderOf(f, tail);
    Be32RoundTrip(f.msgId);
    Be32RoundTrip(f.seqNo);
    Be32RoundTrip(|f.payload|);
  }

  lemma DecodeEncoded(f: Frame, tail: seq<byte>)
    requires Fits(f)
    ensures DecodeFrame(EncodeFrame(f) + tail) == Got(f, tail)
  {
    var s := EncodeFrame(f) + tail;
    EncodedNumbers(f, tail);
    assert s[16..16 + |f.payload|] == f.payload;
    assert s[16 + |f.payload|..] == tail;
  }

  /** A buffer is its header fields, the payload and the rest. */
  lemma Fields(src: seq<byte>, n: nat)
    requires |src| >= HEADER_LEN + n
    ensures src == src[..2] + [src[2]] + [src[3]] + src[4..8] + src[8..12] + src[12..16]
                   + src[HEADER_LEN..HEADER_LEN + n] + src[HEADER_LEN + n..]
  {
  }

  lemma DecodedIds(src: seq<byte>)
    requires DecodeFrame(src).Got?
    ensures var f := DecodeFrame(src).frame; ToBe32(f.msgId) == src[4..8] && ToBe32(f.seqNo) == src[8..12]
  {
    FromBe32RoundTrip(src[4..8]);
    FromBe32RoundTrip(src[8..12]);
  }

  lemma DecodedLength(src: seq<byte>)
    requires DecodeFrame(src).Got?
    ensures var f := DecodeFrame(src).frame; Fits(f) && ToBe32(|f.payload| % TWO_32) == src[12..16]
  {
    var len := FromBe32(src[12..16]);
    assert |DecodeFrame(src).frame.payload| == len && len % TWO_32 == len;
    FromBe32RoundTrip(src[12..16]);
  }

  lemma FromFields(src: seq<byte>, f: Frame, a: seq<byte>, b: seq<byte>, c: seq<byte>)
    requires |src| >= HEADER_LEN + |f.payload|
    requires src[..2] == MAGIC && src[2] == VERSION && src[3] == f.ptype.ToU8()
    requires ToBe32(f.msgId) == a == src[4..8] && ToBe32(f.seqNo) == b == src[8..12]
    requires ToBe32(|f.payload| % TWO_32) == c == src[12..16]
    requires f.payload == src[HEADER_LEN..HEADER_LEN + |f.payload|]
    ensures src == EncodeFrame(f) + src[HEADER_LEN + |f.payload|..]
  {
    assert EncodeFrame(f) == MAGIC + [VERSION] + [f.ptype.ToU8()] + a + b + c + f.payload;
    Fields(src, |f.payload|);
  }

  lemma DecodedWasEncoded(src: seq<byte>)
    requires DecodeFrame(src).Got?
    ensures var r := DecodeFrame(src); Fits(r.frame) && src == EncodeFrame(r.frame) + r.rest
  {
    DecodedIds(src);
    DecodedLength(src);
    FromFields(src, DecodeFrame(src).frame, src[4..8], src[8..12], src[12..16]);
  }

  /** The decoder returns (f, rest) exactly when the buffer is f's encoding followed by rest. */
  lemma DecodeExact(src: seq<byte>, f: Frame, rest: seq<byte>)
    ensures DecodeFrame(src) == Got(f, rest) <==> Fits(f) && src == EncodeFrame(f) + rest
  {
    if DecodeFrame(src) == Got(f, rest) { DecodedWasEncoded(src); }
    if Fits(f) && src == EncodeFrame(f) + rest { DecodeEncoded(f, rest); }
  }

  /** A frame survives the wire exactly when its payload is within the limit. */
  lemma RoundTripExact(f: Frame)
    ensures DecodeFrame(EncodeFrame(f)) == Got(f, []) <==> Fits(f)
  {
    DecodeExact(EncodeFrame(f), f, []);
    assert EncodeFrame(f) + [] == EncodeFrame(f);
  }

  /** Bytes that arrive later never change a verdict already reached. */
  lemma DecodeStable(src: seq<byte>, more: seq<byte>)
    ensures DecodeFrame(src).Got? ==> DecodeFrame(src + more) == Got(DecodeFrame(src).frame, DecodeFrame(src).rest + more)
    ensures DecodeFrame(src).Bad? ==> DecodeFrame(src + more) == DecodeFrame(src)
  {
    if DecodeFrame(src).Got? {
      DecodedWasEncoded(src);
      var r := DecodeFrame(src);
      assert src + more == EncodeFrame(r.frame) + (r.rest + more);
      DecodeEncoded(r.frame, r.rest + more);
    } else if DecodeFrame(src).Bad? {
      var s := src + more;
      assert s[..2] == src[..2] && s[12..16] == src[12..16];
    }
  }

  // ----- The format in plain numbers -----

  /** The layout, byte by byte: "MT", version 1, the type's code, message id, seq and payload length, each
      in four bytes with the most significant one first, and the payload. */
  predicate OnTheWire(s: seq<byte>, f: Frame) {
    && |s| == 16 + |f.payload|
    && s[0] == 0x4D && s[1] == 0x54 && s[2] == 1
    && (f.ptype == Request <==> s[3] == 0) && (f.ptype == Response <==> s[3] == 1) && (f.ptype == Push <==> s[3] == 2)
    && (f.ptype == Heartbeat <==> s[3] == 3) && (f.ptype == Close <==> s[3] == 4)
    && BigEndianAt(s, 4) == f.msgId && BigEndianAt(s, 8) == f.seqNo
    && BigEndianAt(s, 12) == |f.payload| % 0x1_0000_0000
    && s[16..] == f.payload
  }

  lemma FourBytes(s: seq<byte>, i: nat, n: u32)
    requires i + 4 <= |s|
    ensures s[i..i + 4] == ToBe32(n) <==> BigEndianAt(s, i) == n
  {
    var four := s[i..i + 4];
    ReadsBigEndian(four);
    assert BigEndianAt(four, 0) == BigEndianAt(s, i);
    Be32RoundTrip(n);
    FromBe32RoundTrip(four);
  }

  lemma LayoutHolds(f: Frame)
    ensures OnTheWire(EncodeFrame(f), f)
  {
    var s := EncodeFrame(f);
    HeaderOf(f, []);
    assert s + [] == s;
    FourBytes(s, 4, f.msgId);
    FourBytes(s, 8, f.seqNo);
    FourBytes(s, 12, |f.payload| % TWO_32);
    assert s[..2][0] == 0x4D && s[..2][1] == 0x54;
  }

  lemma LayoutDetermines(s: seq<byte>, f: Frame)
    requires OnTheWire(s, f)
    ensures s == EncodeFrame(f)
  {
    FourBytes(s, 4, f.msgId);
    FourBytes(s, 8, f.seqNo);
    FourBytes(s, 12, |f.payload| % TWO_32);
    assert s[..2] == MAGIC && s[2] == VERSION && s[3] == f.ptype.ToU8();
    FromFields(s, f, s[4..8], s[8..12], s[12..16]);
    assert s[16 + |f.payload|..] == [];
  }

  /** A frame is encoded in exactly this layout. */
  lemma EncodingIsTheLayout(s: seq<byte>, f: Frame)
    ensures s == EncodeFrame(f) <==> OnTheWire(s, f)
  {
    LayoutHolds(f);
    if OnTheWire(s, f) { LayoutDetermines(s, f); }
  }

  /** The header is acceptable: "MT", version 1, a known type, at most 4 MiB announced. */
  predicate GoodHeader(src: seq<byte>) {
    && |src| >= 16 && src[0] == 0x4D && src[1] == 0x54 && src[2] == 1 && src[3] <= 4
    && BigEndianAt(src, 12) <= 4_194_304
  }

  /** Every verdict of the decoder, by what the buffer holds, in the order the checks are made. */
  lemma DecodeVerdicts(src: seq<byte>, v: byte, n: u32)
    ensures DecodeFrame(src) == NeedMore <==> |src| < 16 || (GoodHeader(src) && |src| < 16 + BigEndianAt(src, 12))
    ensures DecodeFrame(src) == Bad(BadMagic) <==> |src| >= 16 && (src[0] != 0x4D || src[1] != 0x54)
    ensures DecodeFrame(src) == Bad(BadVersion(v))
            <==> |src| >= 16 && src[0] == 0x4D && src[1] == 0x54 && src[2] == v && v != 1
    ensures DecodeFrame(src) == Bad(BadPType(v))
            <==> |src| >= 16 && src[0] == 0x4D && src[1] == 0x54 && src[2] == 1 && src[3] == v && v > 4
    ensures DecodeFrame(src) == Bad(TooLarge(n))
            <==> |src| >= 16 && src[0] == 0x4D && src[1] == 0x54 && src[2] == 1 && src[3] <= 4
                 && BigEndianAt(src, 12) == n && n > 4_194_304
    ensures DecodeFrame(src).Got? <==> GoodHeader(src) && |src| >= 16 + BigEndianAt(src, 12)
  {
    if |src| >= 16 {
      assert src[..2] == [src[0], src[1]];
      var four := src[12..16];
      ReadsBigEndian(four);
      assert BigEndianAt(four, 0) == BigEndianAt(src, 12);
    }
  }

  // ----- Streams: chunking does not matter -----

  /** Everything a drain takes off the buffer is the encodings of the frames it returned. */
  lemma {:induction false} DrainConsumes(src: seq<byte>)
    ensures var d := Drain(src); src == EncodeAll(d.frames) + d.rest
    decreases |src|
  {
    if DecodeFrame(src).Got? {
      var r := DecodeFrame(src);
      DecodedWasEncoded(src);
      DrainConsumes(r.rest);
      var tail := Drain(r.rest).frames;
      assert ([r.frame] + tail)[1..] == tail;
    }
  }

  lemma {:induction false} DrainStops(src: seq<byte>)
    ensures var d := Drain(src); d.error.None? <==> DecodeFrame(d.rest).NeedMore?
    decreases |src|
  {
    if DecodeFrame(src).Got? { DrainStops(DecodeFrame(src).rest); }
  }

  lemma {:induction false} DrainEncoded(fs: seq<Frame>)
    requires forall f :: f in fs ==> Fits(f)
    ensures Drain(EncodeAll(fs)) == Drained(fs, None, [])
  {
    if fs != [] {
      DrainEncoded(fs[1..]);
      DecodeEncoded(fs[0], EncodeAll(fs[1..]));
    }
  }

  ghost predicate Joined(d: Drained, e: Drained, whole: Drained, more: seq<byte>) {
    if d.error.Some? then whole == d.(rest := d.rest + more)
    else whole == e.(frames := d.frames + e.frames)
  }

  lemma JoinedAfter(f: Frame, d: Drained, e: Drained, whole: Drained, more: seq<byte>)
    requires Joined(d, e, whole, more)
    ensures Joined(d.(frames := [f] + d.frames), e, whole.(frames := [f] + whole.frames), more)
  {
    assert [f] + (d.frames + e.frames) == ([f] + d.frames) + e.frames;
  }

  /** Draining a prefix first and the rest later delivers what one drain of the whole delivers. */
  lemma {:induction false} DrainSplit(src: seq<byte>, more: seq<byte>)
    ensures var d := Drain(src); Joined(d, Drain(d.rest + more), Drain(src + more), more)
    decreases |src|
  {
    DecodeStable(src, more);
    match DecodeFrame(src)
    case NeedMore =>
      var e := Drain(src + more);
      assert [] + e.frames == e.frames;
    case Bad(_) =>
    case Got(f, rest) =>
      DrainSplit(rest, more);
      var d := Drain(rest);
      JoinedAfter(f, d, Drain(d.rest + more), Drain(rest + more), more);
  }

  /** The chunks a reader leaves untouched because it failed before they came. */
  function Unread(r: Stream, chunks: seq<seq<byte>>): seq<byte>
    decreases |chunks|
  {
    if r.error.Some? then Concat(chunks)
    else if chunks == [] then []
    else Unread(Feed(r, chunks[0]), chunks[1..])
  }

  /** The reader has the frames and the error of the drain, and its buffer with what it left unread
      is what the drain leaves. */
  ghost predicate Agrees(out: Stream, before: seq<Frame>, unread: seq<byte>, d: Drained) {
    && out.delivered == before + d.frames
    && out.error == d.error
    && out.buffer + unread == d.rest
    && (d.error.None? ==> unread == [] && out.buffer == d.rest)
  }

  /** One reader fed any chunks equals one drain of all their bytes: same frames, same error at the
      same place, and the same leftover bytes. */
  lemma {:induction false} FeedAllIsOneDrain(r: Stream, chunks: seq<seq<byte>>)
    requires r.error.None? && DecodeFrame(r.buffer).NeedMore?
    ensures Agrees(FeedAll(r, chunks), r.delivered, Unread(r, chunks), Drain(r.buffer + Concat(chunks)))
    decreases |chunks|
  {
    if chunks == [] {
      assert r.buffer + Concat(chunks) == r.buffer;
    } else {
      var src, more := r.buffer + chunks[0], Concat(chunks[1..]);
      assert r.buffer + Concat(chunks) == src + more;
      var r1 := Feed(r, chunks[0]);
      if r1.error.Some? {
        FeedFailed(r1, chunks[1..]);
      } else {
        DrainStops(src);
        FeedAllIsOneDrain(r1, chunks[1..]);
      }
      DrainSplit(src, more);
      var d := Drain(src);
      JoinDrains(d, Drain(d.rest + more), Drain(src + more), r.delivered, FeedAll(r1, chunks[1..]),
                 Unread(r1, chunks[1..]), more);
    }
  }

  lemma JoinDrains(d: Drained, e: Drained, whole: Drained, before: seq<Frame>, out: Stream, unread: seq<byte>, more: seq<byte>)
    requires Joined(d, e, whole, more)
    requires if d.error.Some? then out == Stream(d.rest, before + d.frames, d.error) && unread == more
             else Agrees(out, before + d.frames, unread, e)
    ensures Agrees(out, before, unread, whole)
  {
    assert before + d.frames + e.frames == before + (d.frames + e.frames);
  }

  lemma {:induction false} FeedFailed(r: Stream, chunks: seq<seq<byte>>)
    requires r.error.Some?
    ensures FeedAll(r, chunks) == r
    decreases |chunks|
  {
    if chunks != [] { FeedFailed(r, chunks[1..]); }
  }

  /** Any two ways of cutting the same bytes deliver the same frames and the same verdict, and leave
      the same bytes. */
  lemma ChunkingIndependence(a: seq<seq<byte>>, b: seq<seq<byte>>)
    requires Concat(a) == Concat(b)
    ensures var x, y := FeedAll(FRESH, a), FeedAll(FRESH, b);
            && x.delivered == y.delivered && x.error == y.error
            && x.buffer + Unread(FRESH, a) == y.buffer + Unread(FRESH, b)
            && (x.error.None? ==> x.buffer == y.buffer)
  {
    FreshReader(a);
    FreshReader(b);
  }

  lemma FreshReader(chunks: seq<seq<byte>>)
    ensures Agrees(FeedAll(FRESH, chunks), [], Unread(FRESH, chunks), Drain(Concat(chunks)))
  {
    FeedAllIsOneDrain(FRESH, chunks);
    assert FRESH.buffer + Concat(chunks) == Concat(chunks);
  }

  /** Frames within the limit come out as they went in, however the network cuts the bytes. */
  lemma FramesSurviveChunking(fs: seq<Frame>, chunks: seq<seq<byte>>)
    requires forall f :: f in fs ==> Fits(f)
    requires Concat(chunks) == EncodeAll(fs)
    ensures FeedAll(FRESH, chunks) == Stream([], fs, None)
  {
    FeedAllIsOneDrain(FRESH, chunks);
    assert FRESH.buffer + Concat(chunks) == EncodeAll(fs);
    DrainEncoded(fs);
    assert FRESH.delivered + fs == fs;
  }

  // ----- The buffers as the program updates them -----

  datatype DecodeResult = Pending | Ready(frame: Frame) | Failed(error: FrameError)

  lemma ReadyMeansEncoded(src: seq<byte>)
    requires DecodeFrame(src).Got?
    ensures TakenOff(src, DecodeFrame(src).frame, DecodeFrame(src).rest)
  {
    DecodedWasEncoded(src);
    var f, rest := DecodeFrame(src).frame, DecodeFrame(src).rest;
    LayoutHolds(f);
    assert src[..|src| - |rest|] == EncodeFrame(f);
  }

  /** The buffer was this frame's layout followed by the rest. */
  predicate TakenOff(src: seq<byte>, f: Frame, rest: seq<byte>) {
    |rest| <= |src| && src[|src| - |rest|..] == rest && OnTheWire(src[..|src| - |rest|], f)
  }

  class FrameBuffer {
    var bytes: seq<byte>

    constructor ()
      ensures bytes == []
    {
      bytes := [];
    }

    method EncodeInto(f: Frame)
      modifies this
      ensures bytes == old(bytes) + EncodeFrame(f)
      ensures OnTheWire(bytes[|old(bytes)|..], f)
    {
      LayoutHolds(f);
      bytes := bytes + MAGIC;
      bytes := bytes + [VERSION];
      bytes := bytes + [f.ptype.ToU8()];
      bytes := bytes + ToBe32(f.msgId);
      bytes := bytes + ToBe32(f.seqNo);
      bytes := bytes + ToBe32(|f.payload| % TWO_32);
      bytes := bytes + f.payload;
    }

    method Decode() returns (r: DecodeResult)
      modifies this
      ensures match DecodeFrame(old(bytes))
              case NeedMore => r == Pending && bytes == old(bytes)
              case Bad(e) => r == Failed(e) && bytes == old(bytes)
              case Got(f, rest) => r == Ready(f) && bytes == rest
      ensures r.Ready? ==> TakenOff(old(bytes), r.frame, bytes)
    {
      if DecodeFrame(bytes).Got? { ReadyMeansEncoded(bytes); }
      if |bytes| < HEADER_LEN {
        return Pending;
      }
      if bytes[0..2] != MAGIC {
        return Failed(BadMagic);
      }
      if bytes[2] != VERSION {
        return Failed(BadVersion(bytes[2]));
      }
      var ptype := PTypeFromU8(bytes[3]);
      if ptype.None? {
        return Failed(BadPType(bytes[3]));
      }
      var msgId := FromBe32(bytes[4..8]);
      var seqNo := FromBe32(bytes[8..12]);
      var len := FromBe32(bytes[12..16]);
      if len > MAX_PAYLOAD {
        return Failed(TooLarge(len));
      }
      var total := HEADER_LEN + len;
      if |bytes| < total {
        return Pending;
      }
      ghost var whole := bytes;
      bytes := bytes[HEADER_LEN..];
      var payload := bytes[..len];
      bytes := bytes[len..];
      assert payload == whole[HEADER_LEN..HEADER_LEN + len];
      assert bytes == whole[HEADER_LEN + len..];
      return Ready(Frame(ptype.value, msgId, seqNo, payload));
    }

    /** Append what the socket gave, then decode until nothing more comes out. */
    method Receive(chunk: seq<byte>) returns (frames: seq<Frame>, error: Option<FrameError>)
      modifies this
      ensures Drained(frames, error, bytes) == Drain(old(bytes) + chunk)
    {
      bytes := bytes + chunk;
      ghost var all := bytes;
      frames, error := [], None;
      while true
        invariant error.None?
        invariant Drain(all) == (var d := Drain(bytes); d.(frames := frames + d.frames))
        decreases |bytes|
      {
        var r := Decode();
        match r
        case Pending => return;
        case Failed(e) => return frames, Some(e);
        case Ready(f) =>
          ghost var d := Drain(bytes);
          assert frames + ([f] + d.frames) == (frames + [f]) + d.frames;
          frames := frames + [f];
      }
    }
  }
}
