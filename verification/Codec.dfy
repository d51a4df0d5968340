/** The multiplexer's wire format: the twelve-byte header, the bounds a frame must keep, framing of
    writes, and parsing from a transport buffer that holds the stream in blocks of any size. */
module Codec {
  import opened Bytes

  const HEADER_SIZE: nat := 12
  const PROTO_VERSION: nat := 0

  const TYPE_DATA: nat := 0
  const TYPE_WINDOW_UPDATE: nat := 1
  const TYPE_PING: nat := 2
  const TYPE_GO_AWAY: nat := 3
  const TYPE_SYN_METADATA: nat := 4

  const FLAG_SYN: nat := 1

  /** One more than every defined flag together: SYN, ACK, FIN and RST are the four lowest bits. */
  const FLAGS: nat := 16

  datatype Fault = BadVersion | BadType | BadFlags | BadLength

  datatype Option<T> = None | Some(value: T)

  // ------------------------------------------------------------------ the header

  datatype Header = Header(version: nat, typ: nat, flags: nat, id: nat, length: nat)

  predicate Fits(h: Header) {
    h.version < 0x100 && h.typ < 0x100 && h.flags < 0x1_0000 && h.id < 0x1_0000_0000 && h.length < 0x1_0000_0000
  }

  /** Big-endian. */
  function Put16(n: nat): seq<byte>
    requires n < 0x1_0000
  {
    [(n / 0x100) as byte, (n % 0x100) as byte]
  }

  function Put32(n: nat): seq<byte>
    requires n < 0x1_0000_0000
  {
    Put16(n / 0x1_0000) + Put16(n % 0x1_0000)
  }

  function Get16(b: seq<byte>): nat
    requires |b| >= 2
  {
    b[0] as int * 0x100 + b[1] as int
  }

  function Get32(b: seq<byte>): nat
    requires |b| >= 4
  {
    Get16(b[..2]) * 0x1_0000 + Get16(b[2..])
  }

  /** What encodeHeader writes; the version is always the protocol's. */
  function HeaderBytes(h: Header): seq<byte>
    requires Fits(h)
  {
    [PROTO_VERSION as byte, h.typ as byte] + Put16(h.flags) + Put32(h.id) + Put32(h.length)
  }

  function RawHeader(b: seq<byte>): Header
    requires |b| >= HEADER_SIZE
  {
    Header(b[0] as int, b[1] as int, Get16(b[2..4]), Get32(b[4..8]), Get32(b[8..12]))
  }

  /** decodeHeader's checks of a whole header, in its order. */
  function HeaderFault(h: Header): Option<Fault> {
    if h.version != PROTO_VERSION then Some(BadVersion)
    else if h.typ > TYPE_SYN_METADATA then Some(BadType)
    else if h.flags >= FLAGS then Some(BadFlags)
    else None
  }

  /** validateFrame: the bounds of each type. */
  function FrameFault(h: Header, maxData: nat, maxMeta: nat): Option<Fault> {
    if h.typ == TYPE_DATA then (if h.length > maxData then Some(BadLength) else None)
    else if h.typ == TYPE_WINDOW_UPDATE then (if h.id == 0 then Some(BadFlags) else None)
    else if h.typ == TYPE_GO_AWAY then (if h.id != 0 then Some(BadFlags) else None)
    else if h.typ == TYPE_SYN_METADATA then
      if h.flags != FLAG_SYN || h.id == 0 then Some(BadFlags)
      else if h.length < 4 || h.length - 4 > maxMeta then Some(BadLength)
      else None
    else None
  }

  /** A header passes both checks exactly when it keeps the bounds of the format: a known version, type and
      flags, data within the window, updates of a stream, a GoAway of the session, and a metadata SYN of a
      stream with its four-byte window and bounded metadata. */
  lemma ValidMeans(h: Header, maxData: nat, maxMeta: nat)
    ensures HeaderFault(h).None? && FrameFault(h, maxData, maxMeta).None?
       <==> && h.version == PROTO_VERSION && h.typ <= TYPE_SYN_METADATA && h.flags < FLAGS
            && (h.typ == TYPE_DATA ==> h.length <= maxData)
            && (h.typ == TYPE_WINDOW_UPDATE ==> h.id != 0)
            && (h.typ == TYPE_GO_AWAY ==> h.id == 0)
            && (h.typ == TYPE_SYN_METADATA ==> h.flags == FLAG_SYN && h.id != 0 && 4 <= h.length <= maxMeta + 4)
  {
  }

  /** Only data and metadata frames have a payload. */
  predicate Carries(h: Header) { h.typ == TYPE_DATA || h.typ == TYPE_SYN_METADATA }

  function FrameSize(h: Header): nat { HEADER_SIZE + if Carries(h) then h.length else 0 }

  datatype Frame = Frame(hdr: Header, payload: seq<byte>)

  predicate Legal(f: Frame, maxData: nat, maxMeta: nat) {
    && Fits(f.hdr) && HeaderFault(f.hdr) == None && FrameFault(f.hdr, maxData, maxMeta) == None
    && |f.payload| == FrameSize(f.hdr) - HEADER_SIZE
  }

  function FrameBytes(f: Frame): seq<byte>
    requires Fits(f.hdr)
  {
    HeaderBytes(f.hdr) + f.payload
  }

  // ------------------------------------------------------------------- parsing

  datatype Parse = More | Bad(fault: Fault) | Got(frame: Frame, total: nat)

  /** readFrame, over the bytes the transport has buffered. */
  function ReadFrame(buf: seq<byte>, maxData: nat, maxMeta: nat): (p: Parse)
    ensures p.Got? ==> HEADER_SIZE <= p.total <= |buf|
  {
    if |buf| < HEADER_SIZE then More
    else
      var h := RawHeader(buf);
      if HeaderFault(h).Some? then Bad(HeaderFault(h).value)
      else if FrameFault(h, maxData, maxMeta).Some? then Bad(FrameFault(h, maxData, maxMeta).value)
      else if |buf| < FrameSize(h) then More
      else Got(Frame(h, buf[HEADER_SIZE..FrameSize(h)]), FrameSize(h))
  }

  /** Frames taken so far, the bytes left, and the fault that ended the session. */
  datatype Parsed = Parsed(frames: seq<Frame>, rest: seq<byte>, fault: Option<Fault>)

  function Behind(f: Frame, p: Parsed): Parsed { p.(frames := [f] + p.frames) }

  /** Every complete frame of a buffer. */
  function ParseAll(buf: seq<byte>, maxData: nat, maxMeta: nat): Parsed
    decreases |buf|
  {
    match ReadFrame(buf, maxData, maxMeta)
    case More => Parsed([], buf, None)
    case Bad(fault) => Parsed([], [], Some(fault))
    case Got(frame, total) =>
      Behind(frame, ParseAll(buf[total..], maxData, maxMeta))
  }

  /** More bytes arrive. */
  function Feed(p: Parsed, more: seq<byte>, maxData: nat, maxMeta: nat): Parsed {
    if p.fault.Some? then p
    else
      var q := ParseAll(p.rest + more, maxData, maxMeta);
      q.(frames := p.frames + q.frames)
  }

  function FeedAll(blocks: seq<seq<byte>>, maxData: nat, maxMeta: nat): Parsed {
    if blocks == [] then Parsed([], [], None)
    else Feed(FeedAll(blocks[..|blocks| - 1], maxData, maxMeta), blocks[|blocks| - 1], maxData, maxMeta)
  }

  // ------------------------------------------------------- parsing undoes encoding

  lemma Get16Put16(n: nat)
    requires n < 0x1_0000
    ensures Get16(Put16(n)) == n
  {
  }

  lemma Get32Put32(n: nat)
    requires n < 0x1_0000_0000
    ensures |Put32(n)| == 4 && Get32(Put32(n)) == n
  {
    assert Put32(n)[..2] == Put16(n / 0x1_0000) && Put32(n)[2..] == Put16(n % 0x1_0000);
    Get16Put16(n / 0x1_0000);
    Get16Put16(n % 0x1_0000);
  }

  /** Decoding a header undoes encoding it. */
  lemma HeaderRoundTrip(h: Header, tail: seq<byte>)
    requires Fits(h) && h.version == PROTO_VERSION
    ensures |HeaderBytes(h)| == HEADER_SIZE && RawHeader(HeaderBytes(h) + tail) == h
  {
    var b := HeaderBytes(h) + tail;
    Get16Put16(h.flags);
    Get32Put32(h.id);
    Get32Put32(h.length);
    assert b[2..4] == Put16(h.flags);
    assert b[4..8] == Put32(h.id);
    assert b[8..12] == Put32(h.length);
  }

  /** A legal frame ahead of any bytes is read back exactly. */
  lemma FrameRoundTrip(f: Frame, tail: seq<byte>, maxData: nat, maxMeta: nat)
    requires Legal(f, maxData, maxMeta)
    ensures ReadFrame(FrameBytes(f) + tail, maxData, maxMeta) == Got(f, |FrameBytes(f)|)
  {
    HeaderRoundTrip(f.hdr, f.payload + tail);
    assert FrameBytes(f) + tail == HeaderBytes(f.hdr) + (f.payload + tail);
    assert (FrameBytes(f) + tail)[HEADER_SIZE..FrameSize(f.hdr)] == f.payload;
  }

  predicate AllLegal(fs: seq<Frame>, maxData: nat, maxMeta: nat) {
    forall i :: 0 <= i < |fs| ==> Legal(fs[i], maxData, maxMeta)
  }

  function Encode(fs: seq<Frame>, maxData: nat, maxMeta: nat): seq<byte>
    requires AllLegal(fs, maxData, maxMeta)
  {
    if fs == [] then [] else FrameBytes(fs[0]) + Encode(fs[1..], maxData, maxMeta)
  }

  lemma {:induction false} EncodeParses(fs: seq<Frame>, maxData: nat, maxMeta: nat)
    requires AllLegal(fs, maxData, maxMeta)
    ensures ParseAll(Encode(fs, maxData, maxMeta), maxData, maxMeta) == Parsed(fs, [], None)
  {
    if fs != [] {
      var tail := Encode(fs[1..], maxData, maxMeta);
      FrameRoundTrip(fs[0], tail, maxData, maxMeta);
      EncodeParses(fs[1..], maxData, maxMeta);
      assert (FrameBytes(fs[0]) + tail)[|FrameBytes(fs[0])|..] == tail;
      assert fs == [fs[0]] + fs[1..];
    }
  }

  /** What has been decided from some bytes does not change when more follow. */
  lemma ReadStable(a: seq<byte>, b: seq<byte>, maxData: nat, maxMeta: nat)
    requires !ReadFrame(a, maxData, maxMeta).More?
    ensures ReadFrame(a + b, maxData, maxMeta) == ReadFrame(a, maxData, maxMeta)
  {
    assert (a + b)[2..4] == a[2..4] && (a + b)[4..8] == a[4..8] && (a + b)[8..12] == a[8..12];
    var h := RawHeader(a);
    assert RawHeader(a + b) == h;
    if FrameSize(h) <= |a| {
      assert (a + b)[HEADER_SIZE..FrameSize(h)] == a[HEADER_SIZE..FrameSize(h)];
    }
  }

  lemma FeedBehind(f: Frame, p: Parsed, b: seq<byte>, maxData: nat, maxMeta: nat)
    ensures Feed(Behind(f, p), b, maxData, maxMeta) == Behind(f, Feed(p, b, maxData, maxMeta))
  {
    if p.fault.None? {
      var q := ParseAll(p.rest + b, maxData, maxMeta);
      assert ([f] + p.frames) + q.frames == [f] + (p.frames + q.frames);
    }
  }

  lemma FeedNothing(a: seq<byte>, b: seq<byte>, maxData: nat, maxMeta: nat)
    ensures Feed(Parsed([], a, None), b, maxData, maxMeta) == ParseAll(a + b, maxData, maxMeta)
  {
    var q := ParseAll(a + b, maxData, maxMeta);
    assert [] + q.frames == q.frames;
  }

  lemma ParseGot(a: seq<byte>, maxData: nat, maxMeta: nat)
    requires ReadFrame(a, maxData, maxMeta).Got?
    ensures var p := ReadFrame(a, maxData, maxMeta);
            ParseAll(a, maxData, maxMeta) == Behind(p.frame, ParseAll(a[p.total..], maxData, maxMeta))
  {
  }

  /** Parsing what came and then what follows is parsing all of it. */
  lemma {:induction false} FeedIsParse(a: seq<byte>, b: seq<byte>, maxData: nat, maxMeta: nat)
    ensures Feed(ParseAll(a, maxData, maxMeta), b, maxData, maxMeta) == ParseAll(a + b, maxData, maxMeta)
    decreases |a|
  {
    var p := ReadFrame(a, maxData, maxMeta);
    if p.More? {
      FeedNothing(a, b, maxData, maxMeta);
    } else {
      ReadStable(a, b, maxData, maxMeta);
      if p.Got? {
        var t := a[p.total..];
        assert (a + b)[p.total..] == t + b;
        calc {
          ParseAll(a + b, maxData, maxMeta);
          { ParseGot(a + b, maxData, maxMeta); }
          Behind(p.frame, ParseAll(t + b, maxData, maxMeta));
          { FeedIsParse(t, b, maxData, maxMeta); }
          Behind(p.frame, Feed(ParseAll(t, maxData, maxMeta), b, maxData, maxMeta));
          { FeedBehind(p.frame, ParseAll(t, maxData, maxMeta), b, maxData, maxMeta); }
          Feed(Behind(p.frame, ParseAll(t, maxData, maxMeta)), b, maxData, maxMeta);
          { ParseGot(a, maxData, maxMeta); }
          Feed(ParseAll(a, maxData, maxMeta), b, maxData, maxMeta);
        }
      }
    }
  }

  /** However the byte stream is split across reads, the frames, the rest and the fault are the same. */
  lemma {:induction false} AnySplit(blocks: seq<seq<byte>>, maxData: nat, maxMeta: nat)
    ensures FeedAll(blocks, maxData, maxMeta) == ParseAll(Flatten(blocks), maxData, maxMeta)
  {
    if blocks != [] {
      var front, last := blocks[..|blocks| - 1], blocks[|blocks| - 1];
      AnySplit(front, maxData, maxMeta);
      FeedIsParse(Flatten(front), last, maxData, maxMeta);
      assert blocks == front + [last];
      FlattenSnoc(front, last);
    }
  }

  /** Parsing undoes encoding for any concatenation of legal frames, split across reads in any way. */
  lemma SplitRoundTrip(fs: seq<Frame>, blocks: seq<seq<byte>>, maxData: nat, maxMeta: nat)
    requires AllLegal(fs, maxData, maxMeta) && Flatten(blocks) == Encode(fs, maxData, maxMeta)
    ensures FeedAll(blocks, maxData, maxMeta) == Parsed(fs, [], None)
  {
    AnySplit(blocks, maxData, maxMeta);
    EncodeParses(fs, maxData, maxMeta);
  }

  // ------------------------------------------------------ the transport's blocks

  /** PeekChunk. */
  function First(blocks: seq<seq<byte>>): seq<byte> { if blocks == [] then [] else blocks[0] }

  /** Discard: drops bytes from the front, block by block. */
  function DropFront(blocks: seq<seq<byte>>, n: nat): seq<seq<byte>>
    requires n <= |Flatten(blocks)|
  {
    if n == 0 || blocks == [] then blocks
    else if n >= |blocks[0]| then DropFront(blocks[1..], n - |blocks[0]|)
    else [blocks[0][n..]] + blocks[1..]
  }

  lemma {:induction false} DropFrontBytes(blocks: seq<seq<byte>>, n: nat)
    requires n <= |Flatten(blocks)|
    ensures Flatten(DropFront(blocks, n)) == Flatten(blocks)[n..]
  {
    if n > 0 && blocks != [] {
      if n >= |blocks[0]| {
        DropFrontBytes(blocks[1..], n - |blocks[0]|);
      } else {
        assert ([blocks[0][n..]] + blocks[1..])[1..] == blocks[1..];
        assert (blocks[0] + Flatten(blocks[1..]))[n..] == blocks[0][n..] + Flatten(blocks[1..]);
      }
    }
  }

  /** The payload as readFrame serves it: in place when the first block holds the whole frame, copied
      otherwise. */
  function Payload(blocks: seq<seq<byte>>, total: nat): seq<byte>
    requires HEADER_SIZE <= total <= |Flatten(blocks)|
  {
    if |First(blocks)| >= total then First(blocks)[HEADER_SIZE..total] else Flatten(blocks)[HEADER_SIZE..total]
  }

  /** The borrowed and the copied payload are the same bytes. */
  lemma BorrowedIsCopied(blocks: seq<seq<byte>>, total: nat)
    requires HEADER_SIZE <= total <= |Flatten(blocks)|
    ensures Payload(blocks, total) == Flatten(blocks)[HEADER_SIZE..total]
  {
    if |First(blocks)| >= total {
      assert Flatten(blocks) == blocks[0] + Flatten(blocks[1..]);
    }
  }

  /** The parse loop of one transport turn.  It stops for want of a complete frame, for a fault, or when
      the receive budget is exhausted, which `exhausted` says after each frame. */
  method OnRead(blocks: seq<seq<byte>>, maxData: nat, maxMeta: nat, exhausted: nat -> bool)
    returns (frames: seq<Frame>, left: seq<seq<byte>>, fault: Option<Fault>)
    ensures var q := ParseAll(Flatten(left), maxData, maxMeta);
            ParseAll(Flatten(blocks), maxData, maxMeta)
            == if fault.Some? then Parsed(frames, [], fault) else q.(frames := frames + q.frames)
    ensures fault.None? ==> ReadFrame(Flatten(left), maxData, maxMeta).More? || exhausted(|frames|)
  {
    frames, left, fault := [], blocks, None;
    var going := true;
    while going
      invariant fault.None?
      invariant var q := ParseAll(Flatten(left), maxData, maxMeta);
                ParseAll(Flatten(blocks), maxData, maxMeta) == q.(frames := frames + q.frames)
      invariant !going ==> ReadFrame(Flatten(left), maxData, maxMeta).More? || exhausted(|frames|)
      decreases |Flatten(left)|, going
    {
      var p := ReadFrame(Flatten(left), maxData, maxMeta);
      match p
      case More => going := false;
      case Bad(f) =>
        assert frames + [] == frames;
        fault := Some(f);
        return;
      case Got(frame, total) =>
        BorrowedIsCopied(left, total);
        DropFrontBytes(left, total);
        var payload := Payload(left, total);
        ghost var q := ParseAll(Flatten(left)[total..], maxData, maxMeta);
        assert frames + ([frame] + q.frames) == (frames + [frame]) + q.frames;
        frames := frames + [Frame(frame.hdr, payload)];
        left := DropFront(left, total);
        if exhausted(|frames|) { going := false; }
    }
  }

  // ------------------------------------------------------------------ encoders

  method PutUint16(dst: array<byte>, at: nat, n: nat)
    requires at + 2 <= dst.Length && n < 0x1_0000
    modifies dst
    ensures dst[at..at + 2] == Put16(n)
    ensures forall i :: 0 <= i < dst.Length && !(at <= i < at + 2) ==> dst[i] == old(dst[i])
  {
    dst[at], dst[at + 1] := (n / 0x100) as byte, (n % 0x100) as byte;
  }

  method PutUint32(dst: array<byte>, at: nat, n: nat)
    requires at + 4 <= dst.Length && n < 0x1_0000_0000
    modifies dst
    ensures dst[at..at + 4] == Put32(n)
    ensures forall i :: 0 <= i < dst.Length && !(at <= i < at + 4) ==> dst[i] == old(dst[i])
  {
    PutUint16(dst, at, n / 0x1_0000);
    ghost var hi := dst[at..at + 2];
    PutUint16(dst, at + 2, n % 0x1_0000);
    assert dst[at..at + 2] == hi;
    assert dst[at..at + 4] == dst[at..at + 2] + dst[at + 2..at + 4];
  }

  /** encodeHeader writes the header and nothing else. */
  method EncodeHeader(dst: array<byte>, h: Header)
    requires Fits(h) && dst.Length >= HEADER_SIZE
    modifies dst
    ensures dst[..HEADER_SIZE] == HeaderBytes(h) && dst[HEADER_SIZE..] == old(dst[HEADER_SIZE..])
  {
    dst[0], dst[1] := PROTO_VERSION as byte, h.typ as byte;
    PutUint16(dst, 2, h.flags);
    PutUint32(dst, 4, h.id);
    PutUint32(dst, 8, h.length);
    assert dst[..2] == [PROTO_VERSION as byte, h.typ as byte];
    assert dst[2..4] == Put16(h.flags) && dst[4..8] == Put32(h.id);
    assert dst[..HEADER_SIZE] == dst[..2] + dst[2..4] + dst[4..8] + dst[8..12];
  }

  function Payloads(fs: seq<Frame>): seq<byte> {
    if fs == [] then [] else Payloads(fs[..|fs| - 1]) + fs[|fs| - 1].payload
  }

  /** frameData: a write becomes data frames of at most maxFrame bytes. */
  method FrameData(p: seq<byte>, id: nat, maxFrame: nat, maxData: nat) returns (frames: seq<Frame>)
    requires 0 < maxFrame && id < 0x1_0000_0000 && |p| < 0x1_0000_0000
    ensures Payloads(frames) == p
    ensures forall i :: 0 <= i < |frames| ==>
              && frames[i].hdr == Header(PROTO_VERSION, TYPE_DATA, 0, id, |frames[i].payload|)
              && 0 < |frames[i].payload| <= maxFrame
    ensures |p| <= maxData ==> AllLegal(frames, maxData, 0)
  {
    frames := [];
    var sent: nat := 0;
    while sent < |p|
      invariant sent <= |p| && Payloads(frames) == p[..sent]
      invariant forall i :: 0 <= i < |frames| ==>
                  && frames[i].hdr == Header(PROTO_VERSION, TYPE_DATA, 0, id, |frames[i].payload|)
                  && 0 < |frames[i].payload| <= maxFrame && |frames[i].payload| <= |p|
    {
      var chunk := |p| - sent;
      if chunk > maxFrame { chunk := maxFrame; }
      ghost var before := frames;
      frames := frames + [Frame(Header(PROTO_VERSION, TYPE_DATA, 0, id, chunk), p[sent..sent + chunk])];
      assert frames[..|frames| - 1] == before;
      assert p[..sent] + p[sent..sent + chunk] == p[..sent + chunk];
      sent := sent + chunk;
    }
    assert p[..sent] == p;
  }

  // ------------------------------------------------------ the transport's bound

  const MAX_INT: nat := 0x7fff_ffff_ffff_ffff

  /** Saturating, as a wrapped sum would disable the bound. */
  function BufferLimitSum(a: nat, b: nat): nat
    requires a <= MAX_INT && b <= MAX_INT
  {
    if a > MAX_INT - b then MAX_INT else a + b
  }

  function Larger(a: nat, b: nat): nat { if a < b then b else a }

  function TransportReadLimit(sessionWindow: nat, readBuffer: nat, window: nat, maxMeta: nat): nat
    requires sessionWindow <= MAX_INT && readBuffer <= MAX_INT && window <= MAX_INT && maxMeta <= MAX_INT
  {
    Larger(Larger(BufferLimitSum(sessionWindow, readBuffer), BufferLimitSum(window, HEADER_SIZE)),
           BufferLimitSum(maxMeta, HEADER_SIZE + 4))
  }

  /** A transport whose reads are held, with at least the bound buffered, always has a frame to parse or
      a fault to report: no incomplete legal frame reaches the bound.  (A buffer's length is an int.) */
  lemma HeldTransportParses(buf: seq<byte>, sessionWindow: nat, readBuffer: nat, window: nat, maxMeta: nat)
    requires 0 < sessionWindow <= MAX_INT && 0 < readBuffer <= MAX_INT
    requires window < 0x1_0000_0000 && maxMeta < 0x1_0000_0000
    requires |buf| >= TransportReadLimit(sessionWindow, readBuffer, window, maxMeta)
    ensures !ReadFrame(buf, window, maxMeta).More?
  {
    if |buf| >= HEADER_SIZE {
      var h := RawHeader(buf);
      if HeaderFault(h).None? && FrameFault(h, window, maxMeta).None? {
        assert FrameSize(h) <= Larger(window + HEADER_SIZE, maxMeta + HEADER_SIZE + 4);
      }
    }
  }
}
