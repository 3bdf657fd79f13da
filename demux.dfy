/**
 * The container engine's multiplexed log stream: a sequence of frames, each an 8-byte header
 * (byte 0 the stream type, bytes 4-7 the big-endian payload length) followed by the payload.
 * docker_container.go reads such a stream with plain `Read` calls into one 8-byte header
 * buffer, reused from frame to frame, and a fresh payload buffer per frame, and writes every
 * payload buffer to a sink.
 */
module Demux {

  import opened Wrappers

  newtype byte = b: int | 0 <= b < 256

  const HeaderSize: nat := 8
  const MaxPayload: nat := 0x1_0000_0000

  function Min(a: nat, b: nat): nat {
    if a < b then a else b
  }

  /** `binary.BigEndian.Uint32(hdr[4:])`. */
  function PayloadSize(header: seq<byte>): (n: nat)
    requires |header| == HeaderSize
    ensures n < MaxPayload
  {
    var b4, b5, b6, b7 := header[4] as nat, header[5] as nat, header[6] as nat, header[7] as nat;
    assert b4 * 256 + b5 < 65536;
    assert (b4 * 256 + b5) * 256 + b6 < 16777216;
    ((b4 * 256 + b5) * 256 + b6) * 256 + b7
  }

  function Zeros(n: nat): (z: seq<byte>)
    ensures |z| == n
  {
    seq(n, _ => 0 as byte)
  }

  /** How a read ends the loop: at the end of the stream, or with another read error. */
  datatype StreamEnd = EndOfStream | ReadFailed

  /**
   * How the reader ends: the read after the last byte returns `io.EOF` unless `broken` (the
   * connection failed). A reader that ends cleanly may return `io.EOF` together with the last
   * bytes instead (`eofWithData`).
   */
  datatype Close = Close(eofWithData: bool, broken: bool)

  /** The engine's log stream as the reader delivers it. */
  datatype Stream = Stream(bytes: seq<byte>, close: Close)

  function Ending(c: Close): StreamEnd {
    if c.broken then ReadFailed else EndOfStream
  }

  /** The error a read of up to `len` bytes returns along with its bytes, `rest` being what is left. */
  function ReadError(rest: seq<byte>, c: Close, len: nat): Option<StreamEnd> {
    if len == 0 then None
    else if rest == [] then Some(Ending(c))
    else if len >= |rest| && c.eofWithData && !c.broken then Some(EndOfStream)
    else None
  }

  /** The reader of the log stream: every `Read` hands over as many bytes as fit and are left. */
  class LogReader {
    const stream: Stream
    var pos: nat

    ghost predicate Valid()
      reads this
    {
      pos <= |stream.bytes|
    }

    constructor (s: Stream)
      ensures stream == s && pos == 0 && Valid()
    {
      stream := s;
      pos := 0;
    }

    /** `reader.Read(buf)`: the bytes read go to the front of `buf`; the rest of `buf` is kept. */
    method Read(buf: array<byte>) returns (n: nat, err: Option<StreamEnd>)
      requires Valid()
      modifies this, buf
      ensures Valid()
      ensures n == Min(buf.Length, |stream.bytes| - old(pos)) && pos == old(pos) + n
      ensures buf[..] == stream.bytes[old(pos)..pos] + old(buf[..])[n..]
      ensures err == ReadError(stream.bytes[old(pos)..], stream.close, buf.Length)
    {
      n := Min(buf.Length, |stream.bytes| - pos);
      err := ReadError(stream.bytes[pos..], stream.close, buf.Length);
      ghost var before := buf[..];
      forall i | 0 <= i < n {
        buf[i] := stream.bytes[pos + i];
      }
      assert buf[..] == stream.bytes[pos..pos + n] + before[n..];
      pos := pos + n;
    }
  }

  datatype Demuxed = Demuxed(output: seq<byte>, end: StreamEnd)

  /** `output` written before what `rest` writes. */
  function Prefixed(output: seq<byte>, rest: Demuxed): Demuxed {
    Demuxed(output + rest.output, rest.end)
  }

  /** One pass of the loop: it stops, or writes `data` and goes on with `next` left and header `hdr`. */
  datatype Step = Stopped(end: StreamEnd) | Wrote(data: seq<byte>, next: seq<byte>, hdr: seq<byte>)

  /**
   * One pass with `rest` left to read. A header read that returns an error ends the loop.
   * Otherwise the length is taken from the header buffer, whose tail keeps the previous header's
   * bytes when fewer than eight were read, and the whole payload buffer is written, zero beyond
   * the bytes that were left.
   */
  function StepAt(rest: seq<byte>, c: Close, hdr: seq<byte>): (st: Step)
    requires |hdr| == HeaderSize
    ensures st.Wrote? ==> |st.next| < |rest| && |st.hdr| == HeaderSize
  {
    match ReadError(rest, c, HeaderSize)
    case Some(end) => Stopped(end)
    case None =>
      var n := Min(HeaderSize, |rest|);
      var h := rest[..n] + hdr[n..];
      var count := PayloadSize(h);
      var got := Min(count, |rest| - n);
      Wrote(rest[n..n + got] + Zeros(count - got), rest[n + got..], h)
  }

  /** What the loop writes with `rest` left to read and `hdr` in the header buffer. */
  function DemuxRest(rest: seq<byte>, c: Close, hdr: seq<byte>): Demuxed
    requires |hdr| == HeaderSize
    decreases |rest|
  {
    match StepAt(rest, c, hdr)
    case Stopped(end) => Demuxed([], end)
    case Wrote(data, next, h) => Prefixed(data, DemuxRest(next, c, h))
  }

  /** What the reader writes to the sink, and how it stops, starting with a zeroed header buffer. */
  function Demultiplex(s: Stream): Demuxed {
    DemuxRest(s.bytes, s.close, Zeros(HeaderSize))
  }

  lemma Regroup(output: seq<byte>, data: seq<byte>, rest: Demuxed)
    ensures Prefixed(output, Prefixed(data, rest)) == Prefixed(output + data, rest)
  {
    assert output + (data + rest.output) == (output + data) + rest.output;
  }

  /** The read loop of docker_container.go (lines 134-145 and 264-280). */
  method Demux(s: Stream) returns (output: seq<byte>, end: StreamEnd)
    ensures Demuxed(output, end) == Demultiplex(s)
  {
    var reader := new LogReader(s);
    var hdr := new byte[HeaderSize](_ => 0);
    output := [];
    assert hdr[..] == Zeros(HeaderSize);
    assert s.bytes[0..] == s.bytes;
    assert Demultiplex(s) == Prefixed([], Demultiplex(s));
    while true
      invariant reader.Valid() && reader.stream == s && hdr.Length == HeaderSize
      invariant Demultiplex(s) == Prefixed(output, DemuxRest(s.bytes[reader.pos..], s.close, hdr[..]))
      decreases |s.bytes| - reader.pos
    {
      var data, err := ReadFrame(reader, hdr);
      if err.Some? {
        end := err.value;
        assert output + [] == output;
        return;
      }
      Regroup(output, data, DemuxRest(s.bytes[reader.pos..], s.close, hdr[..]));
      output := output + data;
    }
  }

  /**
   * One pass of the loop: a header read into the reused buffer `hdr`, then a read into a fresh
   * zeroed payload buffer of the length the header gives, which is written whole.
   */
  method ReadFrame(reader: LogReader, hdr: array<byte>) returns (data: seq<byte>, err: Option<StreamEnd>)
    requires reader.Valid() && hdr.Length == HeaderSize
    modifies reader, hdr
    ensures reader.Valid()
    ensures err.Some? ==>
      DemuxRest(reader.stream.bytes[old(reader.pos)..], reader.stream.close, old(hdr[..])) == Demuxed([], err.value)
    ensures err.None? ==> reader.pos > old(reader.pos)
    ensures err.None? ==>
      DemuxRest(reader.stream.bytes[old(reader.pos)..], reader.stream.close, old(hdr[..])) ==
        Prefixed(data, DemuxRest(reader.stream.bytes[reader.pos..], reader.stream.close, hdr[..]))
  {
    ghost var s, pos, before := reader.stream, reader.pos, hdr[..];
    var n;
    n, err := reader.Read(hdr);
    if err.Some? {
      assert StepAt(s.bytes[pos..], s.close, before) == Stopped(err.value);
      return [], err;
    }
    ghost var h, mid := hdr[..], reader.pos;
    var count := PayloadSize(hdr[..]);
    var dat := new byte[count](_ => 0);
    assert dat[..] == Zeros(count);
    var got, ignored := reader.Read(dat);
    data := dat[..];
    ghost var next := reader.pos;
    assert data == s.bytes[mid..next] + Zeros(count - got) by {
      assert Zeros(count)[got..] == Zeros(count - got);
    }
    assert hdr[..] == h;
    assert mid == pos + n && next == mid + got;
    WroteStep(s.bytes, pos, s.close, before, n, h, count, got, data, next);
  }

  /** A pass whose header read returns no error, in terms of the reader's position and byte counts. */
  lemma WroteStep(bytes: seq<byte>, pos: nat, c: Close, hdr: seq<byte>, n: nat, h: seq<byte>, count: nat, got: nat, data: seq<byte>, next: nat)
    requires pos <= |bytes| && |hdr| == HeaderSize && ReadError(bytes[pos..], c, HeaderSize).None?
    requires n == Min(HeaderSize, |bytes| - pos) && h == bytes[pos..pos + n] + hdr[n..]
    requires count == PayloadSize(h) && got == Min(count, |bytes| - (pos + n))
    requires next == pos + n + got && data == bytes[pos + n..next] + Zeros(count - got)
    ensures DemuxRest(bytes[pos..], c, hdr) == Prefixed(data, DemuxRest(bytes[next..], c, h))
  {
    var rest := bytes[pos..];
    assert rest[..n] == bytes[pos..pos + n];
    assert rest[n..n + got] == bytes[pos + n..next];
    assert rest[n + got..] == bytes[next..];
    WroteStepAt(rest, c, hdr, n, h, count, got);
  }

  lemma WroteStepAt(rest: seq<byte>, c: Close, hdr: seq<byte>, n: nat, h: seq<byte>, count: nat, got: nat)
    requires |hdr| == HeaderSize && ReadError(rest, c, HeaderSize).None?
    requires n == Min(HeaderSize, |rest|) && h == rest[..n] + hdr[n..]
    requires count == PayloadSize(h) && got == Min(count, |rest| - n)
    ensures DemuxRest(rest, c, hdr) == Prefixed(rest[n..n + got] + Zeros(count - got), DemuxRest(rest[n + got..], c, h))
  {
    assert StepAt(rest, c, hdr) == Wrote(rest[n..n + got] + Zeros(count - got), rest[n + got..], h);
  }

  /**
   * However the bytes are framed, the loop ends as the reader does: with a read error exactly
   * when the connection broke, and at `io.EOF` otherwise, even inside a header or a payload.
   */
  lemma {:induction false} EndsAsReader(rest: seq<byte>, c: Close, hdr: seq<byte>)
    requires |hdr| == HeaderSize
    ensures DemuxRest(rest, c, hdr).end == (if c.broken then ReadFailed else EndOfStream)
    decreases |rest|
  {
    var st := StepAt(rest, c, hdr);
    if st.Wrote? {
      EndsAsReader(st.next, c, st.hdr);
    }
  }

  // ---------------------------------------------------------------- well-formed streams

  /** A frame as the engine writes it. */
  datatype Frame = Frame(kind: byte, payload: seq<byte>)

  predicate Encodable(frames: seq<Frame>) {
    forall k :: 0 <= k < |frames| ==> |frames[k].payload| < MaxPayload
  }

  /** The big-endian bytes of a 32-bit length. */
  function SizeBytes(n: nat): (b: seq<byte>)
    requires n < MaxPayload
    ensures |b| == 4
  {
    [(n / 16777216) as byte, (n / 65536 % 256) as byte, (n / 256 % 256) as byte, (n % 256) as byte]
  }

  function Header(f: Frame): (h: seq<byte>)
    requires |f.payload| < MaxPayload
    ensures |h| == HeaderSize
  {
    [f.kind, 0, 0, 0] + SizeBytes(|f.payload|)
  }

  function EncodeFrame(f: Frame): (s: seq<byte>)
    requires |f.payload| < MaxPayload
    ensures |s| == HeaderSize + |f.payload|
  {
    Header(f) + f.payload
  }

  function Encode(frames: seq<Frame>): seq<byte>
    requires Encodable(frames)
  {
    if frames == [] then [] else EncodeFrame(frames[0]) + Encode(frames[1..])
  }

  function Payloads(frames: seq<Frame>): seq<byte>
  {
    if frames == [] then [] else frames[0].payload + Payloads(frames[1..])
  }

  /** The header buffer after reading `frames`, starting from `hdr`. */
  function LastHeader(frames: seq<Frame>, hdr: seq<byte>): (h: seq<byte>)
    requires Encodable(frames) && |hdr| == HeaderSize
    ensures |h| == HeaderSize
  {
    if frames == [] then hdr else LastHeader(frames[1..], Header(frames[0]))
  }

  lemma SizeRoundTrip(n: nat, kind: byte)
    requires n < MaxPayload
    ensures PayloadSize([kind, 0, 0, 0] + SizeBytes(n)) == n
  {
    var q1 := n / 256;
    var q2 := q1 / 256;
    assert n / 65536 == q2;
    assert n / 16777216 == q2 / 256;
    assert ((q2 / 256 * 256 + q2 % 256) * 256 + q1 % 256) * 256 + n % 256 == n;
  }

  /** One whole frame: its payload is written, and reading goes on after it with its header in the buffer. */
  lemma DecodeFrame(f: Frame, more: seq<byte>, c: Close, hdr: seq<byte>)
    requires |f.payload| < MaxPayload && |hdr| == HeaderSize
    ensures DemuxRest(EncodeFrame(f) + more, c, hdr) == Prefixed(f.payload, DemuxRest(more, c, Header(f)))
  {
    var rest := EncodeFrame(f) + more;
    if ReadError(rest, c, HeaderSize).Some? {
      assert more == [] && f.payload == [];
      assert StepAt(more, c, Header(f)) == Stopped(EndOfStream);
    } else {
      var n := |f.payload|;
      assert rest[..HeaderSize] == Header(f);
      assert rest[HeaderSize..HeaderSize + n] == f.payload;
      assert rest[HeaderSize + n..] == more;
      SizeRoundTrip(n, f.kind);
      assert Header(f) + hdr[HeaderSize..] == Header(f);
      assert f.payload + Zeros(0) == f.payload;
      assert StepAt(rest, c, hdr) == Wrote(f.payload, more, Header(f));
    }
  }

  lemma FirstFrame(frames: seq<Frame>, hdr: seq<byte>, more: seq<byte>)
    requires Encodable(frames) && frames != [] && |hdr| == HeaderSize
    ensures LastHeader(frames, hdr) == LastHeader(frames[1..], Header(frames[0]))
    ensures Payloads(frames) == frames[0].payload + Payloads(frames[1..])
    ensures Encode(frames) + more == EncodeFrame(frames[0]) + (Encode(frames[1..]) + more)
  {
    var e, r := EncodeFrame(frames[0]), Encode(frames[1..]);
    assert Encode(frames) == e + r;
    assert (e + r) + more == e + (r + more);
  }

  /** Whole frames write their payloads in order; reading goes on after them. */
  lemma {:induction false} DecodeFrames(frames: seq<Frame>, more: seq<byte>, c: Close, hdr: seq<byte>)
    requires Encodable(frames) && |hdr| == HeaderSize
    ensures DemuxRest(Encode(frames) + more, c, hdr) ==
      Prefixed(Payloads(frames), DemuxRest(more, c, LastHeader(frames, hdr)))
    decreases |frames|
  {
    if frames == [] {
      assert Encode(frames) + more == more;
      assert [] + DemuxRest(more, c, hdr).output == DemuxRest(more, c, hdr).output;
    } else {
      var f, rest := frames[0], frames[1..];
      FirstFrame(frames, hdr, more);
      DecodeFrame(f, Encode(rest) + more, c, hdr);
      DecodeFrames(rest, more, c, Header(f));
      Regroup(f.payload, Payloads(rest), DemuxRest(more, c, LastHeader(frames, hdr)));
    }
  }

  /**
   * Demultiplexing a well-formed stream yields exactly its payloads, in order, and ends as the
   * reader does: cleanly, or with the read error of a broken connection.
   */
  lemma DemultiplexEncode(frames: seq<Frame>, c: Close)
    requires Encodable(frames)
    ensures Demultiplex(Stream(Encode(frames), c)) ==
      Demuxed(Payloads(frames), if c.broken then ReadFailed else EndOfStream)
  {
    assert Encode(frames) + [] == Encode(frames);
    DecodeFrames(frames, [], c, Zeros(HeaderSize));
    assert StepAt([], c, LastHeader(frames, Zeros(HeaderSize))) == Stopped(Ending(c));
    assert Payloads(frames) + [] == Payloads(frames);
  }

  /**
   * A stream that ends inside a header. A reader that returns `io.EOF` with those bytes stops the
   * loop after the whole frames. Otherwise the bytes land in the front of the header buffer, the
   * length comes from that buffer, whose tail still holds the previous header, and that many zero
   * bytes are written before the next read ends the loop.
   */
  lemma TrailingPartialHeader(frames: seq<Frame>, tail: seq<byte>, c: Close)
    requires Encodable(frames) && 0 < |tail| < HeaderSize
    ensures var d := Demultiplex(Stream(Encode(frames) + tail, c));
      var stale := LastHeader(frames, Zeros(HeaderSize));
      if c.eofWithData && !c.broken then d == Demuxed(Payloads(frames), EndOfStream)
      else d == Demuxed(Payloads(frames) + Zeros(PayloadSize(tail + stale[|tail|..])),
                        if c.broken then ReadFailed else EndOfStream)
  {
    DecodeFrames(frames, tail, c, Zeros(HeaderSize));
    var stale := LastHeader(frames, Zeros(HeaderSize));
    if c.eofWithData && !c.broken {
      assert StepAt(tail, c, stale) == Stopped(EndOfStream);
      assert Payloads(frames) + [] == Payloads(frames);
    } else {
      var h := tail + stale[|tail|..];
      var count := PayloadSize(h);
      assert tail[..|tail|] == tail && tail[|tail|..] == [];
      assert [] + Zeros(count) == Zeros(count);
      assert StepAt(tail, c, stale) == Wrote(Zeros(count), [], h);
      assert StepAt([], c, h) == Stopped(Ending(c));
      assert Zeros(count) + [] == Zeros(count);
    }
  }

  /** A header read that returns no error overwrites at least the stream type byte. */
  lemma StaleKindStep(rest: seq<byte>, c: Close, hdr: seq<byte>, kind: byte)
    requires |hdr| == HeaderSize
    ensures StepAt(rest, c, hdr[0 := kind]) == StepAt(rest, c, hdr)
  {
    if ReadError(rest, c, HeaderSize).None? {
      var n := Min(HeaderSize, |rest|);
      assert hdr[0 := kind][n..] == hdr[n..];
    }
  }

  /** What the header buffer's first byte holds never changes what reaches the sink. */
  lemma StaleKindIgnored(rest: seq<byte>, c: Close, hdr: seq<byte>, kind: byte)
    requires |hdr| == HeaderSize
    ensures DemuxRest(rest, c, hdr[0 := kind]) == DemuxRest(rest, c, hdr)
  {
    StaleKindStep(rest, c, hdr, kind);
  }

  /** The stream type byte of a header never changes what reaches the sink. */
  lemma StreamTypeIgnored(s: Stream, kind: byte)
    requires |s.bytes| >= HeaderSize
    ensures Demultiplex(s.(bytes := s.bytes[0 := kind])) == Demultiplex(s)
  {
    var b, t := s.bytes, s.bytes[0 := kind];
    var z := Zeros(HeaderSize);
    var st := StepAt(b, s.close, z);
    assert ReadError(t, s.close, HeaderSize) == ReadError(b, s.close, HeaderSize);
    if st.Wrote? {
      var h := b[..HeaderSize] + z[HeaderSize..];
      assert t[..HeaderSize] + z[HeaderSize..] == h[0 := kind];
      assert PayloadSize(h[0 := kind]) == PayloadSize(h);
      var got := Min(PayloadSize(h), |b| - HeaderSize);
      assert t[HeaderSize..HeaderSize + got] == b[HeaderSize..HeaderSize + got];
      assert t[HeaderSize + got..] == b[HeaderSize + got..];
      assert StepAt(t, s.close, z) == st.(hdr := h[0 := kind]);
      StaleKindIgnored(st.next, s.close, h, kind);
    }
  }
}
