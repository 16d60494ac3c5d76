/** Length-prefixed frames on a byte stream: the encoding, its decoding, and the reader and writer
    that run over a socket. */
module Framing {
  import opened Outcomes
  import opened Seqs

  newtype byte = x: int | 0 <= x < 256
  type Bytes = seq<byte>

  const U32_MODULUS: nat := 0x1_0000_0000

  /** A frame this short keeps its length under the `as u32` cast. */
  predicate Sized(frame: Bytes) { |frame| < U32_MODULUS }

  predicate AllSized(frames: seq<Bytes>) { forall i :: 0 <= i < |frames| ==> Sized(frames[i]) }

  /** The lowest `width` bytes of `n`, most significant first. */
  function BigEndian(n: nat, width: nat): (b: Bytes)
    ensures |b| == width
  {
    if width == 0 then [] else BigEndian(n / 0x100, width - 1) + [(n % 0x100) as byte]
  }

  function BigEndianValue(b: Bytes): nat {
    if b == [] then 0 else BigEndianValue(b[..|b| - 1]) * 0x100 + b[|b| - 1] as nat
  }

  /** The frame length cast to u32, big endian. */
  function Header(length: nat): (h: Bytes)
    ensures |h| == 4
  {
    BigEndian(length % U32_MODULUS, 4)
  }

  function HeaderValue(h: Bytes): nat
    requires |h| == 4
  {
    BigEndianValue(h)
  }

  function Encode(frame: Bytes): Bytes { Header(|frame|) + frame }

  function EncodeAll(frames: seq<Bytes>): Bytes {
    if frames == [] then [] else Encode(frames[0]) + EncodeAll(frames[1..])
  }

  /** The first whole frame of the stream and what follows it. */
  function Decode(stream: Bytes): (r: Option<(Bytes, Bytes)>)
    ensures r.Some? ==> |r.value.0| + |r.value.1| + 4 == |stream|
  {
    if |stream| < 4 then None
    else
      var end := 4 + HeaderValue(stream[..4]);
      if |stream| < end then None else Some((stream[4..end], stream[end..]))
  }

  /** Every whole frame of the stream, and the incomplete tail. */
  function DecodeAll(stream: Bytes): (seq<Bytes>, Bytes)
    decreases |stream|
  {
    match Decode(stream)
    case None => ([], stream)
    case Some((frame, rest)) => var (more, tail) := DecodeAll(rest); ([frame] + more, tail)
  }

  function Power256(width: nat): nat {
    if width == 0 then 1 else Power256(width - 1) * 0x100
  }

  lemma {:induction false} BigEndianRoundTrip(n: nat, width: nat)
    requires n < Power256(width)
    ensures BigEndianValue(BigEndian(n, width)) == n
  {
    if width > 0 {
      BigEndianRoundTrip(n / 0x100, width - 1);
      assert BigEndian(n, width)[..width - 1] == BigEndian(n / 0x100, width - 1);
    }
  }

  lemma HeaderRoundTrip(length: nat)
    ensures HeaderValue(Header(length)) == length % U32_MODULUS
  {
    assert Power256(4) == U32_MODULUS;
    BigEndianRoundTrip(length % U32_MODULUS, 4);
  }

  /** What goes on the wire: the length modulo 2^32, most significant byte first, then the frame. */
  lemma WireFormat(frame: Bytes)
    ensures var n := |frame| % 4294967296;
            Encode(frame) == [(n / 16777216) as byte, (n / 65536 % 256) as byte, (n / 256 % 256) as byte, (n % 256) as byte]
                             + frame
  {
    FourBytes(|frame| % U32_MODULUS);
  }

  lemma FourBytes(n: nat)
    requires n < 4294967296
    ensures BigEndian(n, 4) == [(n / 16777216) as byte, (n / 65536 % 256) as byte, (n / 256 % 256) as byte, (n % 256) as byte]
  {
    var a, b, c := n / 0x100, n / 0x100 / 0x100, n / 0x100 / 0x100 / 0x100;
    assert BigEndian(c / 0x100, 0) == [] && BigEndian(c, 1) == [] + [(c % 0x100) as byte];
    assert BigEndian(b, 2) == BigEndian(c, 1) + [(b % 0x100) as byte];
    assert BigEndian(a, 3) == BigEndian(b, 2) + [(a % 0x100) as byte];
    assert BigEndian(n, 4) == BigEndian(a, 3) + [(n % 0x100) as byte];
    assert b == n / 65536 && c == n / 16777216;
  }

  /** One written frame is read back exactly when its length survives the cast to u32. */
  lemma DecodeEncode(frame: Bytes, rest: Bytes)
    ensures Decode(Encode(frame) + rest) == Some((frame, rest)) <==> Sized(frame)
    ensures Decode(Encode(frame) + rest).Some? && |Decode(Encode(frame) + rest).value.0| == |frame| % U32_MODULUS
  {
    var stream := Encode(frame) + rest;
    assert stream[..4] == Header(|frame|);
    HeaderRoundTrip(|frame|);
    if Sized(frame) {
      assert stream[4..4 + |frame|] == frame && stream[4 + |frame|..] == rest;
    }
  }

  lemma {:induction false} EncodeAllConcat(a: seq<Bytes>, b: seq<Bytes>)
    ensures EncodeAll(a + b) == EncodeAll(a) + EncodeAll(b)
  {
    if a == [] {
      assert a + b == b;
    } else {
      EncodeAllConcat(a[1..], b);
      DropFirst(a, b);
      Assoc(Encode(a[0]), EncodeAll(a[1..]), EncodeAll(b));
    }
  }

  lemma DecodeAllStep(frame: Bytes, rest: Bytes)
    requires Sized(frame)
    ensures DecodeAll(Encode(frame) + rest) == ([frame] + DecodeAll(rest).0, DecodeAll(rest).1)
  {
    DecodeEncode(frame, rest);
  }

  /** Decoding runs through the whole frames in front of any further bytes. */
  lemma {:induction false} DecodeAllThrough(frames: seq<Bytes>, rest: Bytes)
    requires AllSized(frames)
    ensures DecodeAll(EncodeAll(frames) + rest) == (frames + DecodeAll(rest).0, DecodeAll(rest).1)
  {
    if frames == [] {
      assert EncodeAll(frames) + rest == rest;
      assert frames + DecodeAll(rest).0 == DecodeAll(rest).0;
    } else {
      var tail := EncodeAll(frames[1..]) + rest;
      assert EncodeAll(frames) + rest == Encode(frames[0]) + tail;
      DecodeAllStep(frames[0], tail);
      DecodeAllThrough(frames[1..], rest);
      Rejoin(frames, DecodeAll(rest).0);
    }
  }

  lemma Rejoin<T>(a: seq<T>, b: seq<T>)
    requires a != []
    ensures [a[0]] + (a[1..] + b) == a + b
  {}

  lemma {:induction false} OversizeBreaks(frames: seq<Bytes>)
    requires !AllSized(frames)
    ensures DecodeAll(EncodeAll(frames)).0 != frames
  {
    var rest := EncodeAll(frames[1..]);
    DecodeEncode(frames[0], rest);
    if Sized(frames[0]) {
      DecodeAllStep(frames[0], rest);
      OversizeBreaks(frames[1..]);
      assert ([frames[0]] + DecodeAll(rest).0)[1..] == DecodeAll(rest).0;
    } else {
      var read := DecodeAll(EncodeAll(frames)).0;
      assert read[0] == Decode(Encode(frames[0]) + rest).value.0;
    }
  }

  /** Reading what was written gives back exactly the written frames, just when each of them is
      shorter than 2^32 bytes. */
  lemma StreamRoundTrip(frames: seq<Bytes>)
    ensures DecodeAll(EncodeAll(frames)) == (frames, []) <==> AllSized(frames)
  {
    if AllSized(frames) {
      DecodeAllThrough(frames, []);
      assert EncodeAll(frames) + [] == EncodeAll(frames);
      assert DecodeAll([]) == ([], []);
      assert frames + [] == frames;
    } else {
      OversizeBreaks(frames);
    }
  }

  /** No frame is read out of a torn one. */
  lemma TornFrame(frame: Bytes, n: nat)
    requires Sized(frame) && n < |Encode(frame)|
    ensures Decode(Encode(frame)[..n]).None?
    ensures DecodeAll(Encode(frame)[..n]) == ([], Encode(frame)[..n])
  {
    if n >= 4 {
      assert Encode(frame)[..n][..4] == Header(|frame|);
      HeaderRoundTrip(|frame|);
    }
  }

  /** How many of the written frames are whole after the first `n` bytes. */
  function Whole(frames: seq<Bytes>, n: nat): (k: nat)
    ensures k <= |frames|
  {
    if frames == [] || n < |Encode(frames[0])| then 0 else 1 + Whole(frames[1..], n - |Encode(frames[0])|)
  }

  lemma FirstFrames(frames: seq<Bytes>, k: nat)
    requires k < |frames|
    ensures EncodeAll(frames[..k + 1]) == Encode(frames[0]) + EncodeAll(frames[1..][..k])
  {
    assert frames[..k + 1][1..] == frames[1..][..k];
  }

  /** The cut falls behind the whole frames and inside the next one. */
  lemma {:induction false} WholeBounds(frames: seq<Bytes>, n: nat)
    requires n <= |EncodeAll(frames)|
    ensures var k := Whole(frames, n);
            && |EncodeAll(frames[..k])| <= n
            && (k < |frames| ==> n < |EncodeAll(frames[..k])| + |Encode(frames[k])|)
            && (k == |frames| ==> n == |EncodeAll(frames)|)
  {
    if frames != [] {
      if n >= |Encode(frames[0])| {
        var k := Whole(frames[1..], n - |Encode(frames[0])|);
        WholeBounds(frames[1..], n - |Encode(frames[0])|);
        FirstFrames(frames, k);
      }
    }
  }

  /** A cut inside the first frame leaves it torn; nothing is read. */
  lemma TornStream(frames: seq<Bytes>, n: nat)
    requires AllSized(frames) && n <= |EncodeAll(frames)| && (frames != [] ==> n < |Encode(frames[0])|)
    ensures DecodeAll(EncodeAll(frames)[..n]) == ([], EncodeAll(frames)[..n])
  {
    if frames != [] {
      TornFrame(frames[0], n);
      CutInside(Encode(frames[0]), EncodeAll(frames[1..]), n);
    }
  }

  /** A cut behind the frames `done` and in front of the end of the next one. */
  lemma CutBetween(done: seq<Bytes>, torn: seq<Bytes>, n: nat)
    requires AllSized(done) && AllSized(torn)
    requires |EncodeAll(done)| <= n <= |EncodeAll(done)| + |EncodeAll(torn)|
    requires torn != [] ==> n < |EncodeAll(done)| + |Encode(torn[0])|
    ensures var stream := EncodeAll(done + torn);
            && n <= |stream|
            && DecodeAll(stream[..n]).0 == done
            && stream[..n] == EncodeAll(done) + DecodeAll(stream[..n]).1
  {
    var m := n - |EncodeAll(done)|;
    EncodeAllConcat(done, torn);
    CutBehind(EncodeAll(done), EncodeAll(torn), n);
    TornStream(torn, m);
    DecodeAllThrough(done, EncodeAll(torn)[..m]);
    assert done + [] == done;
  }

  /** Cutting the stream anywhere yields the frames that are whole at the cut, in order, and leaves
      the reader on the boundary in front of the torn one. */
  lemma CutStream(frames: seq<Bytes>, n: nat)
    requires AllSized(frames) && n <= |EncodeAll(frames)|
    ensures var k := Whole(frames, n);
            var (read, tail) := DecodeAll(EncodeAll(frames)[..n]);
            read == frames[..k] && EncodeAll(frames)[..n] == EncodeAll(frames[..k]) + tail
  {
    var k := Whole(frames, n);
    WholeBounds(frames, n);
    Split(frames, k);
    EncodeAllConcat(frames[..k], frames[k..]);
    CutBetween(frames[..k], frames[k..], n);
  }

  function Flatten(chunks: seq<Bytes>): Bytes {
    if chunks == [] then [] else chunks[0] + Flatten(chunks[1..])
  }

  /** `PrimitiveFrameReader` over a socket: the bytes still to be read arrive in chunks of any size,
      and after the last chunk the socket is closed. */
  class FrameReader {
    var chunks: seq<Bytes>

    ghost function Stream(): Bytes
      reads this
    {
      Flatten(chunks)
    }

    constructor (arriving: seq<Bytes>)
      ensures Stream() == Flatten(arriving)
    {
      chunks := arriving;
    }

    /** `read_exact`: fills the buffer, or fails once the socket is drained. */
    method ReadExact(buf: array<byte>) returns (ok: bool)
      modifies this, buf
      ensures ok <==> |old(Stream())| >= buf.Length
      ensures ok ==> buf[..] == old(Stream())[..buf.Length] && Stream() == old(Stream())[buf.Length..]
      ensures !ok ==> Stream() == []
    {
      ghost var stream := Stream();
      var got := 0;
      while got < buf.Length && chunks != []
        invariant 0 <= got <= buf.Length && stream == buf[..got] + Stream()
        decreases buf.Length - got, |chunks|
      {
        var chunk, later := chunks[0], chunks[1..];
        var n := if |chunk| < buf.Length - got then |chunk| else buf.Length - got;
        Fill(buf, got, chunk[..n]);
        chunks := if n < |chunk| then [chunk[n..]] + later else later;
        TakeFromChunk(chunk, later, n);
        got := got + n;
      }
      ok := got == buf.Length;
      assert buf[..buf.Length] == buf[..];
    }

    static method Fill(buf: array<byte>, at: nat, data: Bytes)
      requires at + |data| <= buf.Length
      modifies buf
      ensures buf[..at + |data|] == old(buf[..at]) + data
    {
      forall i | 0 <= i < |data| {
        buf[at + i] := data[i];
      }
    }

    static lemma TakeFromChunk(chunk: Bytes, later: seq<Bytes>, n: nat)
      requires n <= |chunk|
      ensures chunk + Flatten(later) == chunk[..n] + Flatten(if n < |chunk| then [chunk[n..]] + later else later)
    {
      if n < |chunk| {
        assert ([chunk[n..]] + later)[1..] == later;
      }
      assert chunk == chunk[..n] + chunk[n..];
    }

    /** `read`: the next frame of the stream, however the stream was cut into chunks. */
    method Read() returns (frame: Option<Bytes>)
      modifies this
      ensures match Decode(old(Stream()))
              case Some((first, rest)) => frame == Some(first) && Stream() == rest
              case None => frame == None && Stream() == []
    {
      ghost var stream := Stream();
      var header := new byte[4];
      var ok := ReadExact(header);
      if !ok {
        return None;
      }
      var size := HeaderValue(header[..]);
      var data := new byte[size];
      ok := ReadExact(data);
      if !ok {
        return None;
      }
      assert stream[4..][..size] == stream[4..4 + size] && stream[4..][size..] == stream[4 + size..];
      frame := Some(data[..]);
    }

    /** The reading loop of a pump: frames until the first failed read. */
    method ReadAll() returns (frames: seq<Bytes>)
      modifies this
      ensures frames == DecodeAll(old(Stream())).0
      ensures Stream() == []
    {
      frames := [];
      ghost var stream := Stream();
      var next := Read();
      while next.Some?
        invariant next.Some? ==> DecodeAll(stream).0 == frames + [next.value] + DecodeAll(Stream()).0
        invariant next.None? ==> DecodeAll(stream).0 == frames && Stream() == []
        decreases next.Some?, |Stream()|
      {
        frames := frames + [next.value];
        ghost var before := Stream();
        next := Read();
        if next.Some? {
          var more := DecodeAll(Stream()).0;
          assert DecodeAll(before).0 == [next.value] + more;
          assert frames + ([next.value] + more) == frames + [next.value] + more;
        }
      }
    }
  }

  /** `PrimitiveFrameWriter` over a socket. */
  class FrameWriter {
    var sent: Bytes

    constructor ()
      ensures sent == []
    {
      sent := [];
    }

    /** `write`: the length, then the data. The socket takes `room` more bytes before it breaks. */
    method Write(frame: Bytes, room: nat) returns (ok: bool)
      modifies this
      ensures ok <==> |Encode(frame)| <= room
      ensures ok ==> sent == old(sent) + Encode(frame)
      ensures !ok ==> sent == old(sent) + Encode(frame)[..room]
    {
      ok := WriteAll(Header(|frame|), room);
      if ok {
        ok := WriteAll(frame, room - 4);
        assert !ok ==> Encode(frame)[..room] == Header(|frame|) + frame[..room - 4];
      } else {
        assert Encode(frame)[..room] == Header(|frame|)[..room];
      }
    }

    method WriteAll(data: Bytes, room: nat) returns (ok: bool)
      modifies this
      ensures ok <==> |data| <= room
      ensures sent == old(sent) + if ok then data else data[..room]
    {
      ok := |data| <= room;
      sent := sent + if ok then data else data[..room];
    }
  }
}
