/**
 Length-delimited framing: each message is its size as a varint followed by its body. The body codec is
 a pair of functions; what the framing promises is stated for any pair that are inverses.
 */
module Framing {
  import opened Messages
  import opened Uvarint
  import opened BufferPool

  /** The protobuf codec of one message type; marshalling can fail, unmarshalling can reject. */
  datatype Body<!M> = Body(marshal: M -> Option<seq<byte>>, unmarshal: seq<byte> -> Option<M>)

  /** One past the largest int: from here on the conversion of a size to int is negative. */
  const TWO63: nat := 0x8000_0000_0000_0000

  ghost predicate Inverse<M(!new)>(c: Body<M>) {
    forall m :: c.marshal(m).Some? ==> |c.marshal(m).value| < TWO63 && c.unmarshal(c.marshal(m).value) == Some(m)
  }

  function Frame(body: seq<byte>): (r: seq<byte>)
    ensures r != []
  {
    Encoded(|body|) + body
  }

  datatype Stop = EndOfStream | SizeOverflow | BodyCut | BodyRejected | Panicked

  datatype Decoded<M> = Message(msg: M, rest: seq<byte>) | Stopped(why: Stop)

  /** What one `Decode` makes of a byte stream. */
  function DecodeOne<M>(c: Body<M>, s: seq<byte>): Decoded<M> {
    match ReadSize(s, 0)
    case Ended => Stopped(EndOfStream)
    case Overflow(_) => Stopped(SizeOverflow)
    case Size(n, rest) =>
      if n >= TWO63 then Stopped(Panicked)  // int(size) is negative: the slice data[:size] is out of range
      else if n > |rest| then Stopped(BodyCut)
      else
        match c.unmarshal(rest[..n])
        case None => Stopped(BodyRejected)
        case Some(m) => Message(m, rest[n..])
  }

  lemma {:induction false} DecodeConsumes<M>(c: Body<M>, s: seq<byte>)
    ensures DecodeOne(c, s).Message? ==> |DecodeOne(c, s).rest| < |s|
  {
    ReadConsumes(s, 0);
  }

  /** Decoding until something stops it. */
  function DecodeAll<M>(c: Body<M>, s: seq<byte>): (seq<M>, Stop)
    decreases |s|
  {
    DecodeConsumes(c, s);
    match DecodeOne(c, s)
    case Stopped(why) => ([], why)
    case Message(m, rest) => var (ms, why) := DecodeAll(c, rest); ([m] + ms, why)
  }

  // ---------------------------------------------------------------------------------------
  // Encoder and decoder
  // ---------------------------------------------------------------------------------------

  /** The bytes a writer has taken when it succeeds, or when it fails after `fault` bytes. */
  function Accepted(bytes: seq<byte>, fault: Option<nat>): seq<byte> {
    if fault.None? || fault.value >= |bytes| then bytes else bytes[..fault.value]
  }

  class Encoder<!M(!new)> {
    const codec: Body<M>
    const pool: BytesPool
    var w: seq<byte>  // everything written to the connection

    constructor (codec: Body<M>, pool: BytesPool)
      ensures this.codec == codec && this.pool == pool && w == []
    {
      this.codec, this.pool, this.w := codec, pool, [];
    }

    /** A writer takes all bytes, or fails after taking some of them. */
    method Write(bytes: seq<byte>, fault: Option<nat>) returns (ok: bool)
      modifies this
      ensures ok <==> fault.None?
      ensures w == old(w) + Accepted(bytes, fault)
    {
      w := w + Accepted(bytes, fault);
      ok := fault.None?;
    }

    method WriteSize(n: nat, fault: Option<nat>) returns (ok: bool)
      requires pool.Valid() && n < TWO63
      modifies this, pool, pool.free
      ensures pool.Valid() && pool.held == old(pool.held)
      ensures ok <==> fault.None?
      ensures w == old(w) + Accepted(Encoded(n), fault)
    {
      var sizeBuf := pool.GetBytesBuf(10);
      EncodedLength(n, 0);
      var i := PutUvarint(sizeBuf, n);
      ok := Write(sizeBuf[..i], fault);
      pool.PutBytesBuf(sizeBuf);
    }

    /**
     `sizeFault` and `bodyFault` say after how many bytes the connection fails the respective write. A
     failed call leaves a beginning of the frame on the wire, and none of the body if writing the size failed.
     */
    method Encode(m: M, sizeFault: Option<nat>, bodyFault: Option<nat>) returns (ok: bool)
      requires pool.Valid() && (codec.marshal(m).Some? ==> |codec.marshal(m).value| < TWO63)
      modifies this, pool, pool.free
      ensures pool.Valid() && pool.held == old(pool.held)
      ensures ok <==> codec.marshal(m).Some? && sizeFault.None? && bodyFault.None?
      ensures codec.marshal(m).None? ==> w == old(w)
      ensures codec.marshal(m).Some? ==>
        var frame := Frame(codec.marshal(m).value);
        exists k :: 0 <= k <= |frame| && w == old(w) + frame[..k] && (ok ==> k == |frame|)
                    && (sizeFault.Some? ==> k <= |Encoded(|codec.marshal(m).value|)|)
    {
      var data := codec.marshal(m);
      if data.None? {
        return false;
      }
      ghost var size, frame := Encoded(|data.value|), Frame(data.value);
      ok := WriteSize(|data.value|, sizeFault);
      if !ok {
        assert Accepted(size, sizeFault) == frame[..|Accepted(size, sizeFault)|];
        return;
      }
      ok := Write(data.value, bodyFault);
      ghost var taken := Accepted(data.value, bodyFault);
      assert size + taken == frame[..|size + taken|];
      assert w == old(w) + (size + taken);
    }
  }

  function Flatten(chunks: seq<seq<byte>>): seq<byte> {
    if chunks == [] then [] else chunks[0] + Flatten(chunks[1..])
  }

  /** A buffered reader: bytes already read, and the reads the connection will still deliver. */
  class Decoder<!M(!new)> {
    const codec: Body<M>
    const pool: BytesPool
    var buf: seq<byte>
    var src: seq<seq<byte>>

    constructor (codec: Body<M>, pool: BytesPool, src: seq<seq<byte>>)
      ensures this.codec == codec && this.pool == pool && Stream() == Flatten(src)
    {
      this.codec, this.pool, this.buf, this.src := codec, pool, [], src;
    }

    /** What is still to be decoded, however it is split into reads. */
    ghost function Stream(): seq<byte>
      reads this
    {
      buf + Flatten(src)
    }

    /** Reads from the connection until something is buffered or the connection has ended. */
    method Fill()
      modifies this
      ensures Stream() == old(Stream()) && (buf == [] <==> old(Stream()) == [])
    {
      while buf == [] && src != []
        invariant Stream() == old(Stream())
        decreases |src|
      {
        buf, src := src[0], src[1..];
      }
    }

    method ReadByte() returns (b: Option<byte>)
      modifies this
      ensures old(Stream()) == [] ==> b == None && Stream() == []
      ensures old(Stream()) != [] ==> b == Some(old(Stream())[0]) && Stream() == old(Stream())[1..]
    {
      Fill();
      if buf == [] {
        return None;
      }
      b := Some(buf[0]);
      buf := buf[1..];
    }

    /** Fills the first `n` bytes of `data`, or consumes what there is and fails. */
    method ReadFull(data: array<byte>, n: nat) returns (ok: bool)
      requires n <= data.Length
      modifies this, data
      ensures ok <==> n <= |old(Stream())|
      ensures ok ==> data[..n] == old(Stream())[..n] && Stream() == old(Stream())[n..]
    {
      var i := 0;
      while i < n
        invariant i <= n && i <= |old(Stream())|
        invariant data[..i] == old(Stream())[..i] && Stream() == old(Stream())[i..]
      {
        var b := ReadByte();
        if b.None? {
          return false;
        }
        data[i] := b.value;
        i := i + 1;
      }
      ok := true;
    }

    /** `binary.ReadUvarint`, accumulating groups of seven bits. */
    method ReadUvarint() returns (r: SizeResult)
      modifies this
      ensures ReadSize(old(Stream()), 0).Size? ==> r == ReadSize(old(Stream()), 0) && Stream() == r.rest
      ensures ReadSize(old(Stream()), 0).Ended? ==> r.Ended?
      ensures ReadSize(old(Stream()), 0).Overflow? ==> r.Overflow?
    {
      ghost var want := ReadSize(Stream(), 0);
      var x: nat, i: nat := 0, 0;
      while i < 10
        invariant i <= 10 && want == Accumulated(x, i, ReadSize(Stream(), i))
      {
        ghost var s := Stream();
        var next := ReadByte();
        if next.None? {
          return Ended;
        }
        var b: nat := next.value;
        if b < 128 {
          if i == 9 && b > 1 {
            return Overflow(buf);
          }
          return Size(x + ShiftLeft7(b, i), buf + FlattenAll());
        }
        assert ReadSize(s, i) == WithLowGroup(b - 128, ReadSize(Stream(), i + 1));
        AccumulateGroup(x, i, b - 128, ReadSize(Stream(), i + 1));
        x, i := x + ShiftLeft7(b - 128, i), i + 1;
      }
      r := Overflow(buf);
    }

    function FlattenAll(): seq<byte>
      reads this
    {
      Flatten(src)
    }

    method Decode() returns (r: Decoded<M>)
      requires pool.Valid()
      modifies this, pool, pool.free
      ensures pool.Valid()
      ensures r == DecodeOne(codec, old(Stream()))
      ensures r.Message? ==> Stream() == r.rest
      ensures r != Stopped(Panicked) ==> pool.held == old(pool.held)
      ensures forall b | b in pool.free :: b in old(pool.free) || b in old(pool.held) || fresh(b)
    {
      ghost var s := Stream();
      ReadConsumes(s, 0);
      ReadFits(s, 0);
      var size := ReadUvarint();
      if size.Ended? {
        return Stopped(EndOfStream);
      } else if size.Overflow? {
        return Stopped(SizeOverflow);
      }
      var n := size.value;
      var asInt := if n < TWO63 then n else n - TWO64;
      var data := pool.GetBytesBuf(asInt);
      if asInt < 0 {
        return Stopped(Panicked);
      }
      var ok := ReadFull(data, n);
      if !ok {
        pool.PutBytesBuf(data);
        return Stopped(BodyCut);
      }
      var m := codec.unmarshal(data[..n]);
      pool.PutBytesBuf(data);
      match m
      case None => r := Stopped(BodyRejected);
      case Some(v) => r := Message(v, buf + FlattenAll());
    }

    /**
     The receive loop: decode until something stops it, or until the session is found cancelled when
     `cancelAt` messages have been handled. The split into reads plays no part.
     */
    method DecodeLoop(cancelAt: Option<nat>) returns (ms: seq<M>, why: Option<Stop>)
      requires pool.Valid()
      modifies this, pool, pool.free
      ensures pool.Valid()
      ensures var (all, stop) := DecodeAll(codec, old(Stream()));
        if cancelAt.Some? && cancelAt.value < |all| then ms == all[..cancelAt.value] && why.None?
        else ms == all && why == Some(stop)
    {
      ms := [];
      PrependNothing(DecodeAll(codec, Stream()));
      while true
        invariant pool.Valid() && pool.held == old(pool.held)
        invariant forall b | b in pool.free :: b in old(pool.free) || fresh(b)
        invariant DecodeAll(codec, old(Stream())) == Prepend(ms, DecodeAll(codec, Stream()))
        invariant cancelAt.Some? ==> |ms| <= cancelAt.value
        decreases |Stream()|
      {
        DecodeConsumes(codec, Stream());
        ghost var s := Stream();
        var r := Decode();
        if r.Stopped? {
          PrependStopped(ms, r.why);
          return ms, Some(r.why);
        }
        DecodeAllStep(codec, s, r.msg, r.rest);
        PrependTwice(ms, [r.msg], DecodeAll(codec, r.rest));
        if cancelAt == Some(|ms|) {
          return ms, None;
        }
        ms := ms + [r.msg];
      }
    }
  }

  /** `b` shifted left by 7 * i bits. */
  function ShiftLeft7(b: nat, i: nat): nat {
    if i == 0 then b else 128 * ShiftLeft7(b, i - 1)
  }

  /** A size of which the lowest i groups are in `x` already. */
  function Accumulated(x: nat, i: nat, r: SizeResult): SizeResult {
    if r.Size? then Size(x + ShiftLeft7(r.value, i), r.rest) else r
  }

  lemma {:induction false} ShiftGroups(low: nat, high: nat, i: nat)
    ensures ShiftLeft7(low + 128 * high, i) == ShiftLeft7(low, i) + ShiftLeft7(high, i + 1)
    decreases i
  {
    if i > 0 {
      ShiftGroups(low, high, i - 1);
    }
  }

  lemma {:induction false} AccumulateGroup(x: nat, i: nat, low: nat, high: SizeResult)
    ensures Accumulated(x, i, WithLowGroup(low, high)) == Accumulated(x + ShiftLeft7(low, i), i + 1, high)
  {
    if high.Size? {
      ShiftGroups(low, high.value, i);
    }
  }

  function Prepend<M>(ms: seq<M>, r: (seq<M>, Stop)): (seq<M>, Stop) {
    (ms + r.0, r.1)
  }

  lemma {:induction false} PrependTwice<M>(xs: seq<M>, ys: seq<M>, r: (seq<M>, Stop))
    ensures Prepend(xs, Prepend(ys, r)) == Prepend(xs + ys, r)
  {
    assert xs + (ys + r.0) == (xs + ys) + r.0;
  }

  lemma {:induction false} PrependNothing<M>(r: (seq<M>, Stop))
    ensures Prepend([], r) == r
  {
    assert [] + r.0 == r.0;
  }

  lemma {:induction false} PrependStopped<M>(ms: seq<M>, why: Stop)
    ensures Prepend(ms, ([], why)) == (ms, why)
  {
    assert ms + [] == ms;
  }

  lemma {:induction false} DecodeAllStep<M>(c: Body<M>, s: seq<byte>, m: M, rest: seq<byte>)
    requires DecodeOne(c, s) == Message(m, rest)
    ensures DecodeAll(c, s) == Prepend([m], DecodeAll(c, rest))
  {
    DecodeConsumes(c, s);
  }

  // ---------------------------------------------------------------------------------------
  // Round trip and truncation
  // ---------------------------------------------------------------------------------------

  ghost predicate AllMarshal<M>(c: Body<M>, ms: seq<M>) {
    forall i :: 0 <= i < |ms| ==> c.marshal(ms[i]).Some?
  }

  /** The bytes on the wire after these messages have been encoded one after the other. */
  ghost function Frames<M>(c: Body<M>, ms: seq<M>): seq<byte>
    requires AllMarshal(c, ms)
  {
    if ms == [] then [] else Frame(c.marshal(ms[0]).value) + Frames(c, ms[1..])
  }

  lemma {:induction false} DecodeFrame<M(!new)>(c: Body<M>, m: M, t: seq<byte>)
    requires Inverse(c) && c.marshal(m).Some?
    ensures DecodeOne(c, Frame(c.marshal(m).value) + t) == Message(m, t)
  {
    var body := c.marshal(m).value;
    SizeRoundTrip(|body|, body + t);
    assert Frame(body) + t == Encoded(|body|) + (body + t);
    assert (body + t)[..|body|] == body && (body + t)[|body|..] == t;
  }

  lemma {:induction false} DecodeFrames<M(!new)>(c: Body<M>, ms: seq<M>, t: seq<byte>)
    requires Inverse(c) && AllMarshal(c, ms)
    ensures DecodeAll(c, Frames(c, ms) + t) == Prepend(ms, DecodeAll(c, t))
    decreases |ms|
  {
    if ms == [] {
      assert Frames(c, ms) + t == t;
      PrependNothing(DecodeAll(c, t));
    } else {
      var rest := Frames(c, ms[1..]) + t;
      var s := Frames(c, ms) + t;
      assert s == Frame(c.marshal(ms[0]).value) + rest;
      DecodeFrame(c, ms[0], rest);
      DecodeAllStep(c, s, ms[0], rest);
      DecodeFrames(c, ms[1..], t);
      PrependTwice([ms[0]], ms[1..], DecodeAll(c, t));
      assert [ms[0]] + ms[1..] == ms;
    }
  }

  /** Framing round trip: what was encoded is what is decoded, then the stream ends cleanly. */
  lemma {:induction false} FramingRoundTrip<M(!new)>(c: Body<M>, ms: seq<M>)
    requires Inverse(c) && AllMarshal(c, ms)
    ensures DecodeAll(c, Frames(c, ms)) == (ms, EndOfStream)
  {
    DecodeFrames(c, ms, []);
    assert Frames(c, ms) + [] == Frames(c, ms);
    PrependStopped(ms, EndOfStream);
  }

  lemma {:induction false} DecodeCutFrame<M>(c: Body<M>, body: seq<byte>, k: nat)
    requires |body| < TWO63 && k < |Frame(body)|
    ensures DecodeOne(c, Frame(body)[..k]) == Stopped(if k < |Encoded(|body|)| then EndOfStream else BodyCut)
  {
    var size := Encoded(|body|);
    if k < |size| {
      assert Frame(body)[..k] == size[..k];
      CutSizeEnds(|body|, k);
    } else {
      assert Frame(body)[..k] == size + body[..k - |size|];
      SizeRoundTrip(|body|, body[..k - |size|]);
    }
  }

  /** `n` frames are complete in the first `k` bytes, and no more. */
  ghost predicate CompleteFrames<M>(c: Body<M>, ms: seq<M>, k: nat, n: nat)
    requires AllMarshal(c, ms)
  {
    && n <= |ms|
    && |Frames(c, ms[..n])| <= k
    && (if n < |ms| then k < |Frames(c, ms[..n])| + |Frame(c.marshal(ms[n]).value)| else k == |Frames(c, ms)|)
  }

  lemma {:induction false} FramesSplit<M>(c: Body<M>, ms: seq<M>, n: nat)
    requires AllMarshal(c, ms) && n <= |ms|
    ensures Frames(c, ms) == Frames(c, ms[..n]) + Frames(c, ms[n..])
    decreases n
  {
    if n == 0 {
      assert ms[0..] == ms && ms[..0] == [];
    } else {
      FramesSplit(c, ms[1..], n - 1);
      assert ms[..n][1..] == ms[1..][..n - 1] && ms[..n][0] == ms[0] && ms[1..][n - 1..] == ms[n..];
    }
  }

  /** Encoding one more message appends its frame, so a connection carries `Frames` of what was encoded. */
  lemma {:induction false} FramesAppend<M>(c: Body<M>, ms: seq<M>, m: M)
    requires AllMarshal(c, ms) && c.marshal(m).Some?
    ensures AllMarshal(c, ms + [m]) && Frames(c, ms + [m]) == Frames(c, ms) + Frame(c.marshal(m).value)
  {
    FramesSplit(c, ms + [m], |ms|);
    assert (ms + [m])[..|ms|] == ms && (ms + [m])[|ms|..] == [m];
    assert Frames(c, [m]) == Frame(c.marshal(m).value) + Frames(c, []);
  }

  /** Every cut falls after some number of complete frames. */
  lemma {:induction false} EveryCut<M>(c: Body<M>, ms: seq<M>, k: nat, from: nat) returns (n: nat)
    requires AllMarshal(c, ms) && k <= |Frames(c, ms)| && from <= |ms| && |Frames(c, ms[..from])| <= k
    ensures CompleteFrames(c, ms, k, n)
    decreases |ms| - from
  {
    if from == |ms| {
      assert ms[..from] == ms;
      n := from;
    } else if k < |Frames(c, ms[..from])| + |Frame(c.marshal(ms[from]).value)| {
      n := from;
    } else {
      FramesAppend(c, ms[..from], ms[from]);
      assert ms[..from] + [ms[from]] == ms[..from + 1];
      n := EveryCut(c, ms, k, from + 1);
    }
  }

  /**
   A stream cut at any byte decodes to exactly the messages whose frames are complete and then an error:
   the end of the stream when the cut is at a frame boundary or inside a size, a cut body otherwise.
   */
  lemma {:induction false} TruncatedStream<M(!new)>(c: Body<M>, ms: seq<M>, k: nat, n: nat)
    requires Inverse(c) && AllMarshal(c, ms) && k <= |Frames(c, ms)| && CompleteFrames(c, ms, k, n)
    ensures var inFrame := k - |Frames(c, ms[..n])|;
      DecodeAll(c, Frames(c, ms)[..k]) ==
        (ms[..n], if n < |ms| && inFrame >= |Encoded(|c.marshal(ms[n]).value|)| then BodyCut else EndOfStream)
  {
    if n < |ms| {
      CutBytes(c, ms, k, n);
      DecodeUpToCut(c, ms[..n], c.marshal(ms[n]).value, k - |Frames(c, ms[..n])|);
    } else {
      assert ms[..n] == ms && Frames(c, ms)[..k] == Frames(c, ms);
      FramingRoundTrip(c, ms);
    }
  }

  lemma {:induction false} CutBytes<M>(c: Body<M>, ms: seq<M>, k: nat, n: nat)
    requires AllMarshal(c, ms) && k <= |Frames(c, ms)| && CompleteFrames(c, ms, k, n) && n < |ms|
    ensures Frames(c, ms)[..k] == Frames(c, ms[..n]) + Frame(c.marshal(ms[n]).value)[..k - |Frames(c, ms[..n])|]
  {
    FramesSplit(c, ms, n);
    assert ms[n..][0] == ms[n];
    CutInFrame(Frames(c, ms[..n]), Frame(c.marshal(ms[n]).value), Frames(c, ms[n..][1..]), k - |Frames(c, ms[..n])|);
  }

  lemma {:induction false} DecodeUpToCut<M(!new)>(c: Body<M>, ms: seq<M>, body: seq<byte>, left: nat)
    requires Inverse(c) && AllMarshal(c, ms) && |body| < TWO63 && left < |Frame(body)|
    ensures DecodeAll(c, Frames(c, ms) + Frame(body)[..left]) ==
      (ms, if left < |Encoded(|body|)| then EndOfStream else BodyCut)
  {
    DecodeCutFrame(c, body, left);
    DecodeFrames(c, ms, Frame(body)[..left]);
    PrependStopped(ms, DecodeOne(c, Frame(body)[..left]).why);
  }

  lemma {:induction false} CutInFrame(whole: seq<byte>, frame: seq<byte>, rest: seq<byte>, left: nat)
    requires left < |frame|
    ensures (whole + (frame + rest))[..|whole| + left] == whole + frame[..left]
  {}

  // ---------------------------------------------------------------------------------------
  // Streams that go wrong
  // ---------------------------------------------------------------------------------------

  /** Whatever stops the decoder after good frames, the messages of those frames come first. */
  lemma {:induction false} GoodFramesFirst<M(!new)>(c: Body<M>, ms: seq<M>, bad: seq<byte>, why: Stop)
    requires Inverse(c) && AllMarshal(c, ms) && DecodeOne(c, bad) == Stopped(why)
    ensures DecodeAll(c, Frames(c, ms) + bad) == (ms, why)
  {
    DecodeFrames(c, ms, bad);
    PrependStopped(ms, why);
  }

  /** A body that unmarshals gives its message, also under a size that is not written in the shortest way. */
  lemma {:induction false} AcceptedBody<M>(c: Body<M>, size: seq<byte>, body: seq<byte>, m: M, t: seq<byte>)
    requires IsVarint(size) && Value(size) == |body| < TWO63 && c.unmarshal(body) == Some(m)
    ensures DecodeOne(c, size + (body + t)) == Message(m, t)
  {
    VarintValue(size, body + t);
    assert (body + t)[..|body|] == body && (body + t)[|body|..] == t;
  }

  /** A complete frame whose body does not unmarshal stops the decoder, whatever follows it. */
  lemma {:induction false} RejectedBody<M(!new)>(c: Body<M>, ms: seq<M>, body: seq<byte>, t: seq<byte>)
    requires Inverse(c) && AllMarshal(c, ms) && |body| < TWO63 && c.unmarshal(body).None?
    ensures DecodeAll(c, Frames(c, ms) + (Frame(body) + t)) == (ms, BodyRejected)
  {
    SizeRoundTrip(|body|, body + t);
    assert Frame(body) + t == Encoded(|body|) + (body + t);
    assert (body + t)[..|body|] == body;
    GoodFramesFirst(c, ms, Frame(body) + t, BodyRejected);
  }

  /** A size of more than ten bytes, or whose tenth byte is more than one, stops the decoder. */
  lemma {:induction false} OverlongSize<M(!new)>(c: Body<M>, ms: seq<M>, bad: seq<byte>)
    requires Inverse(c) && AllMarshal(c, ms)
    requires |bad| >= 10 && (forall i :: 0 <= i < 9 ==> bad[i] >= 128) && bad[9] > 1
    ensures DecodeAll(c, Frames(c, ms) + bad) == (ms, SizeOverflow)
  {
    LongSizeOverflows(bad, 0);
    GoodFramesFirst(c, ms, bad, SizeOverflow);
  }

  /** A size that does not fit an int makes the decoder panic. */
  lemma {:induction false} HugeSize<M(!new)>(c: Body<M>, ms: seq<M>, n: nat, t: seq<byte>)
    requires Inverse(c) && AllMarshal(c, ms) && TWO63 <= n < TWO64
    ensures DecodeAll(c, Frames(c, ms) + (Encoded(n) + t)) == (ms, Panicked)
  {
    SizeRoundTrip(n, t);
    GoodFramesFirst(c, ms, Encoded(n) + t, Panicked);
  }
}
