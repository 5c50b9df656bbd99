/**
 Unsigned varints as in "Base 128 Varints" of the Protocol Buffers encoding: seven bits a byte, least
 significant group first, the top bit set on all bytes but the last.
 */
module Uvarint {

  type byte = b: int | 0 <= b < 256

  /** One past the largest uint64. */
  const TWO64: nat := 0x1_0000_0000_0000_0000

  function Encoded(x: nat): (r: seq<byte>)
    ensures r != []
  {
    if x < 128 then [x] else [x % 128 + 128] + Encoded(x / 128)
  }

  /** What reading a size can come to; `rest` is what the reader has not consumed. */
  datatype SizeResult =
    | Size(value: nat, rest: seq<byte>)
    | Ended                      // the stream ended before or inside the size
    | Overflow(rest: seq<byte>)  // more than 64 bits

  /** A size read after `i` of its bytes; the reader gives up after ten. */
  function ReadSize(s: seq<byte>, i: nat): SizeResult
    requires i <= 10
    decreases 10 - i
  {
    if i == 10 then Overflow(s)
    else if s == [] then Ended
    else if s[0] < 128 then
      if i == 9 && s[0] > 1 then Overflow(s[1..]) else Size(s[0], s[1..])
    else WithLowGroup(s[0] - 128, ReadSize(s[1..], i + 1))
  }

  function WithLowGroup(low: nat, high: SizeResult): SizeResult {
    if high.Size? then Size(low + 128 * high.value, high.rest) else high
  }

  /** The values that still fit after i groups of seven bits: 2^(64-7i). */
  function Limit(i: nat): nat
    requires i <= 9
  {
    [TWO64, 0x200_0000_0000_0000, 0x4_0000_0000_0000, 0x800_0000_0000, 0x10_0000_0000,
     0x2000_0000, 0x40_0000, 0x8000, 0x100, 2][i]
  }

  lemma {:induction false} LimitStep(x: nat, i: nat)
    requires i <= 9 && x < Limit(i) && x >= 128
    ensures i < 9 && x / 128 < Limit(i + 1)
  {}

  /** Ten bytes hold the varint of every uint64. */
  lemma {:induction false} EncodedLength(x: nat, i: nat)
    requires i <= 9 && x < Limit(i)
    ensures |Encoded(x)| <= 10 - i
    decreases x
  {
    if x >= 128 {
      LimitStep(x, i);
      EncodedLength(x / 128, i + 1);
    }
  }

  lemma {:induction false} ReadEncoded(x: nat, i: nat, t: seq<byte>)
    requires i <= 9 && x < Limit(i)
    ensures ReadSize(Encoded(x) + t, i) == Size(x, t)
    decreases x
  {
    var s := Encoded(x) + t;
    if x < 128 {
      assert s[0] == x && s[1..] == t;
    } else {
      LimitStep(x, i);
      assert s[0] == x % 128 + 128 && s[1..] == Encoded(x / 128) + t;
      ReadEncoded(x / 128, i + 1, t);
    }
  }

  /** Reading back what was written gives the value, and leaves what follows untouched. */
  lemma {:induction false} SizeRoundTrip(x: nat, t: seq<byte>)
    requires x < TWO64
    ensures ReadSize(Encoded(x) + t, 0) == Size(x, t)
  {
    ReadEncoded(x, 0, t);
  }

  lemma {:induction false} ReadPrefix(x: nat, i: nat, k: nat)
    requires i <= 9 && x < Limit(i) && k < |Encoded(x)|
    ensures ReadSize(Encoded(x)[..k], i) == Ended
    decreases x
  {
    if k > 0 {
      LimitStep(x, i);
      var s := Encoded(x)[..k];
      assert s[0] >= 128 && s[1..] == Encoded(x / 128)[..k - 1];
      ReadPrefix(x / 128, i + 1, k - 1);
    }
  }

  /** A size cut short anywhere reads as the end of the stream, never as a smaller size. */
  lemma {:induction false} CutSizeEnds(x: nat, k: nat)
    requires x < TWO64 && k < |Encoded(x)|
    ensures ReadSize(Encoded(x)[..k], 0) == Ended
  {
    ReadPrefix(x, 0, k);
  }

  /** The bytes of one varint: all but the last are continued, and the last of ten is at most one. */
  predicate IsVarint(bs: seq<byte>) {
    && 1 <= |bs| <= 10
    && (forall j :: 0 <= j < |bs| - 1 ==> bs[j] >= 128)
    && bs[|bs| - 1] < 128 && (|bs| == 10 ==> bs[9] <= 1)
  }

  /** Groups of seven bits, least significant first, whether or not the varint is the shortest possible. */
  function Value(bs: seq<byte>): nat {
    if bs == [] then 0 else bs[0] % 128 + 128 * Value(bs[1..])
  }

  lemma {:induction false} ReadGroups(bs: seq<byte>, i: nat, t: seq<byte>)
    requires bs != [] && i + |bs| <= 10 && (forall j :: 0 <= j < |bs| - 1 ==> bs[j] >= 128)
    requires bs[|bs| - 1] < 128 && (i + |bs| == 10 ==> bs[|bs| - 1] <= 1)
    ensures ReadSize(bs + t, i) == Size(Value(bs), t)
    decreases |bs|
  {
    var s := bs + t;
    if |bs| == 1 {
      assert s[0] == bs[0] && s[1..] == t && Value(bs[1..]) == 0;
    } else {
      assert s[0] == bs[0] && s[1..] == bs[1..] + t;
      ReadGroups(bs[1..], i + 1, t);
    }
  }

  /** Every varint reads as its value and leaves what follows. */
  lemma {:induction false} VarintValue(bs: seq<byte>, t: seq<byte>)
    requires IsVarint(bs)
    ensures ReadSize(bs + t, 0) == Size(Value(bs), t)
  {
    ReadGroups(bs, 0, t);
  }

  /** Nine continued bytes and a tenth that is more than one do not fit 64 bits; `i` of them have been read. */
  lemma {:induction false} LongSizeOverflows(s: seq<byte>, i: nat)
    requires i <= 9 && |s| >= 10 - i && (forall j :: 0 <= j < 9 - i ==> s[j] >= 128) && s[9 - i] > 1
    ensures ReadSize(s, i).Overflow?
    decreases 10 - i
  {
    if i < 9 {
      LongSizeOverflows(s[1..], i + 1);
    }
  }

  lemma {:induction false} LimitUp(low: nat, high: nat, i: nat)
    requires i < 9 && low < 128 && high < Limit(i + 1)
    ensures low + 128 * high < Limit(i)
  {}

  lemma {:induction false} DropDrop(s: seq<byte>, n: nat)
    requires s != [] && n <= |s| - 1
    ensures s[1..][|s| - 1 - n..] == s[|s| - n..]
  {}

  /** A size leaves a strictly shorter suffix of the stream. */
  lemma {:induction false} ReadConsumes(s: seq<byte>, i: nat)
    requires i <= 10
    ensures var r := ReadSize(s, i); r.Size? ==> |r.rest| < |s| && r.rest == s[|s| - |r.rest|..]
    decreases 10 - i
  {
    if i < 10 && s != [] && s[0] >= 128 {
      ReadConsumes(s[1..], i + 1);
      var r := ReadSize(s[1..], i + 1);
      if r.Size? {
        DropDrop(s, |r.rest|);
      }
    }
  }

  /** A size that was read fits a uint64. */
  lemma {:induction false} ReadFits(s: seq<byte>, i: nat)
    requires i <= 9
    ensures ReadSize(s, i).Size? ==> ReadSize(s, i).value < Limit(i)
    decreases 10 - i
  {
    if s != [] && s[0] >= 128 {
      if i < 9 {
        ReadFits(s[1..], i + 1);
        var r := ReadSize(s[1..], i + 1);
        if r.Size? {
          LimitUp(s[0] - 128, r.value, i);
        }
      }
    } else if s != [] {
      assert i == 9 || 128 <= Limit(i);
    }
  }

  /** `binary.PutUvarint`: fills the front of a buffer that is long enough. */
  method PutUvarint(buf: array<byte>, x: nat) returns (n: nat)
    requires |Encoded(x)| <= buf.Length
    modifies buf
    ensures n <= buf.Length && buf[..n] == Encoded(x)
  {
    var y, i := x, 0;
    while y >= 128
      invariant 0 <= i < buf.Length
      invariant buf[..i] + Encoded(y) == Encoded(x)
      decreases y
    {
      buf[i] := y % 128 + 128;
      assert buf[..i + 1] + Encoded(y / 128) == buf[..i] + ([y % 128 + 128] + Encoded(y / 128));
      y, i := y / 128, i + 1;
      assert |buf[..i] + Encoded(y)| == i + |Encoded(y)|;
    }
    buf[i] := y;
    n := i + 1;
    assert buf[..n] == buf[..i] + [y];
  }
}
