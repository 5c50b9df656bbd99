/**
 The pool of byte buffers shared by encoders, decoders and the datagram loop. `sync.Pool` may hand out
 any buffer it has or make a new one, so `Get` chooses freely; it takes back whatever it is given.
 */
module BufferPool {
  import opened Uvarint

  const NEW_BUFFER := 32

  /** The buffer extended with zeros to `size` bytes. */
  function Grown(buf: seq<byte>, size: nat): (r: seq<byte>)
    requires |buf| < size
    ensures |r| == size && buf <= r && forall i :: |buf| <= i < size ==> r[i] == 0
  {
    var extend := size - |buf|;
    if extend < size then buf + seq(extend, _ => 0) else seq(extend, _ => 0) + buf
  }

  class BytesPool {
    var free: multiset<array<byte>>
    ghost var held: set<array<byte>>  // buffers taken and not yet put back

    /** No buffer is in two places, and none is shorter than a new one. */
    ghost predicate Valid()
      reads this
    {
      && (forall b | b in free :: free[b] == 1 && b !in held && b.Length >= NEW_BUFFER)
      && (forall b | b in held :: b.Length >= NEW_BUFFER)
    }

    constructor ()
      ensures Valid() && free == multiset{} && held == {}
    {
      free := multiset{};
      held := {};
    }

    method Get() returns (b: array<byte>)
      requires Valid()
      modifies this
      ensures Valid() && b !in free && b !in held && b.Length >= NEW_BUFFER
      ensures held == old(held) && free <= old(free) && (b in old(free) || fresh(b))
    {
      var reuse: bool := *;
      if reuse && free != multiset{} {
        b :| b in free;
        free := free - multiset{b};
      } else {
        b := new byte[NEW_BUFFER](_ => 0);
      }
    }

    /** At least `size` bytes, and nobody else holds the buffer; a negative size gets any buffer. */
    method GetBytesBuf(size: int) returns (b: array<byte>)
      requires Valid()
      modifies this
      ensures Valid() && b.Length >= size && b.Length >= NEW_BUFFER
      ensures b !in old(held) && held == old(held) + {b} && free <= old(free)
      ensures b in old(free) || fresh(b)
    {
      var buf := Get();
      if buf.Length >= size {
        b := buf;
      } else {
        var contents := Grown(buf[..], size);
        b := new byte[size](i requires 0 <= i < size => contents[i]);
      }
      held := held + {b};
    }

    /** The pool stays in order exactly when the buffer is not in it already and is not a short one. */
    method PutBytesBuf(b: array<byte>)
      modifies this
      ensures held == old(held) - {b} && free == old(free) + multiset{b}
      ensures old(Valid()) ==> (Valid() <==> b !in old(free) && b.Length >= NEW_BUFFER)
    {
      held := held - {b};
      free := free + multiset{b};
      assert b in free;
    }
  }
}
