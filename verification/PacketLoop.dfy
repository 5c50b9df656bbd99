/**
 One iteration of the datagram loop: the datagram is copied from the read buffer into a pooled one, written
 to the pipe of its address or validated as the first of a new connection, and the pooled buffer is put
 back on every path. Undisturbed, an iteration is a run of the steps of module PacketDemux.
 */
module PacketLoop {
  import opened Messages
  import opened Uvarint
  import opened BufferPool
  import opened PacketDemux

  ghost predicate CanRun(s: State, acts: seq<Action>)
    decreases |acts|
  {
    acts == [] || (Enabled(s, acts[0]) && CanRun(Do(s, acts[0]), acts[1..]))
  }

  ghost function RunFrom(s: State, acts: seq<Action>): State
    requires CanRun(s, acts)
    decreases |acts|
  {
    if acts == [] then s else RunFrom(Do(s, acts[0]), acts[1..])
  }

  lemma {:induction false} RunThree(s: State, a: Action, b: Action, c: Action)
    requires Enabled(s, a) && Enabled(Do(s, a), b) && Enabled(Do(Do(s, a), b), c)
    ensures CanRun(s, [a, b, c]) && RunFrom(s, [a, b, c]) == Do(Do(Do(s, a), b), c)
  {
    var s1, s2 := Do(s, a), Do(Do(s, a), b);
    assert [a, b, c][1..] == [b, c] && [b, c][1..] == [c] && [c][1..] == [];
    assert CanRun(s2, [c]) && RunFrom(s2, [c]) == Do(s2, c);
    assert CanRun(s1, [b, c]) && RunFrom(s1, [b, c]) == RunFrom(s2, [c]);
  }

  lemma {:induction false} RunFour(s: State, a: Action, b: Action, c: Action, d: Action)
    requires Enabled(s, a) && Enabled(Do(s, a), b) && Enabled(Do(Do(s, a), b), c) && Enabled(Do(Do(Do(s, a), b), c), d)
    ensures CanRun(s, [a, b, c, d]) && RunFrom(s, [a, b, c, d]) == Do(Do(Do(Do(s, a), b), c), d)
  {
    RunThree(Do(s, a), b, c, d);
    assert [a, b, c, d][1..] == [b, c, d];
  }

  /** The steps of one iteration: what becomes of the datagram depends on the table, the pipe and its bytes. */
  ghost function Iteration(s: State, d: Datagram, valid: bool, fault: bool, p: PipeId): seq<Action> {
    if d.addr in s.conns then
      var q := s.conns[d.addr];
      [Receive(d), LookUp, if q in s.pipes && s.pipes[q].open && !fault then WriteOk else WriteFails]
    else if valid then [Receive(d), LookUp, Accept, Store(p)]
    else [Receive(d), LookUp, Reject]
  }

  ghost predicate Iterated(s: State, s': State, d: Datagram, valid: bool, fault: bool, p: PipeId) {
    var acts := Iteration(s, d, valid, fault, p);
    CanRun(s, acts) && s' == RunFrom(s, acts)
  }

  /** A write to one pipe: appended if it is open and nothing goes wrong, else the pipe is closed as it is. */
  predicate Written(before: map<PipeId, Pipe>, after: map<PipeId, Pipe>, p: PipeId, bytes: seq<byte>, fault: bool) {
    && p in before && p in after && before.Keys == after.Keys
    && (before[p].open && !fault ==> after[p].open && after[p].data == before[p].data + [bytes])
    && (!before[p].open || fault ==> !after[p].open && after[p].data == before[p].data)
    && (forall q :: q in before && q != p ==> after[q] == before[q])
  }

  class Loop {
    const pool: BytesPool
    const buf: array<byte>                // the read buffer, one for all datagrams
    const validate: seq<byte> -> bool     // whether a first datagram introduces a connection
    var conns: map<Addr, PipeId>
    var pipes: map<PipeId, Pipe>
    ghost var handlers: map<PipeId, Handler>
    ghost var received: seq<Datagram>
    ghost var log: seq<Arrival>

    constructor (pool: BytesPool, buf: array<byte>, validate: seq<byte> -> bool)
      ensures this.pool == pool && this.buf == buf && this.validate == validate && Between() == INIT
    {
      this.pool, this.buf, this.validate := pool, buf, validate;
      conns, pipes, handlers, received, log := map[], map[], map[], [], [];
    }

    /** The state between two iterations. */
    ghost function Between(): State
      reads this
    {
      State(Reading, conns, handlers, pipes, received, log)
    }

    method WriteTo(p: PipeId, data: seq<byte>, fault: bool) returns (ok: bool)
      requires p in pipes
      modifies this`pipes
      ensures ok <==> old(pipes)[p].open && !fault
      ensures pipes == if ok then old(pipes)[p := Pipe(true, old(pipes)[p].data + [data])] else old(pipes)
    {
      ok := pipes[p].open && !fault;
      if ok {
        pipes := pipes[p := Pipe(true, pipes[p].data + [data])];
      }
    }

    /** The first `n` bytes of the read buffer in a pooled buffer, whatever that held before. */
    method CopyOut(n: nat) returns (data: array<byte>)
      requires pool.Valid() && n <= buf.Length && buf !in pool.free && buf !in pool.held
      modifies pool, pool.free
      ensures pool.Valid() && data !in old(pool.held) && pool.held == old(pool.held) + {data}
      ensures n <= data.Length && data[..n] == old(buf[..n]) && buf[..] == old(buf[..])
      ensures data in old(pool.free) || fresh(data)
    {
      data := pool.GetBytesBuf(n);
      var i := 0;
      while i < n
        invariant i <= n && data[..i] == buf[..i] && buf[..] == old(buf[..])
        modifies data
      {
        data[i] := buf[i];
        i := i + 1;
      }
      assert buf[..n] == buf[..][..n] && old(buf[..n]) == old(buf[..])[..n];
    }

    /** A datagram of a known address goes to its pipe; a failed write closes the pipe. */
    method Deliver(addr: Addr, bytes: seq<byte>, fault: bool)
      requires addr in conns && conns[addr] in pipes
      modifies this
      ensures Iterated(old(Between()), Between(), Datagram(addr, bytes), false, fault, 0)
      ensures conns == old(conns) && Written(old(pipes), pipes, conns[addr], bytes, fault)
    {
      ghost var s, d := Between(), Datagram(addr, bytes);
      var pw := conns[addr];
      var ok := WriteTo(pw, bytes, fault);
      if !ok {
        pipes := pipes[pw := pipes[pw].(open := false)];
      }
      received := received + [d];
      log := log + [Arrival(d, if ok then Delivered(pw) else WriteFailed(pw))];
      RunThree(s, Receive(d), LookUp, if ok then WriteOk else WriteFails);
    }

    method Discard(addr: Addr, ghost bytes: seq<byte>)
      requires addr !in conns
      modifies this
      ensures Iterated(old(Between()), Between(), Datagram(addr, bytes), false, false, 0)
      ensures conns == old(conns) && pipes == old(pipes)
    {
      ghost var s, d := Between(), Datagram(addr, bytes);
      received := received + [d];
      log := log + [Arrival(d, Invalid)];
      RunThree(s, Receive(d), LookUp, Reject);
    }

    method Register(addr: Addr, ghost bytes: seq<byte>, p: PipeId)
      requires addr !in conns && p !in pipes && p !in handlers
      modifies this
      ensures Iterated(old(Between()), Between(), Datagram(addr, bytes), true, false, p)
      ensures conns == old(conns)[addr := p] && pipes == old(pipes)[p := Pipe(true, [])]
    {
      ghost var s, d := Between(), Datagram(addr, bytes);
      pipes, conns := pipes[p := Pipe(true, [])], conns[addr := p];
      handlers := handlers[p := Handler(addr, Running, |log|)];
      received := received + [d];
      log := log + [Arrival(d, Registered(p))];
      RunFour(s, Receive(d), LookUp, Accept, Store(p));
    }

    /**
     A datagram of `n` bytes from `addr` is in the read buffer; `p` is the pipe made if it registers. The
     pooled buffer is put back on every path. From a known address, exactly the bytes received go to the open
     pipe of that address, and a failed write closes it; from a new address, the connection is made if and only
     if the bytes validate, and nothing is written.
     */
    method OnDatagram(n: nat, addr: Addr, fault: bool, p: PipeId)
      requires pool.Valid() && n <= buf.Length && buf !in pool.free && buf !in pool.held
      requires (forall a :: a in conns ==> conns[a] in pipes) && p !in pipes && p !in handlers
      modifies this, pool, pool.free
      ensures pool.Valid() && pool.held == old(pool.held)
      ensures var bytes := old(buf[..n]);
        Iterated(old(Between()), Between(), Datagram(addr, bytes), validate(bytes), fault, p)
      ensures addr in old(conns) ==>
        conns == old(conns) && Written(old(pipes), pipes, conns[addr], old(buf[..n]), fault)
      ensures addr !in old(conns) && validate(old(buf[..n])) ==>
        conns == old(conns)[addr := p] && pipes == old(pipes)[p := Pipe(true, [])]
      ensures addr !in old(conns) && !validate(old(buf[..n])) ==> conns == old(conns) && pipes == old(pipes)
    {
      var data := CopyOut(n);
      if addr in conns {
        Deliver(addr, data[..n], fault);
        pool.PutBytesBuf(data);
        return;
      }
      var valid := validate(data[..n]);
      ghost var bytes := data[..n];
      pool.PutBytesBuf(data);
      if valid {
        Register(addr, bytes, p);
      } else {
        Discard(addr, bytes);
      }
    }
  }
}
