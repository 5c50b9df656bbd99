/**
 Datagrams of one packet socket: the read loop looks the remote address up, writes to that address's
 pipe or validates and registers a new connection, while the handler of each connection runs in its own
 goroutine and, when it finishes, closes its pipe and deletes its address. Each map and pipe operation is
 one step.

 Assumed of the pipe: a write to a closed pipe fails, and closing twice is harmless.
 */
module PacketDemux {
  import opened Messages

  type Addr = nat
  type PipeId = nat

  datatype Datagram = Datagram(addr: Addr, payload: seq<nat>)

  datatype MainPc =
    | Reading
    | Looking(d: Datagram)
    | Writing(d: Datagram, p: PipeId)
    | Validating(d: Datagram)
    | Storing(d: Datagram)

  datatype HandlerPc = Running | PipeShut | Finished

  /** `since` is the position of its registration datagram in the log. */
  datatype Handler = Handler(addr: Addr, pc: HandlerPc, since: nat)

  datatype Pipe = Pipe(open: bool, data: seq<seq<nat>>)

  datatype Fate = Delivered(p: PipeId) | WriteFailed(p: PipeId) | Invalid | Registered(p: PipeId)

  datatype Arrival = Arrival(d: Datagram, fate: Fate)

  datatype State = State(
    main: MainPc,
    conns: map<Addr, PipeId>,
    handlers: map<PipeId, Handler>,
    pipes: map<PipeId, Pipe>,
    received: seq<Datagram>,
    log: seq<Arrival>)

  const INIT := State(Reading, map[], map[], map[], [], [])

  datatype Action =
    | Receive(d: Datagram)
    | LookUp
    | WriteOk | WriteFails
    | Reject | Accept
    | Store(p: PipeId)
    | ShutPipe(p: PipeId)     // the handler returned
    | DeleteConn(p: PipeId)

  predicate Enabled(s: State, a: Action) {
    match a
    case Receive(_) => s.main.Reading?
    case LookUp => s.main.Looking?
    case WriteOk => s.main.Writing? && s.main.p in s.pipes && s.pipes[s.main.p].open
    case WriteFails => s.main.Writing? && s.main.p in s.pipes
    case Reject => s.main.Validating?
    case Accept => s.main.Validating?
    case Store(p) => s.main.Storing? && p !in s.pipes && p !in s.handlers
    case ShutPipe(p) => p in s.handlers && p in s.pipes && s.handlers[p].pc.Running?
    case DeleteConn(p) => p in s.handlers && s.handlers[p].pc.PipeShut?
  }

  function MainAfter(s: State, a: Action): MainPc
    requires Enabled(s, a)
  {
    match a
    case Receive(d) => Looking(d)
    case LookUp => if s.main.d.addr in s.conns then Writing(s.main.d, s.conns[s.main.d.addr]) else Validating(s.main.d)
    case WriteOk => Reading
    case WriteFails => Reading
    case Reject => Reading
    case Accept => Storing(s.main.d)
    case Store(_) => Reading
    case _ => s.main
  }

  /** The step that settles what becomes of the datagram in hand. */
  function Settles(s: State, a: Action): Option<Fate>
    requires Enabled(s, a)
  {
    match a
    case WriteOk => Some(Delivered(s.main.p))
    case WriteFails => Some(WriteFailed(s.main.p))
    case Reject => Some(Invalid)
    case Store(p) => Some(Registered(p))
    case _ => None
  }

  function PipesAfter(s: State, a: Action): map<PipeId, Pipe>
    requires Enabled(s, a)
  {
    match a
    case WriteOk => s.pipes[s.main.p := Pipe(true, s.pipes[s.main.p].data + [s.main.d.payload])]
    case WriteFails => s.pipes[s.main.p := s.pipes[s.main.p].(open := false)]
    case Store(p) => s.pipes[p := Pipe(true, [])]
    case ShutPipe(p) => s.pipes[p := s.pipes[p].(open := false)]
    case _ => s.pipes
  }

  function HandlersAfter(s: State, a: Action): map<PipeId, Handler>
    requires Enabled(s, a)
  {
    match a
    case Store(p) => s.handlers[p := Handler(s.main.d.addr, Running, |s.log|)]
    case ShutPipe(p) => s.handlers[p := s.handlers[p].(pc := PipeShut)]
    case DeleteConn(p) => s.handlers[p := s.handlers[p].(pc := Finished)]
    case _ => s.handlers
  }

  function ConnsAfter(s: State, a: Action): map<Addr, PipeId>
    requires Enabled(s, a)
  {
    match a
    case Store(p) => s.conns[s.main.d.addr := p]
    case DeleteConn(p) => s.conns - {s.handlers[p].addr}
    case _ => s.conns
  }

  function Do(s: State, a: Action): State
    requires Enabled(s, a)
  {
    var fate := Settles(s, a);
    State(MainAfter(s, a),
          ConnsAfter(s, a),
          HandlersAfter(s, a),
          PipesAfter(s, a),
          if a.Receive? then s.received + [a.d] else s.received,
          if fate.Some? then s.log + [Arrival(s.main.d, fate.value)] else s.log)
  }

  ghost predicate ValidRun(run: seq<Action>)
    decreases |run|, 0
  {
    run == [] || (var past := run[..|run| - 1]; ValidRun(past) && Enabled(Exec(past), run[|run| - 1]))
  }

  ghost function Exec(run: seq<Action>): State
    requires ValidRun(run)
    decreases |run|, 1
  {
    if run == [] then INIT else Do(Exec(run[..|run| - 1]), run[|run| - 1])
  }

  // ---------------------------------------------------------------------------------------
  // Invariant
  // ---------------------------------------------------------------------------------------

  /** The address map is exactly the live handlers. */
  ghost predicate ConnInv(s: State) {
    && (forall a :: a in s.conns ==>
          s.conns[a] in s.handlers && s.handlers[s.conns[a]].addr == a && !s.handlers[s.conns[a]].pc.Finished?)
    && (forall p :: p in s.handlers && !s.handlers[p].pc.Finished? ==>
          s.handlers[p].addr in s.conns && s.conns[s.handlers[p].addr] == p)
  }

  ghost predicate MainInv(s: State) {
    && s.handlers.Keys == s.pipes.Keys
    && (s.main.Validating? || s.main.Storing? ==> s.main.d.addr !in s.conns)
    && (s.main.Writing? ==>
          && s.main.p in s.handlers && s.handlers[s.main.p].addr == s.main.d.addr
          && (s.main.d.addr in s.conns ==> s.conns[s.main.d.addr] == s.main.p))
    && (forall p :: p in s.pipes && s.pipes[p].open ==> s.handlers[p].pc.Running?)
  }

  /** The payloads of an address from position `from` of the log on, in order of arrival. */
  function From(log: seq<Arrival>, addr: Addr, from: nat): seq<seq<nat>> {
    if |log| <= from then []
    else
      var d := log[|log| - 1].d;
      From(log[..|log| - 1], addr, from) + if d.addr == addr then [d.payload] else []
  }

  /** A pipe has a prefix of what its address sent since it registered, all of it while it is open. */
  predicate PipeOk(pipe: Pipe, h: Handler, log: seq<Arrival>) {
    && h.since < |log|
    && pipe.data <= From(log, h.addr, h.since + 1)
    && (pipe.open ==> pipe.data == From(log, h.addr, h.since + 1))
  }

  ghost predicate PipeInv(s: State)
    requires s.handlers.Keys == s.pipes.Keys
  {
    forall p :: p in s.pipes ==> PipeOk(s.pipes[p], s.handlers[p], s.log)
  }

  function InHand(m: MainPc): seq<Datagram> {
    if m.Reading? then [] else [m.d]
  }

  function Settled(log: seq<Arrival>): seq<Datagram> {
    seq(|log|, i requires 0 <= i < |log| => log[i].d)
  }

  /** Every handler of the address that registered earlier is finished. */
  predicate NoneBefore(handlers: map<PipeId, Handler>, addr: Addr, i: nat) {
    forall p :: p in handlers && handlers[p].addr == addr && handlers[p].since < i ==> handlers[p].pc.Finished?
  }

  /** What the fate of a datagram says about it. */
  predicate FateOk(handlers: map<PipeId, Handler>, log: seq<Arrival>, i: nat)
    requires i < |log|
  {
    match log[i].fate
    case Invalid => NoneBefore(handlers, log[i].d.addr, i)
    case Registered(p) =>
      && p in handlers && handlers[p].addr == log[i].d.addr && handlers[p].since == i
      && NoneBefore(handlers, log[i].d.addr, i)
    case Delivered(p) => p in handlers && handlers[p].addr == log[i].d.addr && handlers[p].since < i
    case WriteFailed(p) => p in handlers && handlers[p].addr == log[i].d.addr && handlers[p].since < i
  }

  ghost predicate LogInv(s: State) {
    && s.received == Settled(s.log) + InHand(s.main)
    && (forall i :: 0 <= i < |s.log| ==> FateOk(s.handlers, s.log, i))
  }

  ghost predicate Inv(s: State) {
    ConnInv(s) && MainInv(s) && PipeInv(s) && LogInv(s)
  }

  lemma {:induction false} ConnStep(s: State, a: Action)
    requires ConnInv(s) && MainInv(s) && Enabled(s, a)
    ensures ConnInv(Do(s, a)) && MainInv(Do(s, a))
  {}

  lemma {:induction false} FromAppend(log: seq<Arrival>, x: Arrival, addr: Addr, from: nat)
    requires from <= |log|
    ensures From(log + [x], addr, from) == From(log, addr, from) + if x.d.addr == addr then [x.d.payload] else []
  {
    assert (log + [x])[..|log|] == log;
  }

  /** Only the pipe being written to can be open for the address of the datagram in hand. */
  lemma {:induction false} OpenIsTheTarget(s: State, a: Action, p: PipeId)
    requires ConnInv(s) && MainInv(s) && Enabled(s, a) && Settles(s, a).Some?
    requires p in s.pipes && s.pipes[p].open && s.handlers[p].addr == s.main.d.addr
    ensures s.main.Writing? && s.main.p == p
  {
    assert s.conns[s.handlers[p].addr] == p;
  }

  /** The log grows by the datagram `d`; the pipe gets its payload, or is closed, or has another address. */
  lemma {:induction false} PipeGrows(pipe: Pipe, pipe': Pipe, h: Handler, log: seq<Arrival>, x: Arrival)
    requires PipeOk(pipe, h, log)
    requires if pipe'.open
             then pipe.open && pipe'.data == pipe.data + (if x.d.addr == h.addr then [x.d.payload] else [])
             else pipe'.data == pipe.data
    ensures PipeOk(pipe', h, log + [x])
  {
    FromAppend(log, x, h.addr, h.since + 1);
  }

  lemma {:induction false} PipeAt(s: State, a: Action, p: PipeId)
    requires ConnInv(s) && MainInv(s) && Enabled(s, a) && p in s.pipes && PipeOk(s.pipes[p], s.handlers[p], s.log)
    ensures var s' := Do(s, a); p in s'.pipes && p in s'.handlers && PipeOk(s'.pipes[p], s'.handlers[p], s'.log)
  {
    var h := s.handlers[p];
    if Settles(s, a).Some? {
      if s.pipes[p].open && h.addr == s.main.d.addr {
        OpenIsTheTarget(s, a, p);
      }
      PipeGrows(s.pipes[p], PipesAfter(s, a)[p], h, s.log, Arrival(s.main.d, Settles(s, a).value));
    }
  }

  lemma {:induction false} PipeStep(s: State, a: Action)
    requires ConnInv(s) && MainInv(s) && PipeInv(s) && Enabled(s, a)
    requires Do(s, a).handlers.Keys == Do(s, a).pipes.Keys
    ensures PipeInv(Do(s, a))
  {
    var s' := Do(s, a);
    forall p | p in s'.pipes ensures PipeOk(s'.pipes[p], s'.handlers[p], s'.log) {
      if p in s.pipes {
        PipeAt(s, a, p);
      }
    }
  }

  lemma {:induction false} LogStep(s: State, a: Action)
    requires ConnInv(s) && MainInv(s) && PipeInv(s) && LogInv(s) && Enabled(s, a)
    ensures LogInv(Do(s, a))
  {
    var s' := Do(s, a);
    if Settles(s, a).Some? {
      assert Settled(s'.log) == Settled(s.log) + [s.main.d];
    }
    forall i | 0 <= i < |s'.log| ensures FateOk(s'.handlers, s'.log, i) {
      if i < |s.log| {
        assert s'.log[i] == s.log[i];
        FateStays(s, a, i);
      } else {
        NewFate(s, a);
      }
    }
  }

  lemma {:induction false} FateStays(s: State, a: Action, i: nat)
    requires MainInv(s) && Enabled(s, a) && i < |s.log| && FateOk(s.handlers, s.log, i)
    ensures FateOk(HandlersAfter(s, a), s.log, i)
  {}

  lemma {:induction false} NewFate(s: State, a: Action)
    requires ConnInv(s) && MainInv(s) && PipeInv(s) && Enabled(s, a) && Settles(s, a).Some?
    ensures FateOk(Do(s, a).handlers, Do(s, a).log, |s.log|)
  {}

  lemma {:induction false} RunKeepsInv(run: seq<Action>)
    requires ValidRun(run)
    ensures Inv(Exec(run))
    decreases |run|
  {
    if run != [] {
      var s, a := Exec(run[..|run| - 1]), run[|run| - 1];
      RunKeepsInv(run[..|run| - 1]);
      ConnStep(s, a);
      PipeStep(s, a);
      LogStep(s, a);
    }
  }

  /** In every run each address has at most one live handler. */
  lemma {:induction false} OneHandlerPerAddress(run: seq<Action>, p: PipeId, q: PipeId)
    requires ValidRun(run) && p in Exec(run).handlers && q in Exec(run).handlers
    requires var s := Exec(run);
      && s.handlers[p].addr == s.handlers[q].addr
      && !s.handlers[p].pc.Finished? && !s.handlers[q].pc.Finished?
    ensures p == q
  {
    RunKeepsInv(run);
  }

  /** A finishing handler deletes its own entry and no other, so never that of a successor. */
  lemma {:induction false} DeleteIsOwn(run: seq<Action>, p: PipeId)
    requires ValidRun(run) && Enabled(Exec(run), DeleteConn(p))
    ensures var s := Exec(run); var s' := Do(s, DeleteConn(p));
      && s.handlers[p].addr in s.conns && s.conns[s.handlers[p].addr] == p
      && (forall a :: a in s'.conns <==> a in s.conns && s.conns[a] != p)
      && (forall a :: a in s'.conns ==> s'.conns[a] == s.conns[a])
  {
    RunKeepsInv(run);
  }

  /** The payloads that were delivered to a pipe, in order. */
  function DeliveredTo(log: seq<Arrival>, p: PipeId): seq<seq<nat>> {
    if log == [] then []
    else
      var x := log[|log| - 1];
      DeliveredTo(log[..|log| - 1], p) + if x.fate == Delivered(p) then [x.d.payload] else []
  }

  lemma {:induction false} DeliveredAppend(log: seq<Arrival>, x: Arrival, p: PipeId)
    ensures DeliveredTo(log + [x], p) == DeliveredTo(log, p) + if x.fate == Delivered(p) then [x.d.payload] else []
  {
    assert (log + [x])[..|log|] == log;
  }

  lemma {:induction false} NotYetDelivered(log: seq<Arrival>, p: PipeId)
    requires forall i :: 0 <= i < |log| ==> log[i].fate != Delivered(p)
    ensures DeliveredTo(log, p) == []
    decreases |log|
  {
    if log != [] {
      NotYetDelivered(log[..|log| - 1], p);
    }
  }

  /** A pipe holds exactly what was delivered to it; a failed write has closed it. */
  ghost predicate ExactInv(s: State) {
    && (forall p :: p in s.pipes ==> s.pipes[p].data == DeliveredTo(s.log, p))
    && (forall i, p :: 0 <= i < |s.log| && p in s.pipes && s.log[i].fate == WriteFailed(p) ==> !s.pipes[p].open)
  }

  lemma {:induction false} ExactStep(s: State, a: Action)
    requires MainInv(s) && LogInv(s) && ExactInv(s) && Enabled(s, a)
    ensures ExactInv(Do(s, a))
  {
    var s' := Do(s, a);
    forall p | p in s'.pipes ensures s'.pipes[p].data == DeliveredTo(s'.log, p) {
      if Settles(s, a).Some? {
        DeliveredAppend(s.log, Arrival(s.main.d, Settles(s, a).value), p);
      }
      if p !in s.pipes {
        forall i | 0 <= i < |s.log| ensures s.log[i].fate != Delivered(p) {
          assert FateOk(s.handlers, s.log, i);
        }
        NotYetDelivered(s.log, p);
      }
    }
    forall i, p | 0 <= i < |s'.log| && p in s'.pipes && s'.log[i].fate == WriteFailed(p) ensures !s'.pipes[p].open {
      if i < |s.log| {
        assert s'.log[i] == s.log[i] && FateOk(s.handlers, s.log, i);
      }
    }
  }

  lemma {:induction false} RunIsExact(run: seq<Action>)
    requires ValidRun(run)
    ensures ExactInv(Exec(run))
    decreases |run|
  {
    if run != [] {
      RunIsExact(run[..|run| - 1]);
      RunKeepsInv(run[..|run| - 1]);
      ExactStep(Exec(run[..|run| - 1]), run[|run| - 1]);
    }
  }

  /**
   Packet demultiplexing: the datagrams read are, in order, those with a settled fate plus the one in
   hand; each fate names a pipe of the sender's address registered earlier, and a datagram is validated only
   when the earlier handlers of its address are finished; every pipe holds, in order, exactly the payloads
   delivered to it, which are a prefix of what its address sent after its registration datagram, all of it
   while the pipe is open; a failed write closes the pipe.
   */
  lemma {:induction false} Demultiplexing(run: seq<Action>)
    requires ValidRun(run)
    ensures var s := Exec(run);
      && s.received == Settled(s.log) + InHand(s.main)
      && (forall i :: 0 <= i < |s.log| ==> FateOk(s.handlers, s.log, i))
      && (forall p :: p in s.pipes ==>
            p in s.handlers && PipeOk(s.pipes[p], s.handlers[p], s.log) && s.pipes[p].data == DeliveredTo(s.log, p))
      && (forall i, p :: 0 <= i < |s.log| && p in s.pipes && s.log[i].fate == WriteFailed(p) ==> !s.pipes[p].open)
  {
    RunKeepsInv(run);
    RunIsExact(run);
  }
}
