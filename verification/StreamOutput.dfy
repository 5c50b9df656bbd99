/**
 Output of a running command: any number of uploaders (stdout and stderr in practice) read chunks into
 a reused buffer, copy them out, draw a sequence number from one shared counter and send, concurrently;
 when all have stopped, one terminal message follows. The counter is advanced by a compare-and-swap loop
 that, on failure, increments its own guess instead of loading again.
 */
module StreamOutput {
  import opened Messages

  /** The counter is a uint64. */
  const WORD: nat := 0x1_0000_0000_0000_0000

  datatype StreamKind = DataOutput | RuntimeStderr | ErrorReport

  type Tid = nat

  /** A byte slice: memory of its own, or the front of the read buffer of an uploader. */
  datatype Chunk = Owned(bytes: seq<nat>) | View(owner: Tid, len: nat)

  datatype StreamMsg = StreamMsg(kind: StreamKind, ack: nat, payload: Chunk)

  /** Inside `nextSeq`. `loadedAt` is how many numbers had been drawn at the load, `fails` counts failed CASes. */
  datatype Draw = Loading | Trying(guess: nat, loadedAt: nat, fails: nat) | Got(ticket: nat, index: nat)

  datatype UploaderPc = Idle | Copying(data: Chunk) | Drawing(payload: Chunk, draw: Draw) | Stopped

  /**
   `buf` is the buffer every read may reuse; `read` is every chunk as it was when it was read, `sent`
   every payload whose send succeeded.
   */
  datatype Uploader = Uploader(kind: StreamKind, buf: seq<nat>, pc: UploaderPc, read: seq<Chunk>, sent: seq<Chunk>)

  /** The chunks that drew a number, in the order of the counter. */
  datatype Issue = Issue(tid: Tid, kind: StreamKind, payload: Chunk, delivered: bool)

  datatype Drawer = Stream(t: Tid) | Terminal

  /** A successful compare-and-swap: who drew, and the number `nextSeq` returned. */
  datatype Ticket = Ticket(drawer: Drawer, number: nat)

  datatype CloserPc = Waiting | CloserDrawing(draw: Draw) | Closed

  datatype State = State(
    counter: nat,
    draws: seq<Ticket>,  // every successful draw, the terminal one included
    issued: seq<Issue>,
    uploaders: map<Tid, Uploader>,
    wire: seq<StreamMsg>,
    closer: CloserPc,
    last: Option<StreamMsg>)

  function Init(streams: map<Tid, StreamKind>): State {
    State(0, [], [], map t | t in streams :: Uploader(streams[t], [], Idle, [], []), [], Waiting, None)
  }

  /** A read fills the uploader's buffer (`shared`) or hands out memory of the reader. */
  datatype UploaderAct = Read(bytes: seq<nat>, shared: bool) | Copy | Load | Cas | SendOk | SendFails | Stop

  datatype Action =
    | ByUploader(t: Tid, ua: UploaderAct)
    | CloserLoad | CloserCas | CloserSend(error: Option<seq<nat>>)

  ghost predicate AllStopped(s: State) {
    forall t :: t in s.uploaders ==> s.uploaders[t].pc.Stopped?
  }

  predicate UploaderReady(u: Uploader, a: UploaderAct) {
    match a
    case Read(_, _) => u.pc.Idle?
    case Copy => u.pc.Copying?
    case Load => u.pc.Drawing? && u.pc.draw.Loading?
    case Cas => u.pc.Drawing? && u.pc.draw.Trying?
    case SendOk => u.pc.Drawing? && u.pc.draw.Got?
    case SendFails => u.pc.Drawing? && u.pc.draw.Got?
    case Stop => u.pc.Idle?
  }

  ghost predicate Enabled(s: State, a: Action) {
    match a
    case ByUploader(t, ua) => t in s.uploaders && UploaderReady(s.uploaders[t], ua)
    case CloserLoad => s.closer.Waiting? && AllStopped(s)
    case CloserCas => s.closer.CloserDrawing? && s.closer.draw.Trying?
    case CloserSend(_) => s.closer.CloserDrawing? && s.closer.draw.Got?
  }

  /** One compare-and-swap of `nextSeq` on a counter that has been advanced `drawn` times. */
  function TryCas(counter: nat, drawn: nat, d: Draw): Draw
    requires d.Trying?
  {
    if counter == d.guess then Got(d.guess, drawn) else Trying((d.guess + 1) % WORD, d.loadedAt, d.fails + 1)
  }

  /** What is left of a buffer behind the first `n` bytes. */
  function Behind(buf: seq<nat>, n: nat): seq<nat> {
    if n <= |buf| then buf[n..] else []
  }

  /** The contents of a chunk of this uploader. */
  function Contents(u: Uploader, c: Chunk): seq<nat> {
    if c.Owned? then c.bytes else if c.len <= |u.buf| then u.buf[..c.len] else u.buf
  }

  function UploaderAfter(t: Tid, u: Uploader, counter: nat, drawn: nat, a: UploaderAct): Uploader
    requires UploaderReady(u, a)
  {
    match a
    case Read(bytes, shared) =>
      u.(pc := Copying(if shared then View(t, |bytes|) else Owned(bytes)),
         buf := if shared then bytes + Behind(u.buf, |bytes|) else u.buf,
         read := u.read + [Owned(bytes)])
    case Copy => u.(pc := Drawing(if u.pc.data.View? then Owned(Contents(u, u.pc.data)) else u.pc.data, Loading))
    case Load => u.(pc := u.pc.(draw := Trying(counter, drawn, 0)))
    case Cas => u.(pc := u.pc.(draw := TryCas(counter, drawn, u.pc.draw)))
    case SendOk => u.(pc := Idle, sent := u.sent + [u.pc.payload])
    case SendFails => u.(pc := Stopped)
    case Stop => u.(pc := Stopped)
  }

  predicate Wins(u: Uploader, counter: nat, a: UploaderAct)
    requires UploaderReady(u, a)
  {
    a.Cas? && counter == u.pc.draw.guess
  }

  function IssuedAfter(issued: seq<Issue>, t: Tid, u: Uploader, counter: nat, a: UploaderAct): seq<Issue>
    requires UploaderReady(u, a)
  {
    if Wins(u, counter, a) then issued + [Issue(t, u.kind, u.pc.payload, false)]
    else if a.SendOk? && u.pc.draw.index < |issued| then
      issued[u.pc.draw.index := issued[u.pc.draw.index].(delivered := true)]
    else issued
  }

  ghost function Do(s: State, a: Action): State
    requires Enabled(s, a)
  {
    match a
    case ByUploader(t, ua) =>
      var u := s.uploaders[t];
      s.(counter := if Wins(u, s.counter, ua) then (s.counter + 1) % WORD else s.counter,
         draws := if Wins(u, s.counter, ua) then s.draws + [Ticket(Stream(t), u.pc.draw.guess)] else s.draws,
         issued := IssuedAfter(s.issued, t, u, s.counter, ua),
         uploaders := s.uploaders[t := UploaderAfter(t, u, s.counter, |s.issued|, ua)],
         wire := if ua.SendOk? then s.wire + [StreamMsg(u.kind, u.pc.draw.ticket, u.pc.payload)] else s.wire)
    case CloserLoad => s.(closer := CloserDrawing(Trying(s.counter, |s.issued|, 0)))
    case CloserCas =>
      s.(closer := CloserDrawing(TryCas(s.counter, |s.issued|, s.closer.draw)),
         counter := if s.counter == s.closer.draw.guess then (s.counter + 1) % WORD else s.counter,
         draws := if s.counter == s.closer.draw.guess then s.draws + [Ticket(Terminal, s.closer.draw.guess)]
                  else s.draws)
    case CloserSend(e) =>
      s.(closer := Closed,
         last := Some(if e.Some? then StreamMsg(ErrorReport, s.closer.draw.ticket, Owned(e.value))
                      else StreamMsg(DataOutput, s.closer.draw.ticket, Owned([]))))
  }

  ghost predicate ValidRun(streams: map<Tid, StreamKind>, run: seq<Action>)
    decreases |run|, 0
  {
    run == [] || (var past := run[..|run| - 1]; ValidRun(streams, past) && Enabled(Exec(streams, past), run[|run| - 1]))
  }

  ghost function Exec(streams: map<Tid, StreamKind>, run: seq<Action>): State
    requires ValidRun(streams, run)
    decreases |run|, 1
  {
    if run == [] then Init(streams) else Do(Exec(streams, run[..|run| - 1]), run[|run| - 1])
  }

  // ---------------------------------------------------------------------------------------
  // The ticket counter
  // ---------------------------------------------------------------------------------------

  /** The guess trails the counter: it is the value at the load plus the failures since. */
  predicate DrawOk(d: Draw, drawn: nat) {
    match d
    case Loading => true
    case Trying(guess, loadedAt, fails) => loadedAt + fails <= drawn && guess == (loadedAt + fails) % WORD
    case Got(ticket, index) => index < drawn && ticket == index % WORD
  }

  lemma {:induction false} CasKeepsDraw(d: Draw, drawn: nat)
    requires d.Trying? && DrawOk(d, drawn)
    ensures var d' := TryCas(drawn % WORD, drawn, d);
      if drawn % WORD == d.guess then d' == Got(drawn % WORD, drawn) else DrawOk(d', drawn)
  {
    var n := d.loadedAt + d.fails;
    assert ((n % WORD) + 1) % WORD == (n + 1) % WORD;
  }

  lemma {:induction false} Advance(drawn: nat)
    ensures (drawn % WORD + 1) % WORD == (drawn + 1) % WORD
  {}

  /** Tickets drawn so far, counting the closer's. */
  function Drawn(s: State): nat {
    |s.issued| + if s.closer.Closed? || (s.closer.CloserDrawing? && s.closer.draw.Got?) then 1 else 0
  }

  /** A ticket in hand belongs to the uploader's latest, still undelivered draw. */
  ghost predicate InHand(issued: seq<Issue>, t: Tid, u: Uploader)
    requires u.pc.Drawing? && u.pc.draw.Got?
  {
    && u.pc.draw.index < |issued|
    && issued[u.pc.draw.index] == Issue(t, u.kind, u.pc.payload, false)
    && (forall j :: u.pc.draw.index < j < |issued| ==> issued[j].tid != t)
  }

  /** Since it loaded the counter, a thread has drawn nothing itself. */
  ghost predicate OthersDrew(issued: seq<Issue>, t: Tid, d: Draw) {
    d.Trying? ==> forall j :: d.loadedAt <= j < |issued| ==> issued[j].tid != t
  }

  ghost predicate UploaderOk(issued: seq<Issue>, t: Tid, u: Uploader) {
    && (u.pc.Drawing? ==> DrawOk(u.pc.draw, |issued|) && OthersDrew(issued, t, u.pc.draw))
    && (u.pc.Drawing? && u.pc.draw.Got? ==> InHand(issued, t, u))
    && u.sent == DeliveredBy(issued, t)
    && IssuedBy(issued, t) == (if u.pc.Copying? || (u.pc.Drawing? && !u.pc.draw.Got?) then u.sent else u.read)
    && (forall i :: 0 <= i < |u.read| ==> u.read[i].Owned?)
    && match u.pc
       case Idle => u.read == u.sent
       case Copying(data) => u.read == u.sent + [Owned(Contents(u, data))]
       case Drawing(p, _) => u.read == u.sent + [p]
       case Stopped => u.sent <= u.read && |u.read| <= |u.sent| + 1
  }

  /** All chunks of one uploader that drew a sequence number, in that order. */
  function IssuedBy(issued: seq<Issue>, t: Tid): seq<Chunk> {
    if issued == [] then []
    else
      var i := issued[|issued| - 1];
      IssuedBy(issued[..|issued| - 1], t) + if i.tid == t then [i.payload] else []
  }

  /** The delivered chunks of one uploader, in the order of their sequence numbers. */
  function DeliveredBy(issued: seq<Issue>, t: Tid): seq<Chunk> {
    if issued == [] then []
    else
      var i := issued[|issued| - 1];
      DeliveredBy(issued[..|issued| - 1], t) + if i.tid == t && i.delivered then [i.payload] else []
  }

  /** The delivered messages in the order of their sequence numbers. */
  function Expected(issued: seq<Issue>): seq<StreamMsg> {
    if issued == [] then []
    else Expected(issued[..|issued| - 1]) + SentAt(issued[|issued| - 1], |issued| - 1)
  }

  ghost predicate CloserOk(s: State) {
    && (!s.closer.Waiting? ==> AllStopped(s))
    && (match s.closer
        case Waiting => s.last.None?
        case CloserDrawing(Trying(guess, loadedAt, fails)) =>
          guess == |s.issued| % WORD && loadedAt == |s.issued| && fails == 0 && s.last.None?
        case CloserDrawing(Got(ticket, index)) =>
          ticket == |s.issued| % WORD && index == |s.issued| && s.last.None?
        case CloserDrawing(Loading) => false
        case Closed => s.last.Some? && s.last.value.ack == |s.issued| % WORD && !s.last.value.kind.RuntimeStderr?
                       && (s.last.value.kind.DataOutput? ==> s.last.value.payload == Owned([])))
  }

  ghost predicate UploadersOk(streams: map<Tid, StreamKind>, s: State)
    requires s.uploaders.Keys == streams.Keys
  {
    forall t :: t in s.uploaders ==> s.uploaders[t].kind == streams[t] && UploaderOk(s.issued, t, s.uploaders[t])
  }

  ghost predicate KindsOk(streams: map<Tid, StreamKind>, issued: seq<Issue>) {
    forall i :: 0 <= i < |issued| ==> issued[i].tid in streams && issued[i].kind == streams[issued[i].tid]
  }

  /** The i-th draw got i, for the uploaders' draws and the terminal one alike. */
  ghost predicate DrawsOk(draws: seq<Ticket>, issued: seq<Issue>) {
    && |issued| <= |draws|
    && (forall i :: 0 <= i < |draws| ==> draws[i].number == i % WORD)
    && (forall i :: 0 <= i < |draws| ==>
          draws[i].drawer == if i < |issued| then Stream(issued[i].tid) else Terminal)
  }

  ghost predicate CounterInv(s: State) {
    s.counter == Drawn(s) % WORD && CloserOk(s)
  }

  ghost predicate DrawsInv(s: State) {
    |s.draws| == Drawn(s) && DrawsOk(s.draws, s.issued)
  }

  ghost predicate UploadersInv(streams: map<Tid, StreamKind>, s: State) {
    s.uploaders.Keys == streams.Keys && UploadersOk(streams, s)
  }

  /** What is on the wire is what was issued and delivered, in some order. */
  ghost predicate WireInv(s: State) {
    multiset(s.wire) == multiset(Expected(s.issued))
  }

  ghost predicate Inv(streams: map<Tid, StreamKind>, s: State) {
    CounterInv(s) && DrawsInv(s) && UploadersInv(streams, s) && KindsOk(streams, s.issued) && WireInv(s)
  }

  lemma {:induction false} DeliverAppends(issued: seq<Issue>, k: nat, t: Tid)
    requires k < |issued| && !issued[k].delivered
    requires issued[k].tid == t ==> forall j :: k < j < |issued| ==> issued[j].tid != t
    ensures DeliveredBy(issued[k := issued[k].(delivered := true)], t) ==
      DeliveredBy(issued, t) + if issued[k].tid == t then [issued[k].payload] else []
    ensures IssuedBy(issued[k := issued[k].(delivered := true)], t) == IssuedBy(issued, t)
    decreases |issued|
  {
    var n := |issued| - 1;
    var issued' := issued[k := issued[k].(delivered := true)];
    if k == n {
      assert issued'[..n] == issued[..n];
    } else {
      DeliverAppends(issued[..n], k, t);
      assert issued'[..n] == issued[..n][k := issued[k].(delivered := true)];
    }
  }

  lemma {:induction false} TakeUpdate<T>(s: seq<T>, k: nat, x: T, n: nat)
    requires k < |s| && n <= |s|
    ensures s[k := x][..n] == if k < n then s[..n][k := x] else s[..n]
  {}

  function SentAt(i: Issue, n: nat): seq<StreamMsg> {
    if i.delivered then [StreamMsg(i.kind, n % WORD, i.payload)] else []
  }

  lemma {:induction false} ExpectedSplit(issued: seq<Issue>, n: nat)
    requires |issued| == n + 1
    ensures Expected(issued) == Expected(issued[..n]) + SentAt(issued[n], n)
  {}

  lemma {:induction false} DeliverExpects(issued: seq<Issue>, k: nat, x: Issue, issued': seq<Issue>)
    requires k < |issued| && !issued[k].delivered && x == issued[k].(delivered := true) && issued' == issued[k := x]
    ensures multiset(Expected(issued')) == multiset(Expected(issued)) + multiset(SentAt(x, k))
    decreases |issued|
  {
    var n := |issued| - 1;
    var past, past' := issued[..n], issued'[..n];
    TakeUpdate(issued, k, x, n);
    ExpectedSplit(issued, n);
    ExpectedSplit(issued', n);
    if k < n {
      DeliverExpects(past, k, x, past');
      AddBoth(Expected(past'), Expected(past), SentAt(x, k), SentAt(issued[n], n));
    } else {
      assert SentAt(issued[n], n) == [] && Expected(past) + [] == Expected(past);
    }
  }

  lemma {:induction false} AddBoth(a: seq<StreamMsg>, b: seq<StreamMsg>, x: seq<StreamMsg>, y: seq<StreamMsg>)
    requires multiset(a) == multiset(b) + multiset(x)
    ensures multiset(a + y) == multiset(b + y) + multiset(x)
  {}

  lemma {:induction false} IssueAppends(issued: seq<Issue>, i: Issue)
    requires !i.delivered
    ensures Expected(issued + [i]) == Expected(issued)
    ensures forall t :: DeliveredBy(issued + [i], t) == DeliveredBy(issued, t)
    ensures forall t :: IssuedBy(issued + [i], t) == IssuedBy(issued, t) + if i.tid == t then [i.payload] else []
  {
    assert (issued + [i])[..|issued|] == issued;
  }

  // ---------------------------------------------------------------------------------------
  // Preservation
  // ---------------------------------------------------------------------------------------

  /** A draw elsewhere only adds to the issued list. */
  lemma {:induction false} OthersUnderDraw(issued: seq<Issue>, i: Issue, t: Tid, u: Uploader)
    requires UploaderOk(issued, t, u) && i.tid != t && !i.delivered
    ensures UploaderOk(issued + [i], t, u)
  {
    IssueAppends(issued, i);
  }

  lemma {:induction false} OthersUnderDelivery(issued: seq<Issue>, k: nat, t: Tid, u: Uploader)
    requires UploaderOk(issued, t, u) && k < |issued| && issued[k].tid != t && !issued[k].delivered
    ensures UploaderOk(issued[k := issued[k].(delivered := true)], t, u)
  {
    DeliverAppends(issued, k, t);
  }

  lemma {:induction false} OwnStep(issued: seq<Issue>, t: Tid, u: Uploader, a: UploaderAct)
    requires UploaderOk(issued, t, u) && UploaderReady(u, a)
    ensures var c := |issued| % WORD;
      UploaderOk(IssuedAfter(issued, t, u, c, a), t, UploaderAfter(t, u, c, |issued|, a))
  {
    match a
    case Cas =>
      CasKeepsDraw(u.pc.draw, |issued|);
      IssueAppends(issued, Issue(t, u.kind, u.pc.payload, false));
    case SendOk => DeliverAppends(issued, u.pc.draw.index, t);
    case _ =>
  }

  lemma {:induction false} UploaderAt(streams: map<Tid, StreamKind>, s: State, t: Tid, a: UploaderAct, v: Tid)
    requires t in s.uploaders && UploaderReady(s.uploaders[t], a) && s.counter == |s.issued| % WORD
    requires UploaderOk(s.issued, t, s.uploaders[t])
    requires v in s.uploaders && UploaderOk(s.issued, v, s.uploaders[v])
    ensures var s' := Do(s, ByUploader(t, a)); UploaderOk(s'.issued, v, s'.uploaders[v])
  {
    var u := s.uploaders[t];
    if v == t {
      OwnStep(s.issued, t, u, a);
    } else if Wins(u, s.counter, a) {
      OthersUnderDraw(s.issued, Issue(t, u.kind, u.pc.payload, false), v, s.uploaders[v]);
    } else if a.SendOk? {
      OthersUnderDelivery(s.issued, u.pc.draw.index, v, s.uploaders[v]);
    }
  }

  lemma {:induction false} UploaderStep(streams: map<Tid, StreamKind>, s: State, t: Tid, a: UploaderAct)
    requires CounterInv(s) && UploadersInv(streams, s) && Enabled(s, ByUploader(t, a))
    ensures UploadersInv(streams, Do(s, ByUploader(t, a)))
  {
    var s' := Do(s, ByUploader(t, a));
    assert s.closer.Waiting?;
    forall v | v in s'.uploaders
      ensures s'.uploaders[v].kind == streams[v] && UploaderOk(s'.issued, v, s'.uploaders[v])
    {
      UploaderAt(streams, s, t, a, v);
    }
  }

  lemma {:induction false} WireStep(s: State, t: Tid, a: UploaderAct)
    requires WireInv(s) && Enabled(s, ByUploader(t, a)) && UploaderOk(s.issued, t, s.uploaders[t])
    ensures WireInv(Do(s, ByUploader(t, a)))
  {
    var u, s' := s.uploaders[t], Do(s, ByUploader(t, a));
    if a.SendOk? {
      var k := u.pc.draw.index;
      DeliverExpects(s.issued, k, s.issued[k].(delivered := true), s'.issued);
      assert SentAt(s.issued[k].(delivered := true), k) == [StreamMsg(u.kind, u.pc.draw.ticket, u.pc.payload)];
    } else if Wins(u, s.counter, a) {
      IssueAppends(s.issued, Issue(t, u.kind, u.pc.payload, false));
    }
  }

  lemma {:induction false} KindsStep(streams: map<Tid, StreamKind>, s: State, t: Tid, a: UploaderAct)
    requires KindsOk(streams, s.issued) && Enabled(s, ByUploader(t, a))
    requires t in streams && s.uploaders[t].kind == streams[t]
    ensures KindsOk(streams, Do(s, ByUploader(t, a)).issued)
  {
    var s' := Do(s, ByUploader(t, a));
    forall i | 0 <= i < |s'.issued|
      ensures s'.issued[i].tid in streams && s'.issued[i].kind == streams[s'.issued[i].tid]
    {
      if i < |s.issued| {
        assert s'.issued[i].tid == s.issued[i].tid && s'.issued[i].kind == s.issued[i].kind;
      }
    }
  }

  lemma {:induction false} CounterStep(s: State, a: Action)
    requires CounterInv(s) && Enabled(s, a)
    ensures CounterInv(Do(s, a))
  {
    Advance(|s.issued|);
    assert a.ByUploader? ==> s.closer.Waiting?;
  }

  lemma {:induction false} DrawsStep(s: State, a: Action)
    requires CounterInv(s) && DrawsInv(s) && Enabled(s, a)
    ensures DrawsInv(Do(s, a))
  {
    var s' := Do(s, a);
    assert a.ByUploader? ==> s.closer.Waiting?;
    forall i | 0 <= i < |s'.draws| && i < |s'.issued| ensures s'.draws[i].drawer == Stream(s'.issued[i].tid) {
      if i < |s.issued| {
        assert s'.issued[i].tid == s.issued[i].tid;
      }
    }
  }

  lemma {:induction false} StepKeepsInv(streams: map<Tid, StreamKind>, s: State, a: Action)
    requires Inv(streams, s) && Enabled(s, a)
    ensures Inv(streams, Do(s, a))
  {
    CounterStep(s, a);
    DrawsStep(s, a);
    if a.ByUploader? {
      UploaderStep(streams, s, a.t, a.ua);
      WireStep(s, a.t, a.ua);
      KindsStep(streams, s, a.t, a.ua);
    }
  }

  lemma {:induction false} RunKeepsInv(streams: map<Tid, StreamKind>, run: seq<Action>)
    requires ValidRun(streams, run)
    ensures Inv(streams, Exec(streams, run))
    decreases |run|
  {
    if run == [] {
      assert Expected([]) == [];
    } else {
      RunKeepsInv(streams, run[..|run| - 1]);
      var s, a := Exec(streams, run[..|run| - 1]), run[|run| - 1];
      StepKeepsInv(streams, s, a);
    }
  }

  // ---------------------------------------------------------------------------------------
  // Theorems over every run
  // ---------------------------------------------------------------------------------------

  /** Where a thread is inside `nextSeq`, if it is. */
  function DrawOf(s: State, who: Drawer): Option<Draw> {
    match who
    case Stream(t) => if t in s.uploaders && s.uploaders[t].pc.Drawing? then Some(s.uploaders[t].pc.draw) else None
    case Terminal => if s.closer.CloserDrawing? then Some(s.closer.draw) else None
  }

  /**
   The ticket counter, for any number of threads and the terminal draw: the i-th successful draw of a run
   returned i modulo the word size, so the numbers have no gaps.
   */
  lemma {:induction false} TicketCounter(streams: map<Tid, StreamKind>, run: seq<Action>)
    requires ValidRun(streams, run)
    ensures var s := Exec(streams, run);
      s.counter == |s.draws| % WORD && forall i :: 0 <= i < |s.draws| ==> s.draws[i].number == i % WORD
  {
    RunKeepsInv(streams, run);
  }

  ghost predicate DrawBound(draws: seq<Ticket>, who: Drawer, d: Draw) {
    match d
    case Loading => true
    case Trying(guess, loadedAt, fails) =>
      && guess == (loadedAt + fails) % WORD
      && fails <= |draws| - loadedAt
      && forall i :: loadedAt <= i < |draws| ==> draws[i].drawer != who
    case Got(number, index) => index < |draws| && draws[index] == Ticket(who, number)
  }

  lemma {:induction false} UploaderBound(draws: seq<Ticket>, issued: seq<Issue>, t: Tid, u: Uploader)
    requires DrawsOk(draws, issued) && |draws| == |issued| && UploaderOk(issued, t, u) && u.pc.Drawing?
    ensures DrawBound(draws, Stream(t), u.pc.draw)
  {}

  lemma {:induction false} CloserBound(s: State)
    requires DrawsOk(s.draws, s.issued) && |s.draws| == Drawn(s) && CloserOk(s) && s.closer.CloserDrawing?
    ensures DrawBound(s.draws, Terminal, s.closer.draw)
  {}

  /**
   A thread inside the loop: its guess has not overtaken the counter, every draw since it loaded the
   counter was made by another thread, and it has failed at most once for each of them. The number it
   leaves with is the one recorded for it.
   */
  lemma {:induction false} DrawLoop(streams: map<Tid, StreamKind>, run: seq<Action>, who: Drawer)
    requires ValidRun(streams, run) && DrawOf(Exec(streams, run), who).Some?
    ensures DrawBound(Exec(streams, run).draws, who, DrawOf(Exec(streams, run), who).value)
  {
    RunKeepsInv(streams, run);
    var s := Exec(streams, run);
    match who
    case Stream(t) =>
      assert s.closer.Waiting?;
      UploaderBound(s.draws, s.issued, t, s.uploaders[t]);
    case Terminal => CloserBound(s);
  }

  ghost predicate DistinctTickets(draws: seq<Ticket>) {
    forall i, j :: 0 <= i < j < |draws| ==> draws[i].number != draws[j].number
  }

  /** The numbers drawn in a run are pairwise distinct if and only if the counter has not wrapped around. */
  lemma {:induction false} TicketsDistinctIff(streams: map<Tid, StreamKind>, run: seq<Action>)
    requires ValidRun(streams, run)
    ensures var draws := Exec(streams, run).draws; DistinctTickets(draws) <==> |draws| <= WORD
  {
    TicketCounter(streams, run);
    var draws := Exec(streams, run).draws;
    if |draws| > WORD {
      assert draws[0].number == draws[WORD].number;
    } else {
      forall i, j | 0 <= i < j < |draws| ensures draws[i].number != draws[j].number {
        SmallTicket(i);
        SmallTicket(j);
      }
    }
  }

  lemma {:induction false} Extend(streams: map<Tid, StreamKind>, run: seq<Action>, a: Action)
    returns (longer: seq<Action>)
    requires ValidRun(streams, run) && Enabled(Exec(streams, run), a)
    ensures ValidRun(streams, longer) && Exec(streams, longer) == Do(Exec(streams, run), a)
  {
    longer := run + [a];
    assert longer[..|longer| - 1] == run;
  }

  /** One uploader reads a chunk, draws a number undisturbed and sends. */
  lemma {:induction false} SendOne(streams: map<Tid, StreamKind>, run: seq<Action>, t: Tid)
    returns (longer: seq<Action>)
    requires ValidRun(streams, run) && t in Exec(streams, run).uploaders && Exec(streams, run).uploaders[t].pc.Idle?
    ensures ValidRun(streams, longer)
    ensures t in Exec(streams, longer).uploaders && Exec(streams, longer).uploaders[t].pc.Idle?
    ensures |Exec(streams, longer).draws| == |Exec(streams, run).draws| + 1
  {
    var r1 := Extend(streams, run, ByUploader(t, Read([], true)));
    var r2 := Extend(streams, r1, ByUploader(t, Copy));
    var r3 := Extend(streams, r2, ByUploader(t, Load));
    var r4 := Extend(streams, r3, ByUploader(t, Cas));
    longer := Extend(streams, r4, ByUploader(t, SendOk));
  }

  /** Any number of draws can happen. */
  lemma {:induction false} RunOfDraws(streams: map<Tid, StreamKind>, t: Tid, n: nat) returns (run: seq<Action>)
    requires t in streams
    ensures ValidRun(streams, run) && t in Exec(streams, run).uploaders && Exec(streams, run).uploaders[t].pc.Idle?
    ensures |Exec(streams, run).draws| == n
    decreases n
  {
    if n == 0 {
      run := [];
    } else {
      var shorter := RunOfDraws(streams, t, n - 1);
      run := SendOne(streams, shorter, t);
    }
  }

  /** With any uploader at all there is a run that draws one number too many and repeats the first. */
  lemma {:induction false} WrapRepeats(streams: map<Tid, StreamKind>, t: Tid) returns (run: seq<Action>)
    requires t in streams
    ensures ValidRun(streams, run)
    ensures var draws := Exec(streams, run).draws;
      |draws| == WORD + 1 && draws[0].number == draws[WORD].number && !DistinctTickets(draws)
  {
    run := RunOfDraws(streams, t, WORD + 1);
    TicketCounter(streams, run);
  }

  function Insert(m: StreamMsg, s: seq<StreamMsg>): seq<StreamMsg> {
    if s == [] || m.ack <= s[0].ack then [m] + s else [s[0]] + Insert(m, s[1..])
  }

  /** What the hub does with the messages of a stream, whatever order they arrived in. */
  function SortByAck(s: seq<StreamMsg>): seq<StreamMsg> {
    if s == [] then [] else Insert(s[0], SortByAck(s[1..]))
  }

  /** The payloads of one kind. */
  function Payloads(s: seq<StreamMsg>, kind: StreamKind): seq<Chunk> {
    if s == [] then []
    else
      var m := s[|s| - 1];
      Payloads(s[..|s| - 1], kind) + if m.kind == kind then [m.payload] else []
  }

  ghost predicate Sorted(s: seq<StreamMsg>) {
    forall i, j :: 0 <= i < j < |s| ==> s[i].ack <= s[j].ack
  }

  ghost predicate StrictlySorted(s: seq<StreamMsg>) {
    forall i, j :: 0 <= i < j < |s| ==> s[i].ack < s[j].ack
  }

  lemma {:induction false} ConsSorted(m: StreamMsg, r: seq<StreamMsg>)
    requires Sorted(r) && forall x :: x in multiset(r) ==> m.ack <= x.ack
    ensures Sorted([m] + r) && multiset([m] + r) == multiset(r) + multiset{m}
  {
    forall j | 0 <= j < |r| ensures m.ack <= r[j].ack {
      assert r[j] in multiset(r);
    }
  }

  lemma {:induction false} HeadIsLeast(s: seq<StreamMsg>)
    requires s != [] && Sorted(s)
    ensures Sorted(s[1..]) && forall x :: x in multiset(s) ==> s[0].ack <= x.ack
  {}

  lemma {:induction false} InsertSorts(m: StreamMsg, s: seq<StreamMsg>)
    requires Sorted(s)
    ensures Sorted(Insert(m, s)) && multiset(Insert(m, s)) == multiset(s) + multiset{m}
    decreases |s|
  {
    if s == [] {
    } else {
      HeadIsLeast(s);
      HeadTail(s);
      if m.ack <= s[0].ack {
        ConsSorted(m, s);
      } else {
        InsertSorts(m, s[1..]);
        ConsSorted(s[0], Insert(m, s[1..]));
      }
    }
  }

  lemma {:induction false} SortSorts(s: seq<StreamMsg>)
    ensures Sorted(SortByAck(s)) && multiset(SortByAck(s)) == multiset(s)
    decreases |s|
  {
    if s != [] {
      SortSorts(s[1..]);
      InsertSorts(s[0], SortByAck(s[1..]));
      assert s == [s[0]] + s[1..];
    }
  }

  lemma {:induction false} SortedUnique(a: seq<StreamMsg>, b: seq<StreamMsg>)
    requires multiset(a) == multiset(b) && Sorted(a) && StrictlySorted(b)
    ensures a == b
    decreases |a|
  {
    SameLength(a, b);
    if a != [] {
      HeadsAgree(a, b);
      HeadTail(a);
      HeadTail(b);
      CancelHead(a[0], multiset(a[1..]), multiset(b[1..]));
      SortedUnique(a[1..], b[1..]);
    }
  }

  lemma {:induction false} SameLength(a: seq<StreamMsg>, b: seq<StreamMsg>)
    requires multiset(a) == multiset(b)
    ensures |a| == |b|
  {
    assert |a| == |multiset(a)| && |b| == |multiset(b)|;
  }

  lemma {:induction false} CancelHead(m: StreamMsg, x: multiset<StreamMsg>, y: multiset<StreamMsg>)
    requires multiset{m} + x == multiset{m} + y
    ensures x == y
  {
    assert x == (multiset{m} + x) - multiset{m} && y == (multiset{m} + y) - multiset{m};
  }

  lemma {:induction false} HeadTail(s: seq<StreamMsg>)
    requires s != []
    ensures multiset(s) == multiset{s[0]} + multiset(s[1..]) && s == [s[0]] + s[1..]
  {
    assert s == [s[0]] + s[1..];
  }

  lemma {:induction false} HeadsAgree(a: seq<StreamMsg>, b: seq<StreamMsg>)
    requires multiset(a) == multiset(b) && Sorted(a) && StrictlySorted(b) && a != [] && b != []
    ensures a[0] == b[0]
  {
    assert a[0] in multiset(b) && b[0] in multiset(a);
    var j :| 0 <= j < |b| && b[j] == a[0];
    var i :| 0 <= i < |a| && a[i] == b[0];
    assert j == 0;
  }

  lemma {:induction false} ExpectedSorted(issued: seq<Issue>)
    requires |issued| <= WORD
    ensures StrictlySorted(Expected(issued))
    ensures forall i :: 0 <= i < |Expected(issued)| ==> Expected(issued)[i].ack < |issued|
    decreases |issued|
  {
    if issued != [] {
      var n := |issued| - 1;
      ExpectedSorted(issued[..n]);
      ExpectedSplit(issued, n);
      SmallTicket(n);
      SortedAppend(Expected(issued[..n]), SentAt(issued[n], n), n);
    }
  }

  lemma {:induction false} SortedAppend(s: seq<StreamMsg>, last: seq<StreamMsg>, n: nat)
    requires StrictlySorted(s) && (forall i :: 0 <= i < |s| ==> s[i].ack < n)
    requires |last| <= 1 && (last != [] ==> last[0].ack == n)
    ensures StrictlySorted(s + last) && forall i :: 0 <= i < |s + last| ==> (s + last)[i].ack < n + 1
  {}

  lemma {:induction false} SortRecovers(wire: seq<StreamMsg>, issued: seq<Issue>)
    requires multiset(wire) == multiset(Expected(issued)) && |issued| <= WORD
    ensures SortByAck(wire) == Expected(issued)
  {
    SortSorts(wire);
    ExpectedSorted(issued);
    SortedUnique(SortByAck(wire), Expected(issued));
  }

  ghost predicate DistinctKinds(streams: map<Tid, StreamKind>) {
    && (forall t, u :: t in streams && u in streams && t != u ==> streams[t] != streams[u])
    && (forall t :: t in streams ==> streams[t] != ErrorReport)
  }

  lemma {:induction false} PayloadsAppend(s: seq<StreamMsg>, x: seq<StreamMsg>, kind: StreamKind)
    requires |x| <= 1
    ensures Payloads(s + x, kind) == Payloads(s, kind) + if |x| == 1 && x[0].kind == kind then [x[0].payload] else []
  {
    if |x| == 1 {
      assert (s + x)[..|s|] == s;
    } else {
      assert s + x == s;
    }
  }

  lemma {:induction false} ExpectedByKind(streams: map<Tid, StreamKind>, issued: seq<Issue>, t: Tid)
    requires DistinctKinds(streams) && t in streams
    requires KindsOk(streams, issued)
    ensures Payloads(Expected(issued), streams[t]) == DeliveredBy(issued, t)
    decreases |issued|
  {
    if issued != [] {
      var n := |issued| - 1;
      ExpectedByKind(streams, issued[..n], t);
      ExpectedSplit(issued, n);
      PayloadsAppend(Expected(issued[..n]), SentAt(issued[n], n), streams[t]);
      assert issued[n].kind == streams[t] <==> issued[n].tid == t;
    }
  }

  /**
   Stream reassembly: sorting what is on the wire by ack and keeping one kind gives exactly the chunks
   of that stream whose send succeeded, in the order they were read, for every interleaving and however
   the wire order differs from the order of the acks. No message refers to a read buffer, so later reads
   do not change it.
   */
  lemma {:induction false} Reassembly(streams: map<Tid, StreamKind>, run: seq<Action>, t: Tid)
    requires ValidRun(streams, run) && DistinctKinds(streams) && t in streams && |Exec(streams, run).issued| <= WORD
    ensures var s := Exec(streams, run);
      && t in s.uploaders
      && Payloads(SortByAck(s.wire), streams[t]) == s.uploaders[t].sent
      && s.uploaders[t].sent <= s.uploaders[t].read
      && (forall i :: 0 <= i < |s.uploaders[t].sent| ==> s.uploaders[t].sent[i].Owned?)
      && |s.uploaders[t].read| <= |s.uploaders[t].sent| + 1
  {
    RunKeepsInv(streams, run);
    var s := Exec(streams, run);
    assert UploaderOk(s.issued, t, s.uploaders[t]);
    SortRecovers(s.wire, s.issued);
    ExpectedByKind(streams, s.issued, t);
  }

  /** An uploader has stopped exactly when its reading ended or a send failed. */
  lemma {:induction false} StoppedIff(streams: map<Tid, StreamKind>, run: seq<Action>, t: Tid)
    requires ValidRun(streams, run) && t in streams
    ensures t in Exec(streams, run).uploaders
    ensures Exec(streams, run).uploaders[t].pc.Stopped? <==>
      ByUploader(t, Stop) in run || ByUploader(t, SendFails) in run
    decreases |run|
  {
    if run != [] {
      var past, a := run[..|run| - 1], run[|run| - 1];
      StoppedIff(streams, past, t);
      assert run == past + [a];
    }
  }

  lemma {:induction false} NothingMissing(issued: seq<Issue>, t: Tid)
    ensures |DeliveredBy(issued, t)| <= |IssuedBy(issued, t)|
    ensures |DeliveredBy(issued, t)| == |IssuedBy(issued, t)| ==>
      forall i :: 0 <= i < |issued| && issued[i].tid == t ==> issued[i].delivered
    decreases |issued|
  {
    if issued != [] {
      var n := |issued| - 1;
      NothingMissing(issued[..n], t);
      assert forall i :: 0 <= i < n ==> issued[..n][i] == issued[i];
    }
  }

  lemma {:induction false} AllExpected(issued: seq<Issue>)
    requires |issued| <= WORD && forall i :: 0 <= i < |issued| ==> issued[i].delivered
    ensures |Expected(issued)| == |issued|
    ensures forall i :: 0 <= i < |issued| ==> Expected(issued)[i] == StreamMsg(issued[i].kind, i, issued[i].payload)
    decreases |issued|
  {
    if issued != [] {
      var n := |issued| - 1;
      AllExpected(issued[..n]);
      ExpectedSplit(issued, n);
      assert forall i :: 0 <= i < n ==> issued[..n][i] == issued[i];
    }
  }

  lemma {:induction false} SortAppendLast(data: seq<StreamMsg>, sorted: seq<StreamMsg>, last: StreamMsg)
    requires multiset(data) == multiset(sorted) && StrictlySorted(sorted)
    requires forall i :: 0 <= i < |sorted| ==> sorted[i].ack < last.ack
    ensures SortByAck(data + [last]) == sorted + [last]
  {
    SortSorts(data + [last]);
    SortedUnique(SortByAck(data + [last]), sorted + [last]);
  }

  /**
   When every send succeeded, the data acks are exactly 0..n-1 and the terminal message, sent once all
   uploaders have stopped, has ack n and sorts last. It reports the error of the command if there is one, and
   is an empty data message otherwise.
   */
  lemma {:induction false} CompleteStream(streams: map<Tid, StreamKind>, run: seq<Action>)
    requires ValidRun(streams, run) && Exec(streams, run).closer.Closed?
    requires var s := Exec(streams, run);
      |s.issued| < WORD && forall t :: t in s.uploaders ==> s.uploaders[t].sent == s.uploaders[t].read
    ensures var s := Exec(streams, run); var n := |s.issued|;
      && |s.wire| == n && s.last.Some? && s.last.value.ack == n
      && SortByAck(s.wire + [s.last.value]) == SortByAck(s.wire) + [s.last.value]
      && |SortByAck(s.wire)| == n && (forall i :: 0 <= i < n ==> SortByAck(s.wire)[i].ack == i)
      && (exists k, e :: EndsWith(run, k, e))
      && (forall k, e :: EndsWith(run, k, e) ==>
            s.last.value == if e.Some? then StreamMsg(ErrorReport, n, Owned(e.value))
                            else StreamMsg(DataOutput, n, Owned([])))
  {
    SomeEnd(streams, run);
    forall k, e | EndsWith(run, k, e)
      ensures Exec(streams, run).last == Some(TerminalMsg(e, |Exec(streams, run).issued| % WORD))
    {
      EndStays(streams, run, k, e);
    }
    RunKeepsInv(streams, run);
    var s := Exec(streams, run);
    AllDelivered(streams, s);
    SmallTicket(|s.issued|);
    CompleteWire(s.wire, s.issued, s.last.value);
  }

  /** Step k sends the terminal message; `e` is the marshalled error of the command, if it failed. */
  predicate EndsWith(run: seq<Action>, k: nat, e: Option<seq<nat>>) {
    k < |run| && run[k] == CloserSend(e)
  }

  function TerminalMsg(e: Option<seq<nat>>, ack: nat): StreamMsg {
    match e
    case Some(error) => StreamMsg(ErrorReport, ack, Owned(error))
    case None => StreamMsg(DataOutput, ack, Owned([]))
  }

  lemma {:induction false} SomeEnd(streams: map<Tid, StreamKind>, run: seq<Action>)
    requires ValidRun(streams, run) && Exec(streams, run).closer.Closed?
    ensures exists k, e :: EndsWith(run, k, e)
    decreases |run|
  {
    var n := |run| - 1;
    if run[n].CloserSend? {
      assert EndsWith(run, n, run[n].error);
    } else {
      SomeEnd(streams, run[..n]);
      var k, e :| EndsWith(run[..n], k, e);
      assert EndsWith(run, k, e);
    }
  }

  /** The terminal message is sent once and for all. */
  lemma {:induction false} EndStays(streams: map<Tid, StreamKind>, run: seq<Action>, k: nat, e: Option<seq<nat>>)
    requires ValidRun(streams, run) && EndsWith(run, k, e)
    ensures var s := Exec(streams, run); s.closer.Closed? && s.last == Some(TerminalMsg(e, |s.issued| % WORD))
    decreases |run|
  {
    var n := |run| - 1;
    RunKeepsInv(streams, run[..n]);
    if k < n {
      EndStays(streams, run[..n], k, e);
    }
  }

  lemma {:induction false} SmallTicket(n: nat)
    requires n < WORD
    ensures n % WORD == n
  {}

  lemma {:induction false} AllDelivered(streams: map<Tid, StreamKind>, s: State)
    requires Inv(streams, s) && s.closer.Closed?
    requires forall t :: t in s.uploaders ==> s.uploaders[t].sent == s.uploaders[t].read
    ensures forall i :: 0 <= i < |s.issued| ==> s.issued[i].delivered
  {
    forall i | 0 <= i < |s.issued| ensures s.issued[i].delivered {
      var t := s.issued[i].tid;
      assert t in s.uploaders && s.uploaders[t].pc.Stopped? && UploaderOk(s.issued, t, s.uploaders[t]);
      NothingMissing(s.issued, t);
    }
  }

  lemma {:induction false} CompleteWire(wire: seq<StreamMsg>, issued: seq<Issue>, last: StreamMsg)
    requires multiset(wire) == multiset(Expected(issued)) && |issued| < WORD && last.ack == |issued|
    requires forall i :: 0 <= i < |issued| ==> issued[i].delivered
    ensures |wire| == |issued| && SortByAck(wire + [last]) == SortByAck(wire) + [last]
    ensures |SortByAck(wire)| == |issued| && forall i :: 0 <= i < |issued| ==> SortByAck(wire)[i].ack == i
  {
    AllExpected(issued);
    ExpectedSorted(issued);
    SortRecovers(wire, issued);
    SortAppendLast(wire, Expected(issued), last);
    assert |wire| == |multiset(wire)| == |multiset(Expected(issued))|;
  }
}
