/**
 The hub side of one extension session as a step system: any number of concurrent `sendCmd`
 callers, the timer goroutine, the receive goroutine and the encoder share the wait table, the
 timeout queue and the command channel. Every compare-and-swap, `sync.Map` operation, queue
 operation and channel operation is one step.

 Assumed of the timeout queue: an offered key stays queued until it expires or is removed, an
 offer can fail only once the session is cancelled, and an expired key is handed out once. Assumed of the
 table's range: it visits every key that stays in the table, and perhaps keys stored meanwhile.
 */
module Correlator {
  import opened Messages
  import opened WaitValue

  type CallId = nat

  datatype Request = Request(cmd: Cmd, wait: bool)

  /** Every `sendCmd` call of a session, in no particular order; a call is known by its index. */
  type Workload = seq<Request>

  datatype CallPc =
    | Begin                 // about to LoadOrStore
    | Rejecting(st: Stage)  // key taken: closing its own, unpublished wait value
    | Offering              // about to queue its timeout
    | Writing               // selecting between cancellation and the command channel
    | Awaiting              // selecting between cancellation and its reply channel
    | Removing              // deferred cleanup: remove the timeout
    | Closing(st: Stage)    // deferred cleanup: close the wait value; at Fin, delete the entry
    | Returned

  datatype Result = Pending | Duplicate | Cancelled | TimedOut | Reply(msg: Msg) | NoReply

  datatype Call = Call(pc: CallPc, slot: Slot, res: Result)

  datatype TimerPc =
    | TIdle
    | TLoading(key: Key)
    | TMissed(key: Key)           // loaded nothing; will delete
    | TSweeping(todo: set<Key>)   // cancelled: ranging over the table, with these keys still to visit
    | TClosing(key: Key, call: CallId, st: Stage, sweep: Option<set<Key>>)  // at Fin, will delete and go back
    | TStopped

  datatype RecvPc =
    | RIdle
    | RChecking(msg: Msg)
    | RLooking(msg: Msg)
    | RSending(msg: Msg, call: CallId, st: Stage)
    | RStopped

  /** An out-of-band message is recorded with the keys that were waited for when it was looked up. */
  datatype Fate = OutOfBand(waited: set<Key>) | Delivered(call: CallId) | DroppedClosed(call: CallId) | DroppedCancelled

  datatype Entry = Entry(msg: Msg, fate: Fate)

  /** A call has offered its timeout; a timeout with this key has expired. */
  datatype Timeout = Armed(call: CallId) | Expired(key: Key)

  /** The timeout queue: keys waiting to expire, expired keys not yet taken, and what has happened so far. */
  datatype Queue = Queue(queued: multiset<Key>, fired: multiset<Key>, history: seq<Timeout>)

  /** The way out: the command channel, the keepalive channel and what the encoder has written. */
  datatype Output = Output(cmdCh: Option<Cmd>, pingReady: bool, wire: seq<Cmd>)

  datatype State = State(
    calls: map<CallId, Call>,
    table: map<Key, CallId>,
    queue: Queue,
    timer: TimerPc,
    recv: RecvPc,
    cancelled: bool,
    out: Output,
    issued: seq<CallId>,  // calls whose command entered the command channel, in order
    received: seq<Msg>,   // everything the decoder has produced
    log: seq<Entry>,      // where each received message ended up
    panicked: bool)

  const INIT := State(map[], map[], Queue(multiset{}, multiset{}, []), TIdle, RIdle, false,
                      Output(None, false, []), [], [], [], false)

  datatype CallerAct =
    | Start | LoadOrStore | Reject | Offer | OfferStopped | WriteCmd | WriteCancelled
    | TakeReply | AwaitCancelled | RemoveTimer | CloseOwn | DeleteEntry

  datatype TimerAct =
    | Expire(key: Key) | Take(key: Key) | LoadEntry | CloseLoaded | DeleteLoaded
    | Keepalive | Sweep | Visit(key: Key) | StopTimer

  datatype RecvAct =
    | Decode(msg: Msg) | CheckCancelled | LookUp | SendOn | SendCancelled | StopRecv

  datatype EncoderAct = EncodeCmd | EncodePing

  datatype Action =
    | ByCaller(c: CallId, ca: CallerAct)
    | ByTimer(ta: TimerAct)
    | ByReceiver(ra: RecvAct)
    | ByEncoder(ea: EncoderAct)
    | CancelSession

  function KeyOf(w: Workload, c: CallId): Key
    requires c < |w|
  {
    CmdKey(w[c].cmd)
  }

  // ---------------------------------------------------------------------------------------
  // sendCmd
  // ---------------------------------------------------------------------------------------

  predicate CallerEnabled(w: Workload, s: State, c: CallId, a: CallerAct) {
    && c < |w|
    && if a.Start? then c !in s.calls else c in s.calls && CallReady(s.calls[c], s.cancelled, s.out, a)
  }

  predicate CallReady(call: Call, cancelled: bool, out: Output, a: CallerAct) {
    match a
    case Start => true
    case LoadOrStore => call.pc.Begin?
    case Reject => call.pc.Rejecting? && LockReady(call.slot, call.pc.st)
    case Offer => call.pc.Offering?
    case OfferStopped => call.pc.Offering? && cancelled
    case WriteCmd => call.pc.Writing? && out.cmdCh.None?
    case WriteCancelled => call.pc.Writing? && cancelled
    case TakeReply => call.pc.Awaiting? && (call.slot.buf.Some? || !call.slot.chOpen)
    case AwaitCancelled => call.pc.Awaiting? && cancelled
    case RemoveTimer => call.pc.Removing?
    case CloseOwn => call.pc.Closing? && LockReady(call.slot, call.pc.st)
    case DeleteEntry => call.pc.Closing? && call.pc.st.Fin?
  }

  /** What an action does to the calling goroutine and its own wait value. */
  function CallAfter(call: Call, wait: bool, taken: bool, a: CallerAct): Call
    requires a.Reject? ==> call.pc.Rejecting? && LockReady(call.slot, call.pc.st)
    requires a.CloseOwn? ==> call.pc.Closing? && LockReady(call.slot, call.pc.st)
  {
    match a
    case Start => Call(if wait then Begin else Writing, FRESH, Pending)
    case LoadOrStore => call.(pc := if taken then Rejecting(Spin) else Offering)
    case Reject =>
      (match CloseStep(call.slot, call.pc.st)
       case Panic => call
       case Next(slot, st) => if st.Fin? then Call(Returned, slot, Duplicate) else Call(Rejecting(st), slot, call.res))
    case Offer => call.(pc := Writing)
    case OfferStopped => call.(pc := Writing)
    case WriteCmd => if wait then call.(pc := Awaiting) else call.(pc := Returned, res := NoReply)
    case WriteCancelled => call.(pc := if wait then Removing else Returned, res := Cancelled)
    case TakeReply =>
      if call.slot.buf.Some? then Call(Removing, call.slot.(buf := None), Reply(call.slot.buf.value))
      else call.(pc := Removing, res := TimedOut)
    case AwaitCancelled => call.(pc := Removing, res := Cancelled)
    case RemoveTimer => call.(pc := Closing(Spin))
    case CloseOwn =>
      (match CloseStep(call.slot, call.pc.st)
       case Panic => call
       case Next(slot, st) => Call(Closing(st), slot, call.res))
    case DeleteEntry => call.(pc := Returned)
  }

  /** `taken` tells LoadOrStore that the key is in use: the table is then left alone. */
  function TableAfter(table: map<Key, CallId>, key: Key, c: CallId, a: CallerAct): map<Key, CallId> {
    if a.LoadOrStore? && key !in table then table[key := c]
    else if a.DeleteEntry? then table - {key}
    else table
  }

  function QueueAfter(q: Queue, key: Key, c: CallId, a: CallerAct): Queue {
    if a.Offer? then q.(queued := q.queued + multiset{key}, history := q.history + [Armed(c)])
    else if a.RemoveTimer? then q.(queued := q.queued[key := 0])
    else q
  }

  predicate CallPanics(call: Call, a: CallerAct)
    requires a.Reject? ==> call.pc.Rejecting? && LockReady(call.slot, call.pc.st)
    requires a.CloseOwn? ==> call.pc.Closing? && LockReady(call.slot, call.pc.st)
  {
    (a.Reject? || a.CloseOwn?) && CloseStep(call.slot, call.pc.st).Panic?
  }

  const NEW_CALL := Call(Begin, FRESH, Pending)

  function DoCaller(w: Workload, s: State, c: CallId, a: CallerAct): State
    requires CallerEnabled(w, s, c, a)
  {
    var key := KeyOf(w, c);
    var call := if a.Start? then NEW_CALL else s.calls[c];
    s.(calls := s.calls[c := CallAfter(call, w[c].wait, key in s.table, a)],
       table := TableAfter(s.table, key, c, a),
       queue := QueueAfter(s.queue, key, c, a),
       out := if a.WriteCmd? then s.out.(cmdCh := Some(w[c].cmd)) else s.out,
       issued := if a.WriteCmd? then s.issued + [c] else s.issued,
       panicked := CallPanics(call, a))
  }

  // ---------------------------------------------------------------------------------------
  // The timer goroutine and the timeout queue
  // ---------------------------------------------------------------------------------------

  predicate TimerEnabled(s: State, a: TimerAct) {
    match a
    case Expire(k) => k in s.queue.queued
    case Take(k) => s.timer.TIdle? && k in s.queue.fired
    case LoadEntry => s.timer.TLoading?
    case CloseLoaded =>
      s.timer.TClosing? && s.timer.call in s.calls && LockReady(s.calls[s.timer.call].slot, s.timer.st)
    case DeleteLoaded => s.timer.TMissed? || (s.timer.TClosing? && s.timer.st.Fin?)
    case Keepalive => s.timer.TIdle? && !s.out.pingReady
    case Sweep => s.timer.TIdle? && s.cancelled
    case Visit(k) => s.timer.TSweeping? && k in s.table
    case StopTimer => s.timer.TSweeping? && s.timer.todo !! s.table.Keys
  }

  function TimerAfter(s: State, a: TimerAct): TimerPc
    requires TimerEnabled(s, a)
  {
    match a
    case Expire(_) => s.timer
    case Take(k) => TLoading(k)
    case LoadEntry =>
      var k := s.timer.key;
      if k in s.table then TClosing(k, s.table[k], Spin, None) else TMissed(k)
    case CloseLoaded =>
      (match CloseStep(s.calls[s.timer.call].slot, s.timer.st)
       case Panic => s.timer
       case Next(_, st) => s.timer.(st := st))
    case DeleteLoaded => if s.timer.TClosing? && s.timer.sweep.Some? then TSweeping(s.timer.sweep.value) else TIdle
    case Keepalive => s.timer
    case Sweep => TSweeping(s.table.Keys)
    case Visit(k) => TClosing(k, s.table[k], Spin, Some(s.timer.todo - {k}))
    case StopTimer => TStopped
  }

  function ExpiryAfter(q: Queue, a: TimerAct): Queue {
    match a
    case Expire(k) => Queue(q.queued - multiset{k}, q.fired + multiset{k}, q.history + [Expired(k)])
    case Take(k) => q.(fired := q.fired - multiset{k})
    case StopTimer => q.(queued := multiset{})
    case _ => q
  }

  /** The calls after a goroutine other than the caller has moved the wait value of `c` on. */
  function WithSlot(calls: map<CallId, Call>, c: CallId, o: Outcome): map<CallId, Call>
    requires c in calls
  {
    if o.Next? then calls[c := calls[c].(slot := o.slot)] else calls
  }

  function DoTimer(s: State, a: TimerAct): State
    requires TimerEnabled(s, a)
  {
    var s1 := s.(timer := TimerAfter(s, a), queue := ExpiryAfter(s.queue, a));
    match a
    case CloseLoaded =>
      var o := CloseStep(s.calls[s.timer.call].slot, s.timer.st);
      s1.(calls := WithSlot(s.calls, s.timer.call, o), panicked := o.Panic?)
    case DeleteLoaded => s1.(table := s.table - {s.timer.key})
    case Keepalive => s1.(out := s.out.(pingReady := true))
    case _ => s1
  }

  // ---------------------------------------------------------------------------------------
  // The receive goroutine
  // ---------------------------------------------------------------------------------------

  predicate RecvEnabled(s: State, a: RecvAct) {
    match a
    case Decode(_) => s.recv.RIdle?
    case CheckCancelled => s.recv.RChecking?
    case LookUp => s.recv.RLooking?
    case SendOn =>
      s.recv.RSending? && s.recv.call in s.calls && SendReady(s.calls[s.recv.call].slot, s.recv.st)
    case SendCancelled => s.recv.RSending? && s.recv.st.Act? && s.cancelled
    case StopRecv => s.recv.RIdle?
  }

  function RecvAfter(s: State, a: RecvAct): RecvPc
    requires RecvEnabled(s, a)
  {
    match a
    case Decode(m) => RChecking(m)
    case CheckCancelled => if s.cancelled then RStopped else RLooking(s.recv.msg)
    case LookUp =>
      var m := s.recv.msg;
      if MsgKey(m) in s.table then RSending(m, s.table[MsgKey(m)], Spin) else RIdle
    case SendOn =>
      (match SendStep(s.calls[s.recv.call].slot, s.recv.st, s.recv.msg)
       case Panic => s.recv
       case Next(_, st) => if st.Fin? then RIdle else s.recv.(st := st))
    case SendCancelled => s.recv.(st := Unlock)
    case StopRecv => RStopped
  }

  /** The step at which the fate of the message in hand is settled, if this is one. */
  function Settles(s: State, a: RecvAct): Option<Fate>
    requires RecvEnabled(s, a)
  {
    match a
    case CheckCancelled => if s.cancelled then Some(DroppedCancelled) else None
    case LookUp => if MsgKey(s.recv.msg) in s.table then None else Some(OutOfBand(s.table.Keys))
    case SendOn =>
      var c := s.recv.call;
      (match SendStep(s.calls[c].slot, s.recv.st, s.recv.msg)
       case Panic => None
       case Next(_, st) =>
         if s.recv.st.Test? && st.Unlock? then Some(DroppedClosed(c))
         else if s.recv.st.Act? then Some(Delivered(c))
         else None)
    case SendCancelled => Some(DroppedCancelled)
    case _ => None
  }

  function DoRecv(s: State, a: RecvAct): State
    requires RecvEnabled(s, a)
  {
    var fate := Settles(s, a);
    var s1 := s.(recv := RecvAfter(s, a),
                 log := if fate.Some? then s.log + [Entry(s.recv.msg, fate.value)] else s.log);
    match a
    case Decode(m) => s1.(received := s.received + [m])
    case SendOn =>
      var o := SendStep(s.calls[s.recv.call].slot, s.recv.st, s.recv.msg);
      s1.(calls := WithSlot(s.calls, s.recv.call, o), panicked := o.Panic?)
    case _ => s1
  }

  // ---------------------------------------------------------------------------------------
  // The encoder goroutine
  // ---------------------------------------------------------------------------------------

  predicate EncoderEnabled(o: Output, a: EncoderAct) {
    match a
    case EncodeCmd => o.cmdCh.Some?
    case EncodePing => o.pingReady
  }

  function OutputAfter(o: Output, a: EncoderAct): Output
    requires EncoderEnabled(o, a)
  {
    match a
    case EncodeCmd => o.(cmdCh := None, wire := o.wire + [o.cmdCh.value])
    case EncodePing => o.(pingReady := false, wire := o.wire + [PING])
  }

  // ---------------------------------------------------------------------------------------
  // Runs
  // ---------------------------------------------------------------------------------------

  predicate Enabled(w: Workload, s: State, a: Action) {
    && !s.panicked
    && match a
       case ByCaller(c, ca) => CallerEnabled(w, s, c, ca)
       case ByTimer(ta) => TimerEnabled(s, ta)
       case ByReceiver(ra) => RecvEnabled(s, ra)
       case ByEncoder(ea) => EncoderEnabled(s.out, ea)
       case CancelSession => true
  }

  function Do(w: Workload, s: State, a: Action): State
    requires Enabled(w, s, a)
  {
    match a
    case ByCaller(c, ca) => DoCaller(w, s, c, ca)
    case ByTimer(ta) => DoTimer(s, ta)
    case ByReceiver(ra) => DoRecv(s, ra)
    case ByEncoder(ea) => s.(out := OutputAfter(s.out, ea))
    case CancelSession => s.(cancelled := true)
  }

  /** A run is the sequence of its actions, from the start of the session. */
  ghost predicate ValidRun(w: Workload, run: seq<Action>)
    decreases |run|, 0
  {
    run == [] || (var past := run[..|run| - 1]; ValidRun(w, past) && Enabled(w, Exec(w, past), run[|run| - 1]))
  }

  ghost function Exec(w: Workload, run: seq<Action>): State
    requires ValidRun(w, run)
    decreases |run|, 1
  {
    if run == [] then INIT else Do(w, Exec(w, run[..|run| - 1]), run[|run| - 1])
  }

  ghost predicate Reachable(w: Workload, s: State) {
    exists run :: ValidRun(w, run) && Exec(w, run) == s
  }

  lemma {:induction false} ReachStep(w: Workload, s: State, a: Action)
    requires Reachable(w, s) && Enabled(w, s, a)
    ensures Reachable(w, Do(w, s, a))
  {
    var run :| ValidRun(w, run) && Exec(w, run) == s;
    var longer := run + [a];
    assert longer[..|longer| - 1] == run;
    assert ValidRun(w, longer) && Exec(w, longer) == Do(w, s, a);
  }

  lemma {:induction false} InitReachable(w: Workload)
    ensures Reachable(w, INIT)
  {
    assert ValidRun(w, []) && Exec(w, []) == INIT;
  }

  /** The hub gets from `s` to `s'` on its own, without another message arriving. */
  ghost predicate Path(w: Workload, s: State, s': State) {
    exists acts :: Leads(w, s, acts, s')
  }

  predicate Decodes(a: Action) {
    a.ByReceiver? && a.ra.Decode?
  }

  ghost predicate Leads(w: Workload, s: State, acts: seq<Action>, s': State)
    decreases |acts|
  {
    if acts == [] then s == s'
    else Enabled(w, s, acts[0]) && !Decodes(acts[0]) && Leads(w, Do(w, s, acts[0]), acts[1..], s')
  }

  lemma {:induction false} LeadsOn(w: Workload, s: State, acts: seq<Action>, s1: State, a: Action)
    requires Leads(w, s, acts, s1) && Enabled(w, s1, a) && !Decodes(a)
    ensures Leads(w, s, acts + [a], Do(w, s1, a))
    decreases |acts|
  {
    if acts == [] {
      assert Leads(w, Do(w, s1, a), [], Do(w, s1, a));
    } else {
      LeadsOn(w, Do(w, s, acts[0]), acts[1..], s1, a);
      assert (acts + [a])[1..] == acts[1..] + [a];
    }
  }

  lemma {:induction false} PathStart(w: Workload, s: State)
    ensures Path(w, s, s)
  {
    assert Leads(w, s, [], s);
  }

  /** One more step at the end of a path. */
  lemma {:induction false} PathStep(w: Workload, s: State, s1: State, a: Action) returns (s2: State)
    requires Path(w, s, s1) && Enabled(w, s1, a) && !Decodes(a)
    ensures s2 == Do(w, s1, a) && Path(w, s, s2)
  {
    var acts :| Leads(w, s, acts, s1);
    LeadsOn(w, s, acts, s1, a);
    s2 := Do(w, s1, a);
  }

  lemma {:induction false} ReachLead(w: Workload, s: State, acts: seq<Action>, s': State)
    requires Reachable(w, s) && Leads(w, s, acts, s')
    ensures Reachable(w, s')
    decreases |acts|
  {
    if acts != [] {
      ReachStep(w, s, acts[0]);
      ReachLead(w, Do(w, s, acts[0]), acts[1..], s');
    }
  }

  lemma {:induction false} ReachPath(w: Workload, s: State, s': State)
    requires Reachable(w, s) && Path(w, s, s')
    ensures Reachable(w, s')
  {
    var acts :| Leads(w, s, acts, s');
    ReachLead(w, s, acts, s');
  }
}
