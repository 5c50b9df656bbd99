/**
 What holds in every reachable state of a hub session, whatever keys the callers use: wait values
 are locked by at most one goroutine, no channel operation panics, table entries belong to
 in-flight calls, and every received message is accounted for exactly once.
 */
module CorrelatorSafety {
  import opened Messages
  import opened WaitValue
  import opened Correlator

  // ---------------------------------------------------------------------------------------
  // Locks: the caller, the timer and the receiver can meet on one wait value
  // ---------------------------------------------------------------------------------------

  function CallerStage(pc: CallPc): Stage {
    match pc
    case Rejecting(st) => st
    case Closing(st) => st
    case _ => Fin
  }

  function TimerStage(t: TimerPc, c: CallId): Stage {
    if t.TClosing? && t.call == c then t.st else Fin
  }

  function RecvStage(r: RecvPc, c: CallId): Stage {
    if r.RSending? && r.call == c then r.st else Fin
  }

  function Holders(caller: Stage, timer: Stage, recv: Stage): nat {
    (if InCritical(caller) then 1 else 0) + (if InCritical(timer) then 1 else 0) + if InCritical(recv) then 1 else 0
  }

  /** One wait value, seen with the stages of the two possible closers and of the sender. */
  predicate SlotOk(sl: Slot, caller: Stage, timer: Stage, recv: Stage) {
    && Holders(caller, timer, recv) == (if sl.working then 1 else 0)
    && (caller.Act? || timer.Act? <==> sl.closed && sl.chOpen)
    && (!sl.chOpen ==> sl.closed)
    && (recv.Act? ==> !sl.closed)
  }

  ghost predicate LockInv(s: State) {
    forall c :: c in s.calls ==>
      SlotOk(s.calls[c].slot, CallerStage(s.calls[c].pc), TimerStage(s.timer, c), RecvStage(s.recv, c))
  }

  lemma CallerCloseOk(sl: Slot, caller: Stage, timer: Stage, recv: Stage)
    requires SlotOk(sl, caller, timer, recv) && LockReady(sl, caller)
    ensures CloseStep(sl, caller).Next?
    ensures var out := CloseStep(sl, caller); SlotOk(out.slot, out.st, timer, recv)
  {}

  lemma TimerCloseOk(sl: Slot, caller: Stage, timer: Stage, recv: Stage)
    requires SlotOk(sl, caller, timer, recv) && LockReady(sl, timer)
    ensures CloseStep(sl, timer).Next?
    ensures var out := CloseStep(sl, timer); SlotOk(out.slot, caller, out.st, recv)
  {}

  lemma RecvSendOk(sl: Slot, caller: Stage, timer: Stage, recv: Stage, m: Msg)
    requires SlotOk(sl, caller, timer, recv) && SendReady(sl, recv)
    ensures SendStep(sl, recv, m).Next?
    ensures var out := SendStep(sl, recv, m); SlotOk(out.slot, caller, timer, out.st)
  {}

  // ---------------------------------------------------------------------------------------
  // Ownership of table entries
  // ---------------------------------------------------------------------------------------

  /** Between its LoadOrStore and its own Delete. */
  predicate Registered(pc: CallPc) {
    pc.Offering? || pc.Writing? || pc.Awaiting? || pc.Removing? || pc.Closing?
  }

  /** The wait value has been in the table. */
  predicate Published(call: Call) {
    !call.pc.Begin? && !call.pc.Rejecting? && !call.res.Duplicate?
  }

  /** `c` is a call that waits, or has waited, for the reply with this key. */
  predicate Waits(w: Workload, s: State, c: CallId, k: Key) {
    c in s.calls && c < |w| && w[c].wait && KeyOf(w, c) == k && Published(s.calls[c])
  }

  /** A call that waits for nothing never touches its wait value. */
  predicate KindOk(call: Call, wait: bool) {
    if wait then !call.res.NoReply?
    else (call.pc.Writing? || call.pc.Returned?) && call.slot == FRESH && !call.res.Duplicate?
  }

  ghost predicate OwnershipInv(w: Workload, s: State) {
    && (forall c :: c in s.calls ==> c < |w| && KindOk(s.calls[c], w[c].wait))
    && (forall k :: k in s.table ==> Waits(w, s, s.table[k], k) && Registered(s.calls[s.table[k]].pc))
    && (s.timer.TClosing? ==> Waits(w, s, s.timer.call, s.timer.key))
    && (s.recv.RSending? ==> Waits(w, s, s.recv.call, MsgKey(s.recv.msg)))
    && (s.timer.TSweeping? || s.timer.TStopped? || (s.timer.TClosing? && s.timer.sweep.Some?) ==> s.cancelled)
  }

  // ---------------------------------------------------------------------------------------
  // Where messages end up
  // ---------------------------------------------------------------------------------------

  /** The message the receive goroutine has decoded but not yet disposed of. */
  function InHand(r: RecvPc): seq<Msg> {
    match r
    case RChecking(m) => [m]
    case RLooking(m) => [m]
    case RSending(m, _, st) => if st.Unlock? || st.Fin? then [] else [m]
    case _ => []
  }

  function Settled(log: seq<Entry>): seq<Msg> {
    seq(|log|, i requires 0 <= i < |log| => log[i].msg)
  }

  /** The messages put into the reply channel of `c`, in order. */
  function Deliveries(log: seq<Entry>, c: CallId): seq<Msg> {
    if log == [] then []
    else
      var last := log[|log| - 1];
      Deliveries(log[..|log| - 1], c) + if last.fate == Delivered(c) then [last.msg] else []
  }

  lemma {:induction false} DeliveriesAppend(log: seq<Entry>, e: Entry, c: CallId)
    ensures Deliveries(log + [e], c) == Deliveries(log, c) + if e.fate == Delivered(c) then [e.msg] else []
  {
    assert (log + [e])[..|log|] == log;
  }

  function Taken(r: Result): seq<Msg> {
    if r.Reply? then [r.msg] else []
  }

  /** What has gone through the reply channel of a call: the message it took, then the one still buffered. */
  function InChannel(call: Call): seq<Msg> {
    Taken(call.res) + AsSeq(call.slot.buf)
  }

  ghost predicate FateOk(w: Workload, s: State, e: Entry) {
    match e.fate
    case OutOfBand(waited) => MsgKey(e.msg) !in waited
    case Delivered(c) => Waits(w, s, c, MsgKey(e.msg))
    case DroppedClosed(c) => Waits(w, s, c, MsgKey(e.msg)) && s.calls[c].slot.closed
    case DroppedCancelled => s.cancelled
  }

  ghost predicate DispositionInv(w: Workload, s: State) {
    && s.received == Settled(s.log) + InHand(s.recv)
    && (forall i :: 0 <= i < |s.log| ==> FateOk(w, s, s.log[i]))
  }

  /** The reply channel conserves messages: delivered is taken plus still buffered. */
  ghost predicate ChannelInv(s: State) {
    forall c :: Deliveries(s.log, c) == if c in s.calls then InChannel(s.calls[c]) else []
  }

  ghost predicate ResultInv(s: State) {
    forall c :: c in s.calls ==> ResultOk(s.calls[c], s.cancelled)
  }

  predicate ResultOk(call: Call, cancelled: bool) {
    && (call.res.Pending? <==> !(call.pc.Removing? || call.pc.Closing? || call.pc.Returned?))
    && (call.res.TimedOut? ==> !call.slot.chOpen && call.slot.buf.None?)
    && (call.res.Cancelled? ==> cancelled)
    && (!Published(call) ==> call.slot.buf.None?)
  }

  // ---------------------------------------------------------------------------------------
  // What was sent
  // ---------------------------------------------------------------------------------------

  function Commands(w: Workload, issued: seq<CallId>): seq<Cmd>
    requires forall i :: 0 <= i < |issued| ==> issued[i] < |w|
  {
    seq(|issued|, i requires 0 <= i < |issued| => w[issued[i]].cmd)
  }

  predicate Written(pc: CallPc) {
    pc.Awaiting? || pc.Removing? || pc.Closing? || pc.Returned?
  }

  ghost predicate IssueInv(w: Workload, s: State) {
    && (forall i :: 0 <= i < |s.issued| ==>
          s.issued[i] < |w| && s.issued[i] in s.calls && Written(s.calls[s.issued[i]].pc))
    && (forall i, j :: 0 <= i < j < |s.issued| ==> s.issued[i] != s.issued[j])
    && NonPing(Commands(w, s.issued)) == NonPing(s.out.wire) + NonPing(AsSeq(s.out.cmdCh))
  }

  // ---------------------------------------------------------------------------------------
  // Preservation
  // ---------------------------------------------------------------------------------------

  ghost predicate Inv(w: Workload, s: State) {
    && !s.panicked
    && OwnershipInv(w, s)
    && LockInv(s)
    && DispositionInv(w, s)
    && ChannelInv(s)
    && ResultInv(s)
    && IssueInv(w, s)
  }

  /** What a caller's step keeps of its own call. */
  lemma {:induction false} CallKindOk(call: Call, wait: bool, taken: bool, cancelled: bool, out: Output, a: CallerAct)
    requires CallReady(call, cancelled, out, a) && (if a.Start? then call == NEW_CALL else KindOk(call, wait))
    requires ResultOk(call, cancelled)
    ensures var call' := CallAfter(call, wait, taken, a);
      KindOk(call', wait) && (Published(call) && !a.Start? ==> Published(call'))
  {}

  lemma {:induction false} TableCaller(w: Workload, s: State, c: CallId, a: CallerAct)
    requires OwnershipInv(w, s) && ResultInv(s) && CallerEnabled(w, s, c, a)
    ensures var s' := DoCaller(w, s, c, a);
      forall k :: k in s'.table ==> Waits(w, s', s'.table[k], k) && Registered(s'.calls[s'.table[k]].pc)
  {
    var s' := DoCaller(w, s, c, a);
    assert c in s.calls ==> ResultOk(s.calls[c], s.cancelled);
    forall k | k in s'.table
      ensures Waits(w, s', s'.table[k], k) && Registered(s'.calls[s'.table[k]].pc)
    {
      if k in s.table {
        assert Waits(w, s, s.table[k], k) && Registered(s.calls[s.table[k]].pc);
      }
    }
  }

  /** A caller's step keeps its own call in order, and whoever has waited for a key has still waited for it. */
  lemma {:induction false} KindCaller(w: Workload, s: State, c: CallId, a: CallerAct)
    requires CallerEnabled(w, s, c, a)
    requires c in s.calls ==> KindOk(s.calls[c], w[c].wait) && ResultOk(s.calls[c], s.cancelled)
    ensures var s' := DoCaller(w, s, c, a);
      KindOk(s'.calls[c], w[c].wait) && forall d, k :: Waits(w, s, d, k) ==> Waits(w, s', d, k)
  {
    var call := if a.Start? then NEW_CALL else s.calls[c];
    CallKindOk(call, w[c].wait, KeyOf(w, c) in s.table, s.cancelled, s.out, a);
  }

  lemma {:induction false} OwnershipCaller(w: Workload, s: State, c: CallId, a: CallerAct)
    requires OwnershipInv(w, s) && ResultInv(s) && CallerEnabled(w, s, c, a)
    ensures OwnershipInv(w, DoCaller(w, s, c, a))
  {
    TableCaller(w, s, c, a);
    KindCaller(w, s, c, a);
  }

  lemma {:induction false} OwnershipTimer(w: Workload, s: State, a: TimerAct)
    requires OwnershipInv(w, s) && TimerEnabled(s, a)
    ensures OwnershipInv(w, DoTimer(s, a))
  {}

  lemma {:induction false} OwnershipRecv(w: Workload, s: State, a: RecvAct)
    requires OwnershipInv(w, s) && RecvEnabled(s, a)
    ensures OwnershipInv(w, DoRecv(s, a))
  {}

  lemma {:induction false} OwnershipStep(w: Workload, s: State, a: Action)
    requires OwnershipInv(w, s) && ResultInv(s) && Enabled(w, s, a)
    ensures OwnershipInv(w, Do(w, s, a))
  {
    match a
    case ByCaller(c, ca) => OwnershipCaller(w, s, c, ca);
    case ByTimer(ta) => OwnershipTimer(w, s, ta);
    case ByReceiver(ra) => OwnershipRecv(w, s, ra);
    case ByEncoder(_) =>
    case CancelSession =>
  }

  lemma {:induction false} CallLockOk(call: Call, wait: bool, taken: bool, cancelled: bool, out: Output, a: CallerAct,
                                      timer: Stage, recv: Stage)
    requires CallReady(call, cancelled, out, a) && SlotOk(call.slot, CallerStage(call.pc), timer, recv)
    requires a.Start? ==> call == NEW_CALL
    ensures !CallPanics(call, a)
    ensures var call' := CallAfter(call, wait, taken, a); SlotOk(call'.slot, CallerStage(call'.pc), timer, recv)
  {
    if a.Reject? || a.CloseOwn? {
      CallerCloseOk(call.slot, call.pc.st, timer, recv);
    }
  }

  lemma {:induction false} LockCaller(w: Workload, s: State, c: CallId, a: CallerAct)
    requires OwnershipInv(w, s) && LockInv(s) && CallerEnabled(w, s, c, a)
    ensures var s' := DoCaller(w, s, c, a); LockInv(s') && !s'.panicked
  {
    var call := if a.Start? then NEW_CALL else s.calls[c];
    CallLockOk(call, w[c].wait, KeyOf(w, c) in s.table, s.cancelled, s.out, a,
               TimerStage(s.timer, c), RecvStage(s.recv, c));
  }

  lemma {:induction false} LockTimer(w: Workload, s: State, a: TimerAct)
    requires OwnershipInv(w, s) && LockInv(s) && TimerEnabled(s, a) && !s.panicked
    ensures LockInv(DoTimer(s, a)) && !DoTimer(s, a).panicked
  {
    if a.CloseLoaded? {
      var c := s.timer.call;
      TimerCloseOk(s.calls[c].slot, CallerStage(s.calls[c].pc), s.timer.st, RecvStage(s.recv, c));
    }
  }

  lemma {:induction false} LockRecv(w: Workload, s: State, a: RecvAct)
    requires OwnershipInv(w, s) && LockInv(s) && RecvEnabled(s, a) && !s.panicked
    ensures LockInv(DoRecv(s, a)) && !DoRecv(s, a).panicked
  {
    if a.SendOn? {
      var c := s.recv.call;
      RecvSendOk(s.calls[c].slot, CallerStage(s.calls[c].pc), TimerStage(s.timer, c), s.recv.st, s.recv.msg);
    }
  }

  lemma {:induction false} LockStep(w: Workload, s: State, a: Action)
    requires OwnershipInv(w, s) && LockInv(s) && Enabled(w, s, a)
    ensures LockInv(Do(w, s, a)) && !Do(w, s, a).panicked
  {
    match a
    case ByCaller(c, ca) => LockCaller(w, s, c, ca);
    case ByTimer(ta) => LockTimer(w, s, ta);
    case ByReceiver(ra) => LockRecv(w, s, ra);
    case _ =>
  }

  /** Nothing in a wait value is undone except by the caller taking the buffered reply. */
  lemma {:induction false} ClosedIsStable(w: Workload, s: State, a: Action)
    requires Enabled(w, s, a)
    ensures var s' := Do(w, s, a); forall c :: c in s.calls ==>
      c in s'.calls && (s.calls[c].slot.closed ==> s'.calls[c].slot.closed)
  {}

  lemma {:induction false} FatesStay(w: Workload, s: State, a: Action)
    requires DispositionInv(w, s) && Enabled(w, s, a)
    ensures forall i :: 0 <= i < |s.log| ==> FateOk(w, Do(w, s, a), s.log[i])
  {
    ClosedIsStable(w, s, a);
    var s' := Do(w, s, a);
    assert s.cancelled ==> s'.cancelled;
    forall i | 0 <= i < |s.log| ensures FateOk(w, s', s.log[i]) {
      assert FateOk(w, s, s.log[i]);
    }
  }

  lemma {:induction false} NewFateOk(w: Workload, s: State, a: RecvAct)
    requires OwnershipInv(w, s) && RecvEnabled(s, a) && Settles(s, a).Some?
    ensures FateOk(w, DoRecv(s, a), Entry(s.recv.msg, Settles(s, a).value))
  {}

  lemma {:induction false} DispositionRecv(w: Workload, s: State, a: RecvAct)
    requires s.received == Settled(s.log) + InHand(s.recv) && RecvEnabled(s, a) && !DoRecv(s, a).panicked
    ensures var s' := DoRecv(s, a); s'.received == Settled(s'.log) + InHand(s'.recv)
  {
    if Settles(s, a).Some? {
      assert Settled(DoRecv(s, a).log) == Settled(s.log) + [s.recv.msg];
    }
  }

  lemma {:induction false} DispositionStep(w: Workload, s: State, a: Action)
    requires OwnershipInv(w, s) && DispositionInv(w, s) && Enabled(w, s, a) && !Do(w, s, a).panicked
    ensures DispositionInv(w, Do(w, s, a))
  {
    FatesStay(w, s, a);
    if a.ByReceiver? {
      DispositionRecv(w, s, a.ra);
      if Settles(s, a.ra).Some? {
        NewFateOk(w, s, a.ra);
      }
    } else {
      var s' := Do(w, s, a);
      assert s'.log == s.log && s'.recv == s.recv && s'.received == s.received;
    }
  }

  lemma {:induction false} CallConserves(call: Call, wait: bool, taken: bool, cancelled: bool, out: Output,
                                         a: CallerAct)
    requires CallReady(call, cancelled, out, a) && ResultOk(call, cancelled)
    requires a.Start? ==> call == NEW_CALL
    ensures InChannel(CallAfter(call, wait, taken, a)) == InChannel(call)
  {}

  lemma {:induction false} ChannelFrame(s: State, s': State)
    requires ChannelInv(s) && s'.log == s.log && s.calls.Keys <= s'.calls.Keys
    requires forall c :: c in s'.calls ==> InChannel(s'.calls[c]) == if c in s.calls then InChannel(s.calls[c]) else []
    ensures ChannelInv(s')
  {}

  lemma {:induction false} ChannelCaller(w: Workload, s: State, c: CallId, a: CallerAct)
    requires ResultInv(s) && ChannelInv(s) && CallerEnabled(w, s, c, a)
    ensures ChannelInv(DoCaller(w, s, c, a))
  {
    var call := if a.Start? then NEW_CALL else s.calls[c];
    CallConserves(call, w[c].wait, KeyOf(w, c) in s.table, s.cancelled, s.out, a);
    ChannelFrame(s, DoCaller(w, s, c, a));
  }

  lemma {:induction false} ChannelTimer(s: State, a: TimerAct)
    requires ChannelInv(s) && TimerEnabled(s, a)
    ensures ChannelInv(DoTimer(s, a))
  {
    forall c | c in DoTimer(s, a).calls
      ensures InChannel(DoTimer(s, a).calls[c]) == if c in s.calls then InChannel(s.calls[c]) else []
    {
      ChannelTimerAt(s, a, c);
    }
    ChannelFrame(s, DoTimer(s, a));
  }

  /** Closing a wait value leaves what is in its channel. */
  lemma {:induction false} ChannelTimerAt(s: State, a: TimerAct, c: CallId)
    requires TimerEnabled(s, a)
    ensures c in DoTimer(s, a).calls <==> c in s.calls
    ensures c in s.calls ==> InChannel(DoTimer(s, a).calls[c]) == InChannel(s.calls[c])
  {}

  lemma {:induction false} ChannelRecvAt(s: State, a: RecvAct, c: CallId)
    requires RecvEnabled(s, a) && !DoRecv(s, a).panicked && c in s.calls
    requires a.SendOn? && s.recv.call == c && s.recv.st.Act? ==> s.calls[c].slot.buf.None?
    ensures c in DoRecv(s, a).calls
    ensures InChannel(DoRecv(s, a).calls[c]) ==
      InChannel(s.calls[c]) + if Settles(s, a) == Some(Delivered(c)) then [s.recv.msg] else []
  {}

  lemma {:induction false} ChannelRecv(w: Workload, s: State, a: RecvAct)
    requires LockInv(s) && ChannelInv(s) && RecvEnabled(s, a) && !DoRecv(s, a).panicked
    ensures ChannelInv(DoRecv(s, a))
  {
    var s' := DoRecv(s, a);
    forall c ensures Deliveries(s'.log, c) == if c in s'.calls then InChannel(s'.calls[c]) else [] {
      if Settles(s, a).Some? {
        DeliveriesAppend(s.log, Entry(s.recv.msg, Settles(s, a).value), c);
      }
      if c in s.calls {
        assert SlotOk(s.calls[c].slot, CallerStage(s.calls[c].pc), TimerStage(s.timer, c), RecvStage(s.recv, c));
        ChannelRecvAt(s, a, c);
      }
    }
  }

  lemma {:induction false} ChannelStep(w: Workload, s: State, a: Action)
    requires OwnershipInv(w, s) && LockInv(s) && ResultInv(s) && ChannelInv(s) && Enabled(w, s, a)
    requires !Do(w, s, a).panicked
    ensures ChannelInv(Do(w, s, a))
  {
    match a
    case ByCaller(c, ca) => ChannelCaller(w, s, c, ca);
    case ByTimer(ta) => ChannelTimer(s, ta);
    case ByReceiver(ra) => ChannelRecv(w, s, ra);
    case ByEncoder(_) =>
    case CancelSession =>
  }

  lemma {:induction false} CallResultOk(call: Call, wait: bool, taken: bool, cancelled: bool, out: Output, a: CallerAct)
    requires CallReady(call, cancelled, out, a) && ResultOk(call, cancelled)
    requires a.Start? ==> call == NEW_CALL
    requires a.CloseOwn? || a.Reject? ==> !CallPanics(call, a)
    ensures ResultOk(CallAfter(call, wait, taken, a), cancelled)
  {}

  /** A step elsewhere changes at most the slot: a closed channel stays closed and gets no message. */
  lemma {:induction false} ResultFrame(s: State, s': State)
    requires ResultInv(s) && s'.calls.Keys == s.calls.Keys && (s.cancelled ==> s'.cancelled)
    requires forall c :: c in s.calls ==>
      && s'.calls[c].pc == s.calls[c].pc && s'.calls[c].res == s.calls[c].res
      && (!s.calls[c].slot.chOpen ==> !s'.calls[c].slot.chOpen && s'.calls[c].slot.buf == s.calls[c].slot.buf)
      && (!Published(s.calls[c]) ==> s'.calls[c].slot.buf == s.calls[c].slot.buf)
    ensures ResultInv(s')
  {
    forall c | c in s'.calls ensures ResultOk(s'.calls[c], s'.cancelled) {
      assert ResultOk(s.calls[c], s.cancelled);
    }
  }

  lemma {:induction false} ResultRecv(w: Workload, s: State, a: RecvAct)
    requires OwnershipInv(w, s) && LockInv(s) && ResultInv(s) && RecvEnabled(s, a) && !DoRecv(s, a).panicked
    ensures ResultInv(DoRecv(s, a))
  {
    ResultFrame(s, DoRecv(s, a));
  }

  lemma {:induction false} ResultTimer(s: State, a: TimerAct)
    requires ResultInv(s) && TimerEnabled(s, a)
    ensures ResultInv(DoTimer(s, a))
  {
    ResultFrame(s, DoTimer(s, a));
  }

  lemma {:induction false} ResultCaller(w: Workload, s: State, c: CallId, a: CallerAct)
    requires ResultInv(s) && CallerEnabled(w, s, c, a) && !DoCaller(w, s, c, a).panicked
    ensures ResultInv(DoCaller(w, s, c, a))
  {
    var call := if a.Start? then NEW_CALL else s.calls[c];
    CallResultOk(call, w[c].wait, KeyOf(w, c) in s.table, s.cancelled, s.out, a);
  }

  lemma {:induction false} ResultStep(w: Workload, s: State, a: Action)
    requires OwnershipInv(w, s) && LockInv(s) && ResultInv(s) && Enabled(w, s, a) && !Do(w, s, a).panicked
    ensures ResultInv(Do(w, s, a))
  {
    match a
    case ByCaller(c, ca) => ResultCaller(w, s, c, ca);
    case ByTimer(ta) => ResultTimer(s, ta);
    case ByReceiver(ra) => ResultRecv(w, s, ra);
    case ByEncoder(ea) => ResultFrame(s, s.(out := OutputAfter(s.out, ea)));
    case CancelSession => ResultFrame(s, s.(cancelled := true));
  }

  lemma {:induction false} IssueFrame(w: Workload, s: State, s': State)
    requires IssueInv(w, s) && s'.issued == s.issued && s'.out.wire == s.out.wire && s'.out.cmdCh == s.out.cmdCh
    requires forall c :: c in s.calls && Written(s.calls[c].pc) ==> c in s'.calls && Written(s'.calls[c].pc)
    ensures IssueInv(w, s')
  {}

  /** One more command in the empty command channel. */
  lemma {:induction false} CommandsAppend(w: Workload, issued: seq<CallId>, c: CallId, wire: seq<Cmd>)
    requires c < |w| && forall i :: 0 <= i < |issued| ==> issued[i] < |w|
    requires NonPing(Commands(w, issued)) == NonPing(wire) + NonPing([])
    ensures forall i :: 0 <= i < |issued + [c]| ==> (issued + [c])[i] < |w|
    ensures NonPing(Commands(w, issued + [c])) == NonPing(wire) + NonPing([w[c].cmd])
  {
    var cmd := w[c].cmd;
    assert Commands(w, issued + [c]) == Commands(w, issued) + [cmd];
    NonPingAppend(Commands(w, issued), cmd);
    NonPingAppend([], cmd);
    assert [] + [cmd] == [cmd];
  }

  lemma {:induction false} IssueWrite(w: Workload, s: State, c: CallId)
    requires IssueInv(w, s) && CallerEnabled(w, s, c, WriteCmd)
    ensures IssueInv(w, DoCaller(w, s, c, WriteCmd))
  {
    var s' := DoCaller(w, s, c, WriteCmd);
    CommandsAppend(w, s.issued, c, s.out.wire);
    forall i | 0 <= i < |s'.issued| ensures s'.issued[i] in s'.calls && Written(s'.calls[s'.issued[i]].pc) {
      assert i < |s.issued| ==> s'.issued[i] == s.issued[i];
    }
    forall i, j | 0 <= i < j < |s'.issued| ensures s'.issued[i] != s'.issued[j] {
      assert s'.issued[i] == s.issued[i] && Written(s.calls[s.issued[i]].pc);
    }
  }

  lemma {:induction false} IssueCaller(w: Workload, s: State, c: CallId, a: CallerAct)
    requires IssueInv(w, s) && CallerEnabled(w, s, c, a)
    ensures IssueInv(w, DoCaller(w, s, c, a))
  {
    if a.WriteCmd? {
      IssueWrite(w, s, c);
    } else {
      IssueFrame(w, s, DoCaller(w, s, c, a));
    }
  }

  lemma {:induction false} IssueEncoder(w: Workload, s: State, a: EncoderAct)
    requires IssueInv(w, s) && EncoderEnabled(s.out, a)
    ensures IssueInv(w, s.(out := OutputAfter(s.out, a)))
  {
    var cmd := if a.EncodeCmd? then s.out.cmdCh.value else PING;
    NonPingAppend(s.out.wire, cmd);
    NonPingAppend([], cmd);
  }

  lemma {:induction false} IssueStep(w: Workload, s: State, a: Action)
    requires IssueInv(w, s) && Enabled(w, s, a)
    ensures IssueInv(w, Do(w, s, a))
  {
    match a
    case ByCaller(c, ca) => IssueCaller(w, s, c, ca);
    case ByTimer(ta) => IssueFrame(w, s, DoTimer(s, ta));
    case ByReceiver(ra) => IssueFrame(w, s, DoRecv(s, ra));
    case ByEncoder(ea) => IssueEncoder(w, s, ea);
    case CancelSession => IssueFrame(w, s, s.(cancelled := true));
  }

  lemma {:induction false} StepPreservesInv(w: Workload, s: State, a: Action)
    requires Inv(w, s) && Enabled(w, s, a)
    ensures Inv(w, Do(w, s, a))
  {
    OwnershipStep(w, s, a);
    LockStep(w, s, a);
    DispositionStep(w, s, a);
    ChannelStep(w, s, a);
    ResultStep(w, s, a);
    IssueStep(w, s, a);
  }

  lemma {:induction false} RunKeepsInv(w: Workload, run: seq<Action>)
    requires ValidRun(w, run)
    ensures Inv(w, Exec(w, run))
    decreases |run|
  {
    if run != [] {
      var past := run[..|run| - 1];
      RunKeepsInv(w, past);
      StepPreservesInv(w, Exec(w, past), run[|run| - 1]);
    }
  }

  lemma {:induction false} EveryReachable(w: Workload, s: State)
    requires Reachable(w, s)
    ensures Inv(w, s)
  {
    var run :| ValidRun(w, run) && Exec(w, run) == s;
    RunKeepsInv(w, run);
  }

  // ---------------------------------------------------------------------------------------
  // Theorems over every run
  // ---------------------------------------------------------------------------------------

  /**
   No run of a session panics: a reply channel is never closed twice and never sent to after it was
   closed; and at most one goroutine is ever inside a wait value's critical section.
   */
  lemma {:induction false} NoPanicAndExclusion(w: Workload, s: State, c: CallId)
    requires Reachable(w, s) && c in s.calls
    ensures
      && !s.panicked
      && Holders(CallerStage(s.calls[c].pc), TimerStage(s.timer, c), RecvStage(s.recv, c)) <= 1
  {
    EveryReachable(w, s);
  }

  /**
   Table ownership, also when keys are reused: each entry is the wait value of an in-flight awaiting
   call with that very key, and the table is empty whenever no call is in flight.
   */
  lemma {:induction false} TableOwnership(w: Workload, s: State)
    requires Reachable(w, s)
    ensures
      && (forall k :: k in s.table ==> Waits(w, s, s.table[k], k) && Registered(s.calls[s.table[k]].pc))
      && ((forall c :: c in s.calls ==> s.calls[c].pc.Returned?) ==> s.table == map[])
  {
    EveryReachable(w, s);
    if (forall c :: c in s.calls ==> s.calls[c].pc.Returned?) && s.table != map[] {
      assert false;
    }
  }

  predicate UntouchedExcept(s: State, s': State, c: CallId) {
    && s'.table == s.table && s'.queue == s.queue && s'.log == s.log
    && (forall d :: d in s.calls && d != c ==> d in s'.calls && s'.calls[d] == s.calls[d])
  }

  lemma {:induction false} RejectTouchesNothingElse(w: Workload, s: State, c: CallId, a: CallerAct)
    requires CallerEnabled(w, s, c, a) && (a.Reject? || (a.LoadOrStore? && KeyOf(w, c) in s.table))
    ensures UntouchedExcept(s, DoCaller(w, s, c, a), c)
  {}

  lemma {:induction false} RejectedHasNoEntry(w: Workload, s: State, c: CallId, a: CallerAct)
    requires OwnershipInv(w, s) && CallerEnabled(w, s, c, a) && (a.Reject? || a.LoadOrStore?)
    ensures forall k :: k in s.table ==> s.table[k] != c
  {}

  /** A rejected duplicate leaves every entry, and so the incumbent's, where it was. */
  lemma {:induction false} DuplicateIsHarmless(w: Workload, s: State, c: CallId, a: CallerAct)
    requires Reachable(w, s) && CallerEnabled(w, s, c, a)
    requires a.Reject? || (a.LoadOrStore? && KeyOf(w, c) in s.table)
    ensures UntouchedExcept(s, DoCaller(w, s, c, a), c)
    ensures forall k :: k in s.table ==> s.table[k] != c
  {
    EveryReachable(w, s);
    RejectTouchesNothingElse(w, s, c, a);
    RejectedHasNoEntry(w, s, c, a);
  }

  /**
   Message disposition: what the decoder produced is, in order, exactly what has been settled plus
   the message in hand, so each message has exactly one fate; it is handled out of band only when no
   entry has its key, delivered only to a waiter with its key, dropped only for a closed wait value or
   a cancelled session.
   */
  lemma {:induction false} Disposition(w: Workload, s: State)
    requires Reachable(w, s)
    ensures
      && s.received == Settled(s.log) + InHand(s.recv)
      && (forall i :: 0 <= i < |s.log| ==> FateOk(w, s, s.log[i]))
      && (forall i, c: CallId :: 0 <= i < |s.log| && s.log[i].fate == Delivered(c) ==>
            c < |w| && w[c].wait && Addressed(s.log[i].msg, w[c].cmd))
  {
    EveryReachable(w, s);
    forall i, c: CallId | 0 <= i < |s.log| && s.log[i].fate == Delivered(c)
      ensures c < |w| && w[c].wait && Addressed(s.log[i].msg, w[c].cmd)
    {
      assert FateOk(w, s, s.log[i]);
    }
  }

  /**
   What a finished wait returns: the first message ever delivered to it. A timeout means that nothing
   was or will be delivered, so a reply buffered before the timeout closed the channel is what the
   caller gets, unless the session was cancelled.
   */
  lemma {:induction false} FirstDeliveryIsReturned(w: Workload, s: State, c: CallId)
    requires Reachable(w, s) && c in s.calls
    ensures ReturnsFirst(s.calls[c], Deliveries(s.log, c), s.cancelled)
  {
    EveryReachable(w, s);
    ConservedReturnsFirst(s.calls[c], w[c].wait, Deliveries(s.log, c), s.cancelled);
  }

  predicate ReturnsFirst(call: Call, got: seq<Msg>, cancelled: bool) {
    && |got| <= 2
    && (call.res.Reply? ==> got != [] && call.res.msg == got[0])
    && (call.res.TimedOut? ==> got == [] && !call.slot.chOpen)
    && (got != [] && !call.res.Pending? && !cancelled ==> call.res == Reply(got[0]))
  }

  lemma {:induction false} ConservedReturnsFirst(call: Call, wait: bool, got: seq<Msg>, cancelled: bool)
    requires got == InChannel(call) && ResultOk(call, cancelled) && KindOk(call, wait)
    ensures ReturnsFirst(call, got, cancelled)
  {}
}
