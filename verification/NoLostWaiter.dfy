/**
 No lost waiter. Timeout handling loads, closes and deletes a table entry in separate steps, and a
 caller's cleanup removes its timeout and its entry by key. A caller blocked on an open, empty reply
 channel of a live session can therefore count on its table entry and on its timeout exactly when no
 two awaiting commands of the session share a key.
 */
module NoLostWaiter {
  import opened Messages
  import opened WaitValue
  import opened Correlator
  import opened CorrelatorSafety
  import opened Scenarios

  /** What a hub can check before using a session: no two awaiting commands share (id, seqNo). */
  ghost predicate UniqueKeys(w: Workload) {
    forall i, j :: 0 <= i < j < |w| && w[i].wait && w[j].wait ==> !SameIds(w[i].cmd, w[j].cmd)
  }

  predicate Blocked(s: State, c: CallId) {
    c in s.calls && s.calls[c].pc.Awaiting? && s.calls[c].slot.chOpen && s.calls[c].slot.buf.None?
  }

  /** Timeout of `k`: queued, expired, or taken by the timer goroutine and not yet fully handled. */
  predicate TimeoutPending(s: State, k: Key) {
    || k in s.queue.queued
    || k in s.queue.fired
    || s.timer == TLoading(k)
    || (s.timer.TClosing? && s.timer.key == k)
  }

  ghost predicate NoLost(w: Workload, s: State) {
    !s.cancelled ==> forall c: CallId :: c < |w| && Blocked(s, c) ==>
      var k := KeyOf(w, c); k in s.table && s.table[k] == c && TimeoutPending(s, k)
  }

  // ---------------------------------------------------------------------------------------
  // Unique keys suffice
  // ---------------------------------------------------------------------------------------

  predicate Open(call: Call) {
    (call.pc.Offering? || call.pc.Writing? || call.pc.Awaiting?) && call.slot.chOpen
  }

  /** The timer goroutine is working on an expired key, as opposed to sweeping the table. */
  predicate TimerOn(t: TimerPc, k: Key) {
    (t.TLoading? || t.TMissed? || (t.TClosing? && t.sweep.None?)) && t.key == k
  }

  /** A key reaches the timeout queue only through the one call that uses it. */
  predicate Offered(pc: CallPc) {
    pc.Writing? || pc.Awaiting? || pc.Removing? || pc.Closing? || pc.Returned?
  }

  predicate Seen(s: State, k: Key) {
    k in s.queue.queued || k in s.queue.fired || TimerOn(s.timer, k)
  }

  ghost predicate SeenInv(w: Workload, s: State) {
    forall c: CallId :: c < |w| && w[c].wait && Seen(s, KeyOf(w, c)) ==> c in s.calls && Offered(s.calls[c].pc)
  }

  predicate HasEntry(s: State, c: CallId, k: Key) {
    k in s.table && s.table[k] == c
  }

  ghost predicate EntryInv(w: Workload, s: State) {
    forall c: CallId :: c < |w| && w[c].wait && c in s.calls && Open(s.calls[c]) ==> HasEntry(s, c, KeyOf(w, c))
  }

  /** Once the timer is about to delete, the waiter it deletes for is closed. */
  ghost predicate HandledInv(w: Workload, s: State) {
    && (s.timer.TClosing? && (s.timer.st.Unlock? || s.timer.st.Fin?) && s.timer.call in s.calls ==>
          !s.calls[s.timer.call].slot.chOpen)
    && (s.timer.TMissed? ==>
          forall c: CallId :: c < |w| && w[c].wait && KeyOf(w, c) == s.timer.key && c in s.calls ==> !Open(s.calls[c]))
  }

  ghost predicate PendingInv(w: Workload, s: State) {
    !s.cancelled ==>
      forall c: CallId :: c < |w| && w[c].wait && c in s.calls && Open(s.calls[c]) && !s.calls[c].pc.Offering?
        ==> TimeoutPending(s, KeyOf(w, c))
  }

  ghost predicate UniqueInv(w: Workload, s: State) {
    SeenInv(w, s) && EntryInv(w, s) && HandledInv(w, s) && PendingInv(w, s)
  }

  lemma {:induction false} SameKeySameCall(w: Workload, c: CallId, d: CallId)
    requires UniqueKeys(w) && c < |w| && d < |w| && w[c].wait && w[d].wait && KeyOf(w, c) == KeyOf(w, d)
    ensures c == d
  {}

  lemma {:induction false} SeenCaller(w: Workload, s: State, c: CallId, a: CallerAct)
    requires UniqueKeys(w) && OwnershipInv(w, s) && SeenInv(w, s) && CallerEnabled(w, s, c, a)
    ensures SeenInv(w, DoCaller(w, s, c, a))
  {
    var s' := DoCaller(w, s, c, a);
    var k := KeyOf(w, c);
    forall d: CallId | d < |w| && w[d].wait && Seen(s', KeyOf(w, d))
      ensures d in s'.calls && Offered(s'.calls[d].pc)
    {
      if a.Offer? && KeyOf(w, d) == k {
        assert w[c].wait;
        SameKeySameCall(w, c, d);
      } else {
        assert Seen(s, KeyOf(w, d));
        assert d in s.calls && Offered(s.calls[d].pc);
      }
    }
  }

  lemma {:induction false} SeenOnlyMoves(s: State, a: TimerAct, k: Key)
    requires TimerEnabled(s, a) && Seen(DoTimer(s, a), k)
    ensures Seen(s, k)
  {}

  lemma {:induction false} SeenTimer(w: Workload, s: State, a: TimerAct)
    requires OwnershipInv(w, s) && SeenInv(w, s) && TimerEnabled(s, a)
    ensures SeenInv(w, DoTimer(s, a))
  {
    var s' := DoTimer(s, a);
    forall d: CallId | d < |w| && w[d].wait && Seen(s', KeyOf(w, d)) ensures d in s.calls && Offered(s.calls[d].pc) {
      SeenOnlyMoves(s, a, KeyOf(w, d));
    }
  }

  lemma {:induction false} EntryCaller(w: Workload, s: State, c: CallId, a: CallerAct)
    requires UniqueKeys(w) && OwnershipInv(w, s) && EntryInv(w, s) && CallerEnabled(w, s, c, a)
    ensures EntryInv(w, DoCaller(w, s, c, a))
  {
    var s' := DoCaller(w, s, c, a);
    forall d: CallId | d < |w| && w[d].wait && d in s'.calls && Open(s'.calls[d])
      ensures HasEntry(s', d, KeyOf(w, d))
    {
      if d != c {
        assert HasEntry(s, d, KeyOf(w, d));
        if a.DeleteEntry? && KeyOf(w, c) == KeyOf(w, d) {
          SameKeySameCall(w, c, d);
        }
      } else if !a.LoadOrStore? {
        assert HasEntry(s, c, KeyOf(w, c));
      }
    }
  }

  lemma {:induction false} EntryTimer(w: Workload, s: State, a: TimerAct)
    requires UniqueKeys(w) && OwnershipInv(w, s) && EntryInv(w, s) && HandledInv(w, s) && TimerEnabled(s, a)
    ensures EntryInv(w, DoTimer(s, a))
  {
    var s' := DoTimer(s, a);
    forall d: CallId | d < |w| && w[d].wait && d in s'.calls && Open(s'.calls[d])
      ensures HasEntry(s', d, KeyOf(w, d))
    {
      assert Open(s.calls[d]) && HasEntry(s, d, KeyOf(w, d));
      if a.DeleteLoaded? && s.timer.key == KeyOf(w, d) && s.timer.TClosing? {
        SameKeySameCall(w, s.timer.call, d);
      }
    }
  }

  lemma {:induction false} HandledCaller(w: Workload, s: State, c: CallId, a: CallerAct)
    requires UniqueKeys(w) && OwnershipInv(w, s) && SeenInv(w, s) && HandledInv(w, s) && CallerEnabled(w, s, c, a)
    ensures HandledInv(w, DoCaller(w, s, c, a))
  {
    var s' := DoCaller(w, s, c, a);
    if s.timer.TMissed? {
      forall d: CallId | d < |w| && w[d].wait && KeyOf(w, d) == s.timer.key && d in s'.calls
        ensures !Open(s'.calls[d])
      {
        assert d in s.calls && Offered(s.calls[d].pc);
      }
    }
  }

  lemma {:induction false} HandledTimer(w: Workload, s: State, a: TimerAct)
    requires OwnershipInv(w, s) && LockInv(s) && EntryInv(w, s) && HandledInv(w, s) && TimerEnabled(s, a)
    ensures HandledInv(w, DoTimer(s, a))
  {
    var s' := DoTimer(s, a);
    if a.CloseLoaded? {
      var c := s.timer.call;
      assert SlotOk(s.calls[c].slot, CallerStage(s.calls[c].pc), s.timer.st, RecvStage(s.recv, c));
    }
    if a.LoadEntry? && s'.timer.TMissed? {
      forall d: CallId | d < |w| && w[d].wait && KeyOf(w, d) == s'.timer.key && d in s'.calls
        ensures !Open(s'.calls[d])
      {
        assert s'.calls == s.calls && !HasEntry(s, d, KeyOf(w, d));
      }
    }
  }

  lemma {:induction false} PendingCaller(w: Workload, s: State, c: CallId, a: CallerAct)
    requires UniqueKeys(w) && OwnershipInv(w, s) && PendingInv(w, s) && CallerEnabled(w, s, c, a)
    ensures PendingInv(w, DoCaller(w, s, c, a))
  {
    var s' := DoCaller(w, s, c, a);
    if !s'.cancelled {
      forall d: CallId | d < |w| && w[d].wait && d in s'.calls && Open(s'.calls[d]) && !s'.calls[d].pc.Offering?
        ensures TimeoutPending(s', KeyOf(w, d))
      {
        if d != c {
          assert TimeoutPending(s, KeyOf(w, d));
          if a.RemoveTimer? && KeyOf(w, c) == KeyOf(w, d) {
            SameKeySameCall(w, c, d);
          }
        } else if !a.Offer? {
          assert TimeoutPending(s, KeyOf(w, d));
        }
      }
    }
  }

  lemma {:induction false} PendingTimer(w: Workload, s: State, a: TimerAct)
    requires UniqueKeys(w) && OwnershipInv(w, s) && EntryInv(w, s) && HandledInv(w, s) && PendingInv(w, s)
    requires TimerEnabled(s, a)
    ensures PendingInv(w, DoTimer(s, a))
  {
    var s' := DoTimer(s, a);
    if !s'.cancelled {
      forall d: CallId | d < |w| && w[d].wait && d in s'.calls && Open(s'.calls[d]) && !s'.calls[d].pc.Offering?
        ensures TimeoutPending(s', KeyOf(w, d))
      {
        var k := KeyOf(w, d);
        assert Open(s.calls[d]) && TimeoutPending(s, k) && HasEntry(s, d, k);
        if s.timer.TClosing? && s.timer.key == k {
          SameKeySameCall(w, s.timer.call, d);
        }
      }
    }
  }

  /** The receive goroutine, the encoder and cancellation leave entries and timeouts alone. */
  lemma {:induction false} UniqueFrame(w: Workload, s: State, s': State)
    requires UniqueInv(w, s)
    requires s'.table == s.table && s'.queue == s.queue && s'.timer == s.timer && (s.cancelled ==> s'.cancelled)
    requires s'.calls.Keys == s.calls.Keys
    requires forall c :: c in s.calls ==>
      s'.calls[c].pc == s.calls[c].pc && s'.calls[c].slot.chOpen == s.calls[c].slot.chOpen
    ensures UniqueInv(w, s')
  {
    forall c | c in s.calls ensures Open(s'.calls[c]) == Open(s.calls[c]) {}
    forall k ensures TimeoutPending(s', k) == TimeoutPending(s, k) {}
  }

  lemma {:induction false} UniqueRecv(w: Workload, s: State, a: RecvAct)
    requires UniqueInv(w, s) && RecvEnabled(s, a)
    ensures UniqueInv(w, DoRecv(s, a))
  {
    var s' := DoRecv(s, a);
    assert forall c :: c in s.calls ==>
      s'.calls[c].pc == s.calls[c].pc && s'.calls[c].slot.chOpen == s.calls[c].slot.chOpen;
    UniqueFrame(w, s, s');
  }

  lemma {:induction false} UniqueCaller(w: Workload, s: State, c: CallId, a: CallerAct)
    requires UniqueKeys(w) && OwnershipInv(w, s) && UniqueInv(w, s) && CallerEnabled(w, s, c, a)
    ensures UniqueInv(w, DoCaller(w, s, c, a))
  {
    SeenCaller(w, s, c, a);
    EntryCaller(w, s, c, a);
    HandledCaller(w, s, c, a);
    PendingCaller(w, s, c, a);
  }

  lemma {:induction false} UniqueTimer(w: Workload, s: State, a: TimerAct)
    requires UniqueKeys(w) && OwnershipInv(w, s) && LockInv(s) && UniqueInv(w, s) && TimerEnabled(s, a)
    ensures UniqueInv(w, DoTimer(s, a))
  {
    SeenTimer(w, s, a);
    EntryTimer(w, s, a);
    HandledTimer(w, s, a);
    PendingTimer(w, s, a);
  }

  lemma {:induction false} UniqueStep(w: Workload, s: State, a: Action)
    requires UniqueKeys(w) && OwnershipInv(w, s) && LockInv(s) && UniqueInv(w, s) && Enabled(w, s, a)
    ensures UniqueInv(w, Do(w, s, a))
  {
    match a
    case ByCaller(c, ca) => UniqueCaller(w, s, c, ca);
    case ByTimer(ta) => UniqueTimer(w, s, ta);
    case ByReceiver(ra) => UniqueRecv(w, s, ra);
    case ByEncoder(ea) => UniqueFrame(w, s, s.(out := OutputAfter(s.out, ea)));
    case CancelSession => UniqueFrame(w, s, s.(cancelled := true));
  }

  lemma {:induction false} UniqueRun(w: Workload, run: seq<Action>)
    requires UniqueKeys(w) && ValidRun(w, run)
    ensures UniqueInv(w, Exec(w, run))
    decreases |run|
  {
    if run != [] {
      var past := run[..|run| - 1];
      UniqueRun(w, past);
      RunKeepsInv(w, past);
      UniqueStep(w, Exec(w, past), run[|run| - 1]);
    }
  }

  lemma {:induction false} UniqueReachable(w: Workload, s: State)
    requires UniqueKeys(w) && Reachable(w, s)
    ensures UniqueInv(w, s)
  {
    var run :| ValidRun(w, run) && Exec(w, run) == s;
    UniqueRun(w, run);
  }

  lemma {:induction false} UniqueImpliesNoLost(w: Workload, s: State)
    requires OwnershipInv(w, s) && UniqueInv(w, s)
    ensures NoLost(w, s)
  {
    forall c: CallId | c < |w| && Blocked(s, c) && !s.cancelled
      ensures HasEntry(s, c, KeyOf(w, c)) && TimeoutPending(s, KeyOf(w, c))
    {
      assert Open(s.calls[c]) && KindOk(s.calls[c], w[c].wait);
    }
  }

  lemma {:induction false} UniqueKeysSuffice(w: Workload, s: State)
    requires UniqueKeys(w) && Reachable(w, s)
    ensures NoLost(w, s)
  {
    UniqueReachable(w, s);
    EveryReachable(w, s);
    UniqueImpliesNoLost(w, s);
  }

  lemma {:induction false} OpenWaiterIsFound(w: Workload, s: State, c: CallId)
    requires EntryInv(w, s) && c in s.calls && c < |w| && w[c].wait && Open(s.calls[c])
    requires s.recv.RLooking? && Addressed(s.recv.msg, w[c].cmd)
    ensures DoRecv(s, LookUp).recv == RSending(s.recv.msg, c, Spin)
  {
    assert HasEntry(s, c, KeyOf(w, c));
  }

  /**
   With unique keys a reply is never mistaken for an out-of-band message while its caller waits:
   the receiver finds exactly that caller's wait value, whatever else is going on.
   */
  lemma {:induction false} LiveWaiterIsFound(w: Workload, s: State, c: CallId)
    requires UniqueKeys(w) && Reachable(w, s)
    requires c in s.calls && c < |w| && w[c].wait && Open(s.calls[c])
    requires s.recv.RLooking? && Addressed(s.recv.msg, w[c].cmd)
    ensures Enabled(w, s, ByReceiver(LookUp)) && Do(w, s, ByReceiver(LookUp)).recv == RSending(s.recv.msg, c, Spin)
  {
    UniqueReachable(w, s);
    EveryReachable(w, s);
    OpenWaiterIsFound(w, s, c);
  }

  /** What can become of a message that was looked up for `c`. */
  predicate SettledFor(e: Entry, m: Msg, c: CallId) {
    e.msg == m && (e.fate == Delivered(c) || e.fate == DroppedClosed(c) || e.fate == DroppedCancelled)
  }

  /** Since the lookup, when the log was `log`: being sent to `c`, or settled next after `log`. */
  predicate OnItsWay(log: seq<Entry>, m: Msg, c: CallId, s: State) {
    if s.log == log then
      s.recv.RSending? && s.recv.msg == m && s.recv.call == c && !s.recv.st.Unlock? && !s.recv.st.Fin?
    else log < s.log && SettledFor(s.log[|log|], m, c)
  }

  lemma {:induction false} StaysOnItsWay(w: Workload, s: State, a: Action, log: seq<Entry>, m: Msg, c: CallId)
    requires OnItsWay(log, m, c, s) && Enabled(w, s, a) && !Do(w, s, a).panicked
    ensures OnItsWay(log, m, c, Do(w, s, a))
  {
    if a.ByReceiver? && Settles(s, a.ra).Some? {
      assert DoRecv(s, a.ra).log == s.log + [Entry(s.recv.msg, Settles(s, a.ra).value)];
    }
  }

  /**
   With unique keys, a reply looked up while its caller waits on an open channel is sent to that caller: in
   every continuation of the run it is either still being sent there, or it was delivered there, or dropped
   because the caller's wait value was closed or the session cancelled meanwhile.
   */
  lemma {:induction false} ReplyGoesToItsCaller(w: Workload, run: seq<Action>, n: nat, c: CallId)
    requires UniqueKeys(w) && ValidRun(w, run) && n < |run| && ValidRun(w, run[..n])
    requires run[n] == ByReceiver(LookUp) && Exec(w, run[..n]).recv.RLooking?
    requires var s := Exec(w, run[..n]);
      c in s.calls && c < |w| && w[c].wait && Open(s.calls[c]) && Addressed(s.recv.msg, w[c].cmd)
    ensures var s := Exec(w, run[..n]); OnItsWay(s.log, s.recv.msg, c, Exec(w, run))
    decreases |run|
  {
    var past := run[..|run| - 1];
    var s := Exec(w, run[..n]);
    if n == |run| - 1 {
      UniqueRun(w, past);
      OpenWaiterIsFound(w, s, c);
    } else {
      assert past[..n] == run[..n];
      ReplyGoesToItsCaller(w, past, n, c);
      RunKeepsInv(w, run);
      StaysOnItsWay(w, Exec(w, past), run[|run| - 1], s.log, s.recv.msg, c);
    }
  }

  // ---------------------------------------------------------------------------------------
  // Unique keys are necessary: a session that loses a waiter
  // ---------------------------------------------------------------------------------------

  /** Two awaiting calls with one key: the cleanup of the first, which goes by key, disarms the second. */
  lemma {:induction false} ReuseLosesWaiter(w: Workload, i: CallId, j: CallId) returns (s: State)
    requires i < |w| && j < |w| && i != j && w[i].wait && w[j].wait && SameIds(w[i].cmd, w[j].cmd)
    ensures Reachable(w, s) && !s.cancelled && Blocked(s, j)
    ensures s.table == map[] && !TimeoutPending(s, KeyOf(w, j))
  {
    InitReachable(w);
    var k := KeyOf(w, i);
    var s1 := Registers(w, INIT, i);
    var s2 := Encodes(w, s1);
    var s3 := TimesOut(w, s2, k);
    assert s3.table == map[] && s3.queue.queued == multiset{} && s3.queue.fired == multiset{};
    var s4 := Registers(w, s3, j);
    assert s4.table == map[k := j] && s4.queue.fired == multiset{} && s4.queue.queued == multiset{k};
    s := CleansUp(w, s4, i);
    assert s4.calls[j] == Call(Awaiting, FRESH, Pending);
    ReachPath(w, INIT, s1);
    ReachPath(w, s1, s2);
    ReachPath(w, s2, s3);
    ReachPath(w, s3, s4);
    ReachPath(w, s4, s);
  }

  /** No run of a session loses a waiter if and only if no two awaiting commands share a key. */
  lemma {:induction false} NoLostWaiterIffUniqueKeys(w: Workload)
    ensures (forall s :: Reachable(w, s) ==> NoLost(w, s)) <==> UniqueKeys(w)
  {
    if UniqueKeys(w) {
      forall s | Reachable(w, s) ensures NoLost(w, s) {
        UniqueKeysSuffice(w, s);
      }
    } else {
      var i, j :| 0 <= i < j < |w| && w[i].wait && w[j].wait && SameIds(w[i].cmd, w[j].cmd);
      var s := ReuseLosesWaiter(w, i, j);
      assert !NoLost(w, s);
    }
  }
}
