/**
 The end of a hub session. Once it is cancelled, no message decoded later reaches anybody, and the timer
 goroutine sweeps the table: with unique keys, whoever was waiting when the sweep began has been told when it
 is over.
 */
module Cancellation {
  import opened Messages
  import opened WaitValue
  import opened Correlator
  import opened CorrelatorSafety
  import opened NoLostWaiter

  // ---------------------------------------------------------------------------------------
  // Messages
  // ---------------------------------------------------------------------------------------

  /** Message `n` of the session and all later ones are dropped, or have not come past the check. */
  ghost predicate DroppedFrom(s: State, n: nat) {
    && s.cancelled
    && (forall i :: n <= i < |s.log| ==> s.log[i].fate == DroppedCancelled)
    && (InHand(s.recv) != [] && !s.recv.RChecking? ==> |s.log| < n)
  }

  lemma {:induction false} DropStep(w: Workload, s: State, a: Action, n: nat)
    requires DispositionInv(w, s) && DroppedFrom(s, n) && Enabled(w, s, a)
    ensures DroppedFrom(Do(w, s, a), n)
  {
    var s' := Do(w, s, a);
    assert s'.log == s.log || (a.ByReceiver? && Settles(s, a.ra).Some?
      && s'.log == s.log + [Entry(s.recv.msg, Settles(s, a.ra).value)]);
  }

  /** Every message decoded after the cancellation is dropped: it is neither delivered nor handled out of band. */
  lemma {:induction false} NothingAfterCancel(w: Workload, run: seq<Action>, n: nat)
    requires ValidRun(w, run) && n <= |run| && ValidRun(w, run[..n]) && Exec(w, run[..n]).cancelled
    ensures var s, s' := Exec(w, run[..n]), Exec(w, run); DroppedFrom(s', |s.received|)
    decreases |run|
  {
    if n == |run| {
      assert run[..n] == run;
      RunKeepsInv(w, run);
      AllReceivedBefore(w, Exec(w, run));
    } else {
      var past := run[..|run| - 1];
      assert past[..n] == run[..n];
      NothingAfterCancel(w, past, n);
      RunKeepsInv(w, past);
      DropStep(w, Exec(w, past), run[|run| - 1], |Exec(w, run[..n]).received|);
    }
  }

  lemma {:induction false} AllReceivedBefore(w: Workload, s: State)
    requires DispositionInv(w, s) && s.cancelled
    ensures DroppedFrom(s, |s.received|)
  {
    assert |s.received| == |s.log| + |InHand(s.recv)|;
  }

  /** At some step of the run the receiver gave up decoding, or found the session cancelled with a message in hand. */
  ghost predicate ToldToStop(w: Workload, run: seq<Action>)
    requires ValidRun(w, run)
    decreases |run|
  {
    run != [] && (var past, a := run[..|run| - 1], run[|run| - 1];
                  || ToldToStop(w, past)
                  || a == ByReceiver(StopRecv)
                  || (a == ByReceiver(CheckCancelled) && Exec(w, past).cancelled))
  }

  lemma {:induction false} StopStep(w: Workload, s: State, a: Action)
    requires Enabled(w, s, a)
    ensures Do(w, s, a).recv.RStopped? <==>
      s.recv.RStopped? || a == ByReceiver(StopRecv) || (a == ByReceiver(CheckCancelled) && s.cancelled)
  {}

  /** The receiver has stopped, and receives nothing any more, exactly when it was told to. */
  lemma {:induction false} ReceiverStopsIff(w: Workload, run: seq<Action>)
    requires ValidRun(w, run)
    ensures Exec(w, run).recv.RStopped? <==> ToldToStop(w, run)
    decreases |run|
  {
    if run != [] {
      ReceiverStopsIff(w, run[..|run| - 1]);
      StopStep(w, Exec(w, run[..|run| - 1]), run[|run| - 1]);
    }
  }

  // ---------------------------------------------------------------------------------------
  // The sweep
  // ---------------------------------------------------------------------------------------

  /** A caller that is done closing its wait value finds it closed. */
  predicate CleanOk(call: Call) {
    call.pc.Closing? && (call.pc.st.Unlock? || call.pc.st.Fin?) ==> !call.slot.chOpen
  }

  ghost predicate CleanInv(s: State) {
    forall c :: c in s.calls ==> CleanOk(s.calls[c])
  }

  lemma {:induction false} OwnClean(call: Call, wait: bool, taken: bool, cancelled: bool, out: Output, a: CallerAct,
                                    timer: Stage, recv: Stage)
    requires CallReady(call, cancelled, out, a) && SlotOk(call.slot, CallerStage(call.pc), timer, recv) && CleanOk(call)
    requires (a.Start? ==> call == NEW_CALL) && !CallPanics(call, a)
    ensures CleanOk(CallAfter(call, wait, taken, a))
  {}

  lemma {:induction false} CleanCaller(w: Workload, s: State, c: CallId, a: CallerAct)
    requires OwnershipInv(w, s) && LockInv(s) && CleanInv(s) && CallerEnabled(w, s, c, a)
    ensures CleanInv(DoCaller(w, s, c, a))
  {
    LockCaller(w, s, c, a);
    var call := if a.Start? then NEW_CALL else s.calls[c];
    OwnClean(call, w[c].wait, KeyOf(w, c) in s.table, s.cancelled, s.out, a,
             TimerStage(s.timer, c), RecvStage(s.recv, c));
  }

  lemma {:induction false} CleanStep(w: Workload, s: State, a: Action)
    requires OwnershipInv(w, s) && LockInv(s) && CleanInv(s) && Enabled(w, s, a)
    ensures CleanInv(Do(w, s, a))
  {
    if a.ByCaller? {
      CleanCaller(w, s, a.c, a.ca);
    }
  }

  lemma {:induction false} CleanRun(w: Workload, run: seq<Action>)
    requires ValidRun(w, run)
    ensures CleanInv(Exec(w, run))
    decreases |run|
  {
    if run != [] {
      CleanRun(w, run[..|run| - 1]);
      RunKeepsInv(w, run[..|run| - 1]);
      CleanStep(w, Exec(w, run[..|run| - 1]), run[|run| - 1]);
    }
  }

  /** How far the sweep has got with the call `c`, which has the entry of key `k`. */
  ghost predicate SweepAt(w: Workload, s: State, c: CallId, k: Key) {
    && c in s.calls && c < |w| && w[c].wait && KeyOf(w, c) == k
    && match s.timer
       case TSweeping(todo) => (k in todo && HasEntry(s, c, k)) || !s.calls[c].slot.chOpen
       case TClosing(_, d, _, Some(todo)) => (k in todo && HasEntry(s, c, k)) || !s.calls[c].slot.chOpen || d == c
       case TStopped => !s.calls[c].slot.chOpen
       case _ => false
  }

  lemma {:induction false} SweepTimer(w: Workload, s: State, a: TimerAct, c: CallId, k: Key)
    requires UniqueKeys(w) && OwnershipInv(w, s) && HandledInv(w, s) && SweepAt(w, s, c, k) && TimerEnabled(s, a)
    ensures SweepAt(w, DoTimer(s, a), c, k)
  {
    if s.timer.TClosing? && s.timer.key == k {
      SameKeySameCall(w, s.timer.call, c);
    }
  }

  lemma {:induction false} SweepCaller(w: Workload, s: State, d: CallId, a: CallerAct, c: CallId, k: Key)
    requires UniqueKeys(w) && OwnershipInv(w, s) && CleanInv(s) && SweepAt(w, s, c, k) && CallerEnabled(w, s, d, a)
    requires !CallPanics(if a.Start? then NEW_CALL else s.calls[d], a)
    ensures SweepAt(w, DoCaller(w, s, d, a), c, k)
  {
    if a.DeleteEntry? && KeyOf(w, d) == k {
      assert w[d].wait;
      SameKeySameCall(w, c, d);
    }
  }

  lemma {:induction false} SweepStep(w: Workload, s: State, a: Action, c: CallId, k: Key)
    requires UniqueKeys(w) && OwnershipInv(w, s) && LockInv(s) && HandledInv(w, s) && CleanInv(s)
    requires SweepAt(w, s, c, k) && Enabled(w, s, a)
    ensures SweepAt(w, Do(w, s, a), c, k)
  {
    match a
    case ByCaller(d, ca) =>
      LockStep(w, s, a);
      SweepCaller(w, s, d, ca, c, k);
    case ByTimer(ta) => SweepTimer(w, s, ta, c, k);
    case _ =>
  }

  lemma {:induction false} SweepRun(w: Workload, run: seq<Action>, n: nat, c: CallId)
    requires UniqueKeys(w) && ValidRun(w, run) && n < |run| && ValidRun(w, run[..n]) && run[n] == ByTimer(Sweep)
    requires c < |w| && w[c].wait && c in Exec(w, run[..n]).calls && HasEntry(Exec(w, run[..n]), c, KeyOf(w, c))
    ensures SweepAt(w, Exec(w, run), c, KeyOf(w, c))
    decreases |run|
  {
    if n < |run| - 1 {
      var past := run[..|run| - 1];
      assert past[..n] == run[..n];
      SweepRun(w, past, n, c);
      RunKeepsInv(w, past);
      UniqueRun(w, past);
      CleanRun(w, past);
      SweepStep(w, Exec(w, past), run[|run| - 1], c, KeyOf(w, c));
    }
  }

  /** With unique keys, whoever had a table entry when the sweep began has a closed channel when it is over. */
  lemma {:induction false} SweepTellsEveryone(w: Workload, run: seq<Action>, n: nat, c: CallId)
    requires UniqueKeys(w) && ValidRun(w, run) && n < |run| && ValidRun(w, run[..n]) && run[n] == ByTimer(Sweep)
    requires c < |w| && w[c].wait && c in Exec(w, run[..n]).calls && HasEntry(Exec(w, run[..n]), c, KeyOf(w, c))
    requires Exec(w, run).timer.TStopped?
    ensures c in Exec(w, run).calls && !Exec(w, run).calls[c].slot.chOpen
  {
    SweepRun(w, run, n, c);
  }

  /** The timer goroutine has stopped exactly when its sweep was over; then no timeout is left in the queue. */
  lemma {:induction false} TimerStopsIff(w: Workload, run: seq<Action>)
    requires ValidRun(w, run)
    ensures Exec(w, run).timer.TStopped? <==> ByTimer(StopTimer) in run
    ensures run != [] && run[|run| - 1] == ByTimer(StopTimer) ==> Exec(w, run).queue.queued == multiset{}
    decreases |run|
  {
    if run != [] {
      var past, a := run[..|run| - 1], run[|run| - 1];
      TimerStopsIff(w, past);
      assert run == past + [a];
      TimerStopStep(w, Exec(w, past), a);
    }
  }

  lemma {:induction false} TimerStopStep(w: Workload, s: State, a: Action)
    requires Enabled(w, s, a)
    ensures Do(w, s, a).timer.TStopped? <==> s.timer.TStopped? || a == ByTimer(StopTimer)
    ensures a == ByTimer(StopTimer) ==> Do(w, s, a).queue.queued == multiset{}
  {}
}
