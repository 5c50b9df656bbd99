/**
 What becomes of a `sendCmd` call, over every run. A call that finds its key taken is rejected: it is never
 written, never times anything, and ends as a duplicate; no other call does. A call that does not wait ends
 without a reply exactly when its command was written.
 */
module CallOutcomes {
  import opened Messages
  import opened WaitValue
  import opened Correlator
  import opened CorrelatorSafety
  import opened Scenarios

  /** Call `c` comes to store its wait value and finds its id and sequence number taken. */
  predicate FindsTaken(w: Workload, s: State, a: Action, c: CallId) {
    a == ByCaller(c, LoadOrStore) && c < |w| && Key(w[c].cmd.id, w[c].cmd.seqNo) in s.table
  }

  /** That was so at some step of the run. */
  ghost predicate FoundTaken(w: Workload, run: seq<Action>, c: CallId)
    requires ValidRun(w, run)
    decreases |run|
  {
    run != [] && (var past := run[..|run| - 1];
                  FoundTaken(w, past, c) || FindsTaken(w, Exec(w, past), run[|run| - 1], c))
  }

  // ---------------------------------------------------------------------------------------
  // A duplicate does nothing but end as one
  // ---------------------------------------------------------------------------------------

  /** A timeout is offered only by a call that has its entry. */
  ghost predicate ArmedInv(s: State) {
    forall c: CallId :: Armed(c) in s.queue.history ==>
      c in s.calls && !s.calls[c].pc.Begin? && !s.calls[c].pc.Rejecting? && !s.calls[c].res.Duplicate?
  }

  predicate Turned(call: Call) {
    call.pc.Rejecting? || call.res.Duplicate?
  }

  predicate TurnedOk(call: Call) {
    Turned(call) ==> (call.pc.Rejecting? && call.res.Pending?) || (call.pc.Returned? && call.res.Duplicate?)
  }

  ghost predicate TurnedInv(s: State) {
    forall c :: c in s.calls ==> TurnedOk(s.calls[c])
  }

  /** Being turned away starts at a taken LoadOrStore and stays. */
  lemma {:induction false} OwnTurn(call: Call, wait: bool, taken: bool, cancelled: bool, out: Output, a: CallerAct)
    requires CallReady(call, cancelled, out, a) && ResultOk(call, cancelled) && TurnedOk(call)
    requires a.Start? ==> call == NEW_CALL
    ensures var call' := CallAfter(call, wait, taken, a);
      TurnedOk(call') && (Turned(call') <==> Turned(call) || (a.LoadOrStore? && taken))
  {}

  lemma {:induction false} TurnCaller(w: Workload, s: State, c: CallId, a: CallerAct)
    requires ResultInv(s) && TurnedInv(s) && CallerEnabled(w, s, c, a)
    ensures var s' := DoCaller(w, s, c, a);
      && TurnedInv(s') && c in s'.calls
      && (Turned(s'.calls[c]) <==> (c in s.calls && Turned(s.calls[c])) || (a.LoadOrStore? && KeyOf(w, c) in s.table))
  {
    var call := if a.Start? then NEW_CALL else s.calls[c];
    assert ResultOk(call, s.cancelled);
    OwnTurn(call, w[c].wait, KeyOf(w, c) in s.table, s.cancelled, s.out, a);
  }

  lemma {:induction false} OthersKeepCalls(w: Workload, s: State, a: Action, c: CallId)
    requires Enabled(w, s, a) && !(a.ByCaller? && a.c == c)
    ensures var s' := Do(w, s, a);
      && (c in s'.calls <==> c in s.calls)
      && (c in s.calls ==> s'.calls[c].pc == s.calls[c].pc && s'.calls[c].res == s.calls[c].res)
  {}

  lemma {:induction false} TurnStep(w: Workload, s: State, a: Action, c: CallId)
    requires ResultInv(s) && TurnedInv(s) && Enabled(w, s, a) && c in Do(w, s, a).calls
    ensures TurnedOk(Do(w, s, a).calls[c])
    ensures Turned(Do(w, s, a).calls[c]) <==>
      (c in s.calls && Turned(s.calls[c])) || FindsTaken(w, s, a, c)
  {
    if a.ByCaller? && a.c == c {
      TurnCaller(w, s, c, a.ca);
    } else {
      OthersKeepCalls(w, s, a, c);
    }
  }

  lemma {:induction false} ArmedStep(w: Workload, s: State, a: Action)
    requires ArmedInv(s) && ResultInv(s) && TurnedInv(s) && Enabled(w, s, a)
    ensures ArmedInv(Do(w, s, a))
  {
    var s' := Do(w, s, a);
    forall c: CallId | Armed(c) in s'.queue.history
      ensures c in s'.calls && !s'.calls[c].pc.Begin? && !s'.calls[c].pc.Rejecting? && !s'.calls[c].res.Duplicate?
    {
      if a.ByCaller? && a.c == c {
        TurnCaller(w, s, c, a.ca);
      } else {
        OthersKeepCalls(w, s, a, c);
        assert Armed(c) in s.queue.history;
      }
    }
  }

  lemma {:induction false} TurnedStep(w: Workload, s: State, a: Action)
    requires ResultInv(s) && TurnedInv(s) && Enabled(w, s, a)
    ensures TurnedInv(Do(w, s, a))
  {
    forall c | c in Do(w, s, a).calls ensures TurnedOk(Do(w, s, a).calls[c]) {
      TurnStep(w, s, a, c);
    }
  }

  lemma {:induction false} OutcomeRun(w: Workload, run: seq<Action>)
    requires ValidRun(w, run)
    ensures ArmedInv(Exec(w, run)) && TurnedInv(Exec(w, run))
    decreases |run|
  {
    if run != [] {
      var past, a := run[..|run| - 1], run[|run| - 1];
      OutcomeRun(w, past);
      RunKeepsInv(w, past);
      ArmedStep(w, Exec(w, past), a);
      TurnedStep(w, Exec(w, past), a);
    }
  }

  lemma {:induction false} TurnedIff(w: Workload, run: seq<Action>, c: CallId)
    requires ValidRun(w, run)
    ensures FoundTaken(w, run, c) <==> c in Exec(w, run).calls && Turned(Exec(w, run).calls[c])
    decreases |run|
  {
    if run != [] {
      var past, a := run[..|run| - 1], run[|run| - 1];
      TurnedIff(w, past, c);
      OutcomeRun(w, past);
      RunKeepsInv(w, past);
      if c in Exec(w, run).calls {
        TurnStep(w, Exec(w, past), a, c);
      } else {
        OthersKeepCalls(w, Exec(w, past), a, c);
      }
    }
  }

  // ---------------------------------------------------------------------------------------
  // What was written
  // ---------------------------------------------------------------------------------------

  /** `sent` tells whether the command of the call has entered the command channel. */
  predicate SentOk(call: Call, wait: bool, sent: bool) {
    if wait then
      && (sent ==> Written(call.pc) && !call.res.Duplicate?)
      && (call.pc.Awaiting? || call.res.Reply? || call.res.TimedOut? ==> sent)
    else (call.res.NoReply? <==> sent) && !call.res.Reply? && !call.res.TimedOut?
  }

  ghost predicate SentInv(w: Workload, s: State) {
    && (forall c :: c in s.calls ==> c < |w| && SentOk(s.calls[c], w[c].wait, c in s.issued))
    && (forall c :: c in s.issued ==> c in s.calls)
  }

  lemma {:induction false} OwnSent(call: Call, wait: bool, taken: bool, cancelled: bool, out: Output, a: CallerAct,
                                   sent: bool)
    requires CallReady(call, cancelled, out, a) && ResultOk(call, cancelled)
    requires if a.Start? then call == NEW_CALL && !sent else KindOk(call, wait) && SentOk(call, wait, sent)
    ensures SentOk(CallAfter(call, wait, taken, a), wait, sent || a.WriteCmd?)
  {}

  lemma {:induction false} SentCaller(w: Workload, s: State, c: CallId, a: CallerAct)
    requires OwnershipInv(w, s) && ResultInv(s) && SentInv(w, s) && CallerEnabled(w, s, c, a)
    ensures SentOk(DoCaller(w, s, c, a).calls[c], w[c].wait, c in DoCaller(w, s, c, a).issued)
  {
    var call := if a.Start? then NEW_CALL else s.calls[c];
    assert ResultOk(call, s.cancelled);
    OwnSent(call, w[c].wait, KeyOf(w, c) in s.table, s.cancelled, s.out, a, c in s.issued);
  }

  /** Only writing a command adds to what was written. */
  lemma {:induction false} IssuedGrows(w: Workload, s: State, a: Action)
    requires Enabled(w, s, a)
    ensures Do(w, s, a).issued == if a.ByCaller? && a.ca.WriteCmd? then s.issued + [a.c] else s.issued
  {}

  lemma {:induction false} SentStep(w: Workload, s: State, a: Action)
    requires OwnershipInv(w, s) && ResultInv(s) && SentInv(w, s) && Enabled(w, s, a)
    ensures SentInv(w, Do(w, s, a))
  {
    var s' := Do(w, s, a);
    IssuedGrows(w, s, a);
    forall c | c in s'.calls ensures c < |w| && SentOk(s'.calls[c], w[c].wait, c in s'.issued) {
      if a.ByCaller? && a.c == c {
        SentCaller(w, s, c, a.ca);
      } else {
        OthersKeepCalls(w, s, a, c);
      }
    }
    forall c | c in s'.issued ensures c in s'.calls {
      if !(a.ByCaller? && a.c == c) {
        OthersKeepCalls(w, s, a, c);
      }
    }
  }

  lemma {:induction false} SentRun(w: Workload, run: seq<Action>)
    requires ValidRun(w, run)
    ensures SentInv(w, Exec(w, run))
    decreases |run|
  {
    if run != [] {
      SentRun(w, run[..|run| - 1]);
      RunKeepsInv(w, run[..|run| - 1]);
      SentStep(w, Exec(w, run[..|run| - 1]), run[|run| - 1]);
    }
  }

  /**
   The result tells whether the command was written: without a reply exactly when the call does not wait and
   was written; with a reply or a timeout only when it was; as a duplicate only when it was not; cancelled only
   in a cancelled session. A call that has returned has a result.
   */
  lemma {:induction false} ResultTellsWritten(w: Workload, run: seq<Action>, c: CallId)
    requires ValidRun(w, run) && c in Exec(w, run).calls
    ensures var s := Exec(w, run); c < |w| && Tells(s.calls[c], w[c].wait, c in s.issued, s.cancelled)
  {
    SentRun(w, run);
    RunKeepsInv(w, run);
    var s := Exec(w, run);
    SentTells(s.calls[c], w[c].wait, c in s.issued, s.cancelled);
  }

  predicate Tells(call: Call, wait: bool, sent: bool, cancelled: bool) {
    && (call.res.NoReply? <==> !wait && sent)
    && (call.res.Reply? || call.res.TimedOut? ==> wait && sent)
    && (call.res.Duplicate? ==> wait && !sent)
    && (call.res.Cancelled? ==> cancelled)
    && (call.pc.Returned? ==> !call.res.Pending?)
  }

  lemma {:induction false} SentTells(call: Call, wait: bool, sent: bool, cancelled: bool)
    requires SentOk(call, wait, sent) && ResultOk(call, cancelled) && KindOk(call, wait)
    ensures Tells(call, wait, sent, cancelled)
  {}

  /**
   A call that has found its key taken is being turned away or has ended as a duplicate, its command was never
   written and it never had a timeout; and a call ends as a duplicate only if it found its key taken.
   */
  lemma {:induction false} DuplicateIsRejected(w: Workload, run: seq<Action>, c: CallId)
    requires ValidRun(w, run)
    ensures var s := Exec(w, run);
      && (FoundTaken(w, run, c) ==>
            && c in s.calls && (s.calls[c].pc.Rejecting? || (s.calls[c].pc.Returned? && s.calls[c].res == Duplicate))
            && c !in s.issued && Armed(c) !in s.queue.history)
      && (c in s.calls && s.calls[c].res == Duplicate ==> FoundTaken(w, run, c))
  {
    TurnedIff(w, run, c);
    OutcomeRun(w, run);
    RunKeepsInv(w, run);
    SentRun(w, run);
  }

  lemma {:induction false} Rejects(w: Workload, s: State, s1: State, c: CallId, o: Outcome) returns (s2: State)
    requires Path(w, s, s1) && !s1.panicked && c < |w| && c in s1.calls && s1.calls[c].pc.Rejecting?
    requires LockReady(s1.calls[c].slot, s1.calls[c].pc.st)
    requires o == CloseStep(s1.calls[c].slot, s1.calls[c].pc.st) && o.Next?
    ensures Path(w, s, s2) && !s2.panicked && s2.cancelled == s1.cancelled && c in s2.calls
    ensures s2.calls[c] ==
      if o.st.Fin? then Call(Returned, o.slot, Duplicate) else Call(Rejecting(o.st), o.slot, s1.calls[c].res)
  {
    s2 := CallerMoves(w, s, s1, c, Reject);
  }

  /** It does come to that: while one call waits, another with its id and sequence number ends as a duplicate. */
  lemma {:induction false} DuplicateReturns(w: Workload, i: CallId, j: CallId) returns (s: State)
    requires i < |w| && j < |w| && i != j && w[i].wait && w[j].wait && SameIds(w[i].cmd, w[j].cmd)
    ensures Reachable(w, s) && !s.cancelled && j in s.calls && s.calls[j].pc.Returned? && s.calls[j].res == Duplicate
  {
    InitReachable(w);
    var s1 := Registers(w, INIT, i);
    ReachPath(w, INIT, s1);
    PathStart(w, s1);
    var s2 := CallerMoves(w, s1, s1, j, Start);
    var s3 := CallerMoves(w, s1, s2, j, LoadOrStore);
    s := RejectsFully(w, s1, s3, j);
    ReachPath(w, s1, s);
  }

  lemma {:induction false} RejectsFully(w: Workload, s: State, s1: State, c: CallId) returns (s2: State)
    requires Path(w, s, s1) && !s1.panicked && c < |w| && c in s1.calls
    requires s1.calls[c].pc == Rejecting(Spin) && s1.calls[c].slot == FRESH
    ensures Path(w, s, s2) && s2.cancelled == s1.cancelled && c in s2.calls
    ensures s2.calls[c].pc.Returned? && s2.calls[c].res == Duplicate
  {
    var s4 := Rejects(w, s, s1, c, Next(FRESH.(working := true), Test));
    var s5 := Rejects(w, s, s4, c, Next(Slot(true, true, true, None), Act));
    var s6 := Rejects(w, s, s5, c, Next(Slot(true, true, false, None), Unlock));
    s2 := Rejects(w, s, s6, c, Next(CLOSED, Fin));
  }
}
