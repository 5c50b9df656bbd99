/** Stretches of a hub session that the counterexamples are put together from. */
module Scenarios {
  import opened Messages
  import opened WaitValue
  import opened Correlator

  const CLOSED := Slot(false, true, false, None)

  lemma {:induction false} CallerMoves(w: Workload, s: State, s1: State, c: CallId, a: CallerAct) returns (s2: State)
    requires Path(w, s, s1) && !s1.panicked && CallerEnabled(w, s1, c, a)
    ensures Path(w, s, s2) && s2 == DoCaller(w, s1, c, a)
  {
    s2 := PathStep(w, s, s1, ByCaller(c, a));
  }

  lemma {:induction false} TimerMoves(w: Workload, s: State, s1: State, a: TimerAct) returns (s2: State)
    requires Path(w, s, s1) && !s1.panicked && TimerEnabled(s1, a)
    ensures Path(w, s, s2) && s2 == DoTimer(s1, a)
  {
    s2 := PathStep(w, s, s1, ByTimer(a));
  }

  lemma {:induction false} ReceiverMoves(w: Workload, s: State, s1: State, a: RecvAct) returns (s2: State)
    requires Path(w, s, s1) && !s1.panicked && RecvEnabled(s1, a) && !a.Decode?
    ensures Path(w, s, s2) && s2 == DoRecv(s1, a)
  {
    s2 := PathStep(w, s, s1, ByReceiver(a));
  }

  /** The timer takes one step of closing the wait value it has loaded. */
  lemma {:induction false} TimerCloseMoves(w: Workload, s: State, s1: State, c: CallId, o: Outcome) returns (s2: State)
    requires Path(w, s, s1) && !s1.panicked && s1.timer.TClosing? && s1.timer.call == c && c in s1.calls
    requires LockReady(s1.calls[c].slot, s1.timer.st) && o == CloseStep(s1.calls[c].slot, s1.timer.st) && o.Next?
    ensures Path(w, s, s2)
    ensures s2 == s1.(calls := s1.calls[c := s1.calls[c].(slot := o.slot)], timer := s1.timer.(st := o.st))
  {
    s2 := TimerMoves(w, s, s1, CloseLoaded);
  }

  /** A caller takes one step of closing its own wait value. */
  lemma {:induction false} CallerCloseMoves(w: Workload, s: State, s1: State, c: CallId, o: Outcome) returns (s2: State)
    requires Path(w, s, s1) && !s1.panicked && c < |w| && c in s1.calls && s1.calls[c].pc.Closing?
    requires LockReady(s1.calls[c].slot, s1.calls[c].pc.st)
    requires o == CloseStep(s1.calls[c].slot, s1.calls[c].pc.st) && o.Next?
    ensures Path(w, s, s2)
    ensures s2 == s1.(calls := s1.calls[c := Call(Closing(o.st), o.slot, s1.calls[c].res)])
  {
    s2 := CallerMoves(w, s, s1, c, CloseOwn);
  }

  lemma {:induction false} Overwrite(m: map<CallId, Call>, c: CallId, x: Call, y: Call)
    ensures m[c := x][c := y] == m[c := y]
  {}

  lemma {:induction false} Stores(w: Workload, s: State, c: CallId) returns (s': State)
    requires c < |w| && w[c].wait && c !in s.calls && KeyOf(w, c) !in s.table && !s.panicked
    ensures Path(w, s, s')
    ensures s' == s.(calls := s.calls[c := Call(Offering, FRESH, Pending)], table := s.table[KeyOf(w, c) := c])
  {
    PathStart(w, s);
    var s1 := CallerMoves(w, s, s, c, Start);
    s' := CallerMoves(w, s, s1, c, LoadOrStore);
    Overwrite(s.calls, c, NEW_CALL, Call(Offering, FRESH, Pending));
  }

  lemma {:induction false} Offers(w: Workload, s: State, s1: State, c: CallId) returns (s2: State)
    requires Path(w, s, s1) && !s1.panicked && c < |w| && c in s1.calls && s1.calls[c].pc.Offering?
    ensures Path(w, s, s2)
    ensures s2 == s1.(calls := s1.calls[c := s1.calls[c].(pc := Writing)],
                      queue := s1.queue.(queued := s1.queue.queued + multiset{KeyOf(w, c)},
                                         history := s1.queue.history + [Armed(c)]))
  {
    s2 := CallerMoves(w, s, s1, c, Offer);
  }

  /** An awaiting call gets as far as waiting for its reply. */
  lemma {:induction false} Registers(w: Workload, s: State, c: CallId) returns (s': State)
    requires c < |w| && w[c].wait && c !in s.calls && KeyOf(w, c) !in s.table && s.out.cmdCh.None? && !s.panicked
    ensures Path(w, s, s')
    ensures s' == s.(calls := s.calls[c := Call(Awaiting, FRESH, Pending)],
                     table := s.table[KeyOf(w, c) := c],
                     queue := s.queue.(queued := s.queue.queued + multiset{KeyOf(w, c)},
                                       history := s.queue.history + [Armed(c)]),
                     out := s.out.(cmdCh := Some(w[c].cmd)),
                     issued := s.issued + [c])
  {
    var x, y, z := Call(Offering, FRESH, Pending), Call(Writing, FRESH, Pending), Call(Awaiting, FRESH, Pending);
    var s2 := Stores(w, s, c);
    var s3 := Offers(w, s, s2, c);
    Overwrite(s.calls, c, x, y);
    s' := CallerMoves(w, s, s3, c, WriteCmd);
    Overwrite(s.calls, c, y, z);
  }

  lemma {:induction false} Encodes(w: Workload, s: State) returns (s': State)
    requires s.out.cmdCh.Some? && !s.panicked
    ensures Path(w, s, s')
    ensures s' == s.(out := s.out.(cmdCh := None, wire := s.out.wire + [s.out.cmdCh.value]))
  {
    PathStart(w, s);
    s' := PathStep(w, s, s, ByEncoder(EncodeCmd));
  }

  /** The timeout of a fresh waiter is handled completely before the waiter notices. */
  lemma {:induction false} TimesOut(w: Workload, s: State, k: Key) returns (s': State)
    requires !s.panicked && s.timer.TIdle? && k in s.queue.queued && k in s.table
    requires s.table[k] in s.calls && s.calls[s.table[k]].slot == FRESH
    ensures Path(w, s, s')
    ensures var c := s.table[k];
      s' == s.(calls := s.calls[c := s.calls[c].(slot := CLOSED)],
               table := s.table - {k},
               queue := s.queue.(queued := s.queue.queued - multiset{k}, history := s.queue.history + [Expired(k)]))
  {
    var c := s.table[k];
    var call := s.calls[c];
    PathStart(w, s);
    var s1 := TimerMoves(w, s, s, Expire(k));
    var s2 := TimerMoves(w, s, s1, Take(k));
    assert s2.queue == s.queue.(queued := s.queue.queued - multiset{k}, history := s.queue.history + [Expired(k)]);
    var s3 := TimerMoves(w, s, s2, LoadEntry);
    var s7 := TimerCloses(w, s, s3, c);
    var s8 := TimerMoves(w, s, s7, DeleteLoaded);
    s' := s8;
  }

  lemma {:induction false} TimerCloses(w: Workload, s: State, s1: State, c: CallId) returns (s': State)
    requires Path(w, s, s1) && !s1.panicked
    requires c in s1.calls && s1.calls[c].slot == FRESH
    requires s1.timer.TClosing? && s1.timer.call == c && s1.timer.st.Spin?
    ensures Path(w, s, s')
    ensures s' == s1.(calls := s1.calls[c := s1.calls[c].(slot := CLOSED)], timer := s1.timer.(st := Fin))
  {
    var call := s1.calls[c];
    var m := s1.calls;
    var x2, x3, x4, x5 := call.(slot := Slot(true, false, true, None)), call.(slot := Slot(true, true, true, None)),
      call.(slot := Slot(true, true, false, None)), call.(slot := CLOSED);
    var s2 := TimerCloseMoves(w, s, s1, c, Next(x2.slot, Test));
    var s3 := TimerCloseMoves(w, s, s2, c, Next(x3.slot, Act));
    Overwrite(m, c, x2, x3);
    var s4 := TimerCloseMoves(w, s, s3, c, Next(x4.slot, Unlock));
    Overwrite(m, c, x3, x4);
    s' := TimerCloseMoves(w, s, s4, c, Next(x5.slot, Fin));
    Overwrite(m, c, x4, x5);
  }

  lemma {:induction false} CallerCloses(w: Workload, s: State, s1: State, c: CallId) returns (s': State)
    requires Path(w, s, s1) && c < |w| && !s1.panicked
    requires c in s1.calls && s1.calls[c].pc == Closing(Spin) && s1.calls[c].slot == CLOSED
    ensures Path(w, s, s')
    ensures s' == s1.(calls := s1.calls[c := s1.calls[c].(pc := Closing(Fin))])
  {
    var m, res := s1.calls, s1.calls[c].res;
    var locked := CLOSED.(working := true);
    var x2, x3 := Call(Closing(Test), locked, res), Call(Closing(Unlock), locked, res);
    var x4 := Call(Closing(Fin), CLOSED, res);
    var s2 := CallerCloseMoves(w, s, s1, c, Next(x2.slot, Test));
    var s3 := CallerCloseMoves(w, s, s2, c, Next(x3.slot, Unlock));
    Overwrite(m, c, x2, x3);
    s' := CallerCloseMoves(w, s, s3, c, Next(x4.slot, Fin));
    Overwrite(m, c, x3, x4);
  }

  lemma {:induction false} NoticesTimeout(w: Workload, s: State, c: CallId) returns (s': State)
    requires c < |w| && !s.panicked && c in s.calls && s.calls[c] == Call(Awaiting, CLOSED, Pending)
    ensures Path(w, s, s')
    ensures s' == s.(calls := s.calls[c := Call(Closing(Spin), CLOSED, TimedOut)],
                     queue := s.queue.(queued := s.queue.queued[KeyOf(w, c) := 0]))
  {
    PathStart(w, s);
    var s1 := CallerMoves(w, s, s, c, TakeReply);
    s' := CallerMoves(w, s, s1, c, RemoveTimer);
    Overwrite(s.calls, c, Call(Removing, CLOSED, TimedOut), Call(Closing(Spin), CLOSED, TimedOut));
  }

  /** A caller whose wait value was closed under it notices the timeout and cleans up. */
  lemma {:induction false} CleansUp(w: Workload, s: State, c: CallId) returns (s': State)
    requires c < |w| && !s.panicked && c in s.calls && s.calls[c] == Call(Awaiting, CLOSED, Pending)
    ensures Path(w, s, s')
    ensures s' == s.(calls := s.calls[c := Call(Returned, CLOSED, TimedOut)],
                     table := s.table - {KeyOf(w, c)},
                     queue := s.queue.(queued := s.queue.queued[KeyOf(w, c) := 0]))
  {
    var s2 := NoticesTimeout(w, s, c);
    var s3 := CallerCloses(w, s, s2, c);
    s' := CallerMoves(w, s, s3, c, DeleteEntry);
    assert s'.calls == s.calls[c := Call(Returned, CLOSED, TimedOut)];
  }

  /** A command sent without waiting is in the command channel. */
  lemma {:induction false} Issues(w: Workload, s: State, d: CallId) returns (s': State)
    requires d < |w| && !w[d].wait && d !in s.calls && s.out.cmdCh.None? && !s.panicked
    ensures Path(w, s, s')
    ensures s' == s.(calls := s.calls[d := Call(Returned, FRESH, NoReply)],
                     out := s.out.(cmdCh := Some(w[d].cmd)),
                     issued := s.issued + [d])
  {
    PathStart(w, s);
    var s1 := CallerMoves(w, s, s, d, Start);
    s' := CallerMoves(w, s, s1, d, WriteCmd);
    Overwrite(s.calls, d, Call(Writing, FRESH, Pending), Call(Returned, FRESH, NoReply));
  }

  /** A keepalive ping goes out. */
  lemma {:induction false} Pings(w: Workload, s: State) returns (s': State)
    requires !s.panicked && s.timer.TIdle? && !s.out.pingReady
    ensures Path(w, s, s') && s' == s.(out := s.out.(wire := s.out.wire + [PING]))
  {
    PathStart(w, s);
    var s1 := TimerMoves(w, s, s, Keepalive);
    s' := PathStep(w, s, s1, ByEncoder(EncodePing));
  }

  lemma {:induction false} SendsToFresh(w: Workload, s: State, s1: State, c: CallId) returns (s': State)
    requires Path(w, s, s1) && !s1.panicked && c in s1.calls && s1.calls[c].slot == FRESH
    requires s1.recv.RSending? && s1.recv.call == c && s1.recv.st.Spin?
    ensures Path(w, s, s')
    ensures s' == s1.(calls := s1.calls[c := s1.calls[c].(slot := FRESH.(buf := Some(s1.recv.msg)))],
                      recv := RIdle, log := s'.log)
  {
    var m, call := s1.calls, s1.calls[c];
    var x2, x4 := call.(slot := FRESH.(working := true)), call.(slot := Slot(true, false, true, Some(s1.recv.msg)));
    var s2 := ReceiverMoves(w, s, s1, SendOn);
    var s3 := ReceiverMoves(w, s, s2, SendOn);
    Overwrite(m, c, x2, x2);
    var s4 := ReceiverMoves(w, s, s3, SendOn);
    Overwrite(m, c, x2, x4);
    s' := ReceiverMoves(w, s, s4, SendOn);
    Overwrite(m, c, x4, call.(slot := FRESH.(buf := Some(s1.recv.msg))));
  }

  /** A message with the key of a fresh waiter is what that waiter returns. */
  lemma {:induction false} Delivers(w: Workload, s: State, c: CallId) returns (s': State)
    requires !s.panicked && !s.cancelled && s.recv.RChecking? && c < |w|
    requires MsgKey(s.recv.msg) in s.table && s.table[MsgKey(s.recv.msg)] == c
    requires c in s.calls && s.calls[c] == Call(Awaiting, FRESH, Pending)
    ensures Path(w, s, s')
    ensures s' == s.(calls := s.calls[c := Call(Removing, FRESH, Reply(s.recv.msg))], recv := RIdle, log := s'.log)
  {
    PathStart(w, s);
    var s1 := ReceiverMoves(w, s, s, CheckCancelled);
    var s2 := ReceiverMoves(w, s, s1, LookUp);
    var s3 := SendsToFresh(w, s, s2, c);
    s' := CallerMoves(w, s, s3, c, TakeReply);
    var buffered := FRESH.(buf := Some(s.recv.msg));
    Overwrite(s.calls, c, Call(Awaiting, buffered, Pending), Call(Removing, FRESH, Reply(s.recv.msg)));
  }

  /** A timeout expires and the timer goroutine takes it, without having looked at the table yet. */
  lemma {:induction false} TimerTakes(w: Workload, s: State, k: Key) returns (s': State)
    requires !s.panicked && s.timer.TIdle? && k in s.queue.queued
    ensures Path(w, s, s')
    ensures s' == s.(timer := TLoading(k),
                     queue := s.queue.(queued := s.queue.queued - multiset{k},
                                       history := s.queue.history + [Expired(k)]))
  {
    PathStart(w, s);
    var s1 := TimerMoves(w, s, s, Expire(k));
    s' := TimerMoves(w, s, s1, Take(k));
    assert s'.queue.fired == s.queue.fired;
  }

  /** A caller that has its reply closes its wait value, which nobody else has closed. */
  lemma {:induction false} CallerClosesOpen(w: Workload, s: State, s1: State, c: CallId) returns (s': State)
    requires Path(w, s, s1) && c < |w| && !s1.panicked
    requires c in s1.calls && s1.calls[c].pc == Closing(Spin) && s1.calls[c].slot == FRESH
    ensures Path(w, s, s')
    ensures s' == s1.(calls := s1.calls[c := Call(Closing(Fin), CLOSED, s1.calls[c].res)])
  {
    var m, res := s1.calls, s1.calls[c].res;
    var x2 := Call(Closing(Test), Slot(true, false, true, None), res);
    var x3 := Call(Closing(Act), Slot(true, true, true, None), res);
    var x4, x5 := Call(Closing(Unlock), Slot(true, true, false, None), res), Call(Closing(Fin), CLOSED, res);
    var s2 := CallerCloseMoves(w, s, s1, c, Next(x2.slot, Test));
    var s3 := CallerCloseMoves(w, s, s2, c, Next(x3.slot, Act));
    Overwrite(m, c, x2, x3);
    var s4 := CallerCloseMoves(w, s, s3, c, Next(x4.slot, Unlock));
    Overwrite(m, c, x3, x4);
    s' := CallerCloseMoves(w, s, s4, c, Next(x5.slot, Fin));
    Overwrite(m, c, x4, x5);
  }

  /** A caller that has its reply cleans up and returns. */
  lemma {:induction false} ReturnsReply(w: Workload, s: State, c: CallId, res: Result) returns (s': State)
    requires c < |w| && !s.panicked && c in s.calls && s.calls[c] == Call(Removing, FRESH, res)
    ensures Path(w, s, s')
    ensures s' == s.(calls := s.calls[c := Call(Returned, CLOSED, res)],
                     table := s.table - {KeyOf(w, c)},
                     queue := s.queue.(queued := s.queue.queued[KeyOf(w, c) := 0]))
  {
    PathStart(w, s);
    var x, y := Call(Closing(Spin), FRESH, res), Call(Closing(Fin), CLOSED, res);
    var s1 := CallerMoves(w, s, s, c, RemoveTimer);
    var s2 := CallerClosesOpen(w, s, s1, c);
    Overwrite(s.calls, c, x, y);
    s' := CallerMoves(w, s, s2, c, DeleteEntry);
    Overwrite(s.calls, c, y, Call(Returned, CLOSED, res));
  }

  /** The timer goroutine loads whoever has the key now and closes its wait value. */
  lemma {:induction false} TimerHits(w: Workload, s: State, c: CallId) returns (s': State)
    requires !s.panicked && c < |w| && s.timer.TLoading? && s.timer.key in s.table && s.table[s.timer.key] == c
    requires c in s.calls && s.calls[c] == Call(Awaiting, FRESH, Pending)
    ensures Path(w, s, s')
    ensures s' == s.(calls := s.calls[c := Call(Removing, CLOSED, TimedOut)], timer := s'.timer)
  {
    PathStart(w, s);
    var s1 := TimerMoves(w, s, s, LoadEntry);
    var s2 := TimerCloses(w, s, s1, c);
    s' := CallerMoves(w, s, s2, c, TakeReply);
    Overwrite(s.calls, c, Call(Awaiting, CLOSED, Pending), Call(Removing, CLOSED, TimedOut));
  }
}
