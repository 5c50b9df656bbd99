/**
 Deserved timeouts. A caller that is told "timeout" expects that its own timeout expired, or that the
 session is over. The timer goroutine finds the wait value by key, some time after the key expired, so this
 holds exactly when no two awaiting commands of the session share a key.
 */
module DeservedTimeout {
  import opened Messages
  import opened WaitValue
  import opened Correlator
  import opened CorrelatorSafety
  import opened Scenarios
  import opened NoLostWaiter

  ghost predicate HasArmed(h: seq<Timeout>, c: CallId) {
    exists i :: 0 <= i < |h| && h[i] == Armed(c)
  }

  /** A timeout with this key has expired after the call offered its own. */
  ghost predicate OwnExpired(h: seq<Timeout>, c: CallId, k: Key) {
    exists i, j :: 0 <= i < j < |h| && h[i] == Armed(c) && h[j] == Expired(k)
  }

  ghost predicate Deserves(w: Workload, s: State, c: CallId)
    requires c < |w|
  {
    s.cancelled || OwnExpired(s.queue.history, c, KeyOf(w, c))
  }

  ghost predicate Deserved(w: Workload, s: State) {
    forall c: CallId :: c < |w| && c in s.calls && s.calls[c].res.TimedOut? ==> Deserves(w, s, c)
  }

  // ---------------------------------------------------------------------------------------
  // Unique keys suffice
  // ---------------------------------------------------------------------------------------

  ghost predicate ArmedInv(w: Workload, s: State) {
    forall c: CallId :: c < |w| && w[c].wait && KeyOf(w, c) in s.queue.queued ==> HasArmed(s.queue.history, c)
  }

  /** The timeout has left the queue and is on its way to the wait value. */
  predicate Fired(s: State, k: Key) {
    k in s.queue.fired || TimerOn(s.timer, k)
  }

  ghost predicate FiredInv(w: Workload, s: State) {
    forall c: CallId :: c < |w| && w[c].wait && Fired(s, KeyOf(w, c)) ==>
      OwnExpired(s.queue.history, c, KeyOf(w, c))
  }

  /** Closed by somebody else: before the call had a result, or with the timeout as its result. */
  predicate ClosedOnCaller(call: Call) {
    && !call.slot.chOpen
    && (call.res.TimedOut? || call.pc.Begin? || call.pc.Offering? || call.pc.Writing? || call.pc.Awaiting?)
  }

  ghost predicate ClosedInv(w: Workload, s: State) {
    forall c :: c in s.calls && c < |w| && ClosedOnCaller(s.calls[c]) ==> Deserves(w, s, c) && !s.calls[c].pc.Begin?
  }

  ghost predicate TimeoutInv(w: Workload, s: State) {
    ArmedInv(w, s) && FiredInv(w, s) && ClosedInv(w, s)
  }

  lemma {:induction false} HistoryGrows(h: seq<Timeout>, h': seq<Timeout>, c: CallId, k: Key)
    requires h <= h'
    ensures HasArmed(h, c) ==> HasArmed(h', c)
    ensures OwnExpired(h, c, k) ==> OwnExpired(h', c, k)
  {
    if HasArmed(h, c) {
      var i :| 0 <= i < |h| && h[i] == Armed(c);
      assert h'[i] == Armed(c);
    }
    if OwnExpired(h, c, k) {
      var i, j :| 0 <= i < j < |h| && h[i] == Armed(c) && h[j] == Expired(k);
      assert h'[i] == Armed(c) && h'[j] == Expired(k);
    }
  }

  lemma {:induction false} ArmedCaller(w: Workload, s: State, c: CallId, a: CallerAct)
    requires UniqueKeys(w) && OwnershipInv(w, s) && ArmedInv(w, s) && CallerEnabled(w, s, c, a)
    ensures ArmedInv(w, DoCaller(w, s, c, a))
  {
    var q, q' := s.queue, QueueAfter(s.queue, KeyOf(w, c), c, a);
    forall d: CallId | d < |w| && w[d].wait && KeyOf(w, d) in q'.queued ensures HasArmed(q'.history, d) {
      if a.Offer? && KeyOf(w, d) == KeyOf(w, c) {
        assert w[c].wait;
        SameKeySameCall(w, c, d);
        assert q'.history[|q.history|] == Armed(d);
      } else {
        assert KeyOf(w, d) in q.queued;
        HistoryGrows(q.history, q'.history, d, KeyOf(w, d));
      }
    }
  }

  lemma {:induction false} ArmedTimer(w: Workload, s: State, a: TimerAct)
    requires ArmedInv(w, s) && TimerEnabled(s, a)
    ensures ArmedInv(w, DoTimer(s, a))
  {
    var q, q' := s.queue, ExpiryAfter(s.queue, a);
    forall d: CallId | d < |w| && w[d].wait && KeyOf(w, d) in q'.queued ensures HasArmed(q'.history, d) {
      assert KeyOf(w, d) in q.queued;
      HistoryGrows(q.history, q'.history, d, KeyOf(w, d));
    }
  }

  lemma {:induction false} FiredCaller(w: Workload, s: State, c: CallId, a: CallerAct)
    requires FiredInv(w, s) && CallerEnabled(w, s, c, a)
    ensures FiredInv(w, DoCaller(w, s, c, a))
  {
    var q, q' := s.queue, QueueAfter(s.queue, KeyOf(w, c), c, a);
    forall d: CallId | d < |w| && w[d].wait && Fired(DoCaller(w, s, c, a), KeyOf(w, d))
      ensures OwnExpired(q'.history, d, KeyOf(w, d))
    {
      assert Fired(s, KeyOf(w, d));
      HistoryGrows(q.history, q'.history, d, KeyOf(w, d));
    }
  }

  lemma {:induction false} FiredOnlyMoves(s: State, a: TimerAct, k: Key)
    requires TimerEnabled(s, a) && Fired(DoTimer(s, a), k)
    ensures Fired(s, k) || a == Expire(k)
  {}

  lemma {:induction false} FiredTimer(w: Workload, s: State, a: TimerAct)
    requires ArmedInv(w, s) && FiredInv(w, s) && TimerEnabled(s, a)
    ensures FiredInv(w, DoTimer(s, a))
  {
    var h, h' := s.queue.history, ExpiryAfter(s.queue, a).history;
    forall d: CallId | d < |w| && w[d].wait && Fired(DoTimer(s, a), KeyOf(w, d))
      ensures OwnExpired(h', d, KeyOf(w, d))
    {
      FiredOnlyMoves(s, a, KeyOf(w, d));
      if a == Expire(KeyOf(w, d)) {
        var i :| 0 <= i < |h| && h[i] == Armed(d);
        assert h'[i] == Armed(d) && h'[|h|] == Expired(KeyOf(w, d));
      } else {
        HistoryGrows(h, h', d, KeyOf(w, d));
      }
    }
  }

  /** What a caller's own step does to its wait value before it has a result. */
  lemma {:induction false} OwnClosed(call: Call, wait: bool, taken: bool, cancelled: bool, out: Output, a: CallerAct)
    requires CallReady(call, cancelled, out, a) && ResultOk(call, cancelled) && (a.Start? ==> call == NEW_CALL)
    ensures var call' := CallAfter(call, wait, taken, a);
      ClosedOnCaller(call') ==> ClosedOnCaller(call) && !call'.pc.Begin?
  {}

  lemma {:induction false} ClosedCaller(w: Workload, s: State, c: CallId, a: CallerAct)
    requires ResultInv(s) && ClosedInv(w, s) && CallerEnabled(w, s, c, a)
    ensures ClosedInv(w, DoCaller(w, s, c, a))
  {
    var s' := DoCaller(w, s, c, a);
    var call := if a.Start? then NEW_CALL else s.calls[c];
    assert ResultOk(call, s.cancelled);
    OwnClosed(call, w[c].wait, KeyOf(w, c) in s.table, s.cancelled, s.out, a);
    forall d | d in s'.calls && d < |w| && ClosedOnCaller(s'.calls[d])
      ensures Deserves(w, s', d) && !s'.calls[d].pc.Begin?
    {
      assert d in s.calls && ClosedOnCaller(s.calls[d]);
      HistoryGrows(s.queue.history, s'.queue.history, d, KeyOf(w, d));
    }
  }

  /** The timer goroutine closes the wait value of one call, and only because of its key or a cancellation. */
  lemma {:induction false} ClosedByTimer(w: Workload, s: State, a: TimerAct, d: CallId)
    requires OwnershipInv(w, s) && FiredInv(w, s) && ClosedInv(w, s) && TimerEnabled(s, a)
    requires d in s.calls && d < |w| && ClosedOnCaller(DoTimer(s, a).calls[d])
    ensures Deserves(w, s, d) && !s.calls[d].pc.Begin?
  {
    if s.calls[d].slot.chOpen {
      assert a.CloseLoaded? && s.timer.call == d && Waits(w, s, d, s.timer.key);
      assert s.timer.sweep.Some? || Fired(s, KeyOf(w, d));
    }
  }

  lemma {:induction false} ClosedTimer(w: Workload, s: State, a: TimerAct)
    requires OwnershipInv(w, s) && FiredInv(w, s) && ClosedInv(w, s) && TimerEnabled(s, a)
    ensures ClosedInv(w, DoTimer(s, a))
  {
    var s' := DoTimer(s, a);
    forall d | d in s'.calls && d < |w| && ClosedOnCaller(s'.calls[d])
      ensures Deserves(w, s', d) && !s'.calls[d].pc.Begin?
    {
      ClosedByTimer(w, s, a, d);
      HistoryGrows(s.queue.history, s'.queue.history, d, KeyOf(w, d));
    }
  }

  /** The receive goroutine, the encoder and cancellation close nothing. */
  lemma {:induction false} TimeoutFrame(w: Workload, s: State, s': State)
    requires TimeoutInv(w, s) && s'.queue == s.queue && s'.timer == s.timer && (s.cancelled ==> s'.cancelled)
    requires s'.calls.Keys == s.calls.Keys
    requires forall c :: c in s.calls ==>
      && s'.calls[c].pc == s.calls[c].pc && s'.calls[c].res == s.calls[c].res
      && s'.calls[c].slot.chOpen == s.calls[c].slot.chOpen
    ensures TimeoutInv(w, s')
  {
    forall c | c in s.calls ensures ClosedOnCaller(s'.calls[c]) == ClosedOnCaller(s.calls[c]) {}
    forall k ensures Fired(s', k) == Fired(s, k) {}
  }

  lemma {:induction false} TimeoutRecv(w: Workload, s: State, a: RecvAct)
    requires TimeoutInv(w, s) && RecvEnabled(s, a)
    ensures TimeoutInv(w, DoRecv(s, a))
  {
    TimeoutFrame(w, s, DoRecv(s, a));
  }

  lemma {:induction false} TimeoutStep(w: Workload, s: State, a: Action)
    requires UniqueKeys(w) && OwnershipInv(w, s) && ResultInv(s) && TimeoutInv(w, s) && Enabled(w, s, a)
    ensures TimeoutInv(w, Do(w, s, a))
  {
    match a
    case ByCaller(c, ca) =>
      ArmedCaller(w, s, c, ca);
      FiredCaller(w, s, c, ca);
      ClosedCaller(w, s, c, ca);
    case ByTimer(ta) =>
      ArmedTimer(w, s, ta);
      FiredTimer(w, s, ta);
      ClosedTimer(w, s, ta);
    case ByReceiver(ra) => TimeoutRecv(w, s, ra);
    case ByEncoder(ea) => TimeoutFrame(w, s, s.(out := OutputAfter(s.out, ea)));
    case CancelSession => TimeoutFrame(w, s, s.(cancelled := true));
  }

  lemma {:induction false} TimeoutRun(w: Workload, run: seq<Action>)
    requires UniqueKeys(w) && ValidRun(w, run)
    ensures TimeoutInv(w, Exec(w, run))
    decreases |run|
  {
    if run != [] {
      var past := run[..|run| - 1];
      TimeoutRun(w, past);
      RunKeepsInv(w, past);
      TimeoutStep(w, Exec(w, past), run[|run| - 1]);
    }
  }

  /** With unique keys a caller is told "timeout" only if its own timeout expired or the session was cancelled. */
  lemma {:induction false} UniqueKeysDeserve(w: Workload, s: State)
    requires UniqueKeys(w) && Reachable(w, s)
    ensures Deserved(w, s)
  {
    var run :| ValidRun(w, run) && Exec(w, run) == s;
    TimeoutRun(w, run);
    EveryReachable(w, s);
    forall c: CallId | c < |w| && c in s.calls && s.calls[c].res.TimedOut? ensures Deserves(w, s, c) {
      assert ResultOk(s.calls[c], s.cancelled) && ClosedOnCaller(s.calls[c]);
    }
  }

  // ---------------------------------------------------------------------------------------
  // Unique keys are necessary: a stale timeout hits a later caller
  // ---------------------------------------------------------------------------------------

  /** The first call waits for its reply, and its command is in the command channel. */
  lemma {:induction false} FirstWaits(w: Workload, i: CallId) returns (s: State)
    requires i < |w| && w[i].wait
    ensures Reachable(w, s) && s.calls == map[i := Call(Awaiting, FRESH, Pending)] && s.table == map[KeyOf(w, i) := i]
    ensures s == INIT.(calls := s.calls, table := s.table, issued := s.issued,
                       queue := Queue(multiset{KeyOf(w, i)}, multiset{}, [Armed(i)]),
                       out := INIT.out.(cmdCh := Some(w[i].cmd)))
  {
    InitReachable(w);
    s := Registers(w, INIT, i);
    ReachPath(w, INIT, s);
    assert s.queue.queued == multiset{KeyOf(w, i)};
  }

  /** Its timeout has expired and been taken. */
  lemma {:induction false} TakenTimeout(w: Workload, i: CallId) returns (s: State)
    requires i < |w| && w[i].wait
    ensures Reachable(w, s) && !s.panicked && !s.cancelled && s.out.cmdCh.None? && s.recv.RIdle?
    ensures s.calls == map[i := Call(Awaiting, FRESH, Pending)] && s.table == map[KeyOf(w, i) := i]
    ensures s.timer == TLoading(KeyOf(w, i)) && s.queue.history == [Armed(i), Expired(KeyOf(w, i))]
  {
    var s1 := FirstWaits(w, i);
    var s2 := Encodes(w, s1);
    ReachPath(w, s1, s2);
    s := TimerTakes(w, s2, KeyOf(w, i));
    ReachPath(w, s2, s);
  }

  /** The timeout of the first call has been taken, and then its reply arrived and it returned. */
  lemma {:induction false} StaleTimeout(w: Workload, i: CallId) returns (s: State)
    requires i < |w| && w[i].wait
    ensures Reachable(w, s) && !s.panicked && !s.cancelled && s.table == map[] && s.out.cmdCh.None?
    ensures s.timer == TLoading(KeyOf(w, i)) && s.queue.history == [Armed(i), Expired(KeyOf(w, i))]
    ensures s.calls.Keys == {i}
  {
    var k := KeyOf(w, i);
    var m := Msg(MsgOther(0), k.id, k.seqNo, []);
    var s3 := TakenTimeout(w, i);
    ReachStep(w, s3, ByReceiver(Decode(m)));
    var s4 := Do(w, s3, ByReceiver(Decode(m)));
    var s5 := Delivers(w, s4, i);
    ReachPath(w, s4, s5);
    s := ReturnsReply(w, s5, i, Reply(m));
    ReachPath(w, s5, s);
  }

  /** Two awaiting calls with one key: the second is told "timeout" although only the first one's expired. */
  lemma {:induction false} ReuseTimesOutEarly(w: Workload, i: CallId, j: CallId) returns (s: State)
    requires i < |w| && j < |w| && i != j && w[i].wait && w[j].wait && SameIds(w[i].cmd, w[j].cmd)
    ensures Reachable(w, s) && !s.cancelled && j in s.calls && s.calls[j].res.TimedOut?
    ensures s.queue.history == [Armed(i), Expired(KeyOf(w, i)), Armed(j)]
  {
    var s1 := StaleTimeout(w, i);
    var s2 := Registers(w, s1, j);
    ReachPath(w, s1, s2);
    s := TimerHits(w, s2, j);
    ReachPath(w, s2, s);
  }

  /** In every run timeouts are deserved if and only if no two awaiting commands share a key. */
  lemma {:induction false} DeservedIffUniqueKeys(w: Workload)
    ensures (forall s :: Reachable(w, s) ==> Deserved(w, s)) <==> UniqueKeys(w)
  {
    if UniqueKeys(w) {
      forall s | Reachable(w, s) ensures Deserved(w, s) {
        UniqueKeysDeserve(w, s);
      }
    } else {
      var i, j :| 0 <= i < j < |w| && w[i].wait && w[j].wait && SameIds(w[i].cmd, w[j].cmd);
      var s := ReuseTimesOutEarly(w, i, j);
      assert !Deserves(w, s, j);
    }
  }
}
