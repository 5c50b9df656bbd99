/**
 The wedge of a hub session. `send` waits for room in the reply channel while it holds the spin lock of the
 wait value. A caller that has taken its reply does not take another, so when one more message with its key
 is buffered and yet another arrives before its entry is gone, the receive goroutine waits for room and the
 caller's cleanup waits for the lock, both until the session is cancelled.
 */
module Wedge {
  import opened Messages
  import opened WaitValue
  import opened Correlator
  import opened CorrelatorSafety
  import opened Scenarios

  /** A live session whose receiver waits for room in a channel that nobody will ever empty. */
  predicate Wedged(s: State, c: CallId) {
    && !s.cancelled
    && s.recv.RSending? && s.recv.call == c && s.recv.st.Act?
    && c in s.calls && (s.calls[c].pc.Removing? || s.calls[c].pc == Closing(Spin))
    && s.calls[c].slot.working && s.calls[c].slot.chOpen && s.calls[c].slot.buf.Some?
  }

  predicate Carries(m: Msg, k: Key) {
    m.id == k.id && m.ack == k.seqNo
  }

  /** How many of the messages carry the key. */
  function KeyCount(ms: seq<Msg>, k: Key): nat {
    if ms == [] then 0 else KeyCount(ms[..|ms| - 1], k) + if Carries(ms[|ms| - 1], k) then 1 else 0
  }

  lemma {:induction false} CountAppend(ms: seq<Msg>, m: Msg, k: Key)
    ensures KeyCount(ms + [m], k) == KeyCount(ms, k) + if Carries(m, k) then 1 else 0
  {
    assert (ms + [m])[..|ms|] == ms;
  }

  // ---------------------------------------------------------------------------------------
  // Once wedged, wedged until cancellation
  // ---------------------------------------------------------------------------------------

  lemma {:induction false} WedgeStep(w: Workload, s: State, a: Action, c: CallId)
    requires LockInv(s) && Wedged(s, c) && Enabled(w, s, a) && !a.CancelSession?
    ensures var s' := Do(w, s, a); Wedged(s', c) && s'.recv == s.recv && s'.received == s.received
  {
    assert SlotOk(s.calls[c].slot, CallerStage(s.calls[c].pc), TimerStage(s.timer, c), RecvStage(s.recv, c));
  }

  /**
   Whatever else happens in the session, short of its cancellation: the caller does not return and no further
   message is received.
   */
  lemma {:induction false} WedgedForGood(w: Workload, run: seq<Action>, n: nat, c: CallId)
    requires ValidRun(w, run) && n <= |run| && ValidRun(w, run[..n]) && Wedged(Exec(w, run[..n]), c)
    requires CancelSession !in run[n..]
    ensures var s, s' := Exec(w, run[..n]), Exec(w, run);
      Wedged(s', c) && !s'.calls[c].pc.Returned? && s'.received == s.received
    decreases |run|
  {
    if n == |run| {
      assert run[..n] == run;
    } else {
      var past, a := run[..|run| - 1], run[|run| - 1];
      assert past[..n] == run[..n] && run[n..] == past[n..] + [a];
      WedgedForGood(w, past, n, c);
      RunKeepsInv(w, past);
      WedgeStep(w, Exec(w, past), a, c);
    }
  }

  // ---------------------------------------------------------------------------------------
  // It takes three messages
  // ---------------------------------------------------------------------------------------

  lemma {:induction false} DeliveriesHaveKey(w: Workload, s: State, log: seq<Entry>, c: CallId)
    requires c < |w| && forall i :: 0 <= i < |log| ==> FateOk(w, s, log[i])
    ensures |Deliveries(log, c)| <= KeyCount(Settled(log), KeyOf(w, c))
    decreases |log|
  {
    if log != [] {
      var n := |log| - 1;
      DeliveriesHaveKey(w, s, log[..n], c);
      assert Settled(log) == Settled(log[..n]) + [log[n].msg];
      CountAppend(Settled(log[..n]), log[n].msg, KeyOf(w, c));
      assert FateOk(w, s, log[n]);
    }
  }

  /** The caller of a wedge has its reply, a second message is buffered, and a third is in hand. */
  lemma {:induction false} WedgedHasReply(w: Workload, s: State, c: CallId)
    requires OwnershipInv(w, s) && ResultInv(s) && ChannelInv(s) && Wedged(s, c)
    ensures c < |w| && w[c].wait && Addressed(s.recv.msg, w[c].cmd) && |Deliveries(s.log, c)| == 2
  {
    assert Waits(w, s, c, MsgKey(s.recv.msg)) && ResultOk(s.calls[c], s.cancelled);
    assert Deliveries(s.log, c) == InChannel(s.calls[c]);
  }

  lemma {:induction false} WedgeTakesThree(w: Workload, s: State, c: CallId)
    requires Inv(w, s) && Wedged(s, c)
    ensures c < |w| && w[c].wait && KeyCount(s.received, KeyOf(w, c)) >= 3
  {
    WedgedHasReply(w, s, c);
    DeliveriesHaveKey(w, s, s.log, c);
    CountAppend(Settled(s.log), s.recv.msg, KeyOf(w, c));
  }

  // ---------------------------------------------------------------------------------------
  // Three messages suffice
  // ---------------------------------------------------------------------------------------

  lemma {:induction false} Arrives(w: Workload, s: State, m: Msg) returns (s': State)
    requires Reachable(w, s) && !s.panicked && s.recv.RIdle?
    ensures Reachable(w, s') && s' == s.(recv := RChecking(m), received := s.received + [m])
  {
    ReachStep(w, s, ByReceiver(Decode(m)));
    s' := Do(w, s, ByReceiver(Decode(m)));
  }

  lemma {:induction false} LooksUp(w: Workload, s: State, c: CallId) returns (s': State)
    requires !s.panicked && !s.cancelled && s.recv.RChecking?
    requires MsgKey(s.recv.msg) in s.table && s.table[MsgKey(s.recv.msg)] == c
    ensures Path(w, s, s') && s' == s.(recv := RSending(s.recv.msg, c, Spin))
  {
    PathStart(w, s);
    var s1 := ReceiverMoves(w, s, s, CheckCancelled);
    s' := ReceiverMoves(w, s, s1, LookUp);
  }

  /** The first message has been taken by the caller, which has not cleaned up yet. */
  lemma {:induction false} FirstTaken(w: Workload, c: CallId, m: Msg) returns (s: State)
    requires c < |w| && w[c].wait && Addressed(m, w[c].cmd)
    ensures Reachable(w, s) && !s.panicked && !s.cancelled && s.recv.RIdle? && s.received == [m]
    ensures s.table == map[KeyOf(w, c) := c] && c in s.calls && s.calls[c] == Call(Removing, FRESH, Reply(m))
  {
    InitReachable(w);
    var s1 := Registers(w, INIT, c);
    ReachPath(w, INIT, s1);
    var s2 := Arrives(w, s1, m);
    s := Delivers(w, s2, c);
    ReachPath(w, s2, s);
  }

  /** The second one is buffered. */
  lemma {:induction false} SecondBuffered(w: Workload, c: CallId, m: Msg) returns (s: State)
    requires c < |w| && w[c].wait && Addressed(m, w[c].cmd)
    ensures Reachable(w, s) && !s.panicked && !s.cancelled && s.recv.RIdle? && s.received == [m, m]
    ensures s.table == map[KeyOf(w, c) := c]
    ensures c in s.calls && s.calls[c] == Call(Removing, FRESH.(buf := Some(m)), Reply(m))
  {
    var s1 := FirstTaken(w, c, m);
    var s2 := Arrives(w, s1, m);
    var s3 := LooksUp(w, s2, c);
    s := SendsToFresh(w, s2, s3, c);
    ReachPath(w, s2, s);
  }

  /** The third one finds no room. */
  lemma {:induction false} ThreeMessagesWedge(w: Workload, c: CallId, m: Msg) returns (s: State)
    requires c < |w| && w[c].wait && Addressed(m, w[c].cmd)
    ensures Reachable(w, s) && Wedged(s, c) && s.received == [m, m, m]
  {
    var s1 := SecondBuffered(w, c, m);
    var s2 := Arrives(w, s1, m);
    var s3 := LooksUp(w, s2, c);
    var s4 := ReceiverMoves(w, s2, s3, SendOn);
    s := ReceiverMoves(w, s2, s4, SendOn);
    ReachPath(w, s2, s);
  }

  /** Runs in which no key is received more often than the peer is held to. */
  ghost predicate Within(s: State, limit: Key -> nat) {
    forall k :: KeyCount(s.received, k) <= limit(k)
  }

  lemma {:induction false} CountThree(m: Msg, k: Key)
    ensures KeyCount([m, m, m], k) == if Carries(m, k) then 3 else 0
  {
    assert [m, m, m] == [m, m] + [m] && [m, m] == [m] + [m] && [m] == [] + [m];
    CountAppend([m, m], m, k);
    CountAppend([m], m, k);
    CountAppend([], m, k);
  }

  /** A session can wedge if and only if the key of some awaiting command can be received three times. */
  lemma {:induction false} WedgeIff(w: Workload, limit: Key -> nat)
    ensures (exists s, c :: Reachable(w, s) && Within(s, limit) && Wedged(s, c))
      <==> exists c: CallId :: c < |w| && w[c].wait && limit(Key(w[c].cmd.id, w[c].cmd.seqNo)) >= 3
  {
    if s, c :| Reachable(w, s) && Within(s, limit) && Wedged(s, c) {
      EveryReachable(w, s);
      WedgeTakesThree(w, s, c);
      assert KeyCount(s.received, KeyOf(w, c)) <= limit(KeyOf(w, c));
    }
    if c: CallId :| c < |w| && w[c].wait && limit(Key(w[c].cmd.id, w[c].cmd.seqNo)) >= 3 {
      var m := Msg(MsgOther(0), KeyOf(w, c).id, KeyOf(w, c).seqNo, []);
      var s := ThreeMessagesWedge(w, c, m);
      forall k ensures KeyCount(s.received, k) <= limit(k) {
        CountThree(m, k);
      }
    }
  }
}
