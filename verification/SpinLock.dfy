/** Any number of threads calling `send` and `close` on one wait value. */
module SpinLock {
  import opened Messages
  import opened WaitValue

  datatype Op = SendOp(msg: Msg) | CloseOp

  datatype Thread = Thread(op: Op, st: Stage)

  /** What happened to the channel itself, in order. */
  datatype Event = Sent(msg: Msg) | ChannelClosed

  datatype System = System(
    slot: Slot,
    threads: map<nat, Thread>,
    cancelled: bool,
    events: seq<Event>,
    received: seq<Msg>,
    panicked: bool)

  datatype Action =
    | Spawn(t: nat, op: Op)
    | Run(t: nat)
    | GiveUp(t: nat)  // the cancel arm of the select in `send`
    | Receive         // the waiter takes the buffered message
    | Cancel

  const INIT := System(FRESH, map[], false, [], [], false)

  predicate Enabled(s: System, a: Action) {
    && !s.panicked
    && match a
       case Spawn(t, _) => t !in s.threads
       case Run(t) =>
         t in s.threads
         && if s.threads[t].op.CloseOp? then LockReady(s.slot, s.threads[t].st)
            else SendReady(s.slot, s.threads[t].st)
       case GiveUp(t) => t in s.threads && s.threads[t].op.SendOp? && s.threads[t].st.Act? && s.cancelled
       case Receive => s.slot.buf.Some?
       case Cancel => true
  }

  function Do(s: System, a: Action): System
    requires Enabled(s, a)
  {
    match a
    case Spawn(t, op) => s.(threads := s.threads[t := Thread(op, Spin)])
    case GiveUp(t) => s.(threads := s.threads[t := s.threads[t].(st := Unlock)])
    case Receive => s.(slot := s.slot.(buf := None), received := s.received + [s.slot.buf.value])
    case Cancel => s.(cancelled := true)
    case Run(t) =>
      var th := s.threads[t];
      var out := if th.op.CloseOp? then CloseStep(s.slot, th.st) else SendStep(s.slot, th.st, th.op.msg);
      if out.Panic? then s.(panicked := true)
      else
        s.(slot := out.slot,
           threads := s.threads[t := th.(st := out.st)],
           events := s.events +
             if !th.st.Act? then [] else if th.op.CloseOp? then [ChannelClosed] else [Sent(th.op.msg)])
  }

  /** A run is the sequence of its actions. */
  ghost predicate ValidRun(run: seq<Action>)
    decreases |run|, 0
  {
    run == [] || (var past := run[..|run| - 1]; ValidRun(past) && Enabled(Exec(past), run[|run| - 1]))
  }

  ghost function Exec(run: seq<Action>): System
    requires ValidRun(run)
    decreases |run|, 1
  {
    if run == [] then INIT else Do(Exec(run[..|run| - 1]), run[|run| - 1])
  }

  ghost predicate MutualExclusion(s: System) {
    forall t, u | t in s.threads && u in s.threads ::
      InCritical(s.threads[t].st) && InCritical(s.threads[u].st) ==> t == u
  }

  ghost predicate LockHeld(s: System) {
    s.slot.working <==> exists t :: t in s.threads && InCritical(s.threads[t].st)
  }

  ghost predicate FlagGuardsChannel(s: System) {
    && (!s.slot.chOpen ==> s.slot.closed)
    && (forall t :: t in s.threads && s.threads[t].st.Act? ==>
                      s.slot.chOpen && (s.slot.closed <==> s.threads[t].op.CloseOp?))
    && (s.slot.closed && s.slot.chOpen ==> exists t :: t in s.threads && s.threads[t].st.Act?)
  }

  /** The channel is closed at most once, and nothing happens to it afterwards. */
  ghost predicate CloseIsLast(events: seq<Event>) {
    forall i :: 0 <= i < |events| && events[i].ChannelClosed? ==> i == |events| - 1
  }

  function SentMsgs(events: seq<Event>): seq<Msg> {
    if events == [] then []
    else
      var last := events[|events| - 1];
      SentMsgs(events[..|events| - 1]) + if last.Sent? then [last.msg] else []
  }

  ghost predicate Inv(s: System) {
    && !s.panicked
    && MutualExclusion(s)
    && LockHeld(s)
    && FlagGuardsChannel(s)
    && EventsOk(s.events, s.slot.chOpen, s.received, s.slot.buf)
  }

  ghost predicate EventsOk(events: seq<Event>, chOpen: bool, received: seq<Msg>, buf: Option<Msg>) {
    && CloseIsLast(events)
    && (chOpen <==> (events == [] || !events[|events| - 1].ChannelClosed?))
    && SentMsgs(events) == received + AsSeq(buf)
  }

  lemma {:induction false} AppendToOpen(events: seq<Event>, e: Event)
    requires CloseIsLast(events) && (events == [] || !events[|events| - 1].ChannelClosed?)
    ensures CloseIsLast(events + [e])
    ensures SentMsgs(events + [e]) == SentMsgs(events) + if e.Sent? then [e.msg] else []
  {
    assert (events + [e])[..|events|] == events;
  }

  lemma {:induction false} RunPreservesLock(s: System, t: nat)
    requires Inv(s) && Enabled(s, Run(t))
    ensures var s' := Do(s, Run(t)); !s'.panicked && MutualExclusion(s') && LockHeld(s')
  {
    var s' := Do(s, Run(t));
    assert InCritical(s.threads[t].st) || s.threads[t].st.Spin?;
    if InCritical(s.threads[t].st) {
      assert s.slot.working;
    }
    assert forall u :: u in s'.threads && u != t ==> s'.threads[u] == s.threads[u];
    assert t in s'.threads;
  }

  lemma {:induction false} RunPreservesFlag(s: System, t: nat)
    requires Inv(s) && Enabled(s, Run(t))
    ensures FlagGuardsChannel(Do(s, Run(t)))
  {
    RunPreservesLock(s, t);
    var s' := Do(s, Run(t));
    assert t in s'.threads;
    forall u | u in s'.threads && s'.threads[u].st.Act?
      ensures s'.slot.chOpen && (s'.slot.closed <==> s'.threads[u].op.CloseOp?)
    {
      if u != t {
        assert false;
      }
    }
  }

  lemma {:induction false} EventsAfter(events: seq<Event>, received: seq<Msg>, buf: Option<Msg>, e: Event)
    requires EventsOk(events, true, received, buf) && (e.Sent? ==> buf.None?)
    ensures EventsOk(events + [e], e.Sent?, received, if e.Sent? then Some(e.msg) else buf)
  {
    AppendToOpen(events, e);
    assert (events + [e])[|events|] == e;
    if e.Sent? {
      SentNext(SentMsgs(events), received, buf, e.msg);
    }
  }

  lemma {:induction false} SentNext(sent: seq<Msg>, received: seq<Msg>, buf: Option<Msg>, m: Msg)
    requires sent == received + AsSeq(buf) && buf.None?
    ensures sent + [m] == received + AsSeq(Some(m))
  {}

  lemma {:induction false} RunPreservesEvents(s: System, t: nat)
    requires Enabled(s, Run(t)) && !Do(s, Run(t)).panicked
    requires EventsOk(s.events, s.slot.chOpen, s.received, s.slot.buf)
    requires s.threads[t].st.Act? ==> s.slot.chOpen
    ensures var s' := Do(s, Run(t)); EventsOk(s'.events, s'.slot.chOpen, s'.received, s'.slot.buf)
  {
    var th := s.threads[t];
    if th.st.Act? {
      EventsAfter(s.events, s.received, s.slot.buf, if th.op.CloseOp? then ChannelClosed else Sent(th.op.msg));
    } else {
      assert Do(s, Run(t)).events == s.events;
    }
  }

  lemma {:induction false} StepPreservesInv(s: System, a: Action)
    requires Inv(s) && Enabled(s, a)
    ensures Inv(Do(s, a))
  {
    var s' := Do(s, a);
    match a
    case Run(t) =>
      RunPreservesLock(s, t);
      RunPreservesFlag(s, t);
      RunPreservesEvents(s, t);
    case Spawn(t, op) =>
      assert forall u :: u in s'.threads && u != t ==> s'.threads[u] == s.threads[u];
      assert forall u :: u in s.threads ==> u in s'.threads && s'.threads[u] == s.threads[u];
    case GiveUp(t) =>
      assert s.slot.working;
      assert t in s'.threads;
      assert forall u :: u in s'.threads && u != t ==> s'.threads[u] == s.threads[u];
    case Receive =>
    case Cancel =>
  }

  /** A finished `close` has closed; a finished `send` has sent, unless the channel was closed or the send cancelled. */
  predicate ThreadDone(s: System, th: Thread) {
    && (th.op.CloseOp? && (th.st.Unlock? || th.st.Fin?) ==> !s.slot.chOpen)
    && (th.op.SendOp? && (th.st.Unlock? || th.st.Fin?) ==>
          Sent(th.op.msg) in s.events || s.slot.closed || s.cancelled)
  }

  ghost predicate DoneInv(s: System) {
    forall t :: t in s.threads ==> ThreadDone(s, s.threads[t])
  }

  /** Closing is for good, and so are sends and cancellation. */
  lemma {:induction false} DoneStays(s: System, a: Action, th: Thread)
    requires Enabled(s, a) && ThreadDone(s, th) && !Do(s, a).panicked
    ensures ThreadDone(Do(s, a), th)
  {
    forall m | Sent(m) in s.events ensures Sent(m) in Do(s, a).events {}
  }

  lemma {:induction false} OwnDone(s: System, t: nat)
    requires Inv(s) && Enabled(s, Run(t)) && ThreadDone(s, s.threads[t])
    ensures var s' := Do(s, Run(t)); !s'.panicked && ThreadDone(s', s'.threads[t])
  {
    RunPreservesLock(s, t);
    assert s.threads[t].st.Test? && s.slot.closed ==> !s.slot.chOpen;
  }

  lemma {:induction false} DoneStep(s: System, a: Action)
    requires Inv(s) && DoneInv(s) && Enabled(s, a)
    ensures DoneInv(Do(s, a))
  {
    StepPreservesInv(s, a);
    var s' := Do(s, a);
    forall t | t in s'.threads ensures ThreadDone(s', s'.threads[t]) {
      if a == Run(t) {
        OwnDone(s, t);
      } else if t in s.threads {
        DoneStays(s, a, s.threads[t]);
      }
    }
  }

  lemma {:induction false} RunKeepsDone(run: seq<Action>)
    requires ValidRun(run)
    ensures DoneInv(Exec(run))
    decreases |run|
  {
    if run != [] {
      RunKeepsDone(run[..|run| - 1]);
      RunKeepsInv(run[..|run| - 1]);
      DoneStep(Exec(run[..|run| - 1]), run[|run| - 1]);
    }
  }

  lemma {:induction false} RunKeepsInv(run: seq<Action>)
    requires ValidRun(run)
    ensures Inv(Exec(run))
    decreases |run|
  {
    if run != [] {
      RunKeepsInv(run[..|run| - 1]);
      StepPreservesInv(Exec(run[..|run| - 1]), run[|run| - 1]);
    }
  }

  /**
   Spin-lock safety for every interleaving of any number of `send` and `close` calls: at most one
   thread is in the critical section, a thread that is about to release does hold the lock, nothing
   panics, the channel is closed at most once with no send after it, and the waiter receives what
   was sent in order. A finished `close` has closed the channel; a finished `send` has sent its message,
   unless the channel was closed or the session cancelled.
   */
  lemma {:induction false} SpinLockSafety(run: seq<Action>)
    requires ValidRun(run)
    ensures var s := Exec(run);
      && !s.panicked
      && MutualExclusion(s)
      && (forall t :: t in s.threads && s.threads[t].st.Unlock? ==> s.slot.working)
      && CloseIsLast(s.events)
      && (s.slot.chOpen <==> ChannelClosed !in s.events)
      && s.received <= SentMsgs(s.events)
      && |SentMsgs(s.events)| <= |s.received| + 1
      && (forall t :: t in s.threads && s.threads[t].st.Fin? ==>
            match s.threads[t].op
            case CloseOp => !s.slot.chOpen
            case SendOp(m) => Sent(m) in s.events || s.slot.closed || s.cancelled)
  {
    RunKeepsInv(run);
    RunKeepsDone(run);
  }
}
