/**
 The controller of an extension: any number of `RefreshChannels` and `Close` calls under one mutex, the
 session goroutine that consumes the channel bundles they create, and any number of sends through the
 bundles, by the session for its replies and by handlers for everything else. A bundle is known by the
 `RefreshChannels` call that made it; closing it closes its `closed` channel, then its message channel.

 A send is a select over the bundle's `closed` channel, its one-slot message channel and the context. It
 leaves at once by an arm that is ready; otherwise it blocks, and the operation that makes an arm ready
 commits it to that arm.
 */
module Controller {
  import opened Messages

  type Tid = nat
  type SendId = nat

  /** `full` tells whether the one-slot message channel holds a message. */
  datatype Bundle = Bundle(closedCh: bool, msgClosed: bool, full: bool)

  const OPEN := Bundle(false, false, false)

  datatype Pc =
    | RefreshStart                         // about to lock
    | RefreshLocked                        // about to create its bundle
    | Selecting                            // context done, or offer the bundle
    | ClosingOld(prev: Tid, half: bool)     // offered; closing the previous bundle
    | SettingCurrent
    | ClosingNew(half: bool)               // the controller is closed: closing its own bundle
    | CloseStart
    | CloseLocked
    | ClosingRefreshed                     // about to close the bundle channel
    | Unlocking
    | Done

  predicate Holds(pc: Pc) {
    !pc.RefreshStart? && !pc.CloseStart? && !pc.Done?
  }

  datatype Session =
    | Ready
    | Running(b: Tid)
    | Replying(b: Tid, x: SendId)    // inside the send of a reply
    | Failing(b: Tid, half: bool)    // ended in an error: closing its bundle
    | Gone

  datatype Arm = ClosedArm | MsgArm | CtxArm

  datatype SendState = Blocked | Left(arm: Arm)

  /** `late`: the message channel was closed already when the send entered its select. */
  datatype Send = Send(b: Tid, late: bool, st: SendState)

  /** Every way a channel operation of the controller could panic. */
  datatype Cause =
    | SendOnClosed(x: SendId)      // a select picked a closed message channel
    | ClosedUnderSender(b: Tid)    // a message channel was closed while a send was blocked on it
    | ClosedTwice(b: Tid)
    | OfferedOnClosed
    | RefreshedClosedTwice

  datatype State = State(
    threads: map<Tid, Pc>,
    mutex: Option<Tid>,
    closed: bool,
    current: Option<Tid>,
    bundles: map<Tid, Bundle>,
    chBuf: Option<Tid>,
    chClosed: bool,
    ctxDone: bool,
    session: Session,
    sends: map<SendId, Send>,
    offered: seq<Tid>,   // bundles sent to the session goroutine, in order
    consumed: seq<Tid>,  // bundles it has received, in order
    failed: set<Tid>,    // bundles whose session ended in an error
    panic: Option<Cause>)

  const INIT := State(map[], None, false, None, map[], None, false, false, Ready, map[], [], [], {}, None)

  datatype Action =
    | Spawn(t: Tid, refresh: bool)
    | Step(t: Tid)
    | SelectSend(t: Tid)
    | SelectDone(t: Tid)
    | CancelCtx
    | SessionTake | SessionStops | SessionEnds
    | MarshalFails   // a reply does not marshal: the session ends in an error
    | ReplyReturns   // the send of a reply is over; by the context arm, the session ends in an error
    | SessionCloses
    | Enter(x: SendId, b: Tid, reply: bool, pick: Option<Arm>)  // a send; without a ready arm it blocks
    | TakeMsg(b: Tid, next: Option<SendId>)                     // the client takes a message, a blocked send moves up

  // ---------------------------------------------------------------------------------------
  // When an action can happen
  // ---------------------------------------------------------------------------------------

  predicate StepReady(s: State, t: Tid, pc: Pc) {
    match pc
    case RefreshStart => s.mutex.None?
    case CloseStart => s.mutex.None?
    case Selecting => false
    case Done => false
    case ClosingOld(b, _) => b in s.bundles
    case ClosingNew(_) => t in s.bundles
    case _ => true
  }

  predicate ArmReady(s: State, b: Tid, arm: Arm)
    requires b in s.bundles
  {
    match arm
    case ClosedArm => s.bundles[b].closedCh
    case MsgArm => s.bundles[b].msgClosed || !s.bundles[b].full
    case CtxArm => s.ctxDone
  }

  predicate BlockedOn(sends: map<SendId, Send>, x: SendId, b: Tid) {
    x in sends && sends[x].b == b && sends[x].st.Blocked?
  }

  /** A session hands its send function out, so a send can come at any time after the session started. */
  ghost predicate EnterReady(s: State, x: SendId, b: Tid, reply: bool, pick: Option<Arm>) {
    && x !in s.sends && b in s.consumed && b in s.bundles
    && (reply ==> s.session == Running(b))
    && match pick
       case Some(arm) => ArmReady(s, b, arm)
       case None => forall arm :: !ArmReady(s, b, arm)
  }

  ghost predicate TakeReady(s: State, b: Tid, next: Option<SendId>) {
    && b in s.bundles && s.bundles[b].full
    && match next
       case Some(x) => BlockedOn(s.sends, x, b)
       case None => forall x :: !BlockedOn(s.sends, x, b)
  }

  ghost predicate Enabled(s: State, a: Action) {
    && s.panic.None?
    && match a
       case Spawn(t, _) => t !in s.threads
       case Step(t) => t in s.threads && StepReady(s, t, s.threads[t])
       case SelectSend(t) => t in s.threads && s.threads[t].Selecting? && (s.chBuf.None? || s.chClosed)
       case SelectDone(t) => t in s.threads && s.threads[t].Selecting? && s.ctxDone
       case CancelCtx => true
       case SessionTake => s.session.Ready? && s.chBuf.Some?
       case SessionStops => s.session.Ready? && (s.ctxDone || (s.chClosed && s.chBuf.None?))
       case SessionEnds => s.session.Running?
       case MarshalFails => s.session.Running?
       case ReplyReturns => s.session.Replying? && s.session.x in s.sends && s.sends[s.session.x].st.Left?
       case SessionCloses => s.session.Failing? && s.session.b in s.bundles
       case Enter(x, b, reply, pick) => EnterReady(s, x, b, reply, pick)
       case TakeMsg(b, next) => TakeReady(s, b, next)
  }

  // ---------------------------------------------------------------------------------------
  // What an action does
  // ---------------------------------------------------------------------------------------

  /** A step of one of the mutex users. */
  predicate ByThread(a: Action) {
    a.Step? || a.SelectSend? || a.SelectDone?
  }

  function PcAfter(s: State, a: Action): Pc
    requires ByThread(a) && a.t in s.threads
  {
    if a.SelectDone? then Unlocking
    else if a.SelectSend? then (if s.current.Some? then ClosingOld(s.current.value, false) else SettingCurrent)
    else
      match s.threads[a.t]
      case RefreshStart => RefreshLocked
      case RefreshLocked => if s.closed then ClosingNew(false) else Selecting
      case Selecting => Selecting
      case ClosingOld(b, half) => if half then SettingCurrent else ClosingOld(b, true)
      case SettingCurrent => Unlocking
      case ClosingNew(half) => if half then Unlocking else ClosingNew(true)
      case CloseStart => CloseLocked
      case CloseLocked => if s.closed then Unlocking else ClosingRefreshed
      case ClosingRefreshed => Unlocking
      case Unlocking => Done
      case Done => Done
  }

  /** One of the two closes of `channelBundle.Close`. */
  datatype Half = Half(b: Tid, second: bool)

  /** The close an action performs, if it is one. */
  function Closes(s: State, a: Action): Option<Half> {
    match a
    case Step(t) =>
      if t !in s.threads then None
      else
        (match s.threads[t]
         case ClosingOld(b, half) => Some(Half(b, half))
         case ClosingNew(half) => Some(Half(t, half))
         case _ => None)
    case SessionCloses => if s.session.Failing? then Some(Half(s.session.b, s.session.half)) else None
    case _ => None
  }

  function HalfClosed(b: Bundle, second: bool): Bundle {
    if second then b.(msgClosed := true) else b.(closedCh := true)
  }

  predicate DoubleClose(b: Bundle, second: bool) {
    if second then b.msgClosed else b.closedCh
  }

  predicate Creates(s: State, a: Action) {
    a.Step? && a.t in s.threads && s.threads[a.t].RefreshLocked?
  }

  function BundlesAfter(s: State, a: Action): map<Tid, Bundle> {
    var close := Closes(s, a);
    if close.Some? && close.value.b in s.bundles then
      s.bundles[close.value.b := HalfClosed(s.bundles[close.value.b], close.value.second)]
    else if Creates(s, a) then s.bundles[a.t := OPEN]
    else if a.Enter? && a.pick == Some(MsgArm) && a.b in s.bundles then
      s.bundles[a.b := s.bundles[a.b].(full := true)]
    else if a.TakeMsg? && a.b in s.bundles then s.bundles[a.b := s.bundles[a.b].(full := a.next.Some?)]
    else s.bundles
  }

  /** Closing `closed` commits the sends blocked on the bundle, cancellation all blocked sends. */
  function SendAfter(s: State, a: Action, send: Send): Send {
    if !send.st.Blocked? then send
    else if Closes(s, a) == Some(Half(send.b, false)) then send.(st := Left(ClosedArm))
    else if a.CancelCtx? then send.(st := Left(CtxArm))
    else send
  }

  function SendsAfter(s: State, a: Action): map<SendId, Send> {
    var sends := map x | x in s.sends :: SendAfter(s, a, s.sends[x]);
    match a
    case Enter(x, b, _, pick) =>
      sends[x := Send(b, b in s.bundles && s.bundles[b].msgClosed, if pick.Some? then Left(pick.value) else Blocked)]
    case TakeMsg(b, Some(x)) => if x in sends then sends[x := sends[x].(st := Left(MsgArm))] else sends
    case _ => sends
  }

  function MutexAfter(s: State, a: Action): Option<Tid> {
    if !a.Step? || a.t !in s.threads then s.mutex
    else
      var pc := s.threads[a.t];
      if pc.RefreshStart? || pc.CloseStart? then Some(a.t) else if pc.Unlocking? then None else s.mutex
  }

  function SessionAfter(s: State, a: Action): Session {
    match a
    case SessionTake => if s.chBuf.Some? then Running(s.chBuf.value) else s.session
    case SessionStops => Gone
    case SessionEnds => Ready
    case MarshalFails => if s.session.Running? then Failing(s.session.b, false) else s.session
    case ReplyReturns =>
      if !s.session.Replying? then s.session
      else if Fails(s, a) then Failing(s.session.b, false) else Running(s.session.b)
    case SessionCloses =>
      if !s.session.Failing? then s.session
      else if s.session.half then Ready else Failing(s.session.b, true)
    case Enter(x, b, reply, _) => if reply then Replying(b, x) else s.session
    case _ => s.session
  }

  /** The two ways a session ends in an error. */
  predicate Fails(s: State, a: Action) {
    || (a.MarshalFails? && s.session.Running?)
    || (a.ReplyReturns? && s.session.Replying? && s.session.x in s.sends && s.sends[s.session.x].st == Left(CtxArm))
  }

  ghost function PanicAfter(s: State, a: Action): Option<Cause> {
    var close := Closes(s, a);
    if close.Some? && close.value.b in s.bundles then
      var b, second := close.value.b, close.value.second;
      if DoubleClose(s.bundles[b], second) then Some(ClosedTwice(b))
      else if second && exists x :: BlockedOn(s.sends, x, b) then Some(ClosedUnderSender(b))
      else None
    else
      match a
      case Step(t) =>
        if t in s.threads && s.threads[t].ClosingRefreshed? && s.chClosed then Some(RefreshedClosedTwice) else None
      case SelectSend(_) => if s.chClosed then Some(OfferedOnClosed) else None
      case Enter(x, b, _, pick) =>
        if pick == Some(MsgArm) && b in s.bundles && s.bundles[b].msgClosed then Some(SendOnClosed(x)) else None
      case _ => None
  }

  ghost function Do(s: State, a: Action): State
    requires Enabled(s, a)
  {
    s.(threads := if a.Spawn? then s.threads[a.t := if a.refresh then RefreshStart else CloseStart]
                  else if ByThread(a) then s.threads[a.t := PcAfter(s, a)] else s.threads,
       mutex := MutexAfter(s, a),
       closed := s.closed || (a.Step? && s.threads[a.t].CloseLocked?),
       current := if a.Step? && s.threads[a.t].SettingCurrent? then Some(a.t) else s.current,
       bundles := BundlesAfter(s, a),
       chBuf := if a.SelectSend? then Some(a.t) else if a.SessionTake? then None else s.chBuf,
       chClosed := s.chClosed || (a.Step? && s.threads[a.t].ClosingRefreshed?),
       ctxDone := s.ctxDone || a.CancelCtx?,
       session := SessionAfter(s, a),
       sends := SendsAfter(s, a),
       offered := if a.SelectSend? then s.offered + [a.t] else s.offered,
       consumed := if a.SessionTake? then s.consumed + [s.chBuf.value] else s.consumed,
       failed := if Fails(s, a) then s.failed + {s.session.b} else s.failed,
       panic := PanicAfter(s, a))
  }

  ghost predicate ValidRun(run: seq<Action>)
    decreases |run|, 0
  {
    run == [] || (var past := run[..|run| - 1]; ValidRun(past) && Enabled(Exec(past), run[|run| - 1]))
  }

  ghost function Exec(run: seq<Action>): State
    requires ValidRun(run)
    decreases |run|, 1
  {
    if run == [] then INIT else Do(Exec(run[..|run| - 1]), run[|run| - 1])
  }

  // ---------------------------------------------------------------------------------------
  // Invariant, also for failing sessions and late sends
  // ---------------------------------------------------------------------------------------

  ghost predicate LockInv(s: State) {
    && (forall t :: t in s.threads ==> (Holds(s.threads[t]) <==> s.mutex == Some(t)))
    && (s.mutex.Some? ==> s.mutex.value in s.threads)
  }

  /** What the mutex holder is doing; Done when the mutex is free. */
  function HolderPc(s: State): Pc {
    if s.mutex.Some? && s.mutex.value in s.threads then s.threads[s.mutex.value] else Done
  }

  predicate CloseInv(s: State) {
    && (s.chClosed ==> s.closed)
    && (s.closed && !s.chClosed <==> HolderPc(s).ClosingRefreshed?)
    && (HolderPc(s).Selecting? ==> !s.closed)
  }

  /** The holder has offered its bundle and is not done replacing the previous one. */
  predicate Replacing(pc: Pc) {
    pc.ClosingOld? || pc.SettingCurrent?
  }

  function Last(offered: seq<Tid>): Option<Tid> {
    if offered == [] then None else Some(offered[|offered| - 1])
  }

  function Previous(offered: seq<Tid>): Option<Tid> {
    if |offered| < 2 then None else Some(offered[|offered| - 2])
  }

  ghost predicate CurrentInv(s: State) {
    var pc := HolderPc(s);
    if Replacing(pc) then
      && Last(s.offered) == s.mutex
      && s.current == Previous(s.offered)
      && (pc.ClosingOld? ==> s.current == Some(pc.prev))
    else s.current == Last(s.offered)
  }

  /** Not yet offered: the call is before its select, or the controller was closed. */
  predicate Early(pc: Pc) {
    || pc.RefreshStart? || pc.RefreshLocked? || pc.Selecting? || pc.ClosingNew?
    || pc.CloseStart? || pc.CloseLocked? || pc.ClosingRefreshed?
  }

  ghost predicate Distinct(ts: seq<Tid>) {
    forall i, j :: 0 <= i < j < |ts| ==> ts[i] != ts[j]
  }

  ghost predicate OfferInv(s: State) {
    && s.offered == s.consumed + AsSeq(s.chBuf)
    && (forall i :: 0 <= i < |s.offered| ==> s.offered[i] in s.threads && !Early(s.threads[s.offered[i]]))
    && Distinct(s.offered)
  }

  predicate InSession(session: Session) {
    session.Running? || session.Replying? || session.Failing?
  }

  ghost predicate SessionInv(s: State) {
    && (InSession(s.session) ==>
          Last(s.consumed) == Some(s.session.b) && (s.session.b in s.failed <==> s.session.Failing?))
    && (forall b :: b in s.failed ==> b in s.consumed)
  }

  /** How many of the two closes refreshes have done on the bundle at position i of the n offered ones. */
  function RefreshHalves(i: int, n: int, pc: Pc): nat {
    if i == n - 1 then 0 else if i == n - 2 && pc.ClosingOld? then (if pc.half then 1 else 0) else 2
  }

  /** How many its own session has done. */
  function SessionHalves(session: Session, failed: set<Tid>, b: Tid): nat {
    if session.Failing? && session.b == b then (if session.half then 1 else 0)
    else if b in failed then 2 else 0
  }

  /** Only one of the two has closed anything, and the `closed` channel went first. */
  predicate StatusOk(b: Bundle, byRefresh: nat, bySession: nat) {
    && (byRefresh == 0 || bySession == 0)
    && (b.closedCh <==> byRefresh + bySession >= 1)
    && (b.msgClosed <==> byRefresh + bySession >= 2)
  }

  ghost predicate OfferedOk(s: State, i: nat)
    requires i < |s.offered|
  {
    var b := s.offered[i];
    && b in s.bundles
    && StatusOk(s.bundles[b], RefreshHalves(i, |s.offered|, HolderPc(s)), SessionHalves(s.session, s.failed, b))
  }

  ghost predicate NewOk(s: State) {
    var pc := HolderPc(s);
    && (pc.Selecting? ==> s.mutex.value in s.bundles && StatusOk(s.bundles[s.mutex.value], 0, 0))
    && (pc.ClosingNew? ==>
          s.mutex.value in s.bundles && StatusOk(s.bundles[s.mutex.value], if pc.half then 1 else 0, 0))
  }

  ghost predicate BundleInv(s: State) {
    (forall i :: 0 <= i < |s.offered| ==> OfferedOk(s, i)) && NewOk(s)
  }

  /** A blocked send is on a bundle that nobody has begun to close. */
  ghost predicate SendInv(s: State) {
    forall x :: x in s.sends ==> SendOk(s.consumed, s.bundles, s.sends[x])
  }

  ghost predicate Inv(s: State) {
    LockInv(s) && CloseInv(s) && CurrentInv(s) && OfferInv(s) && SessionInv(s) && BundleInv(s) && SendInv(s)
  }

  lemma {:induction false} LockStep(s: State, a: Action)
    requires LockInv(s) && Enabled(s, a)
    ensures LockInv(Do(s, a))
  {}

  /** A thread that takes a step inside the critical section is the holder. */
  lemma {:induction false} HolderStep(s: State, a: Action)
    requires LockInv(s) && Enabled(s, a) && ByThread(a)
    ensures Holds(s.threads[a.t]) ==> HolderPc(s) == s.threads[a.t] && s.mutex == Some(a.t)
    ensures !Holds(s.threads[a.t]) ==> s.mutex.None? && HolderPc(s).Done?
    ensures HolderPc(Do(s, a)) == PcAfter(s, a)
  {}

  lemma {:induction false} OtherStep(s: State, a: Action)
    requires LockInv(s) && Enabled(s, a) && !ByThread(a)
    ensures HolderPc(Do(s, a)) == HolderPc(s) && Do(s, a).mutex == s.mutex
  {}

  lemma {:induction false} CloseStep(s: State, a: Action)
    requires LockInv(s) && CloseInv(s) && Enabled(s, a)
    ensures CloseInv(Do(s, a))
  {
    if ByThread(a) {
      HolderStep(s, a);
    } else {
      OtherStep(s, a);
    }
  }

  lemma {:induction false} CurrentStep(s: State, a: Action)
    requires LockInv(s) && CurrentInv(s) && Enabled(s, a)
    ensures CurrentInv(Do(s, a))
  {
    if ByThread(a) {
      HolderStep(s, a);
    } else {
      OtherStep(s, a);
    }
  }

  lemma {:induction false} OfferStep(s: State, a: Action)
    requires LockInv(s) && CloseInv(s) && OfferInv(s) && Enabled(s, a)
    ensures OfferInv(Do(s, a))
  {
    var s' := Do(s, a);
    if ByThread(a) {
      HolderStep(s, a);
      forall i | 0 <= i < |s'.offered| ensures s'.offered[i] in s'.threads && !Early(s'.threads[s'.offered[i]]) {
        if i < |s.offered| {
          assert s'.offered[i] == s.offered[i] && !Early(s.threads[s.offered[i]]);
        }
      }
      forall i, j | 0 <= i < j < |s'.offered| ensures s'.offered[i] != s'.offered[j] {
        assert s'.offered[i] == s.offered[i] && !Early(s.threads[s.offered[i]]);
      }
    }
  }

  lemma {:induction false} SessionStep(s: State, a: Action)
    requires OfferInv(s) && SessionInv(s) && Enabled(s, a)
    ensures SessionInv(Do(s, a))
  {
    if a.SessionTake? {
      assert s.offered[|s.offered| - 1] == s.chBuf.value;
      forall i | 0 <= i < |s.consumed| ensures s.consumed[i] != s.chBuf.value {
        assert s.offered[i] == s.consumed[i];
      }
    }
  }

  /** A refresh or session that closes the next half without a panic is the only one closing. */
  lemma {:induction false} CloseAdvances(b: Bundle, mine: nat, other: nat, second: bool)
    requires (StatusOk(b, mine, other) || StatusOk(b, other, mine)) && !DoubleClose(b, second)
    requires mine == if second then 1 else 0
    ensures StatusOk(HalfClosed(b, second), mine + 1, other) && StatusOk(HalfClosed(b, second), other, mine + 1)
  {}

  predicate SameFlags(b: Bundle, c: Bundle) {
    b.closedCh == c.closedCh && b.msgClosed == c.msgClosed
  }

  /** Apart from closing and creating, bundles change only in whether they are full. */
  lemma {:induction false} FlagsStay(s: State, a: Action, b: Tid)
    requires Enabled(s, a) && b in s.bundles && !(Closes(s, a).Some? && Closes(s, a).value.b == b)
    requires !(Creates(s, a) && a.t == b)
    ensures b in Do(s, a).bundles && SameFlags(Do(s, a).bundles[b], s.bundles[b])
  {}

  /** A bundle that was offered is neither created again nor closed as a new one. */
  lemma {:induction false} EarlyIsNew(s: State, t: Tid)
    requires OfferInv(s) && t in s.threads && Early(s.threads[t])
    ensures t !in s.offered && t !in s.consumed
  {
    forall i | 0 <= i < |s.consumed| ensures s.consumed[i] != t {
      assert s.offered[i] == s.consumed[i];
    }
  }

  lemma {:induction false} OfferedThread(s: State, a: Action, i: nat)
    requires LockInv(s) && CurrentInv(s) && OfferInv(s) && i < |s.offered| && OfferedOk(s, i)
    requires Enabled(s, a) && ByThread(a) && PanicAfter(s, a).None?
    ensures OfferedOk(Do(s, a), i)
  {
    HolderStep(s, a);
    var b, pc := s.offered[i], s.threads[a.t];
    if Early(pc) {
      EarlyIsNew(s, a.t);
    }
    if a.Step? && pc.ClosingOld? {
      assert s.offered[|s.offered| - 2] == pc.prev;
      if b == pc.prev {
        assert i == |s.offered| - 2;
        CloseAdvances(s.bundles[b], if pc.half then 1 else 0, SessionHalves(s.session, s.failed, b), pc.half);
      } else {
        FlagsStay(s, a, b);
      }
    } else {
      FlagsStay(s, a, b);
    }
  }

  lemma {:induction false} OfferedOther(s: State, a: Action, i: nat)
    requires LockInv(s) && OfferInv(s) && SessionInv(s) && i < |s.offered| && OfferedOk(s, i)
    requires Enabled(s, a) && !ByThread(a) && PanicAfter(s, a).None?
    ensures OfferedOk(Do(s, a), i)
  {
    OtherStep(s, a);
    var b := s.offered[i];
    if a.SessionCloses? && s.session.b == b {
      CloseAdvances(s.bundles[b], if s.session.half then 1 else 0,
                    RefreshHalves(i, |s.offered|, HolderPc(s)), s.session.half);
    } else {
      FlagsStay(s, a, b);
    }
  }

  lemma {:induction false} OfferedNew(s: State, a: Action)
    requires LockInv(s) && CurrentInv(s) && OfferInv(s) && SessionInv(s) && BundleInv(s)
    requires Enabled(s, a) && a.SelectSend?
    ensures OfferedOk(Do(s, a), |s.offered|)
  {
    HolderStep(s, a);
    EarlyIsNew(s, a.t);
  }

  lemma {:induction false} NewStep(s: State, a: Action)
    requires LockInv(s) && OfferInv(s) && SessionInv(s) && NewOk(s) && Enabled(s, a) && PanicAfter(s, a).None?
    ensures NewOk(Do(s, a))
  {
    if ByThread(a) {
      HolderStep(s, a);
    } else {
      OtherStep(s, a);
      if HolderPc(s).Selecting? || HolderPc(s).ClosingNew? {
        EarlyIsNew(s, s.mutex.value);
        FlagsStay(s, a, s.mutex.value);
      }
    }
  }

  lemma {:induction false} BundleStep(s: State, a: Action)
    requires LockInv(s) && CurrentInv(s) && OfferInv(s) && SessionInv(s) && BundleInv(s)
    requires Enabled(s, a) && PanicAfter(s, a).None?
    ensures BundleInv(Do(s, a))
  {
    NewStep(s, a);
    var s' := Do(s, a);
    forall i | 0 <= i < |s'.offered| ensures OfferedOk(s', i) {
      if i == |s.offered| {
        OfferedNew(s, a);
      } else if ByThread(a) {
        assert OfferedOk(s, i);
        OfferedThread(s, a, i);
      } else {
        assert OfferedOk(s, i);
        OfferedOther(s, a, i);
      }
    }
  }

  ghost predicate SendOk(consumed: seq<Tid>, bundles: map<Tid, Bundle>, send: Send) {
    && send.b in consumed && send.b in bundles
    && (send.st.Blocked? ==> !bundles[send.b].closedCh)
  }

  lemma {:induction false} NewSendOk(s: State, a: Action)
    requires Enabled(s, a) && a.Enter?
    ensures SendOk(Do(s, a).consumed, Do(s, a).bundles, Do(s, a).sends[a.x])
  {
    FlagsStay(s, a, a.b);
    if a.pick.None? {
      assert !ArmReady(s, a.b, ClosedArm);
    }
  }

  /** A send that was there before: blocked still only if it was, and not if its bundle began to close. */
  lemma {:induction false} SendKept(s: State, a: Action, x: SendId)
    requires Enabled(s, a) && x in s.sends
    ensures var send, send' := s.sends[x], Do(s, a).sends[x];
      && send'.b == send.b && send'.late == send.late
      && (send'.st.Blocked? ==> send.st.Blocked? && Closes(s, a) != Some(Half(send.b, false)))
      && (send'.st == Left(CtxArm) ==> send.st == Left(CtxArm) || a.CancelCtx?)
  {}

  lemma {:induction false} OldSendOk(s: State, a: Action, x: SendId)
    requires OfferInv(s) && Enabled(s, a) && x in s.sends && SendOk(s.consumed, s.bundles, s.sends[x])
    ensures SendOk(Do(s, a).consumed, Do(s, a).bundles, Do(s, a).sends[x])
  {
    SendKept(s, a, x);
    var b := s.sends[x].b;
    if Creates(s, a) {
      EarlyIsNew(s, a.t);
    }
    if !(Closes(s, a).Some? && Closes(s, a).value.b == b) {
      FlagsStay(s, a, b);
    }
  }

  lemma {:induction false} SendStep(s: State, a: Action)
    requires OfferInv(s) && SendInv(s) && Enabled(s, a)
    ensures SendInv(Do(s, a))
  {
    var s' := Do(s, a);
    forall x | x in s'.sends ensures SendOk(s'.consumed, s'.bundles, s'.sends[x]) {
      if x in s.sends {
        OldSendOk(s, a, x);
      } else {
        NewSendOk(s, a);
      }
    }
  }

  // ---------------------------------------------------------------------------------------
  // What a panic can come from
  // ---------------------------------------------------------------------------------------

  /** A panic is the doing of a send that came late, or of a failed session whose bundle was replaced. */
  ghost predicate Justified(s: State) {
    match s.panic
    case None => true
    case Some(SendOnClosed(x)) => x in s.sends && s.sends[x].late
    case Some(ClosedTwice(b)) => b in s.failed && b in s.offered && Last(s.offered) != Some(b)
    case Some(_) => false
  }

  lemma {:induction false} ThreadPanic(s: State, a: Action)
    requires LockInv(s) && CloseInv(s) && CurrentInv(s) && OfferInv(s) && SessionInv(s) && BundleInv(s) && SendInv(s)
    requires Enabled(s, a) && ByThread(a)
    ensures Justified(Do(s, a))
  {
    HolderStep(s, a);
    var pc := s.threads[a.t];
    if a.Step? && pc.ClosingOld? {
      var i := |s.offered| - 2;
      assert s.offered[i] == pc.prev && OfferedOk(s, i);
      assert s.offered[i] != s.offered[i + 1];
    } else if a.Step? && pc.ClosingNew? {
      EarlyIsNew(s, a.t);
    }
  }

  lemma {:induction false} SessionPanic(s: State, a: Action)
    requires OfferInv(s) && SessionInv(s) && BundleInv(s) && SendInv(s)
    requires Enabled(s, a) && a.SessionCloses?
    ensures Justified(Do(s, a))
  {
    var i :| 0 <= i < |s.consumed| && s.consumed[i] == s.session.b;
    assert s.offered[i] == s.session.b && OfferedOk(s, i);
    if i < |s.offered| - 1 {
      assert s.offered[i] != s.offered[|s.offered| - 1];
    }
  }

  lemma {:induction false} StepPanic(s: State, a: Action)
    requires Inv(s) && Enabled(s, a)
    ensures Justified(Do(s, a))
  {
    if ByThread(a) {
      ThreadPanic(s, a);
    } else if a.SessionCloses? {
      SessionPanic(s, a);
    }
  }

  lemma {:induction false} StepKeepsInv(s: State, a: Action)
    requires Inv(s) && Enabled(s, a) && Do(s, a).panic.None?
    ensures Inv(Do(s, a))
  {
    LockStep(s, a);
    CloseStep(s, a);
    CurrentStep(s, a);
    OfferStep(s, a);
    SessionStep(s, a);
    BundleStep(s, a);
    SendStep(s, a);
  }

  lemma {:induction false} RunKeepsInv(run: seq<Action>)
    requires ValidRun(run)
    ensures var s := Exec(run); Justified(s) && OfferInv(s) && (s.panic.None? ==> Inv(s))
    decreases |run|
  {
    if run != [] {
      RunKeepsInv(run[..|run| - 1]);
      var s, a := Exec(run[..|run| - 1]), run[|run| - 1];
      StepPanic(s, a);
      OfferStep(s, a);
      if Do(s, a).panic.None? {
        StepKeepsInv(s, a);
      }
    }
  }

  /** Every send came before the message channel of its bundle was closed. */
  ghost predicate NoLateSend(s: State) {
    forall x :: x in s.sends ==> !s.sends[x].late
  }

  /**
   Controller sessions, for every interleaving of refreshes, closes, sends, failures and cancellation.
   Bundles are consumed in the order they were offered. The bundle channel is never closed twice nor sent
   to after its close, and no message channel is closed under a blocked send. What is left: a panic comes
   from a send that came late, or from the second close of a bundle whose session failed and which was
   then replaced. Whenever the mutex is free, every offered bundle but the latest is closed, and the
   latest is open unless its session failed.
   */
  lemma {:induction false} ControllerSafety(run: seq<Action>)
    requires ValidRun(run)
    ensures var s := Exec(run);
      && s.consumed <= s.offered && |s.offered| <= |s.consumed| + 1 && Distinct(s.offered)
      && Justified(s)
      && (NoLateSend(s) && s.failed == {} ==> s.panic.None?)
      && (s.panic.None? && s.mutex.None? ==>
            s.current == Last(s.offered) && forall i :: 0 <= i < |s.offered| ==> OnlyLatestOpen(s, i))
  {
    RunKeepsInv(run);
    var s := Exec(run);
    if s.panic.None? && s.mutex.None? {
      forall i | 0 <= i < |s.offered| ensures OnlyLatestOpen(s, i) {
        assert OfferedOk(s, i);
      }
    }
  }

  /** Every offered bundle but the latest is closed; the latest is open unless its session failed. */
  ghost predicate OnlyLatestOpen(s: State, i: nat)
    requires i < |s.offered|
  {
    var b := s.offered[i];
    && b in s.bundles
    && (i < |s.offered| - 1 ==> s.bundles[b].closedCh && s.bundles[b].msgClosed)
    && (i == |s.offered| - 1 && b !in s.failed ==> !s.bundles[b].closedCh && !s.bundles[b].msgClosed)
  }

  /**
   What closing `closed` before the message channel buys: a send that entered before its bundle's message
   channel was closed never panics, whatever happens afterwards, and a send that is still blocked is on a
   bundle nobody has begun to close, so closing a bundle releases all of its sends.
   */
  lemma {:induction false} EarlySendIsSafe(run: seq<Action>, x: SendId)
    requires ValidRun(run) && x in Exec(run).sends && !Exec(run).sends[x].late
    ensures var s := Exec(run); var b := s.sends[x].b;
      && s.panic != Some(SendOnClosed(x)) && s.panic != Some(ClosedUnderSender(b))
      && (s.panic.None? && s.sends[x].st.Blocked? ==>
            b in s.bundles && !s.bundles[b].closedCh && !s.bundles[b].msgClosed)
  {
    RunKeepsInv(run);
    var s := Exec(run);
    if s.panic.None? && s.sends[x].st.Blocked? {
      assert SendOk(s.consumed, s.bundles, s.sends[x]);
      var i :| 0 <= i < |s.consumed| && s.consumed[i] == s.sends[x].b;
      assert s.offered[i] == s.sends[x].b && OfferedOk(s, i);
    }
  }

  // ---------------------------------------------------------------------------------------
  // What a refresh returns
  // ---------------------------------------------------------------------------------------

  predicate Shut(b: Bundle) {
    b.closedCh && b.msgClosed
  }

  /** How a refresh ended: with its bundle offered, by the context, or with its bundle shut by itself. */
  ghost predicate Outcome(run: seq<Action>, s: State, t: Tid) {
    && t in s.bundles
    && (t in s.offered || SelectDone(t) in run || (s.closed && Shut(s.bundles[t])))
    && (SelectDone(t) in run ==> s.ctxDone && t !in s.offered)
  }

  ghost predicate RefreshOk(run: seq<Action>, s: State, t: Tid)
    requires t in s.threads
  {
    match s.threads[t]
    case RefreshStart => SelectDone(t) !in run
    case RefreshLocked => SelectDone(t) !in run
    case Selecting => t in s.bundles && SelectDone(t) !in run
    case ClosingOld(_, _) => t in s.bundles && t in s.offered && SelectDone(t) !in run
    case SettingCurrent => t in s.bundles && t in s.offered && SelectDone(t) !in run
    case ClosingNew(_) => t in s.bundles && s.closed && SelectDone(t) !in run
    case Unlocking => Outcome(run, s, t)
    case Done => Outcome(run, s, t)
    case _ => false
  }

  /** Once shut, always shut. */
  lemma {:induction false} ShutStays(s: State, a: Action, t: Tid)
    requires Enabled(s, a) && t in s.bundles && !(Creates(s, a) && a.t == t)
    ensures t in Do(s, a).bundles && (Shut(s.bundles[t]) ==> Shut(Do(s, a).bundles[t]))
  {}

  lemma {:induction false} RefreshMoves(run: seq<Action>, s: State, a: Action)
    requires LockInv(s) && OfferInv(s) && NewOk(s) && Enabled(s, a) && ByThread(a) && RefreshOk(run, s, a.t)
    ensures RefreshOk(run + [a], Do(s, a), a.t)
  {
    HolderStep(s, a);
    if Early(s.threads[a.t]) {
      EarlyIsNew(s, a.t);
    }
  }

  lemma {:induction false} RefreshWaits(run: seq<Action>, s: State, a: Action, t: Tid)
    requires Enabled(s, a) && t in s.threads && !(ByThread(a) && a.t == t) && RefreshOk(run, s, t)
    ensures RefreshOk(run + [a], Do(s, a), t)
  {
    if t in s.bundles {
      ShutStays(s, a, t);
    }
  }

  lemma {:induction false} StepsOnlySpawned(run: seq<Action>, t: Tid)
    requires ValidRun(run) && SelectDone(t) in run
    ensures t in Exec(run).threads
    decreases |run|
  {
    var past, a := run[..|run| - 1], run[|run| - 1];
    assert run == past + [a];
    if SelectDone(t) in past {
      StepsOnlySpawned(past, t);
    }
  }

  lemma {:induction false} RefreshRun(run: seq<Action>, t: Tid)
    requires ValidRun(run) && Spawn(t, true) in run
    ensures t in Exec(run).threads && RefreshOk(run, Exec(run), t)
    decreases |run|
  {
    var past, a := run[..|run| - 1], run[|run| - 1];
    assert run == past + [a];
    if SelectDone(t) in past {
      StepsOnlySpawned(past, t);
    }
    if Spawn(t, true) in past {
      RefreshRun(past, t);
      RunKeepsInv(past);
      if ByThread(a) && a.t == t {
        RefreshMoves(past, Exec(past), a);
      } else {
        RefreshWaits(past, Exec(past), a, t);
      }
    }
  }

  /**
   Every refresh that is through its locked section has a bundle, and unless it left by the context it offered
   that bundle to the session goroutine, or found the controller closed and returns it with both channels closed.
   It leaves by the context only if that was cancelled, and then it has offered nothing.
   */
  lemma {:induction false} RefreshOutcome(run: seq<Action>, t: Tid)
    requires ValidRun(run) && Spawn(t, true) in run && t in Exec(run).threads
    requires Exec(run).threads[t].Unlocking? || Exec(run).threads[t].Done?
    ensures var s := Exec(run);
      && t in s.bundles
      && (SelectDone(t) !in run && t !in s.offered ==> s.closed && s.bundles[t].closedCh && s.bundles[t].msgClosed)
      && (SelectDone(t) in run ==> s.ctxDone && t !in s.offered)
  {
    RefreshRun(run, t);
  }

  // ---------------------------------------------------------------------------------------
  // What a send has done when it returns
  // ---------------------------------------------------------------------------------------

  /** A bundle is made once, by its own refresh. */
  ghost predicate MadeInv(s: State) {
    && (forall t :: t in s.bundles ==> t in s.threads)
    && (forall t :: t in s.bundles ==> !s.threads[t].RefreshStart? && !s.threads[t].RefreshLocked?)
  }

  lemma {:induction false} MadeStep(s: State, a: Action)
    requires MadeInv(s) && Enabled(s, a)
    ensures MadeInv(Do(s, a))
  {
    forall t | t in Do(s, a).bundles ensures t in s.bundles || (Creates(s, a) && t == a.t) {}
  }

  ghost predicate SendLeftOk(bundles: map<Tid, Bundle>, ctxDone: bool, send: Send) {
    && send.b in bundles
    && (send.st == Left(ClosedArm) ==> bundles[send.b].closedCh)
    && (send.st == Left(CtxArm) ==> ctxDone)
    && (send.st.Blocked? ==> !bundles[send.b].closedCh && !ctxDone && bundles[send.b].full)
  }

  /**
   A send left by the `closed` arm only from a closed bundle, by the context arm only after cancellation, and is
   blocked only while its bundle is open, its message channel full and the context not cancelled.
   */
  ghost predicate LeftOk(s: State) {
    forall x :: x in s.sends ==> SendLeftOk(s.bundles, s.ctxDone, s.sends[x])
  }

  /** A bundle that has begun to close stays so. */
  lemma {:induction false} ClosedStays(s: State, a: Action, b: Tid)
    requires MadeInv(s) && Enabled(s, a) && b in s.bundles
    ensures b in Do(s, a).bundles && (s.bundles[b].closedCh ==> Do(s, a).bundles[b].closedCh)
    ensures Closes(s, a) == Some(Half(b, false)) ==> Do(s, a).bundles[b].closedCh
  {}

  lemma {:induction false} LeftAt(s: State, a: Action, x: SendId)
    requires MadeInv(s) && Enabled(s, a) && x in Do(s, a).sends
    requires x in s.sends ==> SendLeftOk(s.bundles, s.ctxDone, s.sends[x])
    ensures SendLeftOk(Do(s, a).bundles, Do(s, a).ctxDone, Do(s, a).sends[x])
  {
    var b := if x in s.sends then s.sends[x].b else a.b;
    ClosedStays(s, a, b);
    if x in s.sends {
      SendKept(s, a, x);
      if Do(s, a).sends[x].st.Blocked? {
        BlockedStays(s, a, x);
      }
    } else if a.pick.None? {
      assert !ArmReady(s, b, ClosedArm) && !ArmReady(s, b, MsgArm) && !ArmReady(s, b, CtxArm);
    }
  }

  lemma {:induction false} BlockedStays(s: State, a: Action, x: SendId)
    requires MadeInv(s) && Enabled(s, a) && x in s.sends && SendLeftOk(s.bundles, s.ctxDone, s.sends[x])
    requires s.sends[x].st.Blocked? && Do(s, a).sends[x].st.Blocked? && !a.CancelCtx?
    requires Closes(s, a) != Some(Half(s.sends[x].b, false))
    ensures var b := s.sends[x].b; var s' := Do(s, a);
      b in s'.bundles && !s'.bundles[b].closedCh && !s'.ctxDone && s'.bundles[b].full
  {
    assert BlockedOn(s.sends, x, s.sends[x].b);
  }

  lemma {:induction false} LeftStep(s: State, a: Action)
    requires MadeInv(s) && LeftOk(s) && Enabled(s, a)
    ensures LeftOk(Do(s, a))
  {
    forall x | x in Do(s, a).sends ensures SendLeftOk(Do(s, a).bundles, Do(s, a).ctxDone, Do(s, a).sends[x]) {
      LeftAt(s, a, x);
    }
  }

  /** The action puts the message of send `x` into its channel. */
  predicate PutsSend(a: Action, x: SendId) {
    (a.Enter? && a.x == x && a.pick == Some(MsgArm)) || (a.TakeMsg? && a.next == Some(x))
  }

  predicate SentOn(s: State, x: SendId) {
    x in s.sends && s.sends[x].st == Left(MsgArm)
  }

  lemma {:induction false} SentOnStep(s: State, a: Action, x: SendId)
    requires Enabled(s, a)
    ensures SentOn(Do(s, a), x) <==> SentOn(s, x) || PutsSend(a, x)
  {}

  /** A send returns by the message arm exactly if its message was put into the channel. */
  lemma {:induction false} MessageArmIff(run: seq<Action>, x: SendId)
    requires ValidRun(run)
    ensures SentOn(Exec(run), x) <==> exists i :: 0 <= i < |run| && PutsSend(run[i], x)
    decreases |run|
  {
    if run != [] {
      var past, a := run[..|run| - 1], run[|run| - 1];
      MessageArmIff(past, x);
      SentOnStep(Exec(past), a, x);
      PutsGrow(past, a, run, x);
    }
  }

  lemma {:induction false} PutsGrow(past: seq<Action>, a: Action, run: seq<Action>, x: SendId)
    requires run == past + [a]
    ensures (exists i :: 0 <= i < |run| && PutsSend(run[i], x)) <==>
      (exists i :: 0 <= i < |past| && PutsSend(past[i], x)) || PutsSend(a, x)
  {
    if i :| 0 <= i < |past| && PutsSend(past[i], x) {
      assert run[i] == past[i];
    }
    assert run[|past|] == a;
  }

  /** Sends through the message channel of `b`: at once, or when a message was taken from the full channel. */
  predicate Puts(a: Action, b: Tid) {
    (a.Enter? && a.b == b && a.pick == Some(MsgArm)) || (a.TakeMsg? && a.b == b && a.next.Some?)
  }

  function PutCount(run: seq<Action>, b: Tid): nat {
    if run == [] then 0 else PutCount(run[..|run| - 1], b) + if Puts(run[|run| - 1], b) then 1 else 0
  }

  function TakeCount(run: seq<Action>, b: Tid): nat {
    if run == [] then 0
    else TakeCount(run[..|run| - 1], b) + if run[|run| - 1].TakeMsg? && run[|run| - 1].b == b then 1 else 0
  }

  function Slots(s: State, b: Tid): nat {
    if b in s.bundles && s.bundles[b].full then 1 else 0
  }

  lemma {:induction false} SlotStep(s: State, a: Action, b: Tid)
    requires MadeInv(s) && Enabled(s, a) && PanicAfter(s, a).None?
    ensures Slots(Do(s, a), b) + (if a.TakeMsg? && a.b == b then 1 else 0) == Slots(s, b) + if Puts(a, b) then 1 else 0
  {}

  /**
   Sends return for a reason: by the `closed` arm only if the bundle was closed, by the context arm only if the
   context was cancelled; they block only while no arm is ready. A message channel conserves messages: what was sent
   is what was taken plus the one it holds.
   */
  lemma {:induction false} SendsReturnForAReason(run: seq<Action>, b: Tid)
    requires ValidRun(run)
    ensures MadeInv(Exec(run)) && LeftOk(Exec(run))
    ensures Exec(run).panic.None? ==> PutCount(run, b) == TakeCount(run, b) + Slots(Exec(run), b)
    decreases |run|
  {
    if run != [] {
      var past, a := run[..|run| - 1], run[|run| - 1];
      SendsReturnForAReason(past, b);
      MadeStep(Exec(past), a);
      LeftStep(Exec(past), a);
      if PanicAfter(Exec(past), a).None? {
        SlotStep(Exec(past), a, b);
      }
    }
  }

  function Ends(run: seq<Action>): nat {
    if run == [] then 0 else Ends(run[..|run| - 1]) + if run[|run| - 1].SessionEnds? then 1 else 0
  }

  lemma {:induction false} SessionCountStep(s: State, a: Action)
    requires SessionInv(s) && Enabled(s, a)
    ensures var s' := Do(s, a);
      |s'.consumed| - |s'.failed| - AtWork(s'.session) ==
        |s.consumed| - |s.failed| - AtWork(s.session) + if a.SessionEnds? then 1 else 0
  {}

  function AtWork(session: Session): nat {
    if session.Running? || session.Replying? then 1 else 0
  }

  /**
   A session goes on until its command channel is closed or it fails: the bundles consumed are those whose session
   ended, those whose session failed, and the one at work.
   */
  lemma {:induction false} SessionsAccounted(run: seq<Action>)
    requires ValidRun(run)
    ensures var s := Exec(run); |s.consumed| == Ends(run) + |s.failed| + AtWork(s.session)
    decreases |run|
  {
    if run != [] {
      var past, a := run[..|run| - 1], run[|run| - 1];
      SessionsAccounted(past);
      RunKeepsInv(past);
      SessionCountStep(Exec(past), a);
    }
  }

  /**
   The session goroutine is gone exactly when it stopped, which it does only for a cancelled context or a closed
   and empty bundle channel.
   */
  lemma {:induction false} SessionGoneIff(run: seq<Action>)
    requires ValidRun(run)
    ensures var s := Exec(run);
      && (s.session.Gone? <==> SessionStops in run)
      && (s.session.Gone? ==> s.ctxDone || (s.chClosed && s.chBuf.None?))
    decreases |run|
  {
    if run != [] {
      var past, a := run[..|run| - 1], run[|run| - 1];
      SessionGoneIff(past);
      RunKeepsInv(past);
      assert run == past + [a];
      GoneStep(Exec(past), a);
      StopReasonStays(Exec(past), a);
    }
  }

  lemma {:induction false} StopReasonStays(s: State, a: Action)
    requires LockInv(s) && CloseInv(s) && Enabled(s, a)
    requires s.session.Gone? ==> s.ctxDone || (s.chClosed && s.chBuf.None?)
    ensures var s' := Do(s, a); s'.session.Gone? ==> s'.ctxDone || (s'.chClosed && s'.chBuf.None?)
  {
    if a.SelectSend? {
      HolderStep(s, a);
    }
  }

  lemma {:induction false} GoneStep(s: State, a: Action)
    requires Enabled(s, a)
    ensures Do(s, a).session.Gone? <==> s.session.Gone? || a.SessionStops?
  {}

  // ---------------------------------------------------------------------------------------
  // When no run panics
  // ---------------------------------------------------------------------------------------

  /**
   What the surroundings of a controller may do: handlers use the send function of a session after a refresh
   has offered the next bundle; the owner refreshes while a session is at work; replies do not marshal; the
   context is cancelled.
   */
  datatype Env = Env(lateHandlers: bool, busyRefresh: bool, unmarshalable: bool, cancels: bool)

  predicate Allowed(env: Env, s: State, a: Action) {
    match a
    case Enter(_, b, reply, _) => !reply && Last(s.offered) != Some(b) ==> env.lateHandlers
    case SelectSend(_) => InSession(s.session) ==> env.busyRefresh
    case MarshalFails => env.unmarshalable
    case CancelCtx => env.cancels
    case _ => true
  }

  ghost predicate Within(env: Env, run: seq<Action>)
    requires ValidRun(run)
    decreases |run|
  {
    run == [] || (var past := run[..|run| - 1]; Within(env, past) && Allowed(env, Exec(past), run[|run| - 1]))
  }

  const CALM := Env(false, false, false, false)

  /** A session at work has the latest bundle. */
  ghost predicate LatestInSession(s: State) {
    InSession(s.session) ==> Last(s.offered) == Some(s.session.b)
  }

  ghost predicate CalmInv(s: State) {
    && !s.ctxDone && s.failed == {} && LatestInSession(s)
    && (forall x :: x in s.sends ==> !s.sends[x].late && s.sends[x].st != Left(CtxArm))
  }

  /** Unless its session failed, the latest bundle is open: sends on it are in time. */
  lemma {:induction false} LatestIsOpen(s: State, b: Tid)
    requires BundleInv(s) && SessionInv(s) && s.failed == {} && Last(s.offered) == Some(b)
    ensures b in s.bundles && !s.bundles[b].msgClosed
  {
    assert OfferedOk(s, |s.offered| - 1);
  }

  lemma {:induction false} LatestStep(s: State, a: Action)
    requires OfferInv(s) && LatestInSession(s) && Enabled(s, a) && Allowed(CALM, s, a)
    ensures LatestInSession(Do(s, a))
  {
    if a.SessionTake? {
      assert s.offered[|s.offered| - 1] == s.chBuf.value;
    }
  }

  lemma {:induction false} CalmStep(s: State, a: Action)
    requires OfferInv(s) && SessionInv(s) && BundleInv(s) && CalmInv(s) && Enabled(s, a) && Allowed(CALM, s, a)
    ensures CalmInv(Do(s, a))
  {
    var s' := Do(s, a);
    LatestStep(s, a);
    if a.Enter? {
      LatestIsOpen(s, a.b);
    }
    forall x | x in s'.sends ensures !s'.sends[x].late && s'.sends[x].st != Left(CtxArm) {
      if x in s.sends {
        SendKept(s, a, x);
      }
    }
  }

  lemma {:induction false} CalmRun(run: seq<Action>)
    requires ValidRun(run) && Within(CALM, run)
    ensures CalmInv(Exec(run))
    decreases |run|
  {
    if run != [] {
      CalmRun(run[..|run| - 1]);
      RunKeepsInv(run[..|run| - 1]);
      CalmStep(Exec(run[..|run| - 1]), run[|run| - 1]);
    }
  }

  lemma {:induction false} Extend(env: Env, run: seq<Action>, a: Action) returns (longer: seq<Action>)
    requires ValidRun(run) && Within(env, run) && Enabled(Exec(run), a) && Allowed(env, Exec(run), a)
    ensures longer == run + [a] && ValidRun(longer) && Within(env, longer) && Exec(longer) == Do(Exec(run), a)
  {
    longer := run + [a];
    assert longer[..|longer| - 1] == run;
  }

  lemma {:induction false} FreshId(used: set<nat>) returns (x: nat)
    ensures x !in used && forall y :: y in used ==> y < x
    decreases |used|
  {
    if used == {} {
      x := 0;
    } else {
      var y :| y in used;
      var z := FreshId(used - {y});
      x := if z > y then z else y + 1;
      forall u | u in used ensures u < x {
        if u != y {
          assert u in used - {y};
        }
      }
    }
  }

  /** Any run in which a bundle has been closed goes on to a panic if a handler uses its send function again. */
  lemma {:induction false} LateSendPanics(env: Env, run: seq<Action>, b: Tid) returns (longer: seq<Action>)
    requires ValidRun(run) && Within(env, run) && env.lateHandlers
    requires var s := Exec(run); s.panic.None? && b in s.consumed && b in s.bundles && s.bundles[b].msgClosed
    ensures run <= longer && ValidRun(longer) && Within(env, longer) && Exec(longer).panic.Some?
  {
    var s := Exec(run);
    var x := FreshId(s.sends.Keys);
    assert ArmReady(s, b, MsgArm);
    longer := Extend(env, run, Enter(x, b, false, Some(MsgArm)));
  }

  /** Any run in which a bundle has been closed under a session at work goes on to a panic with its next reply. */
  lemma {:induction false} LateReplyPanics(env: Env, run: seq<Action>, b: Tid) returns (longer: seq<Action>)
    requires ValidRun(run) && Within(env, run)
    requires var s := Exec(run);
      s.panic.None? && s.session == Running(b) && b in s.consumed && b in s.bundles && s.bundles[b].msgClosed
    ensures run <= longer && ValidRun(longer) && Within(env, longer) && Exec(longer).panic.Some?
  {
    var s := Exec(run);
    var x := FreshId(s.sends.Keys);
    assert ArmReady(s, b, MsgArm);
    longer := Extend(env, run, Enter(x, b, true, Some(MsgArm)));
  }

  /** A new refresh has come to `pc` and has not disturbed anything but the mutex and its own bundle. */
  ghost predicate RefreshAt(s0: State, s: State, t: Tid, pc: Pc) {
    && t in s.threads && s.threads[t] == pc && s.panic.None?
    && s.mutex == (if Holds(pc) then Some(t) else None)
    && s.closed == s0.closed && s.current == s0.current && s.chBuf == s0.chBuf && s.chClosed == s0.chClosed
    && s.session == s0.session && s.consumed == s0.consumed && s.ctxDone == s0.ctxDone
    && (forall b :: b in s0.bundles && b != t ==> b in s.bundles && SameFlags(s.bundles[b], s0.bundles[b]))
  }

  lemma {:induction false} RefreshStarts(env: Env, run: seq<Action>, t: Tid) returns (longer: seq<Action>)
    requires ValidRun(run) && Within(env, run) && t !in Exec(run).threads
    requires Exec(run).panic.None? && Exec(run).mutex.None?
    ensures run <= longer && ValidRun(longer) && Within(env, longer)
    ensures RefreshAt(Exec(run), Exec(longer), t, RefreshStart)
  {
    longer := Extend(env, run, Spawn(t, true));
  }

  lemma {:induction false} RefreshLocks(env: Env, s0: State, run: seq<Action>, t: Tid) returns (longer: seq<Action>)
    requires ValidRun(run) && Within(env, run) && RefreshAt(s0, Exec(run), t, RefreshStart)
    ensures run <= longer && ValidRun(longer) && Within(env, longer) && RefreshAt(s0, Exec(longer), t, RefreshLocked)
  {
    longer := Extend(env, run, Step(t));
  }

  lemma {:induction false} RefreshCreates(env: Env, s0: State, run: seq<Action>, t: Tid) returns (longer: seq<Action>)
    requires ValidRun(run) && Within(env, run) && RefreshAt(s0, Exec(run), t, RefreshLocked) && !s0.closed
    ensures run <= longer && ValidRun(longer) && Within(env, longer) && RefreshAt(s0, Exec(longer), t, Selecting)
  {
    longer := Extend(env, run, Step(t));
  }

  lemma {:induction false} RefreshOffers(env: Env, s0: State, run: seq<Action>, t: Tid) returns (longer: seq<Action>)
    requires ValidRun(run) && Within(env, run) && RefreshAt(s0, Exec(run), t, Selecting)
    requires s0.chBuf.None? && !s0.chClosed && s0.current.Some? && (InSession(s0.session) ==> env.busyRefresh)
    ensures run <= longer && ValidRun(longer) && Within(env, longer)
    ensures RefreshAt(s0.(chBuf := Some(t)), Exec(longer), t, ClosingOld(s0.current.value, false))
  {
    longer := Extend(env, run, SelectSend(t));
  }

  /** A refresh that is alone with the controller comes to close the current bundle. */
  lemma {:induction false} RefreshReplaces(env: Env, run: seq<Action>, t: Tid) returns (longer: seq<Action>)
    requires ValidRun(run) && Within(env, run) && t !in Exec(run).threads
    requires var s := Exec(run);
      && s.panic.None? && s.mutex.None? && !s.closed && s.chBuf.None? && !s.chClosed && s.current.Some?
      && (InSession(s.session) ==> env.busyRefresh)
    ensures run <= longer && ValidRun(longer) && Within(env, longer)
    ensures var s := Exec(run);
      RefreshAt(s.(chBuf := Some(t)), Exec(longer), t, ClosingOld(s.current.value, false))
  {
    var s := Exec(run);
    var r1 := RefreshStarts(env, run, t);
    var r2 := RefreshLocks(env, s, r1, t);
    var r3 := RefreshCreates(env, s, r2, t);
    longer := RefreshOffers(env, s, r3, t);
  }

  lemma {:induction false} SecondClose(env: Env, run: seq<Action>, a: Action, b: Tid) returns (longer: seq<Action>)
    requires ValidRun(run) && Within(env, run) && Enabled(Exec(run), a) && (a.Step? || a.SessionCloses?)
    requires Closes(Exec(run), a) == Some(Half(b, false)) && b in Exec(run).bundles && Exec(run).bundles[b].closedCh
    ensures run <= longer && ValidRun(longer) && Within(env, longer) && Exec(longer).panic == Some(ClosedTwice(b))
  {
    longer := Extend(env, run, a);
  }

  /** Once the current bundle has begun to close, the next refresh closes it again. */
  lemma {:induction false} RefreshPanics(env: Env, run: seq<Action>, b: Tid) returns (longer: seq<Action>)
    requires ValidRun(run) && Within(env, run)
    requires var s := Exec(run);
      && s.panic.None? && s.mutex.None? && !s.closed && s.chBuf.None? && !s.chClosed && s.current == Some(b)
      && b in s.threads && b in s.bundles && s.bundles[b].closedCh && !InSession(s.session)
    ensures run <= longer && ValidRun(longer) && Within(env, longer) && Exec(longer).panic == Some(ClosedTwice(b))
  {
    var t := FreshId(Exec(run).threads.Keys);
    var r := RefreshReplaces(env, run, t);
    longer := SecondClose(env, r, Step(t), b);
  }

  /** The bundle of a failed session that is the latest one: no other is waiting, and the controller knows it. */
  lemma {:induction false} FailedLatest(s: State, b: Tid)
    requires Inv(s) && s.mutex.None? && !s.closed && b in s.failed && Last(s.offered) == Some(b)
    ensures s.chBuf.None? && !s.chClosed && s.current == Some(b) && b in s.threads && b in s.bundles
    ensures InSession(s.session) ==> s.session.Failing? && s.session.b == b
    ensures !InSession(s.session) ==> s.bundles[b].closedCh
  {
    var n := |s.offered|;
    assert OfferedOk(s, n - 1) && s.offered[n - 1] in s.threads;
    var i :| 0 <= i < |s.consumed| && s.consumed[i] == b;
    assert s.offered[i] == b;
    assert s.chBuf.None? && s.consumed == s.offered;
  }

  lemma {:induction false} FailedReplaced(s: State, b: Tid)
    requires Inv(s) && s.mutex.None? && b in s.failed && Last(s.offered) != Some(b)
    ensures s.session == Failing(b, false) && b in s.bundles && s.bundles[b].closedCh
  {
    var i :| 0 <= i < |s.consumed| && s.consumed[i] == b;
    assert s.offered[i] == b && OfferedOk(s, i);
  }

  /** The failed session of the latest bundle closes its bundle undisturbed, one half at a time. */
  lemma {:induction false} FailedCloses(env: Env, run: seq<Action>, b: Tid) returns (longer: seq<Action>)
    requires ValidRun(run) && Within(env, run)
    requires var s := Exec(run);
      && s.panic.None? && s.mutex.None? && !s.closed
      && s.session.Failing? && s.session.b == b && Last(s.offered) == Some(b)
    ensures run <= longer && ValidRun(longer) && Within(env, longer)
    ensures var s, s' := Exec(run), Exec(longer);
      && s'.panic.None? && s'.mutex.None? && !s'.closed && s'.offered == s.offered && s'.failed == s.failed
      && s'.session == if s.session.half then Ready else Failing(b, true)
  {
    RunKeepsInv(run);
    var s := Exec(run);
    FailedLatest(s, b);
    longer := Extend(env, run, SessionCloses);
    StepPanic(s, SessionCloses);
  }

  lemma {:induction false} FailedFinishes(env: Env, run: seq<Action>, b: Tid) returns (longer: seq<Action>)
    requires ValidRun(run) && Within(env, run)
    requires var s := Exec(run);
      s.panic.None? && s.mutex.None? && !s.closed && b in s.failed && Last(s.offered) == Some(b)
    ensures run <= longer && ValidRun(longer) && Within(env, longer)
    ensures var s := Exec(longer);
      && s.panic.None? && s.mutex.None? && !s.closed && b in s.failed && Last(s.offered) == Some(b)
      && !InSession(s.session)
  {
    RunKeepsInv(run);
    FailedLatest(Exec(run), b);
    longer := run;
    if InSession(Exec(run).session) {
      longer := FailedCloses(env, run, b);
      if !Exec(run).session.half {
        longer := FailedCloses(env, longer, b);
      }
    }
  }

  /** A closed controller offers no more bundles. */
  lemma {:induction false} ClosedOffersNothing(run: seq<Action>, longer: seq<Action>)
    requires ValidRun(run) && ValidRun(longer) && run <= longer && Exec(run).closed
    ensures Exec(longer).closed && Exec(longer).offered == Exec(run).offered
    decreases |longer|
  {
    if run != longer {
      var past := longer[..|longer| - 1];
      ClosedOffersNothing(run, past);
      RunKeepsInv(past);
      var a := longer[|longer| - 1];
      if a.SelectSend? {
        HolderStep(Exec(past), a);
      }
    }
  }

  /**
   Any run in which a session has failed goes on to a double close, with nothing more than a refresh: either
   the bundle was replaced and the session's own close comes second, or it is the current one of an open
   controller and the next refresh closes it again.
   */
  lemma {:induction false} ErrorClosesTwice(env: Env, run: seq<Action>, b: Tid) returns (longer: seq<Action>)
    requires ValidRun(run) && Within(env, run)
    requires var s := Exec(run);
      s.panic.None? && s.mutex.None? && b in s.failed && (s.closed ==> Last(s.offered) != Some(b))
    ensures run <= longer && ValidRun(longer) && Within(env, longer) && Exec(longer).panic == Some(ClosedTwice(b))
  {
    RunKeepsInv(run);
    var s := Exec(run);
    if Last(s.offered) != Some(b) {
      FailedReplaced(s, b);
      longer := SecondClose(env, run, SessionCloses, b);
    } else {
      var r := FailedFinishes(env, run, b);
      RunKeepsInv(r);
      FailedLatest(Exec(r), b);
      longer := RefreshPanics(env, r, b);
    }
  }

  /** A failed session is harmless exactly when the controller was closed before the bundle was replaced. */
  lemma {:induction false} FailureIsFatalIff(run: seq<Action>, b: Tid)
    requires ValidRun(run)
    requires var s := Exec(run); s.panic.None? && s.mutex.None? && b in s.failed
    ensures var s := Exec(run);
      (exists longer :: run <= longer && ValidRun(longer) && Exec(longer).panic == Some(ClosedTwice(b)))
        <==> !s.closed || Last(s.offered) != Some(b)
  {
    var s := Exec(run);
    if !s.closed || Last(s.offered) != Some(b) {
      AnythingGoes(run);
      var longer := ErrorClosesTwice(Env(true, true, true, true), run, b);
    } else {
      forall longer | run <= longer && ValidRun(longer) ensures Exec(longer).panic != Some(ClosedTwice(b)) {
        ClosedOffersNothing(run, longer);
        RunKeepsInv(longer);
      }
    }
  }

  lemma {:induction false} AnythingGoes(run: seq<Action>)
    requires ValidRun(run)
    ensures Within(Env(true, true, true, true), run)
    decreases |run|
  {
    if run != [] {
      AnythingGoes(run[..|run| - 1]);
    }
  }

  // ---------------------------------------------------------------------------------------
  // The first session
  // ---------------------------------------------------------------------------------------

  /** The first refresh is complete and its session runs. */
  ghost predicate FirstRuns(s: State) {
    && s.panic.None? && s.mutex.None? && !s.closed && s.chBuf.None? && !s.chClosed && s.current == Some(0)
    && s.session == Running(0) && s.threads.Keys == {0} && 0 in s.consumed && 0 !in s.sends
    && 0 in s.bundles && s.bundles[0] == OPEN
  }

  lemma {:induction false} FirstLocked(env: Env) returns (run: seq<Action>)
    ensures ValidRun(run) && Within(env, run)
    ensures Exec(run) == INIT.(threads := map[0 := RefreshLocked], mutex := Some(0))
  {
    var r1 := Extend(env, [], Spawn(0, true));
    run := Extend(env, r1, Step(0));
    assert Exec(run).sends == map[] && Exec(run).threads == map[0 := RefreshLocked];
  }

  lemma {:induction false} FirstOffered(env: Env) returns (run: seq<Action>)
    ensures ValidRun(run) && Within(env, run)
    ensures Exec(run) == INIT.(threads := map[0 := SettingCurrent], mutex := Some(0), bundles := map[0 := OPEN],
                               chBuf := Some(0), offered := [0])
  {
    var r1 := FirstLocked(env);
    var r2 := Extend(env, r1, Step(0));
    run := Extend(env, r2, SelectSend(0));
    assert Exec(run).sends == map[] && Exec(run).threads == map[0 := SettingCurrent];
  }

  lemma {:induction false} FirstSession(env: Env) returns (run: seq<Action>)
    ensures ValidRun(run) && Within(env, run) && FirstRuns(Exec(run))
  {
    var r1 := FirstOffered(env);
    var r2 := Extend(env, r1, Step(0));
    var r3 := Extend(env, r2, Step(0));
    run := Extend(env, r3, SessionTake);
    assert Exec(run).threads.Keys == {0};
  }

  /** A reply that does not marshal. */
  lemma {:induction false} FailsToMarshal(env: Env) returns (run: seq<Action>)
    requires env.unmarshalable
    ensures ValidRun(run) && Within(env, run)
    ensures var s := Exec(run); s.panic.None? && s.mutex.None? && !s.closed && 0 in s.failed
  {
    var r1 := FirstSession(env);
    run := Extend(env, r1, MarshalFails);
  }

  /** A reply whose select finds the context done. */
  lemma {:induction false} CancelledReply(env: Env) returns (run: seq<Action>)
    requires env.cancels
    ensures ValidRun(run) && Within(env, run)
    ensures var s := Exec(run); s.panic.None? && s.mutex.None? && !s.closed && 0 in s.failed
  {
    var r1 := FirstSession(env);
    var r2 := Extend(env, r1, CancelCtx);
    assert ArmReady(Exec(r2), 0, CtxArm);
    var r3 := Extend(env, r2, Enter(0, 0, true, Some(CtxArm)));
    run := Extend(env, r3, ReplyReturns);
  }

  /** The first half of a close releases every send that is blocked on the bundle. */
  lemma {:induction false} ReleasesSends(env: Env, run: seq<Action>, t: Tid, b: Tid) returns (longer: seq<Action>)
    requires ValidRun(run) && Within(env, run)
    requires var s := Exec(run);
      && s.panic.None? && t in s.threads && s.threads[t] == ClosingOld(b, false)
      && b in s.consumed && b in s.bundles && !s.bundles[b].closedCh && !s.bundles[b].msgClosed
    ensures ValidRun(longer) && Within(env, longer)
    ensures var s := Exec(longer);
      && s.panic.None? && t in s.threads && s.threads[t] == ClosingOld(b, true) && s.session == Exec(run).session
      && b in s.consumed && b in s.bundles && !s.bundles[b].msgClosed && forall x :: !BlockedOn(s.sends, x, b)
  {
    longer := Extend(env, run, Step(t));
  }

  lemma {:induction false} ClosesMessages(env: Env, run: seq<Action>, t: Tid, b: Tid) returns (longer: seq<Action>)
    requires ValidRun(run) && Within(env, run)
    requires var s := Exec(run);
      && s.panic.None? && t in s.threads && s.threads[t] == ClosingOld(b, true)
      && b in s.consumed && b in s.bundles && !s.bundles[b].msgClosed && forall x :: !BlockedOn(s.sends, x, b)
    ensures ValidRun(longer) && Within(env, longer)
    ensures var s := Exec(longer);
      s.panic.None? && s.session == Exec(run).session && b in s.consumed && b in s.bundles && s.bundles[b].msgClosed
  {
    longer := Extend(env, run, Step(t));
  }

  /** A second refresh replaces the bundle of the first session, which is at work or has ended. */
  lemma {:induction false} FirstReplaced(env: Env, run: seq<Action>) returns (longer: seq<Action>)
    requires ValidRun(run) && Within(env, run)
    requires var s := Exec(run); FirstRuns(s.(session := Running(0))) && (InSession(s.session) ==> env.busyRefresh)
    ensures ValidRun(longer) && Within(env, longer)
    ensures var s := Exec(longer);
      s.panic.None? && s.session == Exec(run).session && 0 in s.consumed && 0 in s.bundles && s.bundles[0].msgClosed
  {
    var r2 := RefreshReplaces(env, run, 1);
    var r3 := ReleasesSends(env, r2, 1, 0);
    longer := ClosesMessages(env, r3, 1, 0);
  }

  /** The first session has ended. */
  lemma {:induction false} FirstEnded(env: Env) returns (run: seq<Action>)
    ensures ValidRun(run) && Within(env, run) && Exec(run).session.Ready?
    ensures FirstRuns(Exec(run).(session := Running(0)))
  {
    var r := FirstSession(env);
    run := Extend(env, r, SessionEnds);
  }

  /** A handler keeps the send function of a session that has ended and was replaced. */
  lemma {:induction false} LateHandlerPanics(env: Env) returns (run: seq<Action>)
    requires env.lateHandlers
    ensures ValidRun(run) && Within(env, run) && Exec(run).panic.Some?
  {
    var r1 := FirstEnded(env);
    var r2 := FirstReplaced(env, r1);
    run := LateSendPanics(env, r2, 0);
  }

  /** A refresh while a session handles a command: nobody else does anything, and the session's own reply panics. */
  lemma {:induction false} BusyRefreshPanics(env: Env) returns (run: seq<Action>)
    requires env.busyRefresh
    ensures ValidRun(run) && Within(env, run) && Exec(run).panic.Some?
  {
    var r1 := FirstSession(env);
    var r2 := FirstReplaced(env, r1);
    run := LateReplyPanics(env, r2, 0);
  }

  /**
   No run of a controller panics if and only if its surroundings keep four rules: no handler uses the send
   function of a session once a refresh has offered the next bundle, no refresh offers a bundle while a session
   is at work, every reply marshals, and the context is not cancelled.
   */
  lemma {:induction false} PanicFreeIff(env: Env)
    ensures (forall run :: ValidRun(run) && Within(env, run) ==> Exec(run).panic.None?)
      <==> !env.lateHandlers && !env.busyRefresh && !env.unmarshalable && !env.cancels
  {
    if env.lateHandlers {
      var bad := LateHandlerPanics(env);
    } else if env.busyRefresh {
      var bad := BusyRefreshPanics(env);
    } else if env.unmarshalable {
      var run := FailsToMarshal(env);
      var bad := ErrorClosesTwice(env, run, 0);
    } else if env.cancels {
      var run := CancelledReply(env);
      var bad := ErrorClosesTwice(env, run, 0);
    } else {
      assert env == CALM;
      forall run | ValidRun(run) && Within(env, run) ensures Exec(run).panic.None? {
        CalmRun(run);
        ControllerSafety(run);
      }
    }
  }
}
