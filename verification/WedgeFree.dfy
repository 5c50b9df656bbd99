/**
 Hub, client and controller together do not wedge when the keys are good: each key other than (0, 0) travels
 back at most as often as the handler has answered a command with it, and a good awaiting key is answered once.
 */
module WedgeFree {
  import opened Messages
  import opened EndToEnd
  import opened Correlation
  import opened Wedge
  import Hub = Correlator
  import Safety = CorrelatorSafety
  import Pump = ClientPump

  function HandledMsgs(hs: seq<Handled>): seq<Msg> {
    seq(|hs|, i requires 0 <= i < |hs| => hs[i].msg)
  }

  function One(m: Msg, k: Key): nat {
    if Carries(m, k) then 1 else 0
  }

  /** Messages with the key that have left the controller: written, being written, or in the message channel. */
  function InPump(p: Pump.State, k: Key): nat {
    KeyCount(WireMsgs(p.writer.written), k)
    + (if p.writer.pc.Encoding? then One(WireMsg(p.writer.pc.out), k) else 0)
    + if p.msgCh.Some? then One(p.msgCh.value, k) else 0
  }

  /** No answer is sent twice. */
  predicate Flow(s: State, k: Key) {
    InPump(s.pump, k) + (if s.ctl.Sending? then One(s.ctl.msg, k) else 0) <= KeyCount(HandledMsgs(s.handled), k)
  }

  lemma {:induction false} FlowPump(p: Pump.State, a: Pump.Action, k: Key)
    requires Pump.Enabled(p, a) && !Pump.Panics(p, a) && k != Key(0, 0)
    ensures InPump(Pump.Do(p, a), k) <= InPump(p, k) + if a.PutMsg? then One(a.msg, k) else 0
  {
    if a.EncodeOut? {
      var os, o := p.writer.written, p.writer.pc.out;
      assert WireMsgs(os + [o]) == WireMsgs(os) + [WireMsg(o)];
      CountAppend(WireMsgs(os), WireMsg(o), k);
    }
  }

  lemma {:induction false} FlowHandle(hs: seq<Handled>, h: Handled, k: Key)
    ensures KeyCount(HandledMsgs(hs + [h]), k) == KeyCount(HandledMsgs(hs), k) + One(h.msg, k)
  {
    assert HandledMsgs(hs + [h]) == HandledMsgs(hs) + [h.msg];
    CountAppend(HandledMsgs(hs), h.msg, k);
  }

  lemma {:induction false} FlowStep(w: Hub.Workload, s: State, a: Action, k: Key)
    requires Flow(s, k) && Pump.Inv(s.pump) && Enabled(w, s, a) && k != Key(0, 0)
    ensures Flow(Do(w, s, a), k)
  {
    match a
    case PumpStep(pa) => PumpKeepsInv(s.pump, pa); FlowPump(s.pump, pa, k);
    case PumpDecode =>
      var d := Pump.DecodeCmd(s.hub.out.wire[|s.pump.reader.decoded|]);
      FlowPump(s.pump, d, k);
    case ControllerTake => FlowPump(s.pump, Pump.TakeCmd, k);
    case ControllerSend => FlowPump(s.pump, Pump.PutMsg(s.ctl.msg), k);
    case Handle(kind, payload) => FlowHandle(s.handled, Do(w, s, a).handled[|s.handled|], k);
    case _ =>
  }

  lemma {:induction false} FlowRun(w: Hub.Workload, run: seq<Action>, k: Key)
    requires ValidRun(w, run) && k != Key(0, 0)
    ensures Flow(Exec(w, run), k)
    decreases |run|
  {
    if run != [] {
      FlowRun(w, run[..|run| - 1], k);
      RunKeepsInv(w, run[..|run| - 1]);
      FlowStep(w, Exec(w, run[..|run| - 1]), run[|run| - 1], k);
    }
  }

  // ---------------------------------------------------------------------------------------
  // A good key is answered at most once
  // ---------------------------------------------------------------------------------------

  ghost predicate Distinct(cs: seq<Hub.CallId>) {
    forall i, j :: 0 <= i < j < |cs| ==> cs[i] != cs[j]
  }

  lemma {:induction false} ServedDistinct(w: Hub.Workload, issued: seq<Hub.CallId>)
    requires (forall i :: 0 <= i < |issued| ==> issued[i] < |w|) && Distinct(issued)
    ensures Distinct(Served(w, issued))
    decreases |issued|
  {
    if issued != [] {
      ServedDistinct(w, issued[..|issued| - 1]);
    }
  }

  lemma {:induction false} CountAtMostOne(ms: seq<Msg>, k: Key)
    requires forall i, j :: 0 <= i < j < |ms| ==> !(Carries(ms[i], k) && Carries(ms[j], k))
    ensures KeyCount(ms, k) <= 1
    decreases |ms|
  {
    if ms != [] {
      var n := |ms| - 1;
      CountAtMostOne(ms[..n], k);
      if Carries(ms[n], k) {
        CountNone(ms[..n], k);
      }
    }
  }

  lemma {:induction false} CountNone(ms: seq<Msg>, k: Key)
    requires forall i :: 0 <= i < |ms| ==> !Carries(ms[i], k)
    ensures KeyCount(ms, k) == 0
    decreases |ms|
  {
    if ms != [] {
      CountNone(ms[..|ms| - 1], k);
    }
  }

  lemma {:induction false} CountPrefix(ms: seq<Msg>, longer: seq<Msg>, k: Key)
    requires ms <= longer
    ensures KeyCount(ms, k) <= KeyCount(longer, k)
    decreases |longer|
  {
    if ms != longer {
      CountPrefix(ms, longer[..|longer| - 1], k);
    }
  }

  /** The handler's i-th answer with the key of `c` is the answer to the command of `c`. */
  lemma {:induction false} AnswersItsCall(w: Hub.Workload, s: State, c: Hub.CallId, i: nat)
    requires WellKeyed(w) && Reachable(w, s) && c < |w| && w[c].wait
    requires i < |s.handled| && Addressed(s.handled[i].msg, w[c].cmd)
    ensures forall j :: 0 <= j < |s.hub.issued| ==> s.hub.issued[j] < |w|
    ensures i < |Served(w, s.hub.issued)| && Served(w, s.hub.issued)[i] == c
  {
    EveryReachable(w, s);
    ExecutedInOrder(w, s);
    ServedCommands(w, s.hub.issued);
    var served := Served(w, s.hub.issued);
    assert HandledCmds(s.handled)[i] == Safety.Commands(w, served)[i];
    assert Hub.KeyOf(w, served[i]) == Hub.KeyOf(w, c);
  }

  lemma {:induction false} AnsweredOnce(w: Hub.Workload, s: State, c: Hub.CallId)
    requires WellKeyed(w) && Reachable(w, s) && c < |w| && w[c].wait
    ensures KeyCount(HandledMsgs(s.handled), Hub.KeyOf(w, c)) <= 1
  {
    ExecutedInOrder(w, s);
    ServedDistinct(w, s.hub.issued);
    var k, ms := Hub.KeyOf(w, c), HandledMsgs(s.handled);
    forall i, j | 0 <= i < j < |ms| ensures !(Carries(ms[i], k) && Carries(ms[j], k)) {
      if Carries(ms[i], k) && Carries(ms[j], k) {
        AnswersItsCall(w, s, c, i);
        AnswersItsCall(w, s, c, j);
      }
    }
    CountAtMostOne(ms, k);
  }

  /** With good keys, the hub receives at most one message with the key of an awaiting command. */
  lemma {:induction false} GoodKeysArriveOnce(w: Hub.Workload, s: State, c: Hub.CallId)
    requires WellKeyed(w) && Reachable(w, s) && c < |w| && w[c].wait
    ensures KeyCount(s.hub.received, Hub.KeyOf(w, c)) <= 1
  {
    var run :| ValidRun(w, run) && Exec(w, run) == s;
    FlowRun(w, run, Hub.KeyOf(w, c));
    RunKeepsInv(w, run);
    AnsweredOnce(w, s, c);
    CountPrefix(s.hub.received, WireMsgs(s.pump.writer.written), Hub.KeyOf(w, c));
  }

  /** With good keys, no run of hub, client and controller wedges. */
  lemma {:induction false} GoodKeysDoNotWedge(w: Hub.Workload, s: State, c: Hub.CallId)
    requires WellKeyed(w) && Reachable(w, s)
    ensures !Wedged(s.hub, c)
  {
    if Wedged(s.hub, c) {
      EveryReachable(w, s);
      WedgeTakesThree(w, s.hub, c);
      GoodKeysArriveOnce(w, s, c);
    }
  }
}
