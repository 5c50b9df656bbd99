/**
 End-to-end correlation: what `sendCmd` returns for a command is the handler's answer to that very
 command, in every run, exactly when each awaiting command's key differs from (0, 0), which pongs
 carry, and from the key of every other command the handler gets to see.
 */
module Correlation {
  import opened Messages
  import opened EndToEnd
  import Hub = Correlator
  import Safety = CorrelatorSafety
  import Pump = ClientPump

  /** The calls whose command reaches the handler, in the order they were written: all but pings. */
  function Served(w: Hub.Workload, issued: seq<Hub.CallId>): (r: seq<Hub.CallId>)
    requires forall i :: 0 <= i < |issued| ==> issued[i] < |w|
    ensures forall i :: 0 <= i < |r| ==> r[i] < |w| && r[i] in issued
  {
    if issued == [] then []
    else
      var last := issued[|issued| - 1];
      Served(w, issued[..|issued| - 1]) + if w[last].cmd.kind.CmdPing? then [] else [last]
  }

  /** `m` is the handler's answer to the command of call `c`. */
  ghost predicate AnswerTo(w: Hub.Workload, s: State, c: Hub.CallId, m: Msg)
    requires forall i :: 0 <= i < |s.hub.issued| ==> s.hub.issued[i] < |w|
  {
    exists i :: 0 <= i < |s.handled| && i < |Served(w, s.hub.issued)|
                && Served(w, s.hub.issued)[i] == c && s.handled[i] == Handled(w[c].cmd, m)
  }

  ghost predicate Correlated(w: Hub.Workload, s: State) {
    && (forall i :: 0 <= i < |s.hub.issued| ==> s.hub.issued[i] < |w|)
    && forall c :: c in s.hub.calls && s.hub.calls[c].res.Reply? && c < |w| ==>
         AnswerTo(w, s, c, s.hub.calls[c].res.msg)
  }

  /** Can be checked before the session: only awaiting commands are constrained. */
  ghost predicate WellKeyed(w: Hub.Workload) {
    forall c :: 0 <= c < |w| && w[c].wait ==>
      && (w[c].cmd.id != 0 || w[c].cmd.seqNo != 0)
      && forall d :: 0 <= d < |w| && d != c && !w[d].cmd.kind.CmdPing? ==> !SameIds(w[d].cmd, w[c].cmd)
  }

  // ---------------------------------------------------------------------------------------
  // Invariant of the composition
  // ---------------------------------------------------------------------------------------

  function WireMsgs(os: seq<Pump.Out>): seq<Msg> {
    seq(|os|, i requires 0 <= i < |os| => WireMsg(os[i]))
  }

  function HandledCmds(hs: seq<Handled>): seq<Cmd> {
    seq(|hs|, i requires 0 <= i < |hs| => hs[i].cmd)
  }

  function InHand(c: ControllerPc): seq<Cmd> {
    if c.Handling? then [c.cmd] else []
  }

  ghost predicate Answered(s: State, m: Msg) {
    exists i :: 0 <= i < |s.handled| && s.handled[i].msg == m
  }

  /** The two wires deliver in order; the controller sees what the pump handed over, in order. */
  ghost predicate Fifo(s: State) {
    && s.pump.reader.decoded <= s.hub.out.wire
    && s.hub.received <= WireMsgs(s.pump.writer.written)
    && s.pump.reader.handed == HandledCmds(s.handled) + InHand(s.ctl) + AsSeq(s.pump.cmdCh)
  }

  /** Whatever travels back, other than a pong, is an answer of the handler. */
  ghost predicate Provenance(s: State) {
    && (forall i :: 0 <= i < |s.pump.writer.written| && s.pump.writer.written[i].Carried? ==>
          Answered(s, s.pump.writer.written[i].msg))
    && (s.pump.writer.pc.Encoding? && s.pump.writer.pc.out.Carried? ==> Answered(s, s.pump.writer.pc.out.msg))
    && (s.pump.msgCh.Some? ==> Answered(s, s.pump.msgCh.value))
    && (s.ctl.Sending? ==> Answered(s, s.ctl.msg))
    && (forall i :: 0 <= i < |s.handled| ==> MsgKey(s.handled[i].msg) == CmdKey(s.handled[i].cmd))
  }

  ghost predicate Inv(w: Hub.Workload, s: State) {
    && Safety.Inv(w, s.hub)
    && Pump.Inv(s.pump)
    && Fifo(s)
    && Provenance(s)
  }

  lemma {:induction false} PumpKeepsInv(p: Pump.State, a: Pump.Action)
    requires Pump.Inv(p) && Pump.Enabled(p, a)
    ensures Pump.Inv(Pump.Do(p, a)) && !Pump.Panics(p, a)
  {
    Pump.ReaderStep(p, a);
    Pump.PongStep(p, a);
  }

  /** What the wires see of a hub step: they grow, and only a Decode takes a message. */
  lemma {:induction false} HubEffect(w: Hub.Workload, h: Hub.State, a: Hub.Action)
    requires Hub.Enabled(w, h, a)
    ensures var h' := Hub.Do(w, h, a);
      && h.out.wire <= h'.out.wire
      && h'.received == if Hub.Decodes(a) then h.received + [a.ra.msg] else h.received
  {}

  /** A pump step on its own decodes nothing, only adds to the wire, and hands over what it puts in the channel. */
  lemma {:induction false} PumpEffect(p: Pump.State, a: Pump.Action)
    requires Pump.Inv(p) && Pump.Enabled(p, a) && Internal(a)
    ensures var p' := Pump.Do(p, a);
      && p'.reader.decoded == p.reader.decoded
      && p'.writer.written == p.writer.written + (if a.EncodeOut? then [p.writer.pc.out] else [])
      && if a.HandCmd? then p.cmdCh.None? && p'.cmdCh.Some? && p'.reader.handed == p.reader.handed + [p'.cmdCh.value]
         else p'.reader.handed == p.reader.handed && p'.cmdCh == p.cmdCh
  {
    PumpKeepsInv(p, a);
  }

  lemma {:induction false} FifoPump(s: State, a: Pump.Action)
    requires Fifo(s) && Pump.Inv(s.pump) && Pump.Enabled(s.pump, a) && Internal(a)
    ensures Fifo(s.(pump := Pump.Do(s.pump, a)))
  {
    PumpEffect(s.pump, a);
    var p' := Pump.Do(s.pump, a);
    assert WireMsgs(s.pump.writer.written) <= WireMsgs(p'.writer.written);
  }

  lemma {:induction false} FifoDecode(s: State, cmd: Cmd)
    requires Fifo(s) && Pump.Inv(s.pump) && Pump.Enabled(s.pump, Pump.DecodeCmd(cmd))
    requires s.pump.reader.decoded + [cmd] <= s.hub.out.wire
    ensures Fifo(s.(pump := Pump.Do(s.pump, Pump.DecodeCmd(cmd))))
  {}

  lemma {:induction false} FifoHub(w: Hub.Workload, s: State, a: Hub.Action)
    requires Fifo(s) && Hub.Enabled(w, s.hub, a)
    requires Hub.Decodes(a) ==> s.hub.received + [a.ra.msg] <= WireMsgs(s.pump.writer.written)
    ensures Fifo(s.(hub := Hub.Do(w, s.hub, a)))
  {
    HubEffect(w, s.hub, a);
  }

  lemma {:induction false} FifoController(w: Hub.Workload, s: State, a: Action)
    requires Fifo(s) && Enabled(w, s, a)
    requires a.ControllerTake? || a.Handle? || a.ControllerSend? || a.ControllerDrop?
    ensures Fifo(Do(w, s, a))
  {
    if a.Handle? {
      assert HandledCmds(Do(w, s, a).handled) == HandledCmds(s.handled) + [s.ctl.cmd];
    }
  }

  lemma {:induction false} FifoStep(w: Hub.Workload, s: State, a: Action)
    requires Fifo(s) && Pump.Inv(s.pump) && Enabled(w, s, a)
    ensures Fifo(Do(w, s, a))
  {
    match a
    case HubStep(ha) => FifoHub(w, s, ha);
    case HubDecode => FifoHub(w, s, NextMsg(s));
    case PumpStep(pa) => FifoPump(s, pa);
    case PumpDecode => FifoDecode(s, s.hub.out.wire[|s.pump.reader.decoded|]);
    case _ => FifoController(w, s, a);
  }

  lemma {:induction false} AnsweredStays(s: State, s': State)
    requires s.handled <= s'.handled
    ensures forall m :: Answered(s, m) ==> Answered(s', m)
  {
    forall m | Answered(s, m) ensures Answered(s', m) {
      var i :| 0 <= i < |s.handled| && s.handled[i].msg == m;
      assert s'.handled[i].msg == m;
    }
  }

  /** Where messages of the handler can be in the pump. */
  ghost predicate PumpCarries(p: Pump.State, s: State) {
    && (forall i :: 0 <= i < |p.writer.written| && p.writer.written[i].Carried? ==>
          Answered(s, p.writer.written[i].msg))
    && (p.writer.pc.Encoding? && p.writer.pc.out.Carried? ==> Answered(s, p.writer.pc.out.msg))
    && (p.msgCh.Some? ==> Answered(s, p.msgCh.value))
  }

  lemma {:induction false} PumpCarriesStep(p: Pump.State, s: State, a: Pump.Action)
    requires PumpCarries(p, s) && Pump.Enabled(p, a) && !Pump.Panics(p, a)
    requires a.PutMsg? ==> Answered(s, a.msg)
    ensures PumpCarries(Pump.Do(p, a), s)
  {
    var p' := Pump.Do(p, a);
    forall i | 0 <= i < |p'.writer.written| && p'.writer.written[i].Carried?
      ensures Answered(s, p'.writer.written[i].msg)
    {
      assert i < |p.writer.written| ==> p'.writer.written[i] == p.writer.written[i];
    }
  }

  lemma {:induction false} ProvenancePump(s: State, a: Pump.Action)
    requires Provenance(s) && Pump.Inv(s.pump) && Pump.Enabled(s.pump, a)
    requires a.PutMsg? ==> Answered(s, a.msg)
    ensures Provenance(s.(pump := Pump.Do(s.pump, a)))
  {
    PumpKeepsInv(s.pump, a);
    PumpCarriesStep(s.pump, s, a);
    AnsweredStays(s, s.(pump := Pump.Do(s.pump, a)));
  }

  lemma {:induction false} ProvenanceFrame(s: State, s': State)
    requires Provenance(s) && s'.pump == s.pump && s'.handled == s.handled && (s'.ctl.Sending? ==> s'.ctl == s.ctl)
    ensures Provenance(s')
  {
    AnsweredStays(s, s');
  }

  lemma {:induction false} ProvenanceHandle(s: State, s': State)
    requires Provenance(s) && s'.pump == s.pump && s'.ctl.Sending?
    requires |s'.handled| == |s.handled| + 1 && s.handled <= s'.handled && s'.handled[|s.handled|].msg == s'.ctl.msg
    requires MsgKey(s'.ctl.msg) == CmdKey(s'.handled[|s.handled|].cmd)
    ensures Provenance(s')
  {
    AnsweredStays(s, s');
    assert s'.handled[|s.handled|].msg == s'.ctl.msg;
  }

  lemma {:induction false} ProvenanceStep(w: Hub.Workload, s: State, a: Action)
    requires Provenance(s) && Pump.Inv(s.pump) && Enabled(w, s, a)
    ensures Provenance(Do(w, s, a))
  {
    match a
    case HubStep(ha) => ProvenanceFrame(s, Do(w, s, a));
    case HubDecode => ProvenanceFrame(s, Do(w, s, a));
    case PumpStep(pa) => ProvenancePump(s, pa);
    case PumpDecode => ProvenancePump(s, Pump.DecodeCmd(s.hub.out.wire[|s.pump.reader.decoded|]));
    case ControllerTake =>
      ProvenancePump(s, Pump.TakeCmd);
      ProvenanceFrame(s.(pump := Pump.Do(s.pump, Pump.TakeCmd)), Do(w, s, a));
    case ControllerSend =>
      ProvenancePump(s, Pump.PutMsg(s.ctl.msg));
      ProvenanceFrame(s.(pump := Pump.Do(s.pump, Pump.PutMsg(s.ctl.msg))), Do(w, s, a));
    case Handle(_, _) => ProvenanceHandle(s, Do(w, s, a));
    case ControllerDrop => ProvenanceFrame(s, Do(w, s, a));
  }

  lemma {:induction false} StepPreservesInv(w: Hub.Workload, s: State, a: Action)
    requires Inv(w, s) && Enabled(w, s, a)
    ensures Inv(w, Do(w, s, a))
  {
    FifoStep(w, s, a);
    ProvenanceStep(w, s, a);
    match a
    case HubStep(ha) => Safety.StepPreservesInv(w, s.hub, ha);
    case HubDecode => Safety.StepPreservesInv(w, s.hub, NextMsg(s));
    case PumpStep(pa) => PumpKeepsInv(s.pump, pa);
    case PumpDecode => PumpKeepsInv(s.pump, Pump.DecodeCmd(s.hub.out.wire[|s.pump.reader.decoded|]));
    case ControllerTake => PumpKeepsInv(s.pump, Pump.TakeCmd);
    case Handle(_, _) =>
    case ControllerSend => PumpKeepsInv(s.pump, Pump.PutMsg(s.ctl.msg));
    case ControllerDrop =>
  }

  lemma {:induction false} RunKeepsInv(w: Hub.Workload, run: seq<Action>)
    requires ValidRun(w, run)
    ensures Inv(w, Exec(w, run))
    decreases |run|
  {
    if run != [] {
      var s, a := Exec(w, run[..|run| - 1]), run[|run| - 1];
      assert Inv(w, s) by {
        RunKeepsInv(w, run[..|run| - 1]);
      }
      assert Inv(w, Do(w, s, a)) by {
        StepPreservesInv(w, s, a);
      }
      assert Exec(w, run) == Do(w, s, a);
    }
  }

  lemma {:induction false} EveryReachable(w: Hub.Workload, s: State)
    requires Reachable(w, s)
    ensures Inv(w, s)
  {
    var run :| ValidRun(w, run) && Exec(w, run) == s;
    RunKeepsInv(w, run);
  }

  function Count(run: seq<Action>, p: Action -> bool): nat {
    if run == [] then 0 else Count(run[..|run| - 1], p) + if p(run[|run| - 1]) then 1 else 0
  }

  /**
   Every answer of the handler is sent once or dropped once, unless the controller still has it in hand; one is
   dropped only when the message channel was closed or the pump cancelled.
   */
  lemma {:induction false} AnswersAccounted(w: Hub.Workload, run: seq<Action>)
    requires ValidRun(w, run)
    ensures var s := Exec(w, run);
      && |s.handled| == Count(run, (a: Action) => a.Handle?)
      && |s.handled| == Count(run, (a: Action) => a.ControllerSend?) + Count(run, (a: Action) => a.ControllerDrop?)
                        + (if s.ctl.Sending? then 1 else 0)
      && (ControllerDrop in run ==> !s.pump.msgOpen || s.pump.cancelled)
    decreases |run|
  {
    if run != [] {
      var past, a := run[..|run| - 1], run[|run| - 1];
      AnswersAccounted(w, past);
      assert run == past + [a];
    }
  }

  // ---------------------------------------------------------------------------------------
  // Good keys suffice
  // ---------------------------------------------------------------------------------------

  lemma {:induction false} ServedCommands(w: Hub.Workload, issued: seq<Hub.CallId>)
    requires forall i :: 0 <= i < |issued| ==> issued[i] < |w|
    ensures forall i :: 0 <= i < |Served(w, issued)| ==> !w[Served(w, issued)[i]].cmd.kind.CmdPing?
    ensures NonPing(Safety.Commands(w, issued)) == Safety.Commands(w, Served(w, issued))
    decreases |issued|
  {
    if issued != [] {
      var n := |issued| - 1;
      ServedCommands(w, issued[..n]);
      assert Safety.Commands(w, issued) == Safety.Commands(w, issued[..n]) + [w[issued[n]].cmd];
      NonPingAppend(Safety.Commands(w, issued[..n]), w[issued[n]].cmd);
    }
  }

  lemma {:induction false} HandledFromWire(s: State)
    requires Fifo(s) && Pump.ReaderOk(s.pump.reader)
    ensures HandledCmds(s.handled) <= NonPing(s.hub.out.wire)
  {
    NonPingPrefix(s.pump.reader.decoded, s.hub.out.wire);
    assert HandledCmds(s.handled) <= s.pump.reader.handed <= NonPing(s.pump.reader.decoded);
  }

  lemma {:induction false} WireFromCalls(w: Hub.Workload, h: Hub.State)
    requires Safety.IssueInv(w, h)
    ensures NonPing(h.out.wire) <= Safety.Commands(w, Served(w, h.issued))
  {
    ServedCommands(w, h.issued);
  }

  /**
   Commands are executed at most once and in the order they were written: the commands the handler
   has answered are a prefix of those of the served calls, which are distinct.
   */
  lemma {:induction false} ExecutedInOrder(w: Hub.Workload, s: State)
    requires Reachable(w, s)
    ensures forall i :: 0 <= i < |s.hub.issued| ==> s.hub.issued[i] < |w|
    ensures HandledCmds(s.handled) <= Safety.Commands(w, Served(w, s.hub.issued))
    ensures forall i, j :: 0 <= i < j < |s.hub.issued| ==> s.hub.issued[i] != s.hub.issued[j]
  {
    EveryReachable(w, s);
    HandledFromWire(s);
    WireFromCalls(w, s.hub);
  }

  /** A reply in a caller's hands came over the wire and carries the caller's key. */
  lemma {:induction false} ReplyCameOverTheWire(w: Hub.Workload, s: State, c: Hub.CallId)
    requires Inv(w, s) && c in s.hub.calls && s.hub.calls[c].res.Reply?
    ensures c < |w| && w[c].wait && Addressed(s.hub.calls[c].res.msg, w[c].cmd)
    ensures s.hub.calls[c].res.msg == PONG || Answered(s, s.hub.calls[c].res.msg)
  {
    var m := s.hub.calls[c].res.msg;
    assert Safety.Deliveries(s.hub.log, c) == Safety.InChannel(s.hub.calls[c]);
    assert Safety.Deliveries(s.hub.log, c)[0] == m;
    var i := DeliveredEntry(s.hub.log, c, 0);
    assert Safety.FateOk(w, s.hub, s.hub.log[i]);
    assert Safety.Settled(s.hub.log)[i] == m && s.hub.received[i] == m;
    assert WireMsgs(s.pump.writer.written)[i] == m;
  }

  lemma {:induction false} DeliveredEntry(log: seq<Hub.Entry>, c: Hub.CallId, k: nat) returns (i: nat)
    requires k < |Safety.Deliveries(log, c)|
    ensures i < |log| && log[i] == Hub.Entry(Safety.Deliveries(log, c)[k], Hub.Delivered(c))
    decreases |log|
  {
    var n := |log| - 1;
    if k < |Safety.Deliveries(log[..n], c)| {
      i := DeliveredEntry(log[..n], c, k);
    } else {
      i := n;
    }
  }

  lemma {:induction false} GoodKeysSuffice(w: Hub.Workload, s: State)
    requires WellKeyed(w) && Reachable(w, s)
    ensures Correlated(w, s)
  {
    EveryReachable(w, s);
    ExecutedInOrder(w, s);
    ServedCommands(w, s.hub.issued);
    forall c | c in s.hub.calls && s.hub.calls[c].res.Reply? && c < |w|
      ensures AnswerTo(w, s, c, s.hub.calls[c].res.msg)
    {
      ReplyCameOverTheWire(w, s, c);
      var m := s.hub.calls[c].res.msg;
      var i :| 0 <= i < |s.handled| && s.handled[i].msg == m;
      var served := Served(w, s.hub.issued);
      assert HandledCmds(s.handled)[i] == Safety.Commands(w, served)[i];
      var d := served[i];
      assert Hub.KeyOf(w, d) == Hub.KeyOf(w, c);
      assert d == c;
    }
  }
}
