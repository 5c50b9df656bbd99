/**
 End-to-end correlation needs its condition on keys: for every workload that violates it there is a
 run in which `sendCmd` returns something other than the answer to its command, be it a pong or the
 answer to another command.
 */
module KeyClash {
  import opened Messages
  import opened EndToEnd
  import opened Correlation
  import Hub = Correlator
  import opened Scenarios
  import opened WaitValue
  import Pump = ClientPump

  lemma {:induction false} LiftLead(w: Hub.Workload, s: State, acts: seq<Hub.Action>, h: Hub.State)
    requires Reachable(w, s) && Hub.Leads(w, s.hub, acts, h)
    ensures Reachable(w, s.(hub := h))
    decreases |acts|
  {
    if acts != [] {
      var s1 := ReachStep(w, s, HubStep(acts[0]));
      LiftLead(w, s1, acts[1..], h);
    }
  }

  /** What the hub can do on its own, it can do in the composition. */
  lemma {:induction false} Lift(w: Hub.Workload, s: State, h: Hub.State) returns (s': State)
    requires Reachable(w, s) && Hub.Path(w, s.hub, h)
    ensures s' == s.(hub := h) && Reachable(w, s')
  {
    var acts :| Hub.Leads(w, s.hub, acts, h);
    LiftLead(w, s, acts, h);
    s' := s.(hub := h);
  }

  lemma {:induction false} InitReachable(w: Hub.Workload)
    ensures Reachable(w, INIT)
  {
    assert ValidRun(w, []) && Exec(w, []) == INIT;
  }

  /** The answer used in the scenario below. */
  function Answer(cmd: Cmd): Msg {
    Msg(MsgOther(0), cmd.id, cmd.seqNo, [])
  }

  /** A pump with all its channels open. */
  function PumpAt(reader: Pump.ReaderPc, decoded: seq<Cmd>, handed: seq<Cmd>, writer: Pump.WriterPc,
                  written: seq<Pump.Out>, cmdCh: Option<Cmd>, msgCh: Option<Msg>): Pump.State {
    Pump.State(Pump.Reader(reader, decoded, handed, true, true), Pump.Writer(writer, written),
               cmdCh, msgCh, true, false, false)
  }

  lemma {:induction false} PumpMoves(w: Hub.Workload, s: State, a: Pump.Action) returns (s': State)
    requires Reachable(w, s) && Internal(a) && Pump.Enabled(s.pump, a)
    ensures Reachable(w, s') && s' == s.(pump := Pump.Do(s.pump, a))
  {
    s' := ReachStep(w, s, PumpStep(a));
  }

  lemma {:induction false} PumpReads(w: Hub.Workload, s: State, cmd: Cmd) returns (s': State)
    requires Reachable(w, s) && s.pump == Pump.INIT && s.hub.out.wire == [cmd]
    ensures Reachable(w, s')
    ensures s' == s.(pump := PumpAt(if cmd.kind.CmdPing? then Pump.PingInHand else Pump.CmdInHand(cmd),
                                    [cmd], [], Pump.WriteIdle, [], None, None))
  {
    s' := ReachStep(w, s, PumpDecode);
  }

  lemma {:induction false} ControllerTakes(w: Hub.Workload, s: State) returns (s': State)
    requires Reachable(w, s) && s.ctl.Idle? && s.pump.cmdCh.Some? && !s.pump.panicked
    ensures Reachable(w, s') && s' == s.(ctl := Handling(s.pump.cmdCh.value), pump := s.pump.(cmdCh := None))
  {
    s' := ReachStep(w, s, ControllerTake);
  }

  lemma {:induction false} ControllerSends(w: Hub.Workload, s: State) returns (s': State)
    requires Reachable(w, s) && s.ctl.Sending? && s.pump.msgCh.None? && s.pump.msgOpen && !s.pump.panicked
    ensures Reachable(w, s') && s' == s.(ctl := Idle, pump := s.pump.(msgCh := Some(s.ctl.msg)))
  {
    s' := ReachStep(w, s, ControllerSend);
  }

  lemma {:induction false} FirstCommandReachesHandler(w: Hub.Workload, s: State, cmd: Cmd) returns (s': State)
    requires Reachable(w, s) && s.pump == Pump.INIT && s.ctl.Idle? && s.handled == []
    requires s.hub.out.wire == [cmd] && !cmd.kind.CmdPing?
    ensures Reachable(w, s') && s'.hub == s.hub && s'.ctl == Handling(cmd) && s'.handled == []
    ensures s'.pump == PumpAt(Pump.ReadIdle, [cmd], [cmd], Pump.WriteIdle, [], None, None)
  {
    var s1 := PumpReads(w, s, cmd);
    var s2 := PumpMoves(w, s1, Pump.HandCmd);
    s' := ControllerTakes(w, s2);
  }

  /** The handler's answer to the only command on the wire is on its way back. */
  lemma {:induction false} FirstCommandIsAnswered(w: Hub.Workload, s: State, cmd: Cmd) returns (s': State)
    requires Reachable(w, s) && s.pump == Pump.INIT && s.ctl.Idle? && s.handled == []
    requires s.hub.out.wire == [cmd] && !cmd.kind.CmdPing?
    ensures Reachable(w, s') && s'.hub == s.hub
    ensures s'.pump.writer.written == [Pump.Carried(Answer(cmd))] && s'.handled == [Handled(cmd, Answer(cmd))]
  {
    var s1 := FirstCommandReachesHandler(w, s, cmd);
    var m := Answer(cmd);
    var s2 := ReachStep(w, s1, Handle(MsgOther(0), []));
    assert s2 == s1.(ctl := Sending(m), handled := [Handled(cmd, m)]);
    s' := AnswerIsWritten(w, s2);
  }

  lemma {:induction false} AnswerIsWritten(w: Hub.Workload, s: State) returns (s': State)
    requires Reachable(w, s) && s.ctl.Sending?
    requires exists cs :: s.pump == PumpAt(Pump.ReadIdle, cs, cs, Pump.WriteIdle, [], None, None)
    ensures Reachable(w, s') && s'.hub == s.hub && s'.handled == s.handled
    ensures s'.pump.writer.written == [Pump.Carried(s.ctl.msg)]
  {
    var cs :| s.pump == PumpAt(Pump.ReadIdle, cs, cs, Pump.WriteIdle, [], None, None);
    var s1 := ControllerSends(w, s);
    var s2 := PumpMoves(w, s1, Pump.TakeMsg);
    s' := PumpMoves(w, s2, Pump.EncodeOut);
  }

  lemma {:induction false} PingIsAnswered(w: Hub.Workload, s: State) returns (s': State)
    requires Reachable(w, s) && s.pump == Pump.INIT && s.hub.out.wire == [PING]
    ensures Reachable(w, s') && s'.hub == s.hub && s'.handled == s.handled
    ensures s'.pump.writer.written == [Pump.Pong]
  {
    var s1 := PumpReads(w, s, PING);
    var s2 := PumpMoves(w, s1, Pump.OfferPing);
    s' := PumpMoves(w, s2, Pump.EncodeOut);
  }

  /** The first message back reaches the fresh waiter that has its key. */
  lemma {:induction false} FirstMessageIsReturned(w: Hub.Workload, s: State, c: Hub.CallId) returns (s': State)
    requires Reachable(w, s) && |s.pump.writer.written| == 1 && s.hub.received == []
    requires !s.hub.panicked && !s.hub.cancelled && s.hub.recv.RIdle? && c < |w|
    requires c in s.hub.calls && s.hub.calls[c] == Hub.Call(Hub.Awaiting, FRESH, Hub.Pending)
    requires var k := MsgKey(WireMsg(s.pump.writer.written[0])); k in s.hub.table && s.hub.table[k] == c
    ensures Reachable(w, s') && s'.handled == s.handled && s'.hub.issued == s.hub.issued
    ensures c in s'.hub.calls && s'.hub.calls[c].res == Hub.Reply(WireMsg(s.pump.writer.written[0]))
  {
    var s1 := ReachStep(w, s, HubDecode);
    var h := Delivers(w, s1.hub, c);
    s' := Lift(w, s1, h);
  }

  /** An awaiting command with key (0, 0) can be answered by a keepalive pong. */
  lemma {:induction false} PongClash(w: Hub.Workload, c: Hub.CallId) returns (s: State)
    requires c < |w| && w[c].wait && w[c].cmd.id == 0 && w[c].cmd.seqNo == 0
    ensures Reachable(w, s) && s.handled == [] && c in s.hub.calls && s.hub.calls[c].res == Hub.Reply(PONG)
  {
    InitReachable(w);
    var h1 := Registers(w, Hub.INIT, c);
    var s1 := Lift(w, INIT, h1);
    var h2 := Pings(w, h1);
    var s2 := Lift(w, s1, h2);
    var s3 := PingIsAnswered(w, s2);
    s := FirstMessageIsReturned(w, s3, c);
  }

  /** `d` is on the wire and nobody waits for its answer. */
  ghost predicate Orphan(w: Hub.Workload, h: Hub.State, d: Hub.CallId)
    requires d < |w|
  {
    && h.calls.Keys == {d} && h.table == map[]
    && h.out == Hub.Output(None, false, [w[d].cmd]) && h.issued == [d]
    && h.recv.RIdle? && h.received == [] && !h.cancelled && !h.panicked
  }

  /** `d` is on the wire and waits. */
  lemma {:induction false} WaitsOnWire(w: Hub.Workload, d: Hub.CallId) returns (h: Hub.State)
    requires d < |w| && w[d].wait
    ensures Hub.Path(w, Hub.INIT, h)
    ensures h.calls == map[d := Hub.Call(Hub.Awaiting, FRESH, Hub.Pending)] && h.table == map[Hub.KeyOf(w, d) := d]
    ensures Hub.KeyOf(w, d) in h.queue.queued && h.timer.TIdle? && h.issued == [d]
    ensures h.out == Hub.Output(None, false, [w[d].cmd]) && h.recv.RIdle? && h.received == []
    ensures !h.cancelled && !h.panicked
  {
    var h1 := Registers(w, Hub.INIT, d);
    h := Encodes(w, h1);
    PathJoin(w, Hub.INIT, h1, h);
  }

  lemma {:induction false} TimedOutOnWire(w: Hub.Workload, d: Hub.CallId) returns (h: Hub.State)
    requires d < |w| && w[d].wait
    ensures Hub.Path(w, Hub.INIT, h) && Orphan(w, h, d)
  {
    var h2 := WaitsOnWire(w, d);
    h := TimesOut(w, h2, Hub.KeyOf(w, d));
    PathJoin(w, Hub.INIT, h2, h);
  }

  /** After `d` has been written, and has timed out if it waits, nobody waits for its answer. */
  lemma {:induction false} OrphanOnWire(w: Hub.Workload, d: Hub.CallId) returns (h: Hub.State)
    requires d < |w|
    ensures Hub.Path(w, Hub.INIT, h) && Orphan(w, h, d)
  {
    if w[d].wait {
      h := TimedOutOnWire(w, d);
    } else {
      var h1 := Issues(w, Hub.INIT, d);
      h := Encodes(w, h1);
      PathJoin(w, Hub.INIT, h1, h);
    }
  }

  lemma {:induction false} LeadsJoin(w: Hub.Workload, s: Hub.State, xs: seq<Hub.Action>, s1: Hub.State,
                                     ys: seq<Hub.Action>, s2: Hub.State)
    requires Hub.Leads(w, s, xs, s1) && Hub.Leads(w, s1, ys, s2)
    ensures Hub.Leads(w, s, xs + ys, s2)
    decreases |xs|
  {
    if xs == [] {
      assert xs + ys == ys;
    } else {
      LeadsJoin(w, Hub.Do(w, s, xs[0]), xs[1..], s1, ys, s2);
      assert (xs + ys)[1..] == xs[1..] + ys;
    }
  }

  lemma {:induction false} PathJoin(w: Hub.Workload, s: Hub.State, s1: Hub.State, s2: Hub.State)
    requires Hub.Path(w, s, s1) && Hub.Path(w, s1, s2)
    ensures Hub.Path(w, s, s2)
  {
    var xs :| Hub.Leads(w, s, xs, s1);
    var ys :| Hub.Leads(w, s1, ys, s2);
    LeadsJoin(w, s, xs, s1, ys, s2);
  }

  /** An awaiting command can be given the answer to another command with its key. */
  lemma {:induction false} AnswerClash(w: Hub.Workload, c: Hub.CallId, d: Hub.CallId) returns (s: State)
    requires c < |w| && d < |w| && c != d && w[c].wait && !w[d].cmd.kind.CmdPing?
    requires SameIds(w[c].cmd, w[d].cmd)
    ensures Reachable(w, s) && s.handled == [Handled(w[d].cmd, Answer(w[d].cmd))] && s.hub.issued == [d, c]
    ensures c in s.hub.calls && s.hub.calls[c].res == Hub.Reply(Answer(w[d].cmd))
  {
    InitReachable(w);
    var h1 := OrphanOnWire(w, d);
    var s1 := Lift(w, INIT, h1);
    var s2 := FirstCommandIsAnswered(w, s1, w[d].cmd);
    var h3 := Registers(w, s2.hub, c);
    var s3 := Lift(w, s2, h3);
    s := FirstMessageIsReturned(w, s3, c);
  }

  lemma {:induction false} PongIsNoAnswer(w: Hub.Workload, s: State, c: Hub.CallId)
    requires s.handled == [] && c < |w| && c in s.hub.calls && s.hub.calls[c].res == Hub.Reply(PONG)
    ensures !Correlated(w, s)
  {}

  lemma {:induction false} OtherAnswerIsWrong(w: Hub.Workload, s: State, c: Hub.CallId, d: Hub.CallId, h: Handled)
    requires c < |w| && d < |w| && c != d && !w[d].cmd.kind.CmdPing?
    requires s.handled == [h] && s.hub.issued == [d, c] && c in s.hub.calls && s.hub.calls[c].res.Reply?
    ensures !Correlated(w, s)
  {
    assert [d, c][..1] == [d] && [d][..0] == [];
    assert Served(w, [d]) == [d];
    assert Served(w, [d, c])[0] == d;
  }

  lemma {:induction false} BadKeysBreakCorrelation(w: Hub.Workload) returns (s: State)
    requires !WellKeyed(w)
    ensures Reachable(w, s) && !Correlated(w, s)
  {
    var c: Hub.CallId :| c < |w| && w[c].wait && !((w[c].cmd.id != 0 || w[c].cmd.seqNo != 0)
      && forall d :: 0 <= d < |w| && d != c && !w[d].cmd.kind.CmdPing? ==> !SameIds(w[d].cmd, w[c].cmd));
    if w[c].cmd.id == 0 && w[c].cmd.seqNo == 0 {
      s := PongClash(w, c);
      PongIsNoAnswer(w, s, c);
    } else {
      var d: Hub.CallId :| d < |w| && d != c && !w[d].cmd.kind.CmdPing? && SameIds(w[d].cmd, w[c].cmd);
      s := AnswerClash(w, c, d);
      OtherAnswerIsWrong(w, s, c, d, s.handled[0]);
    }
  }

  /** In every run every reply is the answer to its own command if and only if the keys are good. */
  lemma {:induction false} CorrelatedIffWellKeyed(w: Hub.Workload)
    ensures (forall s :: Reachable(w, s) ==> Correlated(w, s)) <==> WellKeyed(w)
  {
    if WellKeyed(w) {
      forall s | Reachable(w, s) ensures Correlated(w, s) {
        GoodKeysSuffice(w, s);
      }
    } else {
      var s := BadKeysBreakCorrelation(w);
    }
  }
}
