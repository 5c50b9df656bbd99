/**
 Hub, wires, client pump and controller together: one session over FIFO byte streams, with a handler
 that answers every command synchronously, as the peripheral handler does. The hub's encoder feeds
 the client's reader, the client's writer feeds the hub's decoder, and the controller takes commands
 from the pump and sends back one message per command with the command's id and sequence number.

 The answer's kind and body are chosen by the handler; nothing about them is assumed.
 */
module EndToEnd {
  import opened Messages
  import Hub = Correlator
  import Pump = ClientPump

  datatype Handled = Handled(cmd: Cmd, msg: Msg)

  datatype ControllerPc = Idle | Handling(cmd: Cmd) | Sending(msg: Msg)

  datatype State = State(hub: Hub.State, pump: Pump.State, ctl: ControllerPc, handled: seq<Handled>)

  const INIT := State(Hub.INIT, Pump.INIT, Idle, [])

  datatype Action =
    | HubStep(ha: Hub.Action)
    | HubDecode
    | PumpStep(pa: Pump.Action)
    | PumpDecode
    | ControllerTake
    | Handle(kind: MsgKind, payload: seq<nat>)
    | ControllerSend
    | ControllerDrop  // the bundle was closed or the context cancelled

  function WireMsg(o: Pump.Out): Msg {
    if o.Pong? then PONG else o.msg
  }

  /** Pump actions that do not involve the wire or the controller. */
  predicate Internal(a: Pump.Action) {
    !a.DecodeCmd? && !a.TakeCmd? && !a.PutMsg?
  }

  /** The next message on the wire towards the hub. */
  predicate Arriving(s: State) {
    |s.hub.received| < |s.pump.writer.written|
  }

  function NextMsg(s: State): Hub.Action
    requires Arriving(s)
  {
    Hub.ByReceiver(Hub.Decode(WireMsg(s.pump.writer.written[|s.hub.received|])))
  }

  predicate Enabled(w: Hub.Workload, s: State, a: Action) {
    match a
    case HubStep(ha) => !Hub.Decodes(ha) && Hub.Enabled(w, s.hub, ha)
    case HubDecode => Arriving(s) && Hub.Enabled(w, s.hub, NextMsg(s))
    case PumpStep(pa) => Internal(pa) && Pump.Enabled(s.pump, pa)
    case PumpDecode =>
      && |s.pump.reader.decoded| < |s.hub.out.wire|
      && Pump.Enabled(s.pump, Pump.DecodeCmd(s.hub.out.wire[|s.pump.reader.decoded|]))
    case ControllerTake => s.ctl.Idle? && Pump.Enabled(s.pump, Pump.TakeCmd)
    case Handle(_, _) => s.ctl.Handling?
    case ControllerSend => s.ctl.Sending? && Pump.Enabled(s.pump, Pump.PutMsg(s.ctl.msg))
    case ControllerDrop => s.ctl.Sending? && (!s.pump.msgOpen || s.pump.cancelled)
  }

  function Do(w: Hub.Workload, s: State, a: Action): State
    requires Enabled(w, s, a)
  {
    match a
    case HubStep(ha) => s.(hub := Hub.Do(w, s.hub, ha))
    case HubDecode => s.(hub := Hub.Do(w, s.hub, NextMsg(s)))
    case PumpStep(pa) => s.(pump := Pump.Do(s.pump, pa))
    case PumpDecode => s.(pump := Pump.Do(s.pump, Pump.DecodeCmd(s.hub.out.wire[|s.pump.reader.decoded|])))
    case ControllerTake => s.(ctl := Handling(s.pump.cmdCh.value), pump := Pump.Do(s.pump, Pump.TakeCmd))
    case Handle(kind, payload) =>
      var m := Msg(kind, s.ctl.cmd.id, s.ctl.cmd.seqNo, payload);
      s.(ctl := Sending(m), handled := s.handled + [Handled(s.ctl.cmd, m)])
    case ControllerSend => s.(ctl := Idle, pump := Pump.Do(s.pump, Pump.PutMsg(s.ctl.msg)))
    case ControllerDrop => s.(ctl := Idle)
  }

  ghost predicate ValidRun(w: Hub.Workload, run: seq<Action>)
    decreases |run|, 0
  {
    run == [] || (var past := run[..|run| - 1]; ValidRun(w, past) && Enabled(w, Exec(w, past), run[|run| - 1]))
  }

  ghost function Exec(w: Hub.Workload, run: seq<Action>): State
    requires ValidRun(w, run)
    decreases |run|, 1
  {
    if run == [] then INIT else Do(w, Exec(w, run[..|run| - 1]), run[|run| - 1])
  }

  ghost predicate Reachable(w: Hub.Workload, s: State) {
    exists run :: ValidRun(w, run) && Exec(w, run) == s
  }

  lemma {:induction false} ReachStep(w: Hub.Workload, s: State, a: Action) returns (s': State)
    requires Reachable(w, s) && Enabled(w, s, a)
    ensures s' == Do(w, s, a) && Reachable(w, s')
  {
    var run :| ValidRun(w, run) && Exec(w, run) == s;
    var longer := run + [a];
    assert longer[..|longer| - 1] == run;
    assert ValidRun(w, longer) && Exec(w, longer) == Do(w, s, a);
    s' := Do(w, s, a);
  }
}
