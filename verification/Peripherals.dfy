/**
 The peripheral handler: a table from ids to connected peripherals. Commands reach it one at a time from
 the controller; `Connect` may hand out a peripheral, nothing, or an error.
 */
module Peripherals {
  import opened Messages

  type Id = nat
  type Peripheral = nat

  datatype Command =
    | CloseCmd
    | ConnectCmd(wellFormed: bool, outcome: Option<Option<Peripheral>>)  // None: error; Some(None): a nil peripheral
    | OperateCmd(wellFormed: bool, succeeds: bool)
    | UnknownCmd

  datatype Reply = Done | Result | Failed

  /** A table entry can hold a nil peripheral. */
  type Table = map<Id, Option<Peripheral>>

  /** Everything the handler owns or has owned. */
  datatype Holdings = Holdings(table: Table, connected: set<Peripheral>, closes: multiset<Peripheral>)

  ghost predicate KeptAt(t: Table, p: Peripheral, id: Id) {
    id in t && t[id] == Some(p)
  }

  predicate SameAt(t: Table, u: Table, id: Id) {
    (id in t <==> id in u) && (id in t ==> t[id] == u[id])
  }

  /** In the table under exactly one id and never closed, or out of the table and closed exactly once. */
  ghost predicate Accounted(h: Holdings, p: Peripheral) {
    if h.closes[p] == 0 then
      exists id :: KeptAt(h.table, p, id) && forall other :: KeptAt(h.table, p, other) ==> other == id
    else h.closes[p] == 1 && forall id :: !KeptAt(h.table, p, id)
  }

  ghost predicate Conserved(h: Holdings) {
    && (forall p :: p in h.connected ==> Accounted(h, p))
    && (forall p :: p in h.closes ==> p in h.connected)
    && (forall id :: id in h.table && h.table[id].Some? ==> h.table[id].value in h.connected)
  }

  /** `Connect` returns a peripheral that is new. */
  predicate Fresh(h: Holdings, c: Command) {
    c.ConnectCmd? && c.outcome.Some? && c.outcome.value.Some? ==> c.outcome.value.value !in h.connected
  }

  /** What a command leaves behind. */
  function After(h: Holdings, id: Id, c: Command): Holdings {
    match c
    case CloseCmd =>
      h.(table := h.table - {id},
         closes := if id in h.table && h.table[id].Some? then h.closes + multiset{h.table[id].value} else h.closes)
    case ConnectCmd(wellFormed, outcome) =>
      if id in h.table || !wellFormed || outcome.None? then h
      else h.(table := h.table[id := outcome.value],
              connected := if outcome.value.Some? then h.connected + {outcome.value.value} else h.connected)
    case OperateCmd(_, _) => if id in h.table && h.table[id].None? then h.(table := h.table - {id}) else h
    case UnknownCmd => h
  }

  class Handler {
    var peripherals: Table
    ghost var connected: set<Peripheral>
    ghost var closes: multiset<Peripheral>

    ghost function State(): Holdings
      reads this
    {
      Holdings(peripherals, connected, closes)
    }

    constructor ()
      ensures State() == Holdings(map[], {}, multiset{})
    {
      peripherals, connected, closes := map[], {}, multiset{};
    }

    method ClosePeripheral(p: Peripheral)
      modifies this`closes
      ensures closes == old(closes) + multiset{p}
    {
      closes := closes + multiset{p};
    }

    /**
     What is found is connected and still open, and no other id has it; nothing found means that nothing is
     kept under the id, before or after. Every other id keeps what it has.
     */
    method GetPeripheral(id: Id) returns (p: Option<Peripheral>)
      requires Conserved(State())
      modifies this`peripherals
      ensures Conserved(State())
      ensures p.Some? ==> p.value in connected && closes[p.value] == 0
      ensures p.Some? ==> KeptAt(peripherals, p.value, id) && forall at :: KeptAt(peripherals, p.value, at) ==> at == id
      ensures p.None? ==> id !in peripherals && forall q :: !KeptAt(old(peripherals), q, id)
      ensures forall q, at :: KeptAt(peripherals, q, at) <==> KeptAt(old(peripherals), q, at)
      ensures State() == After(old(State()), id, OperateCmd(true, true))
    {
      StepConserves(State(), id, OperateCmd(true, true));
      if id in peripherals && peripherals[id].Some? {
        assert KeptAt(peripherals, peripherals[id].value, id) && Accounted(State(), peripherals[id].value);
      }
      if id !in peripherals {
        return None;
      }
      p := peripherals[id];
      if p.None? {
        peripherals := peripherals - {id};
      }
    }

    /** Afterwards nothing is kept under the id, what was kept there has been closed once, and all else is as before. */
    method RemovePeripheral(id: Id)
      requires Conserved(State())
      modifies this`peripherals, this`closes
      ensures id !in peripherals
      ensures forall at :: at != id ==> SameAt(peripherals, old(peripherals), at)
      ensures forall p :: KeptAt(old(peripherals), p, id) ==> closes == old(closes) + multiset{p}
      ensures (forall p :: !KeptAt(old(peripherals), p, id)) ==> closes == old(closes)
      ensures State() == After(old(State()), id, CloseCmd)
    {
      assert id in peripherals && peripherals[id].Some? ==> KeptAt(peripherals, peripherals[id].value, id);
      var p := GetPeripheral(id);
      if p.Some? {
        ClosePeripheral(p.value);
      }
      peripherals := peripherals - {id};
    }

    /**
     A refused connect changes nothing. A successful one puts the new peripheral under a free id, where it is
     the only place it is kept, and disturbs no other id. Commands come one at a time, so the second lookup
     of the table cannot find the id taken.
     */
    method Connect(id: Id, wellFormed: bool, outcome: Option<Option<Peripheral>>) returns (ok: bool)
      requires Conserved(State()) && Fresh(State(), ConnectCmd(wellFormed, outcome))
      modifies this`peripherals, this`connected
      ensures Conserved(State())
      ensures ok <==> id !in old(peripherals) && wellFormed && outcome.Some?
      ensures !ok ==> State() == old(State())
      ensures ok && outcome.value.Some? ==> forall at :: KeptAt(peripherals, outcome.value.value, at) <==> at == id
      ensures forall q, at :: KeptAt(old(peripherals), q, at) ==> KeptAt(peripherals, q, at)
      ensures State() == After(old(State()), id, ConnectCmd(wellFormed, outcome))
    {
      StepConserves(State(), id, ConnectCmd(wellFormed, outcome));
      if id in peripherals || !wellFormed || outcome.None? {
        return false;
      }
      var p := outcome.value;
      if p.Some? {
        connected := connected + {p.value};
      }
      peripherals := peripherals[id := p];
      ok := true;
    }

    /** The reply and what it means for the id of the command; no command touches another id. */
    method HandleCmd(id: Id, c: Command) returns (r: Reply)
      requires Conserved(State()) && Fresh(State(), c)
      modifies this
      ensures State() == After(old(State()), id, c) && Conserved(State())
      ensures forall at :: at != id ==> SameAt(peripherals, old(peripherals), at)
      // close
      ensures c.CloseCmd? ==> r.Done? && id !in peripherals && connected == old(connected)
      ensures c.CloseCmd? ==> forall p :: KeptAt(old(peripherals), p, id) ==> closes == old(closes) + multiset{p}
      ensures c.CloseCmd? && (forall p :: !KeptAt(old(peripherals), p, id)) ==> closes == old(closes)
      // connect
      ensures c.ConnectCmd? ==> r == if id !in old(peripherals) && c.wellFormed && c.outcome.Some? then Done else Failed
      ensures c.ConnectCmd? && r.Done? ==> id in peripherals && peripherals[id] == c.outcome.value
      ensures c.ConnectCmd? && r.Failed? ==> State() == old(State())
      // operate and collect metrics
      ensures c.OperateCmd? ==>
        r == if (exists p :: KeptAt(old(peripherals), p, id)) && c.wellFormed && c.succeeds then Result else Failed
      ensures c.OperateCmd? ==> forall p, at :: KeptAt(peripherals, p, at) <==> KeptAt(old(peripherals), p, at)
      ensures c.UnknownCmd? ==> r.Failed? && State() == old(State())
      ensures !c.CloseCmd? ==> closes == old(closes)
    {
      assert id in peripherals && peripherals[id].Some? ==> KeptAt(peripherals, peripherals[id].value, id);
      StepConserves(State(), id, c);
      match c
      case CloseCmd =>
        RemovePeripheral(id);
        r := Done;
      case ConnectCmd(wellFormed, outcome) =>
        var ok := Connect(id, wellFormed, outcome);
        r := if ok then Done else Failed;
      case OperateCmd(wellFormed, succeeds) =>
        var p := GetPeripheral(id);
        r := if p.Some? && wellFormed && succeeds then Result else Failed;
      case UnknownCmd =>
        r := Failed;
    }
  }

  lemma {:induction false} CloseConserves(h: Holdings, id: Id)
    requires Conserved(h)
    ensures Conserved(After(h, id, CloseCmd))
  {
    var h' := After(h, id, CloseCmd);
    forall p | p in h'.connected ensures Accounted(h', p) {
      assert Accounted(h, p);
      assert forall other :: KeptAt(h'.table, p, other) <==> KeptAt(h.table, p, other) && other != id;
      if KeptAt(h.table, p, id) {
        assert h.closes[p] == 0 && h'.closes[p] == 1;
      } else {
        assert h'.closes[p] == h.closes[p];
        assert forall other :: KeptAt(h'.table, p, other) <==> KeptAt(h.table, p, other);
      }
    }
  }

  lemma {:induction false} ConnectConserves(h: Holdings, id: Id, c: Command)
    requires Conserved(h) && Fresh(h, c) && c.ConnectCmd?
    ensures Conserved(After(h, id, c))
  {
    var h' := After(h, id, c);
    if h' != h {
      forall p | p in h'.connected ensures Accounted(h', p) {
        if p in h.connected {
          assert Accounted(h, p);
          assert forall at :: KeptAt(h'.table, p, at) <==> KeptAt(h.table, p, at);
        } else {
          assert KeptAt(h'.table, p, id) && forall other :: KeptAt(h'.table, p, other) ==> other == id;
        }
      }
    }
  }

  lemma {:induction false} OperateConserves(h: Holdings, id: Id, c: Command)
    requires Conserved(h) && c.OperateCmd?
    ensures Conserved(After(h, id, c))
  {
    var h' := After(h, id, c);
    forall p | p in h'.connected ensures Accounted(h', p) {
      assert Accounted(h, p);
      assert forall at :: KeptAt(h'.table, p, at) <==> KeptAt(h.table, p, at);
    }
  }

  lemma {:induction false} StepConserves(h: Holdings, id: Id, c: Command)
    requires Conserved(h) && Fresh(h, c)
    ensures Conserved(After(h, id, c))
  {
    match c
    case CloseCmd => CloseConserves(h, id);
    case ConnectCmd(_, _) => ConnectConserves(h, id, c);
    case OperateCmd(_, _) => OperateConserves(h, id, c);
    case UnknownCmd =>
  }

  /** Every command in turn, each `Connect` returning something new. */
  ghost predicate ValidCommands(cmds: seq<(Id, Command)>)
    decreases |cmds|, 0
  {
    cmds == [] || (var n := |cmds| - 1; ValidCommands(cmds[..n]) && Fresh(Run(cmds[..n]), cmds[n].1))
  }

  ghost function Run(cmds: seq<(Id, Command)>): Holdings
    requires ValidCommands(cmds)
    decreases |cmds|, 1
  {
    if cmds == [] then Holdings(map[], {}, multiset{})
    else var n := |cmds| - 1; After(Run(cmds[..n]), cmds[n].0, cmds[n].1)
  }

  /**
   Peripheral conservation: after any sequence of commands, every peripheral ever connected is either in
   the table under exactly one id or has been closed exactly once.
   */
  lemma {:induction false} PeripheralConservation(cmds: seq<(Id, Command)>)
    requires ValidCommands(cmds)
    ensures Conserved(Run(cmds))
    decreases |cmds|
  {
    if cmds != [] {
      var n := |cmds| - 1;
      PeripheralConservation(cmds[..n]);
      StepConserves(Run(cmds[..n]), cmds[n].0, cmds[n].1);
    }
  }
}
