/**
 Interleaved connects: any number of `handlePeripheralConnect` calls, each a lookup, a connection attempt,
 a LoadOrStore and, for a loser, a deferred close. A connection attempt may succeed with no peripheral at
 all; closing that is a Go panic.
 */
module PeripheralRace {
  import opened Messages
  import opened Peripherals

  type Tid = nat

  datatype Pc =
    | Checking
    | Connecting
    | Storing(p: Option<Peripheral>)
    | Losing(p: Option<Peripheral>)  // found the id taken, about to close
    | Kept(p: Option<Peripheral>)
    | Lost(p: Option<Peripheral>)
    | Crashed                        // lost with nothing to close
    | Refused

  predicate HasOutcome(pc: Pc) {
    pc.Storing? || pc.Losing? || pc.Kept? || pc.Lost?
  }

  predicate HasPeripheral(pc: Pc) {
    HasOutcome(pc) && pc.p.Some?
  }

  datatype Call = Call(id: Id, pc: Pc)

  datatype State = State(table: Table, calls: map<Tid, Call>, closes: multiset<Peripheral>, panicked: bool)

  const INIT := State(map[], map[], multiset{}, false)

  datatype Action =
    | Start(t: Tid, id: Id) | Check(t: Tid) | ConnectOk(t: Tid, p: Option<Peripheral>) | ConnectErr(t: Tid)
    | LoadOrStore(t: Tid) | CloseLoser(t: Tid)

  /** `Connect` never returns a peripheral it has returned before. */
  ghost predicate Unseen(s: State, p: Peripheral) {
    forall t :: t in s.calls && HasOutcome(s.calls[t].pc) ==> s.calls[t].pc.p != Some(p)
  }

  ghost predicate Enabled(s: State, a: Action) {
    && !s.panicked
    && match a
       case Start(t, _) => t !in s.calls
       case Check(t) => t in s.calls && s.calls[t].pc.Checking?
       case ConnectOk(t, p) => t in s.calls && s.calls[t].pc.Connecting? && (p.Some? ==> Unseen(s, p.value))
       case ConnectErr(t) => t in s.calls && s.calls[t].pc.Connecting?
       case LoadOrStore(t) => t in s.calls && s.calls[t].pc.Storing?
       case CloseLoser(t) => t in s.calls && s.calls[t].pc.Losing?
  }

  ghost function PcAfter(s: State, a: Action): Pc
    requires Enabled(s, a)
  {
    match a
    case Start(_, _) => Checking
    case Check(t) => if s.calls[t].id in s.table then Refused else Connecting
    case ConnectOk(_, p) => Storing(p)
    case ConnectErr(_) => Refused
    case LoadOrStore(t) => if s.calls[t].id in s.table then Losing(s.calls[t].pc.p) else Kept(s.calls[t].pc.p)
    case CloseLoser(t) => if s.calls[t].pc.p.Some? then Lost(s.calls[t].pc.p) else Crashed
  }

  ghost function Do(s: State, a: Action): State
    requires Enabled(s, a)
  {
    var id := if a.Start? then a.id else s.calls[a.t].id;
    State(if a.LoadOrStore? && id !in s.table then s.table[id := s.calls[a.t].pc.p] else s.table,
          s.calls[a.t := Call(id, PcAfter(s, a))],
          if a.CloseLoser? && s.calls[a.t].pc.p.Some? then s.closes + multiset{s.calls[a.t].pc.p.value} else s.closes,
          a.CloseLoser? && s.calls[a.t].pc.p.None?)
  }

  ghost predicate ValidRun(run: seq<Action>)
    decreases |run|, 0
  {
    run == [] || (var past := run[..|run| - 1]; ValidRun(past) && Enabled(Exec(past), run[|run| - 1]))
  }

  ghost function Exec(run: seq<Action>): State
    requires ValidRun(run)
    decreases |run|, 1
  {
    if run == [] then INIT else Do(Exec(run[..|run| - 1]), run[|run| - 1])
  }

  ghost predicate KeptBy(s: State, id: Id, t: Tid) {
    t in s.calls && s.calls[t].id == id && id in s.table && s.calls[t].pc == Kept(s.table[id])
  }

  ghost predicate Untabled(table: Table, p: Peripheral) {
    forall id :: id in table ==> table[id] != Some(p)
  }

  /** In no place at all, as far as table and closes go. */
  ghost predicate Loose(table: Table, closes: multiset<Peripheral>, o: Option<Peripheral>) {
    o.Some? ==> closes[o.value] == 0 && Untabled(table, o.value)
  }

  /** Where the peripheral of a call is. */
  ghost predicate CallOk(c: Call, table: Table, closes: multiset<Peripheral>) {
    match c.pc
    case Storing(o) => Loose(table, closes, o)
    case Losing(o) => Loose(table, closes, o) && c.id in table
    case Kept(o) => c.id in table && table[c.id] == o && (o.Some? ==> closes[o.value] == 0)
    case Lost(o) => o.Some? && closes[o.value] == 1 && Untabled(table, o.value) && c.id in table
    case _ => true
  }

  /** Two calls never both keep what they connected under one id. */
  ghost predicate WinnersDiffer(s: State) {
    forall t, u | t in s.calls && u in s.calls && t != u ::
      s.calls[t].pc.Kept? && s.calls[u].pc.Kept? ==> s.calls[t].id != s.calls[u].id
  }

  ghost predicate Distinct(s: State) {
    forall t, u | t in s.calls && u in s.calls && t != u ::
      HasPeripheral(s.calls[t].pc) && HasPeripheral(s.calls[u].pc) ==> s.calls[t].pc.p != s.calls[u].pc.p
  }

  ghost predicate LostBy(s: State, p: Peripheral, t: Tid) {
    t in s.calls && s.calls[t].pc == Lost(Some(p))
  }

  ghost predicate TableInv(s: State) {
    forall id :: id in s.table ==> exists t :: KeptBy(s, id, t)
  }

  ghost predicate ClosesInv(s: State) {
    forall p :: p in s.closes ==> exists t :: LostBy(s, p, t)
  }

  ghost predicate CallsInv(s: State) {
    forall t :: t in s.calls ==> CallOk(s.calls[t], s.table, s.closes)
  }

  ghost predicate Inv(s: State) {
    Distinct(s) && WinnersDiffer(s) && CallsInv(s) && TableInv(s) && ClosesInv(s)
  }

  lemma {:induction false} DistinctStep(s: State, a: Action)
    requires Distinct(s) && Enabled(s, a)
    ensures Distinct(Do(s, a))
  {}

  lemma {:induction false} WinnersStep(s: State, a: Action)
    requires WinnersDiffer(s) && CallsInv(s) && Enabled(s, a)
    ensures WinnersDiffer(Do(s, a))
  {
    forall t | t in s.calls && s.calls[t].pc.Kept? ensures s.calls[t].id in s.table {
      assert CallOk(s.calls[t], s.table, s.closes);
    }
  }

  lemma {:induction false} TableStep(s: State, a: Action)
    requires TableInv(s) && Enabled(s, a)
    ensures TableInv(Do(s, a))
  {
    var s' := Do(s, a);
    forall id | id in s'.table ensures exists t :: KeptBy(s', id, t) {
      if id in s.table {
        var t :| KeptBy(s, id, t);
        assert KeptBy(s', id, t);
      } else {
        assert KeptBy(s', id, a.t);
      }
    }
  }

  lemma {:induction false} ClosesStep(s: State, a: Action)
    requires ClosesInv(s) && Enabled(s, a)
    ensures ClosesInv(Do(s, a))
  {
    var s' := Do(s, a);
    forall p | p in s'.closes ensures exists t :: LostBy(s', p, t) {
      if p in s.closes {
        var t :| LostBy(s, p, t);
        assert LostBy(s', p, t);
      } else {
        assert LostBy(s', p, a.t);
      }
    }
  }

  /** A peripheral that no call has is neither in the table nor closed. */
  lemma {:induction false} UnseenIsNowhere(s: State, p: Peripheral)
    requires TableInv(s) && ClosesInv(s) && Unseen(s, p)
    ensures Untabled(s.table, p) && s.closes[p] == 0
  {
    forall id | id in s.table ensures s.table[id] != Some(p) {
      var t :| KeptBy(s, id, t);
    }
  }

  lemma {:induction false} OwnCall(s: State, a: Action)
    requires TableInv(s) && ClosesInv(s) && Enabled(s, a)
    requires a.t in s.calls ==> CallOk(s.calls[a.t], s.table, s.closes)
    ensures var s' := Do(s, a); CallOk(s'.calls[a.t], s'.table, s'.closes)
  {
    if a.ConnectOk? && a.p.Some? {
      UnseenIsNowhere(s, a.p.value);
    }
  }

  lemma {:induction false} OtherCall(s: State, a: Action, t: Tid)
    requires Distinct(s) && Enabled(s, a) && t in s.calls && t != a.t && CallOk(s.calls[t], s.table, s.closes)
    ensures var s' := Do(s, a); CallOk(s'.calls[t], s'.table, s'.closes)
  {}

  lemma {:induction false} CallStep(s: State, a: Action, t: Tid)
    requires Inv(s) && Enabled(s, a) && t in Do(s, a).calls
    ensures var s' := Do(s, a); CallOk(s'.calls[t], s'.table, s'.closes)
  {
    if t in s.calls {
      assert CallOk(s.calls[t], s.table, s.closes);
    }
    if t == a.t {
      OwnCall(s, a);
    } else {
      OtherCall(s, a, t);
    }
  }

  lemma {:induction false} RunKeepsInv(run: seq<Action>)
    requires ValidRun(run)
    ensures Inv(Exec(run))
    decreases |run|
  {
    if run != [] {
      var s, a := Exec(run[..|run| - 1]), run[|run| - 1];
      RunKeepsInv(run[..|run| - 1]);
      DistinctStep(s, a);
      WinnersStep(s, a);
      TableStep(s, a);
      ClosesStep(s, a);
      forall t | t in Do(s, a).calls ensures CallOk(Do(s, a).calls[t], Do(s, a).table, Do(s, a).closes) {
        CallStep(s, a, t);
      }
    }
  }

  ghost predicate Loses(pc: Pc) {
    pc.Losing? || pc.Lost?
  }

  /**
   In every interleaving: what a winner connected is in the table under its id and open, a loser's peripheral
   has been closed exactly once and is not in the table; two calls never both win the same id; and as soon as
   one call for an id has lost, exactly one has won.
   */
  lemma {:induction false} OneWinnerPerId(run: seq<Action>)
    requires ValidRun(run)
    ensures var s := Exec(run);
      && (forall t :: t in s.calls ==> CallOk(s.calls[t], s.table, s.closes))
      && WinnersDiffer(s)
      && (forall t :: t in s.calls && Loses(s.calls[t].pc) ==> exists u :: KeptBy(s, s.calls[t].id, u))
  {
    RunKeepsInv(run);
    var s := Exec(run);
    forall t | t in s.calls && Loses(s.calls[t].pc) ensures exists u :: KeptBy(s, s.calls[t].id, u) {
      assert CallOk(s.calls[t], s.table, s.closes);
    }
  }

  // ---------------------------------------------------------------------------------------
  // The first lookup
  // ---------------------------------------------------------------------------------------

  /** At some step of the run the first lookup of `t` found its id taken. */
  ghost predicate SawTaken(run: seq<Action>, t: Tid)
    requires ValidRun(run)
    decreases |run|
  {
    run != [] && (var past := run[..|run| - 1];
                  || SawTaken(past, t)
                  || (run[|run| - 1] == Check(t) && Exec(past).calls[t].id in Exec(past).table))
  }

  /** At some step of the run the connection attempt of `t` failed. */
  predicate AttemptFailed(run: seq<Action>, t: Tid) {
    ConnectErr(t) in run
  }

  predicate RefusedNow(s: State, t: Tid) {
    t in s.calls && s.calls[t].pc.Refused?
  }

  lemma {:induction false} RefusedStep(s: State, a: Action, t: Tid)
    requires Enabled(s, a)
    ensures RefusedNow(Do(s, a), t) <==>
      RefusedNow(s, t) || (a == Check(t) && s.calls[t].id in s.table) || a == ConnectErr(t)
  {}

  /** A call is refused exactly when its first lookup finds its id taken, or else its connection attempt fails. */
  lemma {:induction false} RefusedIff(run: seq<Action>, t: Tid)
    requires ValidRun(run)
    ensures RefusedNow(Exec(run), t) <==> SawTaken(run, t) || AttemptFailed(run, t)
    decreases |run|
  {
    if run != [] {
      var past, a := run[..|run| - 1], run[|run| - 1];
      RefusedIff(past, t);
      RefusedStep(Exec(past), a, t);
      assert run == past + [a];
    }
  }

  // ---------------------------------------------------------------------------------------
  // Connecting to nothing
  // ---------------------------------------------------------------------------------------

  lemma {:induction false} PrefixValid(past: seq<Action>, run: seq<Action>)
    requires ValidRun(run) && past <= run
    ensures ValidRun(past)
    decreases |run|
  {
    if past != run {
      PrefixValid(past, run[..|run| - 1]);
    }
  }

  /** Step i: the connection attempt of `t` yields nothing. */
  predicate GotNil(run: seq<Action>, t: Tid, i: nat) {
    i < |run| && run[i] == ConnectOk(t, None)
  }

  /** Step j: `t` finds the id of its command taken when it comes to store. */
  ghost predicate FoundTaken(run: seq<Action>, t: Tid, j: nat) {
    && j < |run| && run[j] == LoadOrStore(t) && ValidRun(run[..j])
    && var s := Exec(run[..j]); t in s.calls && s.calls[t].id in s.table
  }

  ghost predicate NilLost(run: seq<Action>, t: Tid) {
    exists i, j :: i < j && GotNil(run, t, i) && FoundTaken(run, t, j)
  }

  /** A call got nothing, found its id taken, and went on to close. */
  ghost predicate NilLoserCloses(run: seq<Action>) {
    exists t, k :: 0 <= k < |run| && run[k] == CloseLoser(t) && NilLost(run[..k], t)
  }

  /** What the program counters tell about the steps so far. */
  ghost predicate NilInv(run: seq<Action>, s: State) {
    forall t :: t in s.calls ==>
      && (s.calls[t].pc == Storing(None) ==> exists i :: GotNil(run, t, i))
      && (s.calls[t].pc == Losing(None) ==> NilLost(run, t))
  }

  lemma {:induction false} HistoryStays(past: seq<Action>, run: seq<Action>, t: Tid)
    requires past <= run
    ensures (exists i :: GotNil(past, t, i)) ==> exists i :: GotNil(run, t, i)
    ensures NilLost(past, t) ==> NilLost(run, t)
  {
    if i :| GotNil(past, t, i) {
      assert GotNil(run, t, i);
    }
    if NilLost(past, t) {
      var i, j :| i < j && GotNil(past, t, i) && FoundTaken(past, t, j);
      assert run[..j] == past[..j];
      assert GotNil(run, t, i) && FoundTaken(run, t, j);
    }
  }

  lemma {:induction false} NilRun(run: seq<Action>)
    requires ValidRun(run)
    ensures NilInv(run, Exec(run))
    decreases |run|
  {
    if run != [] {
      var n := |run| - 1;
      var past, a := run[..n], run[n];
      NilRun(past);
      var s, s' := Exec(past), Exec(run);
      forall t | t in s'.calls
        ensures s'.calls[t].pc == Storing(None) ==> exists i :: GotNil(run, t, i)
        ensures s'.calls[t].pc == Losing(None) ==> NilLost(run, t)
      {
        HistoryStays(past, run, t);
        if a == ConnectOk(t, None) {
          assert GotNil(run, t, n);
        } else if a == LoadOrStore(t) && s'.calls[t].pc == Losing(None) {
          var i :| GotNil(past, t, i);
          assert GotNil(run, t, i) && FoundTaken(run, t, n);
        }
      }
    }
  }

  /** A call that got nothing has nothing for good. */
  lemma {:induction false} NilStays(run: seq<Action>, t: Tid, i: nat)
    requires ValidRun(run) && GotNil(run, t, i)
    ensures var s := Exec(run);
      t in s.calls && (s.calls[t].pc.Crashed? || (HasOutcome(s.calls[t].pc) && s.calls[t].pc.p.None?))
    decreases |run|
  {
    if i < |run| - 1 {
      NilStays(run[..|run| - 1], t, i);
    }
  }

  /** A panic ends the run. */
  lemma {:induction false} PanicIsLast(past: seq<Action>, run: seq<Action>)
    requires ValidRun(run) && past <= run && ValidRun(past) && Exec(past).panicked
    ensures past == run
    decreases |run|
  {
    if past != run {
      PanicIsLast(past, run[..|run| - 1]);
    }
  }

  lemma {:induction false} PanicHasNilLoser(run: seq<Action>)
    requires ValidRun(run) && Exec(run).panicked
    ensures NilLoserCloses(run)
  {
    var n := |run| - 1;
    NilRun(run[..n]);
    assert run[n].CloseLoser? && NilLost(run[..n], run[n].t);
  }

  lemma {:induction false} NilCloseIsPanic(past: seq<Action>, t: Tid)
    requires ValidRun(past) && NilLost(past, t) && Enabled(Exec(past), CloseLoser(t))
    ensures Do(Exec(past), CloseLoser(t)).panicked
  {
    var i, j :| i < j && GotNil(past, t, i) && FoundTaken(past, t, j);
    NilStays(past, t, i);
  }

  lemma {:induction false} LastStep(run: seq<Action>, past: seq<Action>, a: Action)
    requires ValidRun(run) && run == past + [a]
    ensures ValidRun(past) && Enabled(Exec(past), a) && Exec(run) == Do(Exec(past), a)
  {
    assert run[..|run| - 1] == past;
  }

  lemma {:induction false} NilLoserPanicked(run: seq<Action>, t: Tid, k: nat)
    requires ValidRun(run) && k < |run| && run[k] == CloseLoser(t) && NilLost(run[..k], t)
    ensures Exec(run).panicked
  {
    var past, upto := run[..k], run[..k + 1];
    assert upto == past + [run[k]];
    PrefixValid(upto, run);
    LastStep(upto, past, run[k]);
    NilCloseIsPanic(past, t);
    PanicIsLast(upto, run);
  }

  /** A run of connects panics if and only if a call that got nothing finds its id taken and goes on to close. */
  lemma {:induction false} RacePanicsIff(run: seq<Action>)
    requires ValidRun(run)
    ensures Exec(run).panicked <==> NilLoserCloses(run)
  {
    if Exec(run).panicked {
      PanicHasNilLoser(run);
    }
    if NilLoserCloses(run) {
      var t, k :| 0 <= k < |run| && run[k] == CloseLoser(t) && NilLost(run[..k], t);
      NilLoserPanicked(run, t, k);
    }
  }

  lemma {:induction false} Extend(run: seq<Action>, a: Action) returns (longer: seq<Action>)
    requires ValidRun(run) && Enabled(Exec(run), a)
    ensures longer == run + [a] && ValidRun(longer) && Exec(longer) == Do(Exec(run), a)
  {
    longer := run + [a];
    assert longer[..|longer| - 1] == run;
  }

  /** Two calls have found the id free. */
  lemma {:induction false} BothConnect(id: Id) returns (run: seq<Action>)
    ensures ValidRun(run) && !Exec(run).panicked && Exec(run).table == map[]
    ensures Exec(run).calls == map[0 := Call(id, Connecting), 1 := Call(id, Connecting)]
  {
    var r1 := Extend([], Start(0, id));
    var r2 := Extend(r1, Check(0));
    var r3 := Extend(r2, Start(1, id));
    run := Extend(r3, Check(1));
  }

  /** Such a run exists for every id: the second of two connects gets nothing and loses. */
  lemma {:induction false} NilLoserPanics(id: Id) returns (run: seq<Action>)
    ensures ValidRun(run) && Exec(run).panicked
  {
    var r1 := BothConnect(id);
    var r2 := Extend(r1, ConnectOk(0, Some(0)));
    var r3 := Extend(r2, LoadOrStore(0));
    var r4 := Extend(r3, ConnectOk(1, None));
    var r5 := Extend(r4, LoadOrStore(1));
    run := Extend(r5, CloseLoser(1));
  }
}
