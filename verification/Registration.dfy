/** Concurrent `HandleStream` calls on one extension manager: each registers its name, or is refused. */
module Registration {

  datatype Pc = Entering | Live | Rejected | Ended

  datatype Call = Call(name: string, pc: Pc)

  datatype State = State(registered: set<string>, calls: map<nat, Call>)

  datatype Action = Enter(c: nat, name: string) | Register(c: nat) | Leave(c: nat)

  const INIT := State({}, map[])

  /** Each locked section is one step. */
  predicate Enabled(s: State, a: Action) {
    match a
    case Enter(c, _) => c !in s.calls
    case Register(c) => c in s.calls && s.calls[c].pc.Entering?
    case Leave(c) => c in s.calls && s.calls[c].pc.Live?
  }

  function Do(s: State, a: Action): State
    requires Enabled(s, a)
  {
    match a
    case Enter(c, name) => s.(calls := s.calls[c := Call(name, Entering)])
    case Register(c) =>
      var name := s.calls[c].name;
      if name in s.registered then s.(calls := s.calls[c := Call(name, Rejected)])
      else State(s.registered + {name}, s.calls[c := Call(name, Live)])
    case Leave(c) =>
      var name := s.calls[c].name;
      State(s.registered - {name}, s.calls[c := Call(name, Ended)])
  }

  ghost predicate ValidRun(run: seq<Action>)
    decreases |run|, 0
  {
    run == [] || (var past := run[..|run| - 1]; ValidRun(past) && Enabled(Exec(past), run[|run| - 1]))
  }

  ghost function Exec(run: seq<Action>): State
    requires ValidRun(run)
    decreases |run|, 1
  {
    if run == [] then INIT else Do(Exec(run[..|run| - 1]), run[|run| - 1])
  }

  ghost predicate LiveAs(s: State, c: nat, name: string) {
    c in s.calls && s.calls[c] == Call(name, Live)
  }

  /** The registered names are exactly those of live sessions, and each has one. */
  ghost predicate Exclusive(s: State) {
    && (forall c, d, name :: LiveAs(s, c, name) && LiveAs(s, d, name) ==> c == d)
    && (forall name :: name in s.registered <==> exists c :: LiveAs(s, c, name))
  }

  lemma {:induction false} StepKeepsExclusive(s: State, a: Action)
    requires Exclusive(s) && Enabled(s, a)
    ensures Exclusive(Do(s, a))
  {
    var s' := Do(s, a);
    assert forall c, name :: c != a.c ==> (LiveAs(s', c, name) <==> LiveAs(s, c, name));
    forall name ensures name in s'.registered <==> exists c :: LiveAs(s', c, name) {
      if name in s'.registered {
        if name in s.registered {
          var c :| LiveAs(s, c, name);
          assert LiveAs(s', c, name);
        } else {
          assert LiveAs(s', a.c, name);
        }
      } else {
        forall c ensures !LiveAs(s', c, name) {
          if a.Leave? {
            assert LiveAs(s, a.c, s.calls[a.c].name);
          }
        }
      }
    }
  }

  /**
   Registration exclusivity: in every interleaving at most one session per name is live, and the registered
   set is exactly the names of the live sessions.
   */
  lemma {:induction false} RegistrationExclusive(run: seq<Action>)
    requires ValidRun(run)
    ensures Exclusive(Exec(run))
    decreases |run|
  {
    if run != [] {
      RegistrationExclusive(run[..|run| - 1]);
      StepKeepsExclusive(Exec(run[..|run| - 1]), run[|run| - 1]);
    }
  }

  /** A duplicate is rejected exactly when the name has a live session, which stays registered. */
  lemma {:induction false} RejectedIffIncumbent(run: seq<Action>, c: nat)
    requires ValidRun(run) && Enabled(Exec(run), Register(c))
    ensures var s := Exec(run); var s' := Do(s, Register(c)); var name := s.calls[c].name;
      && (s'.calls[c].pc.Rejected? <==> exists d :: LiveAs(s, d, name))
      && (forall d :: LiveAs(s, d, name) ==> LiveAs(s', d, name))
      && name in s'.registered
  {
    RegistrationExclusive(run);
  }
}
