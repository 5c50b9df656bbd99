/**
 The routing table of the hub: `Handle` installs a manager for some extension names of a kind, or for
 the whole kind, and a new connection is routed by two separately locked lookups.
 */
module Router {
  import opened Messages

  datatype ExtKey = ExtKey(kind: nat, name: string)

  /** Managers are told apart by the `Handle` call that created them. */
  type Mgr = nat

  type Table = map<ExtKey, Mgr>

  datatype HandleCall = HandleCall(kind: nat, mgr: Mgr, names: seq<string>)

  /** The loop over the names returns at the first empty one. */
  function Effective(names: seq<string>): seq<string> {
    if names == [] || names[0] == "" then [] else [names[0]] + Effective(names[1..])
  }

  predicate IsWildcard(c: HandleCall, kind: nat) {
    c.kind == kind && c.names == []
  }

  predicate Names(c: HandleCall, kind: nat, name: string) {
    c.kind == kind && name in Effective(c.names)
  }

  function Named(kind: nat, mgr: Mgr, names: seq<string>): Table {
    map n | n in names :: ExtKey(kind, n) := mgr
  }

  function OtherKinds(t: Table, kind: nat): Table {
    map k | k in t && k.kind != kind :: t[k]
  }

  /** The table after a `Handle` call. */
  function Installed(t: Table, c: HandleCall): Table {
    if c.names == [] then OtherKinds(t, c.kind)[ExtKey(c.kind, "") := c.mgr]
    else t + Named(c.kind, c.mgr, Effective(c.names))
  }

  function Find(t: Table, k: ExtKey): Option<Mgr> {
    if k in t then Some(t[k]) else None
  }

  /** The specific manager if there is one, else the manager of the whole kind. */
  function Lookup(t: Table, kind: nat, name: string): Option<Mgr> {
    var specific := Find(t, ExtKey(kind, name));
    if specific.Some? then specific else Find(t, ExtKey(kind, ""))
  }

  lemma {:induction false} EffectiveIsPrefix(names: seq<string>)
    ensures Effective(names) <= names && "" !in Effective(names)
    ensures |Effective(names)| < |names| ==> names[|Effective(names)|] == ""
    decreases |names|
  {
    if names != [] && names[0] != "" {
      EffectiveIsPrefix(names[1..]);
      assert names == [names[0]] + names[1..];
    }
  }

  lemma {:induction false} EffectiveUpTo(names: seq<string>, n: nat)
    requires n <= |names| && "" !in names[..n] && (n == |names| || names[n] == "")
    ensures Effective(names) == names[..n]
    decreases n
  {
    if n > 0 {
      assert names[0] == names[..n][0] && names[..n] == [names[0]] + names[1..][..n - 1];
      forall x | x in names[1..][..n - 1] ensures x in names[..n] {}
      EffectiveUpTo(names[1..], n - 1);
    }
  }

  lemma {:induction false} NamedNext(t: Table, kind: nat, mgr: Mgr, names: seq<string>, i: nat)
    requires i < |names|
    ensures (t + Named(kind, mgr, names[..i]))[ExtKey(kind, names[i]) := mgr] == t + Named(kind, mgr, names[..i + 1])
  {
    assert names[..i + 1] == names[..i] + [names[i]];
  }

  class Server {
    var managers: Table
    ghost var hist: seq<HandleCall>  // every Handle call so far

    ghost predicate Valid()
      reads this
    {
      managers == Replay(hist)
    }

    constructor ()
      ensures Valid() && hist == []
    {
      managers, hist := map[], [];
    }

    /** The loop over the names; it stops at the first empty one. */
    method InstallNames(kind: nat, mgr: Mgr, extensions: seq<string>)
      modifies this`managers
      ensures managers == old(managers) + Named(kind, mgr, Effective(extensions))
    {
      var i := 0;
      while i < |extensions|
        invariant i <= |extensions| && "" !in extensions[..i]
        invariant managers == old(managers) + Named(kind, mgr, extensions[..i])
      {
        if extensions[i] == "" {
          EffectiveUpTo(extensions, i);
          return;
        }
        NamedNext(old(managers), kind, mgr, extensions, i);
        managers := managers[ExtKey(kind, extensions[i]) := mgr];
        i := i + 1;
      }
      assert extensions[..i] == extensions;
      EffectiveUpTo(extensions, i);
    }

    method InstallWildcard(kind: nat, mgr: Mgr)
      modifies this`managers
      ensures managers == OtherKinds(old(managers), kind)[ExtKey(kind, "") := mgr]
    {
      var toRemove := CollectKind(kind);
      RemoveAll(toRemove);
      assert managers == OtherKinds(old(managers), kind);
      managers := managers[ExtKey(kind, "") := mgr];
    }

    method Handle(kind: nat, mgr: Mgr, extensions: seq<string>)
      requires Valid()
      modifies this
      ensures Valid() && hist == old(hist) + [HandleCall(kind, mgr, extensions)]
    {
      InstallNames(kind, mgr, extensions);
      if |extensions| == 0 {
        assert managers == old(managers);
        InstallWildcard(kind, mgr);
      }
      hist := hist + [HandleCall(kind, mgr, extensions)];
      assert hist[..|hist| - 1] == old(hist);
    }

    method CollectKind(kind: nat) returns (toRemove: seq<ExtKey>)
      ensures forall k :: k in toRemove <==> k in managers && k.kind == kind
    {
      toRemove := [];
      var rest := managers.Keys;
      while rest != {}
        invariant rest <= managers.Keys
        invariant forall k :: k in toRemove <==> k in managers && k !in rest && k.kind == kind
        decreases rest
      {
        var k :| k in rest;
        rest := rest - {k};
        if k.kind == kind {
          toRemove := toRemove + [ExtKey(kind, k.name)];
        }
      }
    }

    method RemoveAll(toRemove: seq<ExtKey>)
      modifies this`managers
      ensures managers == map k | k in old(managers) && k !in toRemove :: old(managers)[k]
    {
      var i := 0;
      while i < |toRemove|
        invariant i <= |toRemove|
        invariant managers == map k | k in old(managers) && k !in toRemove[..i] :: old(managers)[k]
      {
        assert toRemove[..i + 1] == toRemove[..i] + [toRemove[i]];
        managers := managers - {toRemove[i]};
        i := i + 1;
      }
      assert toRemove[..i] == toRemove;
    }

    /** The `Handle` calls of other goroutines. */
    method HandleAll(calls: seq<HandleCall>)
      requires Valid()
      modifies this
      ensures Valid() && hist == old(hist) + calls
    {
      var i := 0;
      while i < |calls|
        invariant i <= |calls| && Valid() && hist == old(hist) + calls[..i]
      {
        Handle(calls[i].kind, calls[i].mgr, calls[i].names);
        i := i + 1;
      }
    }

    /**
     A new connection: two lookups, each under the lock, with any `Handle` calls of other goroutines between
     them. The connection is routed as the history prescribes at some instant of the call.
     */
    method HandleNewConn(kind: nat, name: string, between: seq<HandleCall>) returns (mgr: Option<Mgr>)
      requires Valid()
      modifies this
      ensures Valid() && hist == old(hist) + between
      ensures exists t :: |old(hist)| <= t <= |hist| && mgr == Routed(hist[..t], kind, name)
    {
      ghost var i := |hist|;
      mgr := Find(managers, ExtKey(kind, name));
      HandleAll(between);
      assert hist[..i] == old(hist) && hist[..|hist|] == hist;
      if mgr.None? {
        mgr := Find(managers, ExtKey(kind, ""));
      }
      assert mgr == TwoStep(Replay(hist[..i]), Replay(hist[..|hist|]), kind, name);
      LinearizableRouting(hist, i, |hist|, kind, name);
      ghost var t :| i <= t <= |hist| && mgr == Lookup(Replay(hist[..t]), kind, name);
      RoutingHistory(hist[..t], kind, name, LatestWildcard(hist[..t], kind), LatestNaming(hist[..t], kind, name));
    }
  }

  // ---------------------------------------------------------------------------------------
  // What a table means: replaying the history of Handle calls
  // ---------------------------------------------------------------------------------------

  function Replay(hist: seq<HandleCall>): Table {
    if hist == [] then map[] else Installed(Replay(hist[..|hist| - 1]), hist[|hist| - 1])
  }

  /** `i` is the latest call that installs a wildcard for the kind, -1 if there is none. */
  ghost predicate LastWildcard(hist: seq<HandleCall>, kind: nat, i: int) {
    && -1 <= i < |hist|
    && (i >= 0 ==> IsWildcard(hist[i], kind))
    && (forall j :: i < j < |hist| ==> !IsWildcard(hist[j], kind))
  }

  /** `i` is the latest call that names the extension before its first empty name, -1 if there is none. */
  ghost predicate LastNaming(hist: seq<HandleCall>, kind: nat, name: string, i: int) {
    && -1 <= i < |hist|
    && (i >= 0 ==> Names(hist[i], kind, name))
    && (forall j :: i < j < |hist| ==> !Names(hist[j], kind, name))
  }

  lemma {:induction false} TableFromHistory(hist: seq<HandleCall>, kind: nat, name: string, lw: int, ln: int)
    requires LastWildcard(hist, kind, lw) && LastNaming(hist, kind, name, ln) && name != ""
    ensures Find(Replay(hist), ExtKey(kind, name)) == if ln > lw then Some(hist[ln].mgr) else None
    ensures Find(Replay(hist), ExtKey(kind, "")) == if lw >= 0 then Some(hist[lw].mgr) else None
    decreases |hist|
  {
    if hist != [] {
      var n := |hist| - 1;
      var past, c := hist[..n], hist[n];
      EffectiveIsPrefix(c.names);
      var lw', ln' := LatestWildcard(past, kind), LatestNaming(past, kind, name);
      TableFromHistory(past, kind, name, lw', ln');
      SameIndex(hist, kind, name, lw, ln, lw', ln');
    }
  }

  lemma {:induction false} SameIndex(hist: seq<HandleCall>, kind: nat, name: string,
                                     lw: int, ln: int, lw': int, ln': int)
    requires hist != []
    requires LastWildcard(hist, kind, lw) && LastNaming(hist, kind, name, ln)
    requires LastWildcard(hist[..|hist| - 1], kind, lw') && LastNaming(hist[..|hist| - 1], kind, name, ln')
    ensures lw == if IsWildcard(hist[|hist| - 1], kind) then |hist| - 1 else lw'
    ensures ln == if Names(hist[|hist| - 1], kind, name) then |hist| - 1 else ln'
  {
    var n := |hist| - 1;
    assert forall j :: 0 <= j < n ==> hist[..n][j] == hist[j];
  }

  ghost function LatestWildcard(hist: seq<HandleCall>, kind: nat): (i: int)
    ensures LastWildcard(hist, kind, i)
  {
    if hist == [] then -1
    else if IsWildcard(hist[|hist| - 1], kind) then |hist| - 1
    else LatestWildcard(hist[..|hist| - 1], kind)
  }

  ghost function LatestNaming(hist: seq<HandleCall>, kind: nat, name: string): (i: int)
    ensures LastNaming(hist, kind, name, i)
  {
    if hist == [] then -1
    else if Names(hist[|hist| - 1], kind, name) then |hist| - 1
    else LatestNaming(hist[..|hist| - 1], kind, name)
  }

  /** Where the history sends an extension: the latest naming call after the last wildcard, else that wildcard. */
  ghost function Routed(hist: seq<HandleCall>, kind: nat, name: string): Option<Mgr> {
    var lw, ln := LatestWildcard(hist, kind), LatestNaming(hist, kind, name);
    if ln > lw then Some(hist[ln].mgr) else if lw >= 0 then Some(hist[lw].mgr) else None
  }

  /**
   Routing history: after any sequence of `Handle` calls, an extension is routed to the latest call
   that names it, if that call came after the kind's last wildcard, and otherwise to that wildcard.
   Calls for other kinds do not appear in the answer at all.
   */
  lemma {:induction false} RoutingHistory(hist: seq<HandleCall>, kind: nat, name: string, lw: int, ln: int)
    requires LastWildcard(hist, kind, lw) && LastNaming(hist, kind, name, ln)
    ensures Lookup(Replay(hist), kind, name) ==
      if ln > lw then Some(hist[ln].mgr) else if lw >= 0 then Some(hist[lw].mgr) else None
  {
    if name == "" {
      if ln >= 0 {
        EffectiveIsPrefix(hist[ln].names);
      }
      TableFromHistory(hist, kind, "x", lw, LatestNaming(hist, kind, "x"));
    } else {
      TableFromHistory(hist, kind, name, lw, ln);
    }
  }

  // ---------------------------------------------------------------------------------------
  // The two lookups against concurrent Handle calls
  // ---------------------------------------------------------------------------------------

  /** First lookup in `t1`; when it misses, second lookup in the possibly later `t2`. */
  function TwoStep(t1: Table, t2: Table, kind: nat, name: string): Option<Mgr> {
    var specific := Find(t1, ExtKey(kind, name));
    if specific.Some? then specific else Find(t2, ExtKey(kind, ""))
  }

  /** Without a wildcard call in between, the wildcard entry of a kind stays what it was. */
  lemma {:induction false} WildcardStays(hist: seq<HandleCall>, kind: nat, i: nat, j: nat)
    requires i <= j <= |hist| && (forall t :: i <= t < j ==> !IsWildcard(hist[t], kind))
    ensures Find(Replay(hist[..j]), ExtKey(kind, "")) == Find(Replay(hist[..i]), ExtKey(kind, ""))
    decreases j - i
  {
    if i < j {
      WildcardStays(hist, kind, i, j - 1);
      assert hist[..j][..j - 1] == hist[..j - 1];
      EffectiveIsPrefix(hist[j - 1].names);
    }
  }

  /**
   Linearizable routing: however many `Handle` calls fall between the two lookups, the outcome is that
   of one atomic lookup at some instant from the first lookup to the second.
   */
  lemma {:induction false} LinearizableRouting(hist: seq<HandleCall>, i: nat, j: nat, kind: nat, name: string)
    requires i <= j <= |hist|
    ensures exists t ::
      && i <= t <= j
      && TwoStep(Replay(hist[..i]), Replay(hist[..j]), kind, name) == Lookup(Replay(hist[..t]), kind, name)
  {
    var ti, tj := Replay(hist[..i]), Replay(hist[..j]);
    if ExtKey(kind, name) in ti {
      assert TwoStep(ti, tj, kind, name) == Lookup(Replay(hist[..i]), kind, name);
    } else if name == "" {
      assert TwoStep(ti, tj, kind, name) == Lookup(Replay(hist[..j]), kind, name);
    } else {
      var lw := LatestWildcard(hist[..j], kind);
      if lw < i {
        assert forall t :: i <= t < j ==> hist[..j][t] == hist[t];
        WildcardStays(hist, kind, i, j);
        assert TwoStep(ti, tj, kind, name) == Lookup(Replay(hist[..i]), kind, name);
      } else {
        var t := lw + 1;
        assert forall u :: t <= u < j ==> hist[..j][u] == hist[u];
        WildcardStays(hist, kind, t, j);
        assert hist[..t][..lw] == hist[..lw] && hist[lw] == hist[..j][lw];
        assert ExtKey(kind, name) !in Replay(hist[..t]);
        assert TwoStep(ti, tj, kind, name) == Lookup(Replay(hist[..t]), kind, name);
      }
    }
  }

  /** The instant can be strictly inside: here neither end gives what the two lookups return. */
  lemma {:induction false} EndsDoNotSuffice()
    ensures var hist := [HandleCall(0, 1, []), HandleCall(0, 2, ["a"])];
      && TwoStep(Replay(hist[..0]), Replay(hist[..2]), 0, "a") == Some(1)
      && Lookup(Replay(hist[..0]), 0, "a") == None
      && Lookup(Replay(hist[..2]), 0, "a") == Some(2)
  {
    var hist := [HandleCall(0, 1, []), HandleCall(0, 2, ["a"])];
    assert hist[..2] == hist && hist[..1] == [hist[0]] && [hist[0]][..0] == [];
    assert Replay([hist[0]]) == map[ExtKey(0, "") := 1];
    assert Effective(["a"]) == ["a"];
    assert Replay(hist) == map[ExtKey(0, "") := 1, ExtKey(0, "a") := 2];
  }
}
