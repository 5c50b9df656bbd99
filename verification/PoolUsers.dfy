/**
 Concurrent users of the buffer pool: any number of `Encode` and `Decode` calls and datagram loops, each
 with its own program counter and its own variable for the buffer, which keeps its value after the buffer
 was put back. `sync.Pool` may hand out any free buffer, make a new one, or forget free ones; a buffer that
 is too short is replaced by a longer copy.
 */
module PoolUsers {
  import opened Messages
  import opened BufferPool

  type Buf = nat
  type Tid = nat

  datatype Pc =
    // Encode: get, write the size, put on either path
    | EncGet | EncWrite | EncPutFailed | EncPut
    // Decode: get, read the body, unmarshal, put on either path
    | DecGet(size: int) | DecRead | DecPutCut | DecUnmarshal | DecPut
    // the datagram loop: get, find the connection; write and put, or validate and put; and again
    | PktRead | PktGet(n: nat) | PktLoad | PktWrite | PktClosePipe | PktPutWritten
    | PktValidate | PktPutChecked | PktDecide
    | Done
    | Crashed  // a size beyond the range of int

  /** `data` is the buffer variable; `gets` and `puts` count the calls of the user. */
  datatype User = User(pc: Pc, data: Buf, size: int, gets: nat, puts: nat)

  /** `lens` knows every buffer ever made. */
  datatype State = State(lens: map<Buf, nat>, free: multiset<Buf>, users: map<Tid, User>)

  const INIT := State(map[], multiset{}, map[])

  datatype Action =
    | Start(t: Tid, pc: Pc)
    | Receive(t: Tid, n: nat)               // a datagram of n bytes arrives
    | TakeFree(t: Tid, b: Buf)              // a free buffer that is long enough
    | TakeShort(t: Tid, b: Buf, copy: Buf)  // a free buffer that is too short, grown into a copy
    | TakeNew(t: Tid, b: Buf)               // a new buffer, grown if need be
    | Move(t: Tid, ok: bool)                // everything between get and put, and the way back to the loop
    | Put(t: Tid)
    | Forget(b: Buf)

  predicate IsStart(pc: Pc) {
    pc.EncGet? || pc.DecGet? || pc.PktRead?
  }

  /** The size a get asks for. */
  function Want(pc: Pc): Option<int> {
    match pc
    case EncGet => Some(10)
    case DecGet(size) => Some(size)
    case PktGet(n) => Some(n)
    case _ => None
  }

  function AfterGet(pc: Pc): Pc {
    match pc
    case EncGet => EncWrite
    case DecGet(_) => DecRead
    case _ => PktLoad
  }

  /** `ok`: the write or read succeeded, or the address has a connection. */
  function AfterMove(u: User, ok: bool): Option<Pc> {
    match u.pc
    case EncWrite => Some(if ok then EncPut else EncPutFailed)
    case DecRead => Some(if u.size < 0 then Crashed else if ok then DecUnmarshal else DecPutCut)
    case DecUnmarshal => Some(DecPut)
    case PktLoad => Some(if ok then PktWrite else PktValidate)
    case PktWrite => Some(if ok then PktPutWritten else PktClosePipe)
    case PktClosePipe => Some(PktPutWritten)
    case PktValidate => Some(PktPutChecked)
    case PktDecide => Some(PktRead)
    case _ => None
  }

  function AfterPut(pc: Pc): Option<Pc> {
    match pc
    case EncPutFailed => Some(Done)
    case EncPut => Some(Done)
    case DecPutCut => Some(Done)
    case DecPut => Some(Done)
    case PktPutWritten => Some(PktRead)
    case PktPutChecked => Some(PktDecide)
    case _ => None
  }

  predicate Wants(s: State, t: Tid) {
    t in s.users && Want(s.users[t].pc).Some?
  }

  predicate Enabled(s: State, a: Action) {
    match a
    case Start(t, pc) => t !in s.users && IsStart(pc)
    case Receive(t, _) => t in s.users && s.users[t].pc.PktRead?
    case TakeFree(t, b) => Wants(s, t) && b in s.free && b in s.lens && s.lens[b] >= Want(s.users[t].pc).value
    case TakeShort(t, b, copy) =>
      Wants(s, t) && b in s.free && b in s.lens && s.lens[b] < Want(s.users[t].pc).value && copy !in s.lens
    case TakeNew(t, b) => Wants(s, t) && b !in s.lens
    case Move(t, ok) => t in s.users && AfterMove(s.users[t], ok).Some?
    case Put(t) => t in s.users && AfterPut(s.users[t].pc).Some?
    case Forget(b) => b in s.free
  }

  function Max(x: int, y: int): int {
    if x < y then y else x
  }

  function FreeAfter(s: State, a: Action): multiset<Buf>
    requires Enabled(s, a)
  {
    match a
    case TakeFree(_, b) => s.free - multiset{b}
    case TakeShort(_, b, _) => s.free - multiset{b}
    case Put(t) => s.free + multiset{s.users[t].data}
    case Forget(b) => s.free - multiset{b}
    case _ => s.free
  }

  function LensAfter(s: State, a: Action): map<Buf, nat>
    requires Enabled(s, a)
  {
    match a
    case TakeShort(t, _, copy) => s.lens[copy := Want(s.users[t].pc).value]
    case TakeNew(t, b) => s.lens[b := Max(NEW_BUFFER, Want(s.users[t].pc).value)]
    case _ => s.lens
  }

  function Takes(u: User, b: Buf): User
    requires Want(u.pc).Some?
  {
    User(AfterGet(u.pc), b, Want(u.pc).value, u.gets + 1, u.puts)
  }

  function UsersAfter(s: State, a: Action): map<Tid, User>
    requires Enabled(s, a)
  {
    match a
    case Start(t, pc) => s.users[t := User(pc, 0, 0, 0, 0)]
    case Receive(t, n) => s.users[t := s.users[t].(pc := PktGet(n))]
    case TakeFree(t, b) => s.users[t := Takes(s.users[t], b)]
    case TakeShort(t, _, copy) => s.users[t := Takes(s.users[t], copy)]
    case TakeNew(t, b) => s.users[t := Takes(s.users[t], b)]
    case Move(t, ok) => s.users[t := s.users[t].(pc := AfterMove(s.users[t], ok).value)]
    case Put(t) => s.users[t := s.users[t].(pc := AfterPut(s.users[t].pc).value, puts := s.users[t].puts + 1)]
    case Forget(_) => s.users
  }

  function Do(s: State, a: Action): State
    requires Enabled(s, a)
  {
    State(LensAfter(s, a), FreeAfter(s, a), UsersAfter(s, a))
  }

  ghost predicate ValidRun(run: seq<Action>)
    decreases |run|, 0
  {
    run == [] || (var past := run[..|run| - 1]; ValidRun(past) && Enabled(Exec(past), run[|run| - 1]))
  }

  ghost function Exec(run: seq<Action>): State
    requires ValidRun(run)
    decreases |run|, 1
  {
    if run == [] then INIT else Do(Exec(run[..|run| - 1]), run[|run| - 1])
  }

  /** From the get to the put; the buffer is read and written only here. */
  predicate Holding(pc: Pc) {
    match pc
    case EncGet => false
    case DecGet(_) => false
    case PktRead => false
    case PktGet(_) => false
    case PktDecide => false
    case Done => false
    case _ => true
  }

  ghost predicate FreeOk(s: State) {
    forall b :: b in s.free ==> s.free[b] == 1 && b in s.lens
  }

  ghost predicate LensOk(s: State) {
    forall b :: b in s.lens ==> s.lens[b] >= NEW_BUFFER
  }

  /** A held buffer is long enough and not free; every get but that of the held buffer had its one put. */
  predicate HolderOk(lens: map<Buf, nat>, free: multiset<Buf>, u: User) {
    && (Holding(u.pc) ==> u.data in lens && lens[u.data] >= u.size && u.data !in free)
    && u.gets == u.puts + if Holding(u.pc) then 1 else 0
  }

  ghost predicate HoldersOk(s: State) {
    && (forall t :: t in s.users ==> HolderOk(s.lens, s.free, s.users[t]))
    && (forall t, u :: t in s.users && u in s.users && t != u && Holding(s.users[t].pc) && Holding(s.users[u].pc) ==>
          s.users[t].data != s.users[u].data)
  }

  /** A buffer becomes free only when a user puts it back. */
  lemma {:induction false} FreeCount(s: State, a: Action, b: Buf)
    requires Enabled(s, a)
    ensures FreeAfter(s, a)[b] <= s.free[b] + if a.Put? && s.users[a.t].data == b then 1 else 0
    ensures a.TakeFree? && a.b == b ==> FreeAfter(s, a)[b] == s.free[b] - 1
  {}

  lemma {:induction false} LensStep(s: State, a: Action)
    requires FreeOk(s) && LensOk(s) && Enabled(s, a)
    ensures LensOk(Do(s, a)) && forall b :: b in s.lens ==> b in LensAfter(s, a) && LensAfter(s, a)[b] == s.lens[b]
  {}

  lemma {:induction false} FreeStep(s: State, a: Action)
    requires FreeOk(s) && LensOk(s) && HoldersOk(s) && Enabled(s, a)
    ensures FreeOk(Do(s, a))
  {
    LensStep(s, a);
    forall b | b in FreeAfter(s, a) ensures FreeAfter(s, a)[b] == 1 && b in LensAfter(s, a) {
      FreeCount(s, a, b);
    }
  }

  /** Puts happen only while holding, gets only while not, and nothing else changes which. */
  lemma {:induction false} ControlFlow(u: User)
    ensures Want(u.pc).Some? ==> !Holding(u.pc) && Holding(AfterGet(u.pc))
    ensures AfterPut(u.pc).Some? ==> Holding(u.pc) && !Holding(AfterPut(u.pc).value)
    ensures forall ok :: AfterMove(u, ok).Some? ==> Holding(AfterMove(u, ok).value) == Holding(u.pc)
  {}

  lemma {:induction false} TakerAt(s: State, a: Action)
    requires FreeOk(s) && LensOk(s) && Enabled(s, a) && (a.TakeFree? || a.TakeShort? || a.TakeNew?)
    requires HolderOk(s.lens, s.free, s.users[a.t])
    ensures HolderOk(LensAfter(s, a), FreeAfter(s, a), UsersAfter(s, a)[a.t])
  {
    ControlFlow(s.users[a.t]);
    FreeCount(s, a, UsersAfter(s, a)[a.t].data);
  }

  lemma {:induction false} OwnerAt(s: State, a: Action)
    requires Enabled(s, a) && !(a.TakeFree? || a.TakeShort? || a.TakeNew? || a.Forget?)
    requires a.t in s.users ==> HolderOk(s.lens, s.free, s.users[a.t])
    ensures HolderOk(LensAfter(s, a), FreeAfter(s, a), UsersAfter(s, a)[a.t])
  {
    if a.t in s.users {
      ControlFlow(s.users[a.t]);
    }
  }

  lemma {:induction false} BystanderAt(s: State, a: Action, t: Tid)
    requires FreeOk(s) && HoldersOk(s) && Enabled(s, a) && t in s.users && (a.Forget? || a.t != t)
    requires forall b :: b in s.lens ==> b in LensAfter(s, a) && LensAfter(s, a)[b] == s.lens[b]
    ensures HolderOk(LensAfter(s, a), FreeAfter(s, a), s.users[t])
  {
    if a.Put? {
      ControlFlow(s.users[a.t]);
    }
    FreeCount(s, a, s.users[t].data);
  }

  lemma {:induction false} HolderAt(s: State, a: Action, t: Tid)
    requires FreeOk(s) && LensOk(s) && HoldersOk(s) && Enabled(s, a) && t in UsersAfter(s, a)
    ensures HolderOk(LensAfter(s, a), FreeAfter(s, a), UsersAfter(s, a)[t])
  {
    LensStep(s, a);
    if a.Forget? || a.t != t {
      BystanderAt(s, a, t);
    } else if a.TakeFree? || a.TakeShort? || a.TakeNew? {
      TakerAt(s, a);
    } else {
      OwnerAt(s, a);
    }
  }

  lemma {:induction false} HoldersDiffer(s: State, a: Action, t: Tid, u: Tid)
    requires FreeOk(s) && HoldersOk(s) && Enabled(s, a) && t != u && t in UsersAfter(s, a) && u in UsersAfter(s, a)
    requires Holding(UsersAfter(s, a)[t].pc) && Holding(UsersAfter(s, a)[u].pc)
    ensures UsersAfter(s, a)[t].data != UsersAfter(s, a)[u].data
  {}

  lemma {:induction false} HoldersStep(s: State, a: Action)
    requires FreeOk(s) && LensOk(s) && HoldersOk(s) && Enabled(s, a)
    ensures HoldersOk(Do(s, a))
  {
    var users := UsersAfter(s, a);
    forall t | t in users ensures HolderOk(LensAfter(s, a), FreeAfter(s, a), users[t]) {
      HolderAt(s, a, t);
    }
    forall t, u | t in users && u in users && t != u && Holding(users[t].pc) && Holding(users[u].pc)
      ensures users[t].data != users[u].data
    {
      HoldersDiffer(s, a, t, u);
    }
  }

  /**
   Pool discipline in every run of encoders, decoders and datagram loops: no buffer has two holders, none
   is both held and free or free twice, no buffer is shorter than 32 bytes, each holder has at least the
   size it asked for, and each get is followed by at most one put, exactly one before the next get.
   */
  lemma {:induction false} PoolDiscipline(run: seq<Action>)
    requires ValidRun(run)
    ensures FreeOk(Exec(run)) && LensOk(Exec(run)) && HoldersOk(Exec(run))
    decreases |run|
  {
    if run != [] {
      var s, a := Exec(run[..|run| - 1]), run[|run| - 1];
      PoolDiscipline(run[..|run| - 1]);
      FreeStep(s, a);
      LensStep(s, a);
      HoldersStep(s, a);
    }
  }
}
