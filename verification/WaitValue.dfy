/**
 The wait value behind one pending command: a one-slot reply channel, a closed flag and a
 compare-and-swap spin lock around every operation on them.

 The step functions are the atomic operations of `do`, `send` and `close`. They are used twice: by
 any number of threads on one value (module SpinLock), and by the hub session, where callers, the
 timer and the receiver meet on many values (module Correlator).
 */
module WaitValue {
  import opened Messages

  /** `chOpen` is the state of the Go channel itself, `closed` the atomic flag that guards it. */
  datatype Slot = Slot(working: bool, closed: bool, chOpen: bool, buf: Option<Msg>)

  const FRESH := Slot(false, false, true, None)

  /** Where a thread is inside `do(f)`: acquire, test the flag, touch the channel, release. */
  datatype Stage = Spin | Test | Act | Unlock | Fin

  predicate InCritical(st: Stage) {
    st.Test? || st.Act? || st.Unlock?
  }

  /** Closing a closed channel or sending on one is a Go panic. */
  datatype Outcome = Next(slot: Slot, st: Stage) | Panic

  /** A failing compare-and-swap only repeats, so a spinning thread has no step. */
  predicate LockReady(sl: Slot, st: Stage) {
    match st
    case Spin => !sl.working
    case Unlock => sl.working
    case Fin => false
    case _ => true
  }

  function CloseStep(sl: Slot, st: Stage): Outcome
    requires LockReady(sl, st)
  {
    match st
    case Spin => Next(sl.(working := true), Test)
    case Test => if sl.closed then Next(sl, Unlock) else Next(sl.(closed := true), Act)
    case Act => if sl.chOpen then Next(sl.(chOpen := false), Unlock) else Panic
    case Unlock => Next(sl.(working := false), Fin)
  }

  /** The channel arm of the `select` in `send` is ready when there is room, or when it panics. */
  predicate SendReady(sl: Slot, st: Stage) {
    LockReady(sl, st) && (st.Act? ==> sl.buf.None? || !sl.chOpen)
  }

  function SendStep(sl: Slot, st: Stage, m: Msg): Outcome
    requires SendReady(sl, st)
  {
    match st
    case Spin => Next(sl.(working := true), Test)
    case Test => if sl.closed then Next(sl, Unlock) else Next(sl, Act)
    case Act => if sl.chOpen then Next(sl.(buf := Some(m)), Unlock) else Panic
    case Unlock => Next(sl.(working := false), Fin)
  }
}
