/** The condition variable of a monitor.

    Every monitor of the library calls `wait` without a predicate, so the model keeps
    the set of blocked processes and the set of processes that were notified but have
    not yet re-acquired the lock.  A process leaves `waiting` only by a notification:
    spurious wakeups are excluded, which is the assumption all these monitors make. */
module Condvar {

  datatype Cond = Cond(waiting: set<nat>, woken: set<nat>)

  const IDLE := Cond({}, {})

  datatype Notify = Nobody | One | All

  /** `notify_one` wakes some blocked process, and nobody when none is blocked;
      `pick` is the scheduler's choice. */
  predicate MayPick(c: Cond, n: Notify, pick: nat) {
    n.One? && c.waiting != {} ==> pick in c.waiting
  }

  function Signal(c: Cond, n: Notify, pick: nat): (d: Cond)
    requires MayPick(c, n, pick)
  {
    match n
    case Nobody => c
    case One => if c.waiting == {} then c else Cond(c.waiting - {pick}, c.woken + {pick})
    case All => Cond({}, c.woken + c.waiting)
  }

  function Block(c: Cond, p: nat): Cond { c.(waiting := c.waiting + {p}) }

  function Resume(c: Cond, p: nat): Cond { c.(woken := c.woken - {p}) }
}
