/** The unbuffered channel of csp/chan.h: its critical sections. */
module BasicChan {
  import opened Condvar

  /** The mutex-protected fields of `basic_chan_internal`. */
  datatype Fields<T> = Fields(hold: seq<T>, empty: bool, alting: bool, strength: nat)

  /** How a critical section ends: it blocks on the condition variable, returns, throws
      the poison exception with its strength, or indexes `_hold[0]` of an empty vector. */
  datatype Outcome<T> = Waits | Returns | Got(value: T) | Throws(strength: nat) | Faults

  datatype Section<T> = Section(fields: Fields<T>, notify: Notify, schedule: bool, outcome: Outcome<T>)

  /** `AsWritten` takes `_hold[0]` before looking for poison (chan.h:1143-1149);
      `PoisonFirst` is the order that `write` and the buffered channel use. */
  datatype ReadOrder = AsWritten | PoisonFirst

  predicate Quiet<T>(f: Fields<T>) { f.empty && f.strength == 0 }

  function Fresh<T>(): Fields<T> { Fields([], true, false, 0) }

  function WriteEntry<T>(f: Fields<T>, v: T): Section<T> {
    if f.strength > 0 then Section(f, Nobody, false, Throws(f.strength))
    else if f.empty then Section(f.(hold := f.hold + [v], empty := false), Nobody, f.alting, Waits)
    else Section(f.(hold := f.hold + [v], empty := true), One, false, Waits)
  }

  function WriteResume<T>(f: Fields<T>): Section<T> {
    Section(f, Nobody, false, if f.strength > 0 then Throws(f.strength) else Returns)
  }

  /** The part of `read` after the value is known to be there. */
  function TakeHeld<T>(order: ReadOrder, f: Fields<T>): Section<T> {
    if order.PoisonFirst? && f.strength > 0 then Section(f, Nobody, false, Throws(f.strength))
    else if f.hold == [] then Section(f, Nobody, false, Faults)
    else Section(f.(hold := f.hold[..|f.hold| - 1]), One, false,
                 if f.strength > 0 then Throws(f.strength) else Got(f.hold[0]))
  }

  function ReadEntry<T>(order: ReadOrder, f: Fields<T>): Section<T> {
    if f.strength > 0 then Section(f, Nobody, false, Throws(f.strength))
    else if f.empty then Section(f.(empty := false), Nobody, false, Waits)
    else TakeHeld(order, f.(empty := true))
  }

  function Enabled<T>(f: Fields<T>): (r: (Fields<T>, bool)) {
    if Quiet(f) then (f.(alting := true), false) else (f, true)
  }

  function Disabled<T>(f: Fields<T>): (r: (Fields<T>, bool)) {
    (f.(alting := false), !Quiet(f))
  }

  function Poison<T>(f: Fields<T>, k: nat, byWriter: bool): Section<T> {
    Section(f.(strength := k), All, byWriter && f.alting, Returns)
  }

  /** The object whose methods these are.  Each method is one critical section, up to
      its end or to the call of `wait`; it reports what it told the condition variable
      and whether it called `schedule` on the registered alt. */
  class BasicChannel<T> {
    var hold: seq<T>
    var empty: bool
    var alting: bool
    var strength: nat
    const order: ReadOrder

    function Value(): Fields<T> reads this { Fields(hold, empty, alting, strength) }

    constructor (order: ReadOrder)
      ensures Value() == Fresh() && this.order == order
    {
      hold, empty, alting, strength := [], true, false, 0;
      this.order := order;
    }

    method EnterWrite(v: T) returns (notify: Notify, schedule: bool, outcome: Outcome<T>)
      modifies this
      ensures Section(Value(), notify, schedule, outcome) == WriteEntry(old(Value()), v)
    {
      notify, schedule, outcome := Nobody, false, Waits;
      if strength > 0 {
        outcome := Throws(strength);
        return;
      }
      hold := hold + [v];
      if empty {
        empty := false;
        if alting {
          schedule := true;
        }
      } else {
        empty := true;
        notify := One;
      }
    }

    method ResumeWrite() returns (notify: Notify, schedule: bool, outcome: Outcome<T>)
      ensures Section(Value(), notify, schedule, outcome) == WriteResume(Value())
    {
      notify, schedule, outcome := Nobody, false, Returns;
      if strength > 0 {
        outcome := Throws(strength);
      }
    }

    method EnterRead() returns (notify: Notify, schedule: bool, outcome: Outcome<T>)
      modifies this
      ensures Section(Value(), notify, schedule, outcome) == ReadEntry(order, old(Value()))
    {
      notify, schedule, outcome := Nobody, false, Waits;
      if strength > 0 {
        outcome := Throws(strength);
        return;
      }
      if empty {
        empty := false;
        return;
      } else {
        empty := true;
      }
      notify, schedule, outcome := ResumeRead();
    }

    method ResumeRead() returns (notify: Notify, schedule: bool, outcome: Outcome<T>)
      modifies this
      ensures Section(Value(), notify, schedule, outcome) == TakeHeld(order, old(Value()))
    {
      notify, schedule := Nobody, false;
      if order.PoisonFirst? && strength > 0 {
        return Nobody, false, Throws(strength);
      }
      if |hold| == 0 {
        return Nobody, false, Faults;
      }
      var value := hold[0];
      hold := hold[..|hold| - 1];
      notify := One;
      if strength > 0 {
        outcome := Throws(strength);
      } else {
        outcome := Got(value);
      }
    }

    method Enable() returns (ready: bool)
      modifies this
      ensures (Value(), ready) == Enabled(old(Value()))
    {
      if strength > 0 {
        return true;
      }
      if empty {
        alting := true;
        return false;
      } else {
        return true;
      }
    }

    method Disable() returns (ready: bool)
      modifies this
      ensures (Value(), ready) == Disabled(old(Value()))
    {
      alting := false;
      ready := !empty || strength > 0;
    }

    method BePoisoned(k: nat, byWriter: bool) returns (notify: Notify, schedule: bool)
      modifies this
      ensures Section(Value(), notify, schedule, Returns) == Poison(old(Value()), k, byWriter)
    {
      strength := k;
      notify, schedule := All, false;
      if byWriter && alting {
        schedule := true;
      }
    }
  }
}
