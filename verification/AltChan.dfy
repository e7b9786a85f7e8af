/** The channels an alt can select over, with or without a buffer (csp/chan.h). */
module AltChan {
  import opened Condvar
  import B = BasicChan
  import Q = BufferedChan
  import D = DataStore

  /** The mutex-protected fields of either. */
  datatype Fields<T> =
    | Unbuffered(hold: seq<T>, empty: bool, alting: bool, strength: nat)
    | Buffered(kind: D.Kind, size: nat, buf: seq<T>, alting: bool, strength: nat)

  datatype Section<T> = Section(fields: Fields<T>, notify: Notify, schedule: bool, outcome: B.Outcome<T>)

  function OfBasic<T>(f: B.Fields<T>): Fields<T> { Unbuffered(f.hold, f.empty, f.alting, f.strength) }

  function OfBuffered<T>(f: Q.Fields<T>): Fields<T> { Buffered(f.kind, f.size, f.buf, f.alting, f.strength) }

  function ToBasic<T>(f: Fields<T>): B.Fields<T>
    requires f.Unbuffered?
  {
    B.Fields(f.hold, f.empty, f.alting, f.strength)
  }

  function ToBuffered<T>(f: Fields<T>): Q.Fields<T>
    requires f.Buffered?
  {
    Q.Fields(f.kind, f.size, f.buf, f.alting, f.strength)
  }

  function OfOutcome<T>(o: Q.Outcome<T>): B.Outcome<T> {
    match o
    case Waits => B.Waits
    case Returns => B.Returns
    case Got(v) => B.Got(v)
    case Throws(k) => B.Throws(k)
    case Faults => B.Faults
  }

  function OfBasicSection<T>(e: B.Section<T>): Section<T> {
    Section(OfBasic(e.fields), e.notify, e.schedule, e.outcome)
  }

  function OfBufferedSection<T>(e: Q.Section<T>): Section<T> {
    Section(OfBuffered(e.fields), e.notify, e.schedule, OfOutcome(e.outcome))
  }

  predicate Quiet<T>(f: Fields<T>) { if f.Unbuffered? then B.Quiet(ToBasic(f)) else Q.Quiet(ToBuffered(f)) }

  /** A writer has to wait. */
  predicate Full<T>(f: Fields<T>) { if f.Unbuffered? then !f.empty else Q.IsFull(ToBuffered(f)) }

  /** The values that can be read, the next one first. */
  function Content<T>(f: Fields<T>): seq<T> { if f.Unbuffered? then f.hold else f.buf }

  function WriteEntry<T>(f: Fields<T>, v: T): Section<T> {
    if f.Unbuffered? then OfBasicSection(B.WriteEntry(ToBasic(f), v))
    else OfBufferedSection(Q.WriteEntry(ToBuffered(f), v))
  }

  function ReadEntry<T>(f: Fields<T>): Section<T> {
    if f.Unbuffered? then OfBasicSection(B.ReadEntry(B.AsWritten, ToBasic(f)))
    else OfBufferedSection(Q.ReadEntry(ToBuffered(f)))
  }

  function Enabled<T>(f: Fields<T>): (Fields<T>, bool) {
    if Quiet(f) then (f.(alting := true), false) else (f, true)
  }

  function Disabled<T>(f: Fields<T>): (Fields<T>, bool) { (f.(alting := false), !Quiet(f)) }

  function Poison<T>(f: Fields<T>, k: nat, byWriter: bool): Section<T> {
    Section(f.(strength := k), All, byWriter && f.alting, B.Returns)
  }

  /** That is what either channel does. */
  lemma BothDoThis<T>(f: Fields<T>, k: nat, byWriter: bool)
    ensures f.Unbuffered? ==>
      var g := ToBasic(f);
      && Enabled(f) == (OfBasic(B.Enabled(g).0), B.Enabled(g).1)
      && Disabled(f) == (OfBasic(B.Disabled(g).0), B.Disabled(g).1)
      && Poison(f, k, byWriter) == OfBasicSection(B.Poison(g, k, byWriter))
    ensures f.Buffered? ==>
      var g := ToBuffered(f);
      && Enabled(f) == (OfBuffered(Q.Enabled(g).0), Q.Enabled(g).1)
      && Disabled(f) == (OfBuffered(Q.Disabled(g).0), Q.Disabled(g).1)
      && Poison(f, k, byWriter) == OfBufferedSection(Q.Poison(g, k, byWriter))
  {
  }

  /** As they are created.  A store that drops values has room for one. */
  predicate Fresh<T>(f: Fields<T>) {
    if f.Unbuffered? then f == Unbuffered([], true, false, 0)
    else (f.kind.Plain? || f.kind.Infinite? || f.size > 0) && f == Buffered(f.kind, f.size, [], false, 0)
  }

  /** What its users keep true of a channel of either kind. */
  predicate Sound<T>(f: Fields<T>) {
    if f.Unbuffered? then |f.hold| == if f.empty then 0 else 1
    else
      && (f.kind.Plain? || f.kind.Infinite? || f.size > 0)
      && (f.kind.Plain? && f.size > 0 ==> |f.buf| <= f.size)
  }
}
