/** What a program sees of poison (csp/chan.h:824-831 and 887-893).

    The monitor's `write` throws when the channel is poisoned, but every output end calls it
    from a function that is `noexcept`, so the exception ends the program before any writer
    can catch it.  Reading ends let their exceptions through. */
module Ends {
  import opened Runs

  datatype Program<S> = Running(s: S) | Terminated

  /** What became of a program in which the step `e` from state `s` makes an exception leave a
      `noexcept` function when `throws(s, e)`. */
  function Fate<S, E>(step: (S, E) -> Option<S>, throws: (S, E) -> bool, s: S, es: seq<E>): (r: Option<Program<S>>)
    decreases |es|
  {
    if es == [] then Some(Running(s))
    else
      match Fate(step, throws, s, es[..|es| - 1])
      case Some(Running(t)) =>
        (match step(t, es[|es| - 1])
         case None => None
         case Some(u) => if throws(t, es[|es| - 1]) then Some(Terminated) else Some(Running(u)))
      case _ => None
  }

  /** A program that goes on has done what the monitors did. */
  lemma {:induction false} GoesOnLikeTheMonitor<S, E>(
    step: (S, E) -> Option<S>, throws: (S, E) -> bool, s: S, es: seq<E>)
    ensures Fate(step, throws, s, es).Some? && Fate(step, throws, s, es).value.Running? ==>
      Run(step, s, es) == Some(Fate(step, throws, s, es).value.s)
    decreases |es|
  {
    if es != [] {
      GoesOnLikeTheMonitor(step, throws, s, es[..|es| - 1]);
    }
  }

  lemma FateOfOne<S, E>(step: (S, E) -> Option<S>, throws: (S, E) -> bool, s: S, e: E)
    requires step(s, e).Some?
    ensures Fate(step, throws, s, [e]) == Some(if throws(s, e) then Terminated else Running(step(s, e).value))
  {
    assert [e][..0] == [];
  }

  predicate Occurs<E>(kind: E -> bool, es: seq<E>) { exists i :: 0 <= i < |es| && kind(es[i]) }

  lemma OneMoreEvent<E>(kind: E -> bool, es: seq<E>)
    requires es != []
    ensures Occurs(kind, es) <==> Occurs(kind, es[..|es| - 1]) || kind(es[|es| - 1])
  {
    var before := es[..|es| - 1];
    if i :| 0 <= i < |before| && kind(before[i]) {
      assert es[i] == before[i];
    }
  }

  /** When in every `dead` state exactly the events of one kind throw, and it stays dead. */
  ghost predicate KindThrows<S(!new), E(!new)>(
    step: (S, E) -> Option<S>, throws: (S, E) -> bool, dead: S -> bool, kind: E -> bool)
  {
    forall t, e :: dead(t) && step(t, e).Some? ==> dead(step(t, e).value) && (throws(t, e) <==> kind(e))
  }

  /** Then the program ends exactly when one of them occurs. */
  lemma {:induction false} EndsExactlyWhenItOccurs<S(!new), E(!new)>(
    step: (S, E) -> Option<S>, throws: (S, E) -> bool, dead: S -> bool, kind: E -> bool, s: S, es: seq<E>)
    requires KindThrows(step, throws, dead, kind) && dead(s) && Fate(step, throws, s, es).Some?
    ensures var r := Fate(step, throws, s, es).value;
      (r.Terminated? <==> Occurs(kind, es)) && (r.Running? ==> dead(r.s))
    decreases |es|
  {
    if es != [] {
      EndsExactlyWhenItOccurs(step, throws, dead, kind, s, es[..|es| - 1]);
      OneMoreEvent(kind, es);
    }
  }

  /** The program can end without any of the events `newcomer`. */
  ghost predicate CanEnd<S(!new), E(!new)>(
    step: (S, E) -> Option<S>, throws: (S, E) -> bool, newcomer: E -> bool, s: S)
  {
    exists es: seq<E> :: !Occurs(newcomer, es) && Fate(step, throws, s, es) == Some(Terminated)
  }

  /** While nobody is in, and nobody new comes, nothing throws. */
  ghost predicate OnlyNewcomersThrow<S(!new), E(!new)>(
    step: (S, E) -> Option<S>, throws: (S, E) -> bool, out: S -> bool, newcomer: E -> bool)
  {
    forall t, e :: out(t) && !newcomer(e) && step(t, e).Some? ==> out(step(t, e).value) && !throws(t, e)
  }

  lemma {:induction false} NobodyIn<S(!new), E(!new)>(
    step: (S, E) -> Option<S>, throws: (S, E) -> bool, out: S -> bool, newcomer: E -> bool, s: S, es: seq<E>)
    requires OnlyNewcomersThrow(step, throws, out, newcomer) && out(s) && !Occurs(newcomer, es)
    requires Fate(step, throws, s, es).Some?
    ensures Fate(step, throws, s, es).value.Running? && out(Fate(step, throws, s, es).value.s)
    decreases |es|
  {
    if es != [] {
      OneMoreEvent(newcomer, es);
      NobodyIn(step, throws, out, newcomer, s, es[..|es| - 1]);
    }
  }

  lemma CannotEnd<S(!new), E(!new)>(
    step: (S, E) -> Option<S>, throws: (S, E) -> bool, out: S -> bool, newcomer: E -> bool, s: S)
    requires OnlyNewcomersThrow(step, throws, out, newcomer) && out(s)
    ensures !CanEnd(step, throws, newcomer, s)
  {
    forall es: seq<E> | !Occurs(newcomer, es) ensures Fate(step, throws, s, es) != Some(Terminated) {
      if Fate(step, throws, s, es).Some? {
        NobodyIn(step, throws, out, newcomer, s, es);
      }
    }
  }

  lemma EndsAtOnce<S(!new), E(!new)>(
    step: (S, E) -> Option<S>, throws: (S, E) -> bool, newcomer: E -> bool, s: S, e: E)
    requires step(s, e).Some? && throws(s, e) && !newcomer(e)
    ensures CanEnd(step, throws, newcomer, s)
  {
    FateOfOne(step, throws, s, e);
    assert !Occurs(newcomer, [e]);
  }

  lemma EndsAfterOne<S, E>(step: (S, E) -> Option<S>, throws: (S, E) -> bool, s: S, d: E, e: E)
    requires step(s, d).Some? && !throws(s, d)
    requires step(step(s, d).value, e).Some? && throws(step(s, d).value, e)
    ensures Fate(step, throws, s, [d, e]) == Some(Terminated)
  {
    assert [d, e][..1] == [d];
    FateOfOne(step, throws, s, d);
  }
}

/** Poison on the unbuffered channel. */
module ChannelEnds {
  import opened Runs
  import opened ChannelSystem
  import C = BasicChan
  import opened Ends

  /** A writer that enters, or goes on after its wait, gets the exception. */
  predicate Throws<T>(s: State<T>, e: Event<T>) {
    match e
    case Write(_) => s.w.HoldsOut? && C.WriteEntry(s.f, s.w.v).outcome.Throws?
    case WriteReturn => C.WriteResume(s.f).outcome.Throws?
    case _ => false
  }

  predicate WriterGoesOn<T>(e: Event<T>) { e.Write? || e.WriteReturn? }
  predicate WriterComes<T>(e: Event<T>) { e.LockOut? }

  ghost predicate Poisoned<T>(s: State<T>) { Inv(s) && s.f.strength > 0 }
  predicate NobodyWrites<T>(s: State<T>) { s.w.NoWriter? }

  lemma PoisonedStays<T>(s: State<T>, e: Event<T>)
    requires Poisoned(s) && Step(s, e).Some?
    ensures Poisoned(Step(s, e).value) && (Throws(s, e) <==> WriterGoesOn(e))
  {
    StepKeepsInv(s, e);
    PoisonIsFinal(s, e);
  }

  /** After poison the program ends exactly when a writer that is inside `write` goes on or
      another one enters. */
  lemma EndsExactlyWhenAWriterGoesOn<T(!new)>(s: State<T>, es: seq<Event<T>>)
    requires Inv(s) && s.f.strength > 0 && Fate(Step<T>, Throws<T>, s, es).Some?
    ensures Fate(Step<T>, Throws<T>, s, es).value.Terminated? <==> exists i :: 0 <= i < |es| && WriterGoesOn(es[i])
  {
    forall t: State<T>, e: Event<T> | Poisoned(t) && Step(t, e).Some?
      ensures Poisoned(Step(t, e).value) && (Throws(t, e) <==> WriterGoesOn(e))
    {
      PoisonedStays(t, e);
    }
    EndsExactlyWhenItOccurs(Step<T>, Throws<T>, Poisoned<T>, WriterGoesOn<T>, s, es);
  }

  lemma InsiderThrows<T(!new)>(s: State<T>)
    requires Poisoned(s) && !s.faulted && !s.w.NoWriter?
    ensures CanEnd(Step<T>, Throws<T>, WriterComes<T>, s)
  {
    var e: Event<T> := if s.w.HoldsOut? then Write(0) else WriteReturn;
    EndsAtOnce(Step<T>, Throws<T>, WriterComes<T>, s, e);
  }

  /** Poisoning a channel can end the program without another writer coming exactly when the
      reading end does it while a writer is inside `write` or holds the end to enter it; and
      then it can end at once.  The writing end's poison waits until nobody is there. */
  lemma PoisonEndsTheProgramExactlyWhen<T(!new)>(order: C.ReadOrder, es: seq<Event<T>>, k: nat, byWriter: bool)
    requires Run(Step<T>, Init(order), es).Some? && k > 0
    requires var s := Run(Step<T>, Init(order), es).value;
      s.f.strength == 0 && !s.faulted && MayPoison(s, byWriter)
    ensures var s := Run(Step<T>, Init(order), es).value;
      CanEnd(Step<T>, Throws<T>, WriterComes<T>, DoPoison(s, k, byWriter)) <==> !byWriter && !s.w.NoWriter?
  {
    RunKeepsInv(order, es);
    var s := Run(Step<T>, Init(order), es).value;
    var d := DoPoison(s, k, byWriter);
    PoisonKeeps(s, k, byWriter);
    if s.w.NoWriter? {
      CannotEnd(Step<T>, Throws<T>, NobodyWrites<T>, WriterComes<T>, d);
    } else {
      InsiderThrows(d);
    }
  }

  /** And a poisoned channel ends it with the first writer that comes. */
  lemma NewcomerEndsTheProgram<T(!new)>(s: State<T>, p: nat, v: T)
    requires Inv(s) && s.f.strength > 0 && Step(s, LockOut(p, v)).Some?
    ensures Fate(Step<T>, Throws<T>, s, [LockOut(p, v), Write(0)]) == Some(Terminated)
  {
    EndsAfterOne(Step<T>, Throws<T>, s, LockOut(p, v), Write(0));
  }
}

/** Poison on the buffered channel. */
module BufferedEnds {
  import opened Runs
  import opened BufferedSystem
  import C = BufferedChan
  import opened Ends
  import D = DataStore

  /** A writer that enters, or goes on after its wait, gets the exception. */
  predicate Throws<T>(s: State<T>, e: Event<T>) {
    match e
    case Write(_) => s.w.HoldsOut? && C.WriteEntry(s.f, s.w.v).outcome.Throws?
    case WriteReturn => C.WriteResume(s.f).outcome.Throws?
    case _ => false
  }

  predicate WriterGoesOn<T>(e: Event<T>) { e.Write? || e.WriteReturn? }
  predicate WriterComes<T>(e: Event<T>) { e.LockOut? }

  ghost predicate Poisoned<T>(s: State<T>) { Inv(s) && s.f.strength > 0 }
  predicate NobodyWrites<T>(s: State<T>) { s.w.NoWriter? }

  lemma PoisonedStays<T>(s: State<T>, e: Event<T>)
    requires Poisoned(s) && Step(s, e).Some?
    ensures Poisoned(Step(s, e).value) && (Throws(s, e) <==> WriterGoesOn(e))
  {
    StepKeepsInv(s, e);
  }

  /** After poison the program ends exactly when a writer that is inside `write` goes on or
      another one enters. */
  lemma EndsExactlyWhenAWriterGoesOn<T(!new)>(s: State<T>, es: seq<Event<T>>)
    requires Inv(s) && s.f.strength > 0 && Fate(Step<T>, Throws<T>, s, es).Some?
    ensures Fate(Step<T>, Throws<T>, s, es).value.Terminated? <==> exists i :: 0 <= i < |es| && WriterGoesOn(es[i])
  {
    forall t: State<T>, e: Event<T> | Poisoned(t) && Step(t, e).Some?
      ensures Poisoned(Step(t, e).value) && (Throws(t, e) <==> WriterGoesOn(e))
    {
      PoisonedStays(t, e);
    }
    EndsExactlyWhenItOccurs(Step<T>, Throws<T>, Poisoned<T>, WriterGoesOn<T>, s, es);
  }

  /** As for the unbuffered channel: only the reading end's poison can end the program without
      another writer coming, exactly when one is inside `write` or holds the end to enter it. */
  lemma PoisonEndsTheProgramExactlyWhen<T(!new)>(
    kind: D.Kind, size: nat, es: seq<Event<T>>, k: nat, byWriter: bool)
    requires Usable(kind, size) && Run(Step<T>, Init(kind, size), es).Some? && k > 0
    requires MayPoison(Run(Step<T>, Init(kind, size), es).value, byWriter)
    ensures var s := Run(Step<T>, Init(kind, size), es).value;
      CanEnd(Step<T>, Throws<T>, WriterComes<T>, DoPoison(s, k)) <==> !byWriter && !s.w.NoWriter?
  {
    RunKeepsInv(kind, size, es);
    var s := Run(Step<T>, Init(kind, size), es).value;
    if s.w.NoWriter? {
      CannotEnd(Step<T>, Throws<T>, NobodyWrites<T>, WriterComes<T>, DoPoison(s, k));
    } else {
      var e: Event<T> := if s.w.HoldsOut? then Write(0) else WriteReturn;
      EndsAtOnce(Step<T>, Throws<T>, WriterComes<T>, DoPoison(s, k), e);
    }
  }

  lemma NewcomerEndsTheProgram<T(!new)>(s: State<T>, p: nat, v: T)
    requires Inv(s) && s.f.strength > 0 && Step(s, LockOut(p, v)).Some?
    ensures Fate(Step<T>, Throws<T>, s, [LockOut(p, v), Write(0)]) == Some(Terminated)
  {
    EndsAfterOne(Step<T>, Throws<T>, s, LockOut(p, v), Write(0));
  }
}
