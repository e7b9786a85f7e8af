/** Nobody is kept at a buffered channel without cause (csp/chan.h:1393-1437). */
module BufferedProgress {
  import opened Runs
  import opened BufferedSystem
  import D = DataStore
  import B = BufferedChan

  ghost predicate Reached<T(!new)>(s: State<T>) {
    exists kind, size: nat :: Usable(kind, size) && Reachable(Step<T>, Init(kind, size), s)
  }

  lemma ReachedHasInv<T(!new)>(s: State<T>)
    requires Reached(s)
    ensures Inv(s)
  {
    var kind, size: nat :| Usable(kind, size) && Reachable(Step<T>, Init(kind, size), s);
    var es: seq<Event<T>> :| Run(Step<T>, Init(kind, size), es) == Some(s);
    RunKeepsInv(kind, size, es);
  }

  ghost predicate Can<T>(s: State<T>, e: Event<T>) { Step(s, e).Some? }

  /** Whom `notify_one` can wake. */
  function Pick<T>(s: State<T>): nat {
    if s.r.InRead? && s.r.q in s.cond.waiting then s.r.q else if s.w.InWrite? then s.w.p else 0
  }

  lemma WriterGoesOn<T>(s: State<T>)
    requires Inv(s)
    ensures s.w.HoldsOut? ==> Can(s, Write(Pick(s)))
    ensures s.w.InWrite? && s.w.p in s.cond.woken ==> Can(s, WriteReturn)
  {
  }

  lemma ReaderGoesOn<T>(s: State<T>)
    requires Inv(s)
    ensures s.r.HoldsIn? ==> Can(s, Read(Pick(s)))
    ensures s.r.InRead? && s.r.q in s.cond.woken ==> Can(s, ReadReturn(Pick(s)))
  {
  }

  /** Whoever has an end can take its critical section, and whoever is inside goes on exactly
      when it has been notified. */
  lemma EverybodyGoesOn<T(!new)>(s: State<T>)
    requires Reached(s)
    ensures s.w.HoldsOut? ==> exists pick: nat :: Can(s, Write(pick))
    ensures s.r.HoldsIn? ==> exists pick: nat :: Can(s, Read(pick))
    ensures s.w.InWrite? ==> (Can(s, WriteReturn) <==> s.w.p in s.cond.woken)
    ensures s.r.InRead? ==> ((exists pick: nat :: Can(s, ReadReturn(pick))) <==> s.r.q in s.cond.woken)
  {
    ReachedHasInv(s);
    WriterGoesOn(s);
    ReaderGoesOn(s);
  }

  /** A free end can be taken by anybody who is not at the other one, enabled and disabled by
      its reader, and poisoned.  A reader that has it enabled disables it first. */
  lemma FreeEndsCanBeUsed<T>(s: State<T>, p: nat, v: T, k: nat, byWriter: bool)
    requires !s.faulted && k > 0
    ensures s.w.NoWriter? && (s.r.NoReader? || s.r.q != p) ==>
      Can(s, LockOut(p, v)) && Step(s, LockOut(p, v)).value.w == HoldsOut(p, v)
    ensures s.r.NoReader? && !s.f.alting && (s.w.NoWriter? || s.w.p != p) ==>
      Can(s, LockIn(p)) && Step(s, LockIn(p)).value.r == HoldsIn(p)
    ensures s.r.NoReader? ==> Can(s, Enable) && Can(s, Disable) && !Step(s, Disable).value.f.alting
    ensures s.r.NoReader? ==> (Step(s, Enable).value.f.alting <==> s.f.alting || B.Quiet(s.f))
    ensures (if byWriter then s.w.NoWriter? else s.r.NoReader?) ==>
      Can(s, PoisonIt(k, byWriter)) && Step(s, PoisonIt(k, byWriter)).value.f.strength == k
  {
  }

  // ---------- every operation ends, or has a reason to wait ----------

  predicate Own<T>(e: Event<T>) { e.Write? || e.WriteReturn? || e.Read? || e.ReadReturn? }

  function Left<T>(s: State<T>): nat {
    (match s.w case HoldsOut(_, _) => 2 case InWrite(_) => 1 case NoWriter => 0)
    + (match s.r case HoldsIn(_) => 2 case InRead(_) => 1 case NoReader => 0)
  }

  /** What was under way in `s` has gone on to `t`, and is done when its process is out. */
  ghost predicate Goes<T>(s: State<T>, t: State<T>) {
    && t.f.strength == 0 && (s.w.NoWriter? ==> t.w.NoWriter?) && (s.r.NoReader? ==> t.r.NoReader?)
    && (if s.w.HoldsOut? && !t.w.HoldsOut? then t.written == s.written + [s.w.v]
        else t.w.HoldsOut? == s.w.HoldsOut? && (t.w.HoldsOut? ==> t.w == s.w) && t.written == s.written)
    && (if !s.r.NoReader? && t.r.NoReader? then |t.read| == |s.read| + 1 && s.read <= t.read
        else t.read == s.read)
  }

  lemma OwnStepGoes<T>(s: State<T>, e: Event<T>)
    requires Inv(s) && s.f.strength == 0 && Own(e) && Can(s, e)
    ensures var t := Step(s, e).value; Inv(t) && Goes(s, t) && Left(t) < Left(s)
  {
    StepKeepsInv(s, e);
  }

  lemma {:induction false} OwnStepsGo<T>(s: State<T>, es: seq<Event<T>>)
    requires Inv(s) && s.f.strength == 0
    requires Run(Step<T>, s, es).Some? && forall i :: 0 <= i < |es| ==> Own(es[i])
    ensures var t := Run(Step<T>, s, es).value; Inv(t) && Goes(s, t) && Left(t) + |es| <= Left(s)
    decreases |es|
  {
    if es != [] {
      OwnStepsGo(s, es[..|es| - 1]);
      assert Own(es[|es| - 1]);
      OwnStepGoes(Run(Step<T>, s, es[..|es| - 1]).value, es[|es| - 1]);
    }
  }

  ghost predicate OwnStepLeft<T(!new)>(s: State<T>) { exists e: Event<T> :: Own(e) && Can(s, e) }

  lemma WaitsWithCause<T(!new)>(s: State<T>)
    requires Inv(s) && s.f.strength == 0 && !OwnStepLeft(s)
    ensures !s.r.NoReader? ==> s.f.buf == [] && s.w.NoWriter?
    ensures !s.w.NoWriter? ==> B.IsFull(s.f) && s.r.NoReader?
  {
    var pick := Pick(s);
    var w: Event<T>, wr: Event<T>, r: Event<T>, rr: Event<T> := Write(pick), WriteReturn, Read(pick), ReadReturn(pick);
    WriterGoesOn(s);
    ReaderGoesOn(s);
    assert !Can(s, w) && !Can(s, wr) && !Can(s, r) && !Can(s, rr);
  }

  /** The steps of those at a channel that is not poisoned, in any order, are four at the most.
      A value is put and a value is taken by whoever has gone through, and at the end somebody
      is left inside only when it is a reader and the buffer is empty, or a writer and it is full. */
  lemma EveryOperationEnds<T(!new)>(s: State<T>, es: seq<Event<T>>)
    requires Reached(s) && s.f.strength == 0
    requires Run(Step<T>, s, es).Some? && forall i :: 0 <= i < |es| ==> Own(es[i])
    ensures |es| <= 4 && Goes(s, Run(Step<T>, s, es).value)
    ensures var t := Run(Step<T>, s, es).value;
      || OwnStepLeft(t)
      || ((!t.r.NoReader? ==> t.f.buf == [] && t.w.NoWriter?) && (!t.w.NoWriter? ==> B.IsFull(t.f) && t.r.NoReader?))
  {
    ReachedHasInv(s);
    OwnStepsGo(s, es);
    var t := Run(Step<T>, s, es).value;
    if !OwnStepLeft(t) {
      WaitsWithCause(t);
    }
  }

  // ---------- what poison does to those who use the channel ----------

  /** How the critical section of `e` ends. */
  function Ending<T>(s: State<T>, e: Event<T>): B.Outcome<T>
    requires e.Write? ==> s.w.HoldsOut?
    requires Own(e)
  {
    match e
    case Write(_) => B.WriteEntry(s.f, s.w.v).outcome
    case WriteReturn => B.WriteResume(s.f).outcome
    case Read(_) => B.ReadEntry(s.f).outcome
    case ReadReturn(_) => B.TakeValue(s.f).outcome
  }

  /** The strength of the last poison among `es`. */
  function LastPoison<T>(es: seq<Event<T>>, k: nat): nat
    decreases |es|
  {
    if es == [] then k
    else if es[|es| - 1].PoisonIt? then es[|es| - 1].k
    else LastPoison(es[..|es| - 1], k)
  }

  lemma StrengthStays<T>(s: State<T>, e: Event<T>)
    requires Step(s, e).Some?
    ensures Step(s, e).value.f.strength == if e.PoisonIt? then e.k else s.f.strength
  {
  }

  lemma {:induction false} StrengthIsTheLast<T(!new)>(s: State<T>, es: seq<Event<T>>)
    requires Run(Step<T>, s, es).Some?
    ensures Run(Step<T>, s, es).value.f.strength == LastPoison(es, s.f.strength)
    decreases |es|
  {
    if es != [] {
      StrengthIsTheLast(s, es[..|es| - 1]);
      StrengthStays(Run(Step<T>, s, es[..|es| - 1]).value, es[|es| - 1]);
    }
  }

  /** After poison, in any continuation, every critical section of `write` and `read` ends with
      the exception, carrying the strength of the last poison. */
  lemma PoisonReachesEverybody<T(!new)>(s: State<T>, es: seq<Event<T>>, e: Event<T>)
    requires Inv(s) && s.f.strength > 0 && Run(Step<T>, s, es).Some? && Own(e)
    requires Can(Run(Step<T>, s, es).value, e)
    ensures var t := Run(Step<T>, s, es).value;
      (e.Write? ==> t.w.HoldsOut?) && Ending(t, e) == B.Throws(LastPoison(es, s.f.strength))
  {
    PoisonIsFinal(s, es);
    StrengthIsTheLast(s, es);
  }
}
