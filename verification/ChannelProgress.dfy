/** Nobody is kept at a channel for longer than the other side takes (csp/chan.h:1091-1152). */
module ChannelProgress {
  import opened Runs
  import opened ChannelSystem
  import B = BasicChan

  ghost predicate Reached<T(!new)>(s: State<T>) { exists order :: Reachable(Step<T>, Init(order), s) }

  lemma ReachedHasInv<T(!new)>(s: State<T>)
    requires Reached(s)
    ensures Inv(s)
  {
    var order :| Reachable(Step<T>, Init(order), s);
    var es: seq<Event<T>> :| Run(Step<T>, Init(order), es) == Some(s);
    RunKeepsInv(order, es);
  }

  ghost predicate Can<T>(s: State<T>, e: Event<T>) { Step(s, e).Some? }

  /** Whom `notify_one` can wake. */
  function Pick<T>(s: State<T>): nat {
    if s.r.InRead? && s.r.q in s.cond.waiting then s.r.q else if s.w.InWrite? then s.w.p else 0
  }

  lemma WriterGoesOn<T>(s: State<T>)
    requires Inv(s) && !s.faulted
    ensures s.w.HoldsOut? ==> Can(s, Write(Pick(s)))
    ensures s.w.InWrite? && s.w.p in s.cond.woken ==> Can(s, WriteReturn)
  {
  }

  lemma ReaderGoesOn<T>(s: State<T>)
    requires Inv(s) && !s.faulted
    ensures s.r.HoldsIn? ==> Can(s, Read(Pick(s)))
    ensures s.r.InRead? && s.r.q in s.cond.woken ==> Can(s, ReadReturn(Pick(s)))
  {
  }

  /** Whoever has an end can take its critical section, and whoever is inside goes on exactly
      when it has been notified. */
  lemma EverybodyGoesOn<T(!new)>(s: State<T>)
    requires Reached(s) && !s.faulted
    ensures s.w.HoldsOut? ==> exists pick: nat :: Can(s, Write(pick))
    ensures s.r.HoldsIn? ==> exists pick: nat :: Can(s, Read(pick))
    ensures s.w.InWrite? ==> (Can(s, WriteReturn) <==> s.w.p in s.cond.woken)
    ensures s.r.InRead? ==> ((exists pick: nat :: Can(s, ReadReturn(pick))) <==> s.r.q in s.cond.woken)
  {
    ReachedHasInv(s);
    WriterGoesOn(s);
    ReaderGoesOn(s);
  }

  /** A free end can be taken by anybody who is not at the other one, enabled and disabled by
      its reader, and poisoned. */
  lemma FreeEndsCanBeUsed<T>(s: State<T>, p: nat, v: T, k: nat, byWriter: bool)
    requires !s.faulted && k > 0
    ensures s.w.NoWriter? && (s.r.NoReader? || s.r.q != p) ==>
      Can(s, LockOut(p, v)) && Step(s, LockOut(p, v)).value.w == HoldsOut(p, v)
    ensures s.r.NoReader? && (s.w.NoWriter? || s.w.p != p) ==>
      Can(s, LockIn(p)) && Step(s, LockIn(p)).value.r == HoldsIn(p)
    ensures s.r.NoReader? ==> Can(s, Enable) && Can(s, Disable) && !Step(s, Disable).value.f.alting
    ensures s.r.NoReader? ==> (Step(s, Enable).value.f.alting <==> s.f.alting || B.Quiet(s.f))
    ensures (if byWriter then s.w.NoWriter? else s.r.NoReader?) ==>
      Can(s, PoisonIt(k, byWriter)) && Step(s, PoisonIt(k, byWriter)).value.f.strength == k
  {
  }

  // ---------- a meeting ----------

  /** A step of a process inside `write` or `read`. */
  predicate Own<T>(e: Event<T>) { e.Write? || e.WriteReturn? || e.Read? || e.ReadReturn? }

  /** The writer has a value that nobody has read. */
  predicate Offers<T>(s: State<T>) { s.w.HoldsOut? || (s.w.InWrite? && |s.written| > |s.read|) }

  /** Value `v` is being passed, after `before`: both are there, or the reader has left with it. */
  ghost predicate Passing<T>(s: State<T>, v: T, before: seq<T>) {
    && Inv(s) && !s.faulted && s.f.strength == 0
    && if s.r.NoReader? then s.read == before + [v] && !Offers(s)
       else s.read == before && Offers(s) && s.w.v == v
  }

  function Left<T>(s: State<T>): nat {
    (match s.w case HoldsOut(_, _) => 2 case InWrite(_, _) => 1 case NoWriter => 0)
    + (match s.r case HoldsIn(_) => 2 case InRead(_) => 1 case NoReader => 0)
  }

  lemma WriterPasses<T>(s: State<T>, e: Event<T>, v: T, before: seq<T>)
    requires Passing(s, v, before) && (e.Write? || e.WriteReturn?) && Can(s, e)
    ensures Passing(Step(s, e).value, v, before) && Left(Step(s, e).value) < Left(s)
  {
    StepKeepsInv(s, e);
  }

  lemma ReaderPasses<T>(s: State<T>, e: Event<T>, v: T, before: seq<T>)
    requires Passing(s, v, before) && (e.Read? || e.ReadReturn?) && Can(s, e)
    ensures Passing(Step(s, e).value, v, before) && Left(Step(s, e).value) < Left(s)
  {
    StepKeepsInv(s, e);
    LiveChannelsDoNotFault(s, e);
  }

  lemma PassingGoesOn<T(!new)>(s: State<T>, v: T, before: seq<T>)
    requires Passing(s, v, before) && Left(s) > 0
    ensures exists e: Event<T> :: Own(e) && Can(s, e)
  {
    var pick := Pick(s);
    var w: Event<T>, wr: Event<T>, r: Event<T>, rr: Event<T> := Write(pick), WriteReturn, Read(pick), ReadReturn(pick);
    WriterGoesOn(s);
    ReaderGoesOn(s);
    assert Can(s, w) || Can(s, wr) || Can(s, r) || Can(s, rr);
  }

  lemma {:induction false} PassingRuns<T(!new)>(s: State<T>, v: T, before: seq<T>, es: seq<Event<T>>)
    requires Passing(s, v, before) && Run(Step<T>, s, es).Some? && forall i :: 0 <= i < |es| ==> Own(es[i])
    ensures var t := Run(Step<T>, s, es).value; Passing(t, v, before) && Left(t) + |es| <= Left(s)
    decreases |es|
  {
    if es != [] {
      PassingRuns(s, v, before, es[..|es| - 1]);
      var t, e := Run(Step<T>, s, es[..|es| - 1]).value, es[|es| - 1];
      assert Own(e);
      if e.Write? || e.WriteReturn? {
        WriterPasses(t, e, v, before);
      } else {
        ReaderPasses(t, e, v, before);
      }
    }
  }

  /** When a reader and a writer with a value are there, their own steps, four at the most and
      in any order, bring both out, the reader with the value and the writer acknowledged. */
  lemma EveryMeetingIsHeld<T(!new)>(s: State<T>, es: seq<Event<T>>)
    requires Reached(s) && !s.faulted && s.f.strength == 0 && Offers(s) && !s.r.NoReader?
    requires Run(Step<T>, s, es).Some? && forall i :: 0 <= i < |es| ==> Own(es[i])
    ensures |es| <= 4
    ensures var t := Run(Step<T>, s, es).value;
      || (exists e: Event<T> :: Own(e) && Can(t, e))
      || (t.w.NoWriter? && t.r.NoReader? && t.read == s.read + [s.w.v] && t.acked == |t.read|)
  {
    ReachedHasInv(s);
    PassingRuns(s, s.w.v, s.read, es);
    var t := Run(Step<T>, s, es).value;
    if Left(t) > 0 {
      PassingGoesOn(t, s.w.v, s.read);
    }
  }

  // ---------- what poison does to those who use the channel ----------

  /** How the critical section of `e` ends. */
  function Ending<T>(s: State<T>, e: Event<T>): B.Outcome<T>
    requires e.Write? ==> s.w.HoldsOut?
    requires Own(e)
  {
    match e
    case Write(_) => B.WriteEntry(s.f, s.w.v).outcome
    case WriteReturn => B.WriteResume(s.f).outcome
    case Read(_) => B.ReadEntry(s.order, s.f).outcome
    case ReadReturn(_) => B.TakeHeld(s.order, s.f).outcome
  }

  /** The strength of the last poison among `es`. */
  function LastPoison<T>(es: seq<Event<T>>, k: nat): nat
    decreases |es|
  {
    if es == [] then k
    else if es[|es| - 1].PoisonIt? then es[|es| - 1].k
    else LastPoison(es[..|es| - 1], k)
  }

  lemma StrengthStays<T>(s: State<T>, e: Event<T>)
    requires Step(s, e).Some?
    ensures var t := Step(s, e).value;
      t.order == s.order && t.f.strength == if e.PoisonIt? then e.k else s.f.strength
  {
  }

  lemma {:induction false} StrengthIsTheLast<T(!new)>(s: State<T>, es: seq<Event<T>>)
    requires Run(Step<T>, s, es).Some?
    ensures var t := Run(Step<T>, s, es).value; t.order == s.order && t.f.strength == LastPoison(es, s.f.strength)
    decreases |es|
  {
    if es != [] {
      StrengthIsTheLast(s, es[..|es| - 1]);
      StrengthStays(Run(Step<T>, s, es[..|es| - 1]).value, es[|es| - 1]);
    }
  }

  /** After poison, in any continuation, every critical section of `write` and `read` ends with
      the exception, carrying the strength of the last poison.  As written only a reader that
      finds nothing in the hold after its wait does not get that far. */
  lemma PoisonReachesEverybody<T(!new)>(s: State<T>, es: seq<Event<T>>, e: Event<T>)
    requires Inv(s) && s.f.strength > 0 && Run(Step<T>, s, es).Some? && Own(e)
    requires Can(Run(Step<T>, s, es).value, e)
    ensures var t := Run(Step<T>, s, es).value;
      (e.Write? ==> t.w.HoldsOut?) &&
      Ending(t, e) == if e.ReadReturn? && s.order.AsWritten? && t.f.hold == [] then B.Faults
                      else B.Throws(LastPoison(es, s.f.strength))
  {
    PoisonIsFinalForRuns(s, es);
    StrengthIsTheLast(s, es);
  }
}
