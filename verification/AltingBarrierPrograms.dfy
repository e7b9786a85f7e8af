/** Which programs never block everybody by resigning (csp/alting_barrier.h:665-685).

    What decides is how many alting barriers an alt may have among its guards, and whether it
    may name one more than once. */
module AltingBarrierPrograms {
  import opened Runs
  import opened AltingBarrier
  import opened AltingBarrierSystem
  import opened AltingBarrierDoom

  /** Every alt has at most `m` barriers among its guards. */
  predicate Modest(e: Event, m: nat) { e.Start? ==> Barriers(e.guards) <= m }

  /** What a process offers and still has to enable in its selection is one barrier at most. */
  ghost predicate OneBarrier(s: State, p: nat)
    requires p < |s.pc|
  {
    && (forall b, c :: Offers(s.bars, p, b) && Offers(s.bars, p, c) ==> b == c)
    && match s.pc[p]
       case Starting(todo) => Barriers(todo) <= 1
       case Enabling(todo) => Barriers(todo) <= 1 && (Barriers(todo) == 1 ==> OffersNothing(s.bars, p))
       case Disabling(Some(_)) => OffersNothing(s.bars, p)
       case _ => true
  }

  ghost predicate AllOneBarrier(s: State) { forall p :: 0 <= p < |s.pc| ==> OneBarrier(s, p) }

  lemma OneBarrierIsSafe(s: State, p: nat, b: nat)
    requires Inv(s) && AllOneBarrier(s)
    ensures !DoomedBy(s, p, b)
  {
    if Keeps(s, p) && Held(s, b) {
      assert PhaseOk(s, p) && OneBarrier(s, p) && BarOk(s, b);
      assert s.owed != {} ==> BarOk(s, s.current);
      if s.pc[p].Enabling? && s.pc[p].todo != [] {
        assert Uses(s.bars, p, s.pc[p].todo[0]);
      }
    }
  }

  lemma OthersKeepOneBarrier(s: State, t: State, p: nat, q: nat)
    requires LeavesTheRest(s, t, p) && q != p && q < |s.pc| && OneBarrier(s, q)
    ensures OneBarrier(t, q)
  {
    assert forall b :: Offers(t.bars, q, b) ==> Offers(s.bars, q, b);
    assert OffersNothing(s.bars, q) ==> OffersNothing(t.bars, q);
  }

  lemma EnablingKeepsOneBarrier(s: State, p: nat)
    requires Inv(s) && Step(s, EnableBarrier(p)).Some? && OneBarrier(s, p)
    ensures p < |Step(s, EnableBarrier(p)).value.pc| && OneBarrier(Step(s, EnableBarrier(p)).value, p)
  {
    var t := Step(s, EnableBarrier(p)).value;
    var b := s.pc[p].todo[0].b;
    assert PhaseOk(s, p) && Uses(s.bars, p, s.pc[p].todo[0]);
    assert OffersNothing(s.bars, p);
    forall c: nat | Offers(t.bars, p, c) ensures c == b {
      assert !Offers(s.bars, p, c);
    }
  }

  lemma DisablingKeepsOneBarrier(s: State, p: nat, b: nat)
    requires Inv(s) && Step(s, DisableBarrier(p, b)).Some? && OneBarrier(s, p)
    ensures p < |Step(s, DisableBarrier(p, b)).value.pc| && OneBarrier(Step(s, DisableBarrier(p, b)).value, p)
  {
    var t := Step(s, DisableBarrier(p, b)).value;
    assert !OffersNothing(s.bars, p);
    forall c: nat | c < |t.bars| ensures p !in t.bars[c].offers {
      assert Offers(s.bars, p, c) ==> c == b;
    }
  }

  lemma KeepsItsOffers(s: State, t: State, p: nat)
    requires p < |s.pc| == |t.pc| && |t.bars| == |s.bars| && OneBarrier(s, p)
    requires forall b :: 0 <= b < |s.bars| ==> (p in t.bars[b].offers <==> p in s.bars[b].offers)
    requires match t.pc[p]
             case Starting(todo) => Barriers(todo) <= 1
             case Enabling(todo) => Barriers(todo) <= 1 && (Barriers(todo) == 1 ==> OffersNothing(s.bars, p))
             case Disabling(Some(_)) => OffersNothing(s.bars, p)
             case _ => true
    ensures OneBarrier(t, p)
  {
    assert forall b: nat :: Offers(t.bars, p, b) ==> Offers(s.bars, p, b);
  }

  lemma MembershipKeepsOneBarrier(s: State, e: Event)
    requires Inv(s) && Step(s, e).Some? && OneBarrier(s, e.p) && (e.Resign? || e.Enroll?)
    ensures e.p < |Step(s, e).value.pc| && OneBarrier(Step(s, e).value, e.p)
  {
    assert PhaseOk(s, e.p);
    KeepsItsOffers(s, Step(s, e).value, e.p);
  }

  lemma SelfKeepsOneBarrier(s: State, e: Event)
    requires Inv(s) && Step(s, e).Some? && OneBarrier(s, e.p) && Modest(e, 1)
    ensures e.p < |Step(s, e).value.pc| && OneBarrier(Step(s, e).value, e.p)
  {
    if e.EnableBarrier? {
      EnablingKeepsOneBarrier(s, e.p);
    } else if e.DisableBarrier? {
      DisablingKeepsOneBarrier(s, e.p, e.b);
    } else if e.Resign? || e.Enroll? {
      MembershipKeepsOneBarrier(s, e);
    } else {
      assert PhaseOk(s, e.p) && (e.Retry? ==> Waits(s, e.p));
      KeepsItsOffers(s, Step(s, e).value, e.p);
    }
  }

  lemma StepKeepsOneBarrier(s: State, e: Event)
    requires Inv(s) && Step(s, e).Some? && AllOneBarrier(s) && Modest(e, 1)
    ensures AllOneBarrier(Step(s, e).value)
  {
    var t := Step(s, e).value;
    StepLeavesOthers(s, e);
    SelfKeepsOneBarrier(s, e);
    forall q | 0 <= q < |t.pc| && q != e.p ensures OneBarrier(t, q) {
      OthersKeepOneBarrier(s, t, e.p, q);
    }
  }

  /** The program's runs, for `n` processes and `k` barriers. */
  ghost predicate IsRun(n: nat, k: nat, m: nat, es: seq<Event>) {
    Run(Step, Init(n, k), es).Some? && forall e :: e in es ==> Modest(e, m)
  }

  lemma {:induction false} ModestRunsKeepOneBarrier(n: nat, k: nat, es: seq<Event>)
    requires IsRun(n, k, 1, es)
    ensures AllOneBarrier(Run(Step, Init(n, k), es).value)
    decreases |es|
  {
    if es == [] {
      forall p | 0 <= p < n ensures OneBarrier(Init(n, k), p) {
      }
    } else {
      var before := es[..|es| - 1];
      assert forall e :: e in before ==> e in es;
      ModestRunsKeepOneBarrier(n, k, before);
      RunKeepsInv(n, k, before);
      StepKeepsOneBarrier(Run(Step, Init(n, k), before).value, es[|es| - 1]);
    }
  }

  // ---------- which programs are not ----------

  function TwiceFirst(): seq<Guard> { [OnBarrier(0), OnBarrier(0)] }

  /** Process 0 names the first barrier twice, which process 1 leaves in between. */
  function Before(n: nat, k: nat): State
    requires n >= 2 && k >= 1
  {
    var s := Init(n, k);
    s.(bars := s.bars[0 := Bar(2, 2, {0, 1}, {})])
  }

  function Between(n: nat, k: nat): State
    requires n >= 2 && k >= 1
  {
    var s := Init(n, k);
    s.(bars := s.bars[0 := Bar(2, 1, {0, 1}, {0})], pc := s.pc[0 := Enabling([OnBarrier(0)])],
       active := 1, holder := Some(0))
  }

  lemma TwoJoin(n: nat, k: nat)
    requires n >= 2 && k >= 1
    ensures Run(Step, Init(n, k), [Enroll(0, 0), Enroll(1, 0)]) == Some(Before(n, k))
  {
    var s0 := Init(n, k);
    var es := [Enroll(0, 0), Enroll(1, 0)];
    var s1 := s0.(bars := s0.bars[0 := Bar(1, 1, {0}, {})]);
    Same(Step(s0, es[0]).value, s1);
    Same(Step(s1, es[1]).value, Before(n, k));
    Few(Step, s0, es);
  }

  lemma OneEnables(n: nat, k: nat)
    requires n >= 2 && k >= 1
    ensures Run(Step, Before(n, k), [Start(0, TwiceFirst()), EnableBarrier(0)]) == Some(Between(n, k))
  {
    var s0 := Before(n, k);
    var es := [Start(0, TwiceFirst()), EnableBarrier(0)];
    var s1 := s0.(pc := s0.pc[0 := Enabling(TwiceFirst())], active := 1, holder := Some(0));
    Same(Step(s0, es[0]).value, s1);
    Same(Step(s1, es[1]).value, Between(n, k));
    Few(Step, s0, es);
  }

  lemma OtherLeaves(n: nat, k: nat)
    requires n >= 2 && k >= 1
    ensures Step(Between(n, k), Resign(1, 0)).Some? && DoomedBy(Step(Between(n, k), Resign(1, 0)).value, 0, 0)
  {
    var s := Between(n, k);
    assert {0, 1} - {1} == {0};
    assert s.bars[0].offers == {0} && s.pc[1] == Idle;
  }

  lemma TwiceIsTwo()
    ensures Barriers(TwiceFirst()) == 2
  {
    assert TwiceFirst()[1..] == [OnBarrier(0)] && TwiceFirst()[1..][1..] == [];
  }

  function Joining(): seq<Event> { [Enroll(0, 0), Enroll(1, 0)] }
  function Naming(): seq<Event> { [Start(0, TwiceFirst()), EnableBarrier(0)] }

  lemma BetweenIsReached(n: nat, k: nat)
    requires n >= 2 && k >= 1
    ensures Run(Step, Init(n, k), Joining() + Naming()) == Some(Between(n, k))
  {
    TwoJoin(n, k);
    OneEnables(n, k);
    Append(Step, Init(n, k), Joining(), Naming());
  }

  lemma ImmodestRunDooms(n: nat, k: nat, m: nat) returns (es: seq<Event>)
    requires n >= 2 && k >= 1 && m >= 2
    ensures IsRun(n, k, m, es) && Doomed(Run(Step, Init(n, k), es).value)
  {
    BetweenIsReached(n, k);
    OtherLeaves(n, k);
    Snoc(Step, Init(n, k), Joining() + Naming(), Resign(1, 0));
    TwiceIsTwo();
    es := Joining() + Naming() + [Resign(1, 0)];
  }

  lemma {:induction false} SizesStay(n: nat, k: nat, es: seq<Event>)
    requires Run(Step, Init(n, k), es).Some?
    ensures var s := Run(Step, Init(n, k), es).value; |s.pc| == n && |s.bars| == k
    decreases |es|
  {
    if es != [] {
      var before := es[..|es| - 1];
      SizesStay(n, k, before);
      StepLeavesOthers(Run(Step, Init(n, k), before).value, es[|es| - 1]);
    }
  }

  lemma AloneIsSafe(s: State, p: nat, b: nat)
    requires Inv(s) && (|s.pc| <= 1 || |s.bars| == 0)
    ensures !DoomedBy(s, p, b)
  {
    if p < |s.pc| {
      assert PhaseOk(s, p);
    }
  }

  /** One process, or no barrier, is nobody to wait for. */
  lemma TooFewToDoom(n: nat, k: nat, es: seq<Event>)
    requires Run(Step, Init(n, k), es).Some? && (n <= 1 || k == 0)
    ensures !Doomed(Run(Step, Init(n, k), es).value)
  {
    RunKeepsInv(n, k, es);
    SizesStay(n, k, es);
    forall p: nat, b: nat ensures !DoomedBy(Run(Step, Init(n, k), es).value, p, b) {
      AloneIsSafe(Run(Step, Init(n, k), es).value, p, b);
    }
  }

  /** No run blocks everybody. */
  ghost predicate NeverDoomed(n: nat, k: nat, m: nat) {
    forall es :: IsRun(n, k, m, es) ==> !Doomed(Run(Step, Init(n, k), es).value)
  }

  /** Programs in which every alt has at most `m` barriers are safe, however their processes
      select, resign and enrol, exactly when `m` is at most 1 or there is nothing to share. */
  lemma NeverDoomedExactlyWhen(n: nat, k: nat, m: nat)
    ensures NeverDoomed(n, k, m) <==> m <= 1 || n <= 1 || k == 0
  {
    if n <= 1 || k == 0 {
      forall es | IsRun(n, k, m, es) ensures !Doomed(Run(Step, Init(n, k), es).value) {
        TooFewToDoom(n, k, es);
      }
    } else if m <= 1 {
      forall es | IsRun(n, k, m, es) ensures !Doomed(Run(Step, Init(n, k), es).value) {
        assert IsRun(n, k, 1, es);
        RunKeepsInv(n, k, es);
        ModestRunsKeepOneBarrier(n, k, es);
        forall p: nat, b: nat ensures !DoomedBy(Run(Step, Init(n, k), es).value, p, b) {
          OneBarrierIsSafe(Run(Step, Init(n, k), es).value, p, b);
        }
      }
    } else {
      var es := ImmodestRunDooms(n, k, m);
    }
  }

  // ---------- alts that name no barrier twice ----------

  predicate Distinct(guards: seq<Guard>) {
    forall i, j :: 0 <= i < j < |guards| && guards[i].OnBarrier? ==> guards[i] != guards[j]
  }

  ghost predicate AllDistinct(es: seq<Event>) { forall e :: e in es && e.Start? ==> Distinct(e.guards) }

  lemma {:induction false} OthersOnly(guards: seq<Guard>)
    requires forall g :: g in guards ==> !g.OnBarrier?
    ensures Barriers(guards) == 0
    decreases |guards|
  {
    if guards != [] {
      OthersOnly(guards[1..]);
    }
  }

  lemma {:induction false} OneOfOne(guards: seq<Guard>)
    requires Distinct(guards) && forall g :: g in guards && g.OnBarrier? ==> g.b == 0
    ensures Barriers(guards) <= 1
    decreases |guards|
  {
    if guards != [] {
      var rest := guards[1..];
      assert forall i :: 0 <= i < |rest| ==> rest[i] == guards[i + 1];
      OneOfOne(rest);
      if guards[0].OnBarrier? {
        OthersOnly(rest);
      }
    }
  }

  lemma DistinctStepIsModest(s: State, e: Event)
    requires |s.bars| == 1 && Step(s, e).Some? && (e.Start? ==> Distinct(e.guards))
    ensures Modest(e, 1)
  {
    if e.Start? {
      assert forall g :: g in e.guards ==> Uses(s.bars, e.p, g);
      OneOfOne(e.guards);
    }
  }

  /** With a single barrier, distinct means at most one. */
  lemma DistinctRunsAreModest(n: nat, es: seq<Event>, i: nat)
    requires Run(Step, Init(n, 1), es).Some? && AllDistinct(es) && i < |es|
    ensures Modest(es[i], 1)
  {
    Prefix(Step, Init(n, 1), es, i);
    SizesStay(n, 1, es[..i]);
    assert es[i] in es;
    DistinctStepIsModest(Run(Step, Init(n, 1), es[..i]).value, es[i]);
  }

  function OneEach(): seq<Guard> { [OnBarrier(1), OnBarrier(0)] }

  /** Process 0 alone is a member of the first barrier, both are of the second. */
  function Shared(n: nat, k: nat): State
    requires n >= 2 && k >= 2
  {
    var s := Init(n, k);
    s.(bars := s.bars[0 := Bar(1, 1, {0}, {})][1 := Bar(2, 2, {0, 1}, {})])
  }

  /** Process 0 offers the second and has the first still to enable. */
  function Chosen(n: nat, k: nat): State
    requires n >= 2 && k >= 2
  {
    var s := Shared(n, k);
    s.(bars := s.bars[1 := Bar(2, 1, {0, 1}, {0})], pc := s.pc[0 := Enabling([OnBarrier(0)])],
       active := 1, holder := Some(0))
  }

  /** Process 0 has completed the first and still offers the second. */
  function AloneDone(n: nat, k: nat): State
    requires n >= 2 && k >= 2
  {
    var s := Shared(n, k);
    s.(bars := s.bars[1 := Bar(2, 1, {0, 1}, {0})], pc := s.pc[0 := Disabling(Some(0))], active := 1,
       owed := {0}, log := [Round(0, {0}, {})])
  }

  function Enrolling(): seq<Event> { [Enroll(0, 0), Enroll(0, 1), Enroll(1, 1)] }
  function Choosing(): seq<Event> { [Start(0, OneEach()), EnableBarrier(0), EnableBarrier(0)] }

  lemma BothEnroll(n: nat, k: nat)
    requires n >= 2 && k >= 2
    ensures Run(Step, Init(n, k), Enrolling()) == Some(Shared(n, k))
  {
    var s0 := Init(n, k);
    var es := Enrolling();
    var s1 := s0.(bars := s0.bars[0 := Bar(1, 1, {0}, {})]);
    var s2 := s1.(bars := s1.bars[1 := Bar(1, 1, {0}, {})]);
    Same(Step(s0, es[0]).value, s1);
    Same(Step(s1, es[1]).value, s2);
    Same(Step(s2, es[2]).value, Shared(n, k));
    Few(Step, s0, es);
  }

  lemma CompletesAlone(n: nat, k: nat)
    requires n >= 2 && k >= 2
    ensures Step(Chosen(n, k), EnableBarrier(0)) == Some(AloneDone(n, k))
  {
    Same(Step(Chosen(n, k), EnableBarrier(0)).value, AloneDone(n, k));
  }

  lemma OneChooses(n: nat, k: nat)
    requires n >= 2 && k >= 2
    ensures Run(Step, Shared(n, k), Choosing()) == Some(AloneDone(n, k))
  {
    var s0 := Shared(n, k);
    var es := Choosing();
    var s1 := s0.(pc := s0.pc[0 := Enabling(OneEach())], active := 1, holder := Some(0));
    Same(Step(s0, es[0]).value, s1);
    Same(Step(s1, es[1]).value, Chosen(n, k));
    CompletesAlone(n, k);
    Few(Step, s0, es);
  }

  lemma LeavingDooms(n: nat, k: nat)
    requires n >= 2 && k >= 2
    ensures Step(AloneDone(n, k), Resign(1, 1)).Some? && DoomedBy(Step(AloneDone(n, k), Resign(1, 1)).value, 0, 1)
  {
    var s := AloneDone(n, k);
    assert {0, 1} - {1} == {0};
    assert s.bars[1].offers == {0} && s.pc[1] == Idle;
  }

  lemma OneEachIsTwo()
    ensures Barriers(OneEach()) == 2
  {
    assert OneEach()[1..] == [OnBarrier(0)] && OneEach()[1..][1..] == [];
  }

  lemma OneSelection(e: Event)
    requires e in Enrolling() + Choosing() + [Resign(1, 1)] && e.Start?
    ensures e.guards == OneEach()
  {
  }

  lemma DistinctRunDooms(n: nat, k: nat, m: nat) returns (es: seq<Event>)
    requires n >= 2 && k >= 2 && m >= 2
    ensures IsRun(n, k, m, es) && AllDistinct(es) && Doomed(Run(Step, Init(n, k), es).value)
  {
    BothEnroll(n, k);
    OneChooses(n, k);
    Append(Step, Init(n, k), Enrolling(), Choosing());
    LeavingDooms(n, k);
    es := Enrolling() + Choosing();
    Snoc(Step, Init(n, k), es, Resign(1, 1));
    es := es + [Resign(1, 1)];
    OneEachIsTwo();
    forall e | e in es && e.Start? ensures Modest(e, m) && Distinct(e.guards) {
      OneSelection(e);
    }
  }

  /** No run in which every alt names its barriers once blocks everybody. */
  ghost predicate NeverDoomedIfDistinct(n: nat, k: nat, m: nat) {
    forall es :: IsRun(n, k, m, es) && AllDistinct(es) ==> !Doomed(Run(Step, Init(n, k), es).value)
  }

  /** When no alt names a barrier twice, one barrier in all is safe as well. */
  lemma NeverDoomedIfDistinctExactlyWhen(n: nat, k: nat, m: nat)
    ensures NeverDoomedIfDistinct(n, k, m) <==> m <= 1 || n <= 1 || k <= 1
  {
    if m <= 1 || n <= 1 || k == 0 {
      NeverDoomedExactlyWhen(n, k, m);
    } else if k == 1 {
      NeverDoomedExactlyWhen(n, 1, 1);
      forall es | IsRun(n, 1, m, es) && AllDistinct(es) ensures !Doomed(Run(Step, Init(n, 1), es).value) {
        forall e | e in es ensures Modest(e, 1) {
          var i :| 0 <= i < |es| && es[i] == e;
          DistinctRunsAreModest(n, es, i);
        }
        assert IsRun(n, 1, 1, es);
      }
    } else {
      var es := DistinctRunDooms(n, k, m);
    }
  }
}
