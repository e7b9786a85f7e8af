/** Every selection that keeps the coordinator of the alting barriers comes to its end.

    Each step of a process that keeps the coordinator brings the count nearer to zero, and
    nobody else can push it away.  With AltingBarrierDoom.OtherwiseTheyMove, the only thing
    that can stop a round is a mutex that is never given back. */
module AltingBarrierProgress {
  import opened Runs
  import opened AltingBarrier
  import opened AltingBarrierSystem
  import opened AltingBarrierDoom
  import opened Sums

  /** How many barriers process `q` offers. */
  function Offered(bars: seq<Bar>, q: nat): (c: nat)
    ensures c <= |bars|
    decreases |bars|
  {
    if bars == [] then 0
    else Offered(bars[..|bars| - 1], q) + if q in bars[|bars| - 1].offers then 1 else 0
  }

  lemma {:induction false} SameOffers(bars: seq<Bar>, others: seq<Bar>, q: nat)
    requires |bars| == |others|
    requires forall b :: 0 <= b < |bars| ==> (q in bars[b].offers <==> q in others[b].offers)
    ensures Offered(bars, q) == Offered(others, q)
    decreases |bars|
  {
    if bars != [] {
      SameOffers(bars[..|bars| - 1], others[..|others| - 1], q);
    }
  }

  lemma {:induction false} OneOfferLess(bars: seq<Bar>, b: nat, f: Bar, q: nat)
    requires b < |bars| && q in bars[b].offers && q !in f.offers
    ensures Offered(bars[b := f], q) == Offered(bars, q) - 1
    decreases |bars|
  {
    var n := |bars| - 1;
    if b == n {
      assert bars[b := f][..n] == bars[..n];
    } else {
      OneOfferLess(bars[..n], b, f, q);
      assert bars[b := f][..n] == bars[..n][b := f];
    }
  }

  /** The steps that process `q` has left, if it has to find the barrier complete. */
  function Owes(s: State, q: nat): nat
    requires q < |s.pc|
  {
    if q in s.owed then Offered(s.bars, q) + 1 + (if s.pc[q].Offering? then 1 else 0) else 0
  }

  function AllOwes(s: State): (r: seq<nat>)
    ensures |r| == |s.pc| && forall q :: 0 <= q < |s.pc| ==> r[q] == Owes(s, q)
  {
    seq(|s.pc|, q requires 0 <= q < |s.pc| => Owes(s, q))
  }

  /** The most that a completion can leave to do. */
  function AtMost(s: State): nat { (|s.bars| + 2) * |s.pc| }

  /** The guards that the process that is enabling has left, or what is owed. */
  function Measure(s: State): nat {
    if s.holder.Some? && s.holder.value < |s.pc| && s.pc[s.holder.value].Enabling?
    then |s.pc[s.holder.value].todo| + 1 + AtMost(s)
    else Sum(AllOwes(s))
  }

  lemma OwesAtMost(s: State)
    ensures Sum(AllOwes(s)) <= AtMost(s)
  {
    SumBound(AllOwes(s), |s.bars| + 2);
  }

  /** Only what process `p` owes changes. */
  lemma OneOwesLess(s: State, t: State, p: nat)
    requires |t.pc| == |s.pc| && p < |s.pc|
    requires forall q :: 0 <= q < |s.pc| && q != p ==> Owes(t, q) == Owes(s, q)
    ensures Sum(AllOwes(t)) == Sum(AllOwes(s)) - Owes(s, p) + Owes(t, p)
  {
    assert AllOwes(t) == AllOwes(s)[p := Owes(t, p)];
    SumUpdate(AllOwes(s), p, Owes(t, p));
  }

  // ---------- steps of a keeper ----------

  lemma EnablerSteps(s: State, e: Event)
    requires Wf(s) && Step(s, e).Some? && SelectionStep(e) && !e.EnableBarrier?
    requires PhaseOk(s, e.p) && s.pc[e.p].Enabling?
    ensures Measure(Step(s, e).value) < Measure(s)
  {
    OwesAtMost(Step(s, e).value);
  }

  lemma EnablesBarrier(s: State, p: nat)
    requires Wf(s) && Step(s, EnableBarrier(p)).Some? && PhaseOk(s, p)
    requires !Enable(false, s.bars[s.pc[p].todo[0].b], p).1.Throws?
    ensures Measure(Step(s, EnableBarrier(p)).value) < Measure(s)
  {
    OwesAtMost(Step(s, EnableBarrier(p)).value);
  }

  lemma OwedWakes(s: State, p: nat)
    requires Inv(s) && Step(s, Wake(p)).Some? && p in s.owed
    ensures Measure(Step(s, Wake(p)).value) < Measure(s)
  {
    var t := Step(s, Wake(p)).value;
    OneOwesLess(s, t, p);
  }

  lemma OwedDisables(s: State, p: nat, b: nat)
    requires Inv(s) && Step(s, DisableBarrier(p, b)).Some? && p in s.owed
    ensures Measure(Step(s, DisableBarrier(p, b)).value) < Measure(s)
  {
    var t := Step(s, DisableBarrier(p, b)).value;
    OneOfferLess(s.bars, b, Disable(s.bars[b], p).0, p);
    forall q | 0 <= q < |s.pc| && q != p ensures Owes(t, q) == Owes(s, q) {
      SameOffers(s.bars, t.bars, q);
    }
    OneOwesLess(s, t, p);
  }

  lemma OwedEnds(s: State, p: nat, pick: nat)
    requires Inv(s) && Step(s, EndDisable(p, pick)).Some? && p in s.owed
    ensures Measure(Step(s, EndDisable(p, pick)).value) < Measure(s)
  {
    var t := Step(s, EndDisable(p, pick)).value;
    assert PhaseOk(s, p);
    OneOwesLess(s, t, p);
  }

  lemma KeeperSteps(s: State, e: Event)
    requires Inv(s) && Step(s, e).Some? && SelectionStep(e) && Keeps(s, e.p)
    ensures Measure(Step(s, e).value) < Measure(s)
  {
    assert PhaseOk(s, e.p);
    if e.EnableBarrier? {
      assert Uses(s.bars, e.p, s.pc[e.p].todo[0]);
      EnablesBarrier(s, e.p);
    } else if s.pc[e.p].Enabling? {
      EnablerSteps(s, e);
    } else {
      match e
      case Wake(p) => OwedWakes(s, p);
      case DisableBarrier(p, b) => OwedDisables(s, p, b);
      case EndDisable(p, pick) => OwedEnds(s, p, pick);
    }
  }

  // ---------- steps of the others ----------

  /** What the others may change while the coordinator is kept. */
  ghost predicate LeavesMeasure(s: State, t: State) {
    && |t.pc| == |s.pc| && |t.bars| == |s.bars| && t.holder == s.holder && t.owed == s.owed
    && (forall q :: 0 <= q < |s.pc| && (q in s.owed || s.pc[q].Enabling?) ==> t.pc[q] == s.pc[q])
    && (forall q, b {:trigger q in t.bars[b].offers} ::
          q in s.owed && 0 <= b < |s.bars| ==> (q in t.bars[b].offers <==> q in s.bars[b].offers))
  }

  lemma SameMeasure(s: State, t: State)
    requires Inv(s) && LeavesMeasure(s, t)
    ensures Measure(t) == Measure(s)
  {
    forall q | 0 <= q < |s.pc| ensures Owes(t, q) == Owes(s, q) {
      if q in s.owed {
        SameOffers(s.bars, t.bars, q);
      }
    }
    assert AllOwes(t) == AllOwes(s);
    if s.holder.Some? {
      assert s.pc[s.holder.value].Enabling?;
    }
  }

  lemma OtherDisables(s: State, p: nat, b: nat)
    requires Wf(s) && Step(s, DisableBarrier(p, b)).Some? && !Keeps(s, p)
    ensures LeavesMeasure(s, Step(s, DisableBarrier(p, b)).value)
  {
  }

  lemma OtherEnds(s: State, p: nat, pick: nat)
    requires Wf(s) && Step(s, EndDisable(p, pick)).Some? && !Keeps(s, p) && PhaseOk(s, p)
    ensures LeavesMeasure(s, Step(s, EndDisable(p, pick)).value)
  {
  }

  lemma OtherResigns(s: State, p: nat, b: nat)
    requires Wf(s) && Step(s, Resign(p, b)).Some? && s.active > 0 && PhaseOk(s, p)
    ensures LeavesMeasure(s, Step(s, Resign(p, b)).value)
  {
  }

  lemma OtherQueues(s: State, e: Event)
    requires Wf(s) && Step(s, e).Some? && s.active > 0 && PhaseOk(s, e.p) && (e.Retry? ==> Waits(s, e.p))
    requires e.Start? || e.Retry? || e.OtherReady? || e.Enroll?
    ensures LeavesMeasure(s, Step(s, e).value)
  {
  }

  lemma OthersLeaveMeasure(s: State, e: Event)
    requires Inv(s) && Step(s, e).Some? && s.active > 0 && !(SelectionStep(e) && Keeps(s, e.p))
    ensures LeavesMeasure(s, Step(s, e).value)
  {
    assert PhaseOk(s, e.p);
    match e
    case DisableBarrier(p, b) => OtherDisables(s, p, b);
    case EndDisable(p, pick) => OtherEnds(s, p, pick);
    case Wake(_) =>
    case Resign(p, b) => OtherResigns(s, p, b);
    case _ => OtherQueues(s, e);
  }

  // ---------- rounds ----------

  /** The coordinator is kept in every state before the last of the run `es` from `s`. */
  ghost predicate Busy(s: State, es: seq<Event>)
    decreases |es|
  {
    es != [] ==>
      var before := es[..|es| - 1];
      Busy(s, before) && Run(Step, s, before).Some? && Run(Step, s, before).value.active > 0
  }

  /** How many of its steps are made by a process that keeps the coordinator. */
  ghost function KeptSteps(s: State, es: seq<Event>): nat
    requires Run(Step, s, es).Some?
    decreases |es|
  {
    if es == [] then 0
    else
      var t, e := Run(Step, s, es[..|es| - 1]).value, es[|es| - 1];
      KeptSteps(s, es[..|es| - 1]) + if SelectionStep(e) && Keeps(t, e.p) then 1 else 0
  }

  lemma {:induction false} KeptStepsAreFew(s: State, es: seq<Event>)
    requires Inv(s) && Run(Step, s, es).Some? && Busy(s, es)
    ensures Inv(Run(Step, s, es).value) && KeptSteps(s, es) + Measure(Run(Step, s, es).value) <= Measure(s)
    decreases |es|
  {
    if es != [] {
      var before, e := es[..|es| - 1], es[|es| - 1];
      KeptStepsAreFew(s, before);
      var t := Run(Step, s, before).value;
      StepKeepsInv(t, e);
      if SelectionStep(e) && Keeps(t, e.p) {
        KeeperSteps(t, e);
      } else {
        OthersLeaveMeasure(t, e);
        SameMeasure(t, Step(t, e).value);
      }
    }
  }

  /** As long as the coordinator is not free, the processes that keep it can make no more steps
      than enabling the rest of one list of guards and one completion of a barrier need. */
  lemma RoundsEnd(n: nat, k: nat, s: State, es: seq<Event>)
    requires Reached(n, k, s) && Run(Step, s, es).Some? && Busy(s, es)
    ensures KeptSteps(s, es) <=
      (if s.holder.Some? && s.holder.value < |s.pc| && s.pc[s.holder.value].Enabling?
       then |s.pc[s.holder.value].todo| + 1 else 0) + (|s.bars| + 2) * |s.pc|
  {
    ReachedHasInv(n, k, s);
    KeptStepsAreFew(s, es);
    OwesAtMost(s);
  }
}
