/** What each process at the alting barriers can do next, and what its steps do
    (csp/alting_barrier.h:219-379 and csp/alt.h:479-554). */
module AltingBarrierSteps {
  import opened Runs
  import opened Condvar
  import opened Barrier
  import opened AltingBarrier
  import opened AltingBarrierSystem

  ghost predicate Can(s: State, e: Event) { Step(s, e).Some? }

  /** Whom `notify_one` can wake. */
  ghost predicate SomePick(s: State, pick: nat) { MayPick(s.cond, One, pick) }

  lemma PickExists(s: State) returns (pick: nat)
    ensures SomePick(s, pick)
  {
    pick := 0;
    if s.cond.waiting != {} {
      pick :| pick in s.cond.waiting;
    }
  }

  lemma ReachedIsWellFormed(n: nat, k: nat, s: State)
    requires Reached(n, k, s)
    ensures Wf(s)
  {
    ReachedHasInv(n, k, s);
  }

  lemma ReachedBarIsOk(n: nat, k: nat, s: State, b: nat)
    requires Reached(n, k, s) && b < |s.bars|
    ensures Wf(s) && BarOk(s, b)
  {
    ReachedHasInv(n, k, s);
  }

  ghost predicate MutexFree(s: State, b: nat) { b < |s.lock| && s.lock[b] == None }

  /** Outside a selection a process can begin one over any barriers it is enrolled in, and enrol
      and resign, for which it waits for the mutex of the barrier only. */
  lemma IdleProcessesGoOn(n: nat, k: nat, s: State, p: nat, guards: seq<Guard>, b: nat)
    requires Reached(n, k, s) && p < |s.pc| && b < |s.bars|
    ensures Can(s, Start(p, guards)) <==>
      s.pc[p].Idle? && forall g :: g in guards && g.OnBarrier? ==> g.b < |s.bars| && p in s.bars[g.b].members
    ensures Can(s, Resign(p, b)) <==> s.pc[p].Idle? && MutexFree(s, b) && p in s.bars[b].members
    ensures Can(s, Enroll(p, b)) <==>
      s.pc[p].Idle? && MutexFree(s, b) && p !in s.bars[b].members && |s.bars[b].members| + 1 < WORD
    ensures Can(s, Retry(p)) <==> p in s.cond.woken
  {
    ReachedIsWellFormed(n, k, s);
  }

  /** While it enables its guards it waits for the mutex of the next barrier. */
  lemma EnablingProcessesGoOn(n: nat, k: nat, s: State, p: nat, ready: bool)
    requires Reached(n, k, s) && p < |s.pc|
    ensures Can(s, EnableBarrier(p)) <==>
      s.pc[p].Enabling? && s.pc[p].todo != [] && s.pc[p].todo[0].OnBarrier? && MutexFree(s, s.pc[p].todo[0].b)
    ensures (exists pick: nat :: Can(s, EnableOther(p, ready, pick))) <==>
      s.pc[p].Enabling? && s.pc[p].todo != [] && s.pc[p].todo[0].OnOther?
    ensures (exists pick: nat :: Can(s, EndEnable(p, pick))) <==> s.pc[p] == Enabling([])
  {
    ReachedIsWellFormed(n, k, s);
    var pick := PickExists(s);
    assert Can(s, EnableOther(p, ready, pick)) <==>
      s.pc[p].Enabling? && s.pc[p].todo != [] && s.pc[p].todo[0].OnOther?;
    assert Can(s, EndEnable(p, pick)) <==> s.pc[p] == Enabling([]);
  }

  /** Once it offers it waits for being scheduled, and then for the mutexes of what it offers. */
  lemma OfferingProcessesGoOn(n: nat, k: nat, s: State, p: nat, b: nat)
    requires Reached(n, k, s) && p < |s.pc|
    ensures Can(s, OtherReady(p)) <==> s.pc[p].Offering?
    ensures Can(s, Wake(p)) <==> s.pc[p] == Offering(true)
    ensures Can(s, DisableBarrier(p, b)) <==>
      s.pc[p].Disabling? && b < |s.bars| && p in s.bars[b].offers && MutexFree(s, b)
    ensures (exists pick: nat :: Can(s, EndDisable(p, pick))) <==>
      s.pc[p].Disabling? && forall c :: 0 <= c < |s.bars| ==> p !in s.bars[c].offers
  {
    ReachedIsWellFormed(n, k, s);
    var pick := PickExists(s);
    assert Can(s, EndDisable(p, pick)) <==> s.pc[p].Disabling? && OffersNothing(s.bars, p);
  }

  /** The coordinator lets in whoever comes when it is free and makes everybody else wait. */
  lemma StartingTakesTheTurn(n: nat, k: nat, s: State, p: nat, guards: seq<Guard>)
    requires Reached(n, k, s) && Can(s, Start(p, guards))
    ensures var t := Step(s, Start(p, guards)).value;
      && t.bars == s.bars && t.log == s.log && |t.pc| == |s.pc|
      && if s.active == 0 then t.pc == s.pc[p := Enabling(guards)] && t.active == 1 && t.cond == s.cond
         else t.pc == s.pc[p := Starting(guards)] && t.active == s.active && t.cond.waiting == s.cond.waiting + {p}
  {
    ReachedHasInv(n, k, s);
    assert s.pc[p := Starting(guards)][p := Enabling(guards)] == s.pc[p := Enabling(guards)];
  }

  /** A process that was notified takes its turn, or waits again when somebody was faster. */
  lemma RetryingTakesTheTurn(n: nat, k: nat, s: State, p: nat)
    requires Reached(n, k, s) && Can(s, Retry(p))
    ensures p < |s.pc| && (s.pc[p].Starting? || s.pc[p].Resigning?)
    ensures var t := Step(s, Retry(p)).value;
      if s.active > 0 then t.pc == s.pc && t.cond.waiting == s.cond.waiting + {p} && p !in t.cond.woken
      else p !in t.cond.waiting && p !in t.cond.woken &&
           (s.pc[p].Starting? ==> t.pc == s.pc[p := Enabling(s.pc[p].todo)] && t.active == 1)
  {
    ReachedHasInv(n, k, s);
    assert Waits(s, p) && PhaseOk(s, p);
    if s.active == 0 && s.pc[p].Resigning? {
      assert BarOk(s, s.pc[p].b);
    }
  }

  /** The end of an enable sequence frees the coordinator, notifies one process that waits for
      it, and leaves the alt offering, or disabling when some guard was ready. */
  lemma EnablingEnds(n: nat, k: nat, s: State, p: nat, pick: nat, e: Event)
    requires Reached(n, k, s) && (e == EndEnable(p, pick) || e == EnableOther(p, true, pick)) && Can(s, e)
    ensures var t := Step(s, e).value;
      && p < |s.pc| && t.pc == s.pc[p := if e.EndEnable? then Offering(false) else Disabling(None)]
      && t.active == 0 && t.bars == s.bars && t.log == s.log
      && (if s.cond.waiting == {} then t.cond == s.cond
          else pick in s.cond.waiting && t.cond == Cond(s.cond.waiting - {pick}, s.cond.woken + {pick}))
  {
    ReachedHasInv(n, k, s);
    assert PhaseOk(s, p);
  }

  /** The steps inside a selection that concern the process alone. */
  lemma QuietSteps(n: nat, k: nat, s: State, p: nat, e: Event)
    requires Reached(n, k, s) && p < |s.pc| && Can(s, e)
    requires e == OtherReady(p) || e == Wake(p) || (e.EnableOther? && e.p == p && !e.ready)
    ensures var t := Step(s, e).value;
      && t == s.(pc := t.pc) && |t.pc| == |s.pc| && t.pc == s.pc[p := t.pc[p]]
      && t.pc[p] == (if e.OtherReady? then Offering(true) else if e.Wake? then Disabling(None)
                     else Enabling(s.pc[p].todo[1..]))
  {
  }

  /** The end of a selection: whoever chose a barrier takes itself off the count and agrees, and
      the last one to do so frees the coordinator and notifies a process that waits for it. */
  lemma SelectionEnds(n: nat, k: nat, s: State, p: nat, pick: nat)
    requires Reached(n, k, s) && Can(s, EndDisable(p, pick))
    ensures var t := Step(s, EndDisable(p, pick)).value;
      && p < |s.pc| && s.pc[p].Disabling? && t.pc == s.pc[p := Idle] && t.bars == s.bars
      && match s.pc[p].chosen
         case None => t == s.(pc := t.pc)
         case Some(b) =>
           && s.active > 0 && t.active == s.active - 1 && t.owed == s.owed - {p}
           && (t.active > 0 || s.cond.waiting == {} ==> t.cond == s.cond)
           && (t.active == 0 && s.cond.waiting != {} ==>
                 pick in s.cond.waiting && t.cond == Cond(s.cond.waiting - {pick}, s.cond.woken + {pick}))
  {
    ReachedHasInv(n, k, s);
    assert PhaseOk(s, p);
  }

  /** Enrolling concerns one barrier, whose countdown it raises. */
  lemma EnrollingJoins(n: nat, k: nat, s: State, p: nat, b: nat)
    requires Reached(n, k, s) && Can(s, Enroll(p, b))
    ensures var t := Step(s, Enroll(p, b)).value;
      && b < |s.bars| && t == s.(bars := t.bars) && |t.bars| == |s.bars| && t.bars == s.bars[b := t.bars[b]]
      && t.bars[b].members == s.bars[b].members + {p} && t.bars[b].offers == s.bars[b].offers
      && t.bars[b].enrolled == s.bars[b].enrolled + 1 && t.bars[b].countdown == s.bars[b].countdown + 1
  {
    ReachedBarIsOk(n, k, s, b);
  }

  ghost predicate OneBarChanges(s: State, t: State, b: nat) {
    b < |s.bars| == |t.bars| && t.bars == s.bars[b := t.bars[b]]
  }

  lemma EnablerUses(n: nat, k: nat, s: State, p: nat)
    requires Reached(n, k, s) && Can(s, EnableBarrier(p))
    ensures var b := s.pc[p].todo[0].b;
      b < |s.bars| && p in s.bars[b].members && Counting(s.bars[b]) && s.active == 1
  {
    ReachedHasInv(n, k, s);
    assert PhaseOk(s, p) && Uses(s.bars, p, s.pc[p].todo[0]) && BarOk(s, s.pc[p].todo[0].b);
  }

  /** Enabling concerns one barrier, which keeps its members. */
  lemma EnablingOffers(n: nat, k: nat, s: State, p: nat)
    requires Reached(n, k, s) && Can(s, EnableBarrier(p))
    ensures var t := Step(s, EnableBarrier(p)).value;
      var b := s.pc[p].todo[0].b;
      && OneBarChanges(s, t, b) && t.bars[b].members == s.bars[b].members && |t.pc| == |s.pc|
      && (t.log == s.log ==> t.pc == s.pc[p := Enabling(s.pc[p].todo[1..])]
                             && t.bars[b].offers == s.bars[b].offers + {p})
      && (t.log != s.log ==>
            && t.bars[b].offers == s.bars[b].offers
            && forall q :: 0 <= q < |s.pc| && q != p ==>
                 t.pc[q] == if q in s.bars[b].offers && s.pc[q].Offering? then Offering(true) else s.pc[q])
  {
    EnablerUses(n, k, s, p);
    if p !in s.bars[s.pc[p].todo[0].b].offers {
      CompletesWhenLast(s.bars[s.pc[p].todo[0].b], p);
    }
  }

  lemma WithdrawalCounts(n: nat, k: nat, s: State, p: nat, b: nat)
    requires Reached(n, k, s) && Can(s, DisableBarrier(p, b))
    ensures Disable(s.bars[b], p).1 <==> p in s.owed && b == s.current
    ensures Disable(s.bars[b], p).1 ==> s.pc[p].chosen.None?
    ensures !Disable(s.bars[b], p).1 ==> Inc(s.bars[b].countdown) == s.bars[b].countdown + 1
  {
    ExactlyTheOwedFindItComplete(n, k, s, p, b);
    ReachedBarIsOk(n, k, s, b);
  }

  /** Disabling withdraws the offer, from a barrier that has not completed by counting up again,
      and a completed one is chosen. */
  lemma DisablingWithdraws(n: nat, k: nat, s: State, p: nat, b: nat)
    requires Reached(n, k, s) && Can(s, DisableBarrier(p, b))
    ensures var t := Step(s, DisableBarrier(p, b)).value;
      && OneBarChanges(s, t, b) && t.bars[b].members == s.bars[b].members && t.bars[b].offers == s.bars[b].offers - {p}
      && t.bars[b].countdown == s.bars[b].countdown + (if p in s.owed && b == s.current then 0 else 1)
      && p < |s.pc| && t.pc == (if p in s.owed && b == s.current then s.pc[p := Disabling(Some(b))] else s.pc)
      && t.cond == s.cond && t.active == s.active && t.owed == s.owed && t.log == s.log && t.lock == s.lock
  {
    WithdrawalCounts(n, k, s, p, b);
  }

  /** Resigning concerns one barrier, and those who offer it if that completes it. */
  lemma ResigningLeaves(n: nat, k: nat, s: State, p: nat, b: nat)
    requires Reached(n, k, s) && Can(s, Resign(p, b))
    ensures var t := Step(s, Resign(p, b)).value;
      && OneBarChanges(s, t, b) && t.bars[b].members == s.bars[b].members - {p}
      && t.bars[b].offers == s.bars[b].offers && |t.pc| == |s.pc|
      && (forall q :: 0 <= q < |s.pc| && q != p ==>
            t.pc[q] == if t.log != s.log && q in s.bars[b].offers && s.pc[q].Offering? then Offering(true) else s.pc[q])
      && (t.pc[p] == Idle || t.pc[p] == Resigning(b)) && (t.pc[p] == Resigning(b) <==> t.lock[b] == Some(p))
  {
    ReachedHasInv(n, k, s);
    ResignationIsReady(s, p, b);
  }
}
