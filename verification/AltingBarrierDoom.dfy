/** Resigning can block everybody (csp/alting_barrier.h:219-230 and 665-685).

    A resignation that completes its barrier waits for the coordinator while it holds the
    mutex of the barrier.  If whoever keeps the coordinator needs that mutex, neither ever
    goes on. */
module AltingBarrierDoom {
  import opened Runs
  import opened Condvar
  import opened AltingBarrier
  import opened AltingBarrierSystem

  /** Process `p` keeps the coordinator. */
  predicate Keeps(s: State, p: nat) { p < |s.pc| && (p in s.owed || s.pc[p].Enabling?) }

  /** It needs the mutex of `b`, which a resigning process holds while it waits for the
      coordinator. */
  predicate DoomedBy(s: State, p: nat, b: nat) {
    && b < |s.lock| && s.lock[b].Some? && Keeps(s, p)
    && if p in s.owed then Offers(s.bars, p, b)
       else s.pc[p].todo != [] && s.pc[p].todo[0] == OnBarrier(b)
  }

  lemma KeeperKeepsItBusy(s: State, p: nat)
    requires Inv(s) && Keeps(s, p)
    ensures s.active > 0 && forall q :: 0 <= q < |s.pc| && s.pc[q].Enabling? ==> q == p && p !in s.owed
  {
    assert PhaseOk(s, p);
    forall q | 0 <= q < |s.pc| && s.pc[q].Enabling? ensures s.holder == Some(q) {
      assert PhaseOk(s, q);
    }
  }

  lemma DoomedOwnStep(s: State, e: Event, b: nat)
    requires Inv(s) && DoomedBy(s, e.p, b) && s.active > 0 && Step(s, e).Some?
    ensures DoomedBy(Step(s, e).value, e.p, b) && |Step(s, e).value.log| == |s.log|
  {
    assert PhaseOk(s, e.p);
  }

  /** What another process may not touch. */
  ghost predicate LeavesAlone(s: State, t: State, p: nat, q: nat, b: nat) {
    && q < |s.pc| && |t.pc| == |s.pc| && t.pc == s.pc[q := t.pc[q]] && (p in t.owed <==> p in s.owed)
    && |t.bars| == |s.bars| && |t.lock| == |s.lock| && |t.log| == |s.log| && b < |s.bars| == |s.lock|
    && (p in s.bars[b].offers ==> p in t.bars[b].offers) && (s.lock[b].Some? ==> t.lock[b].Some?)
  }

  lemma MembersLeaveAlone(s: State, e: Event, p: nat, b: nat)
    requires s.active > 0 && Step(s, e).Some? && e.p != p && b < |s.bars|
    requires e.Resign? || e.Enroll? || e.DisableBarrier?
    ensures LeavesAlone(s, Step(s, e).value, p, e.p, b)
  {
    match e
    case Resign(_, _) =>
    case Enroll(_, _) =>
    case DisableBarrier(_, _) =>
  }

  lemma OthersLeaveAlone(s: State, e: Event, p: nat, b: nat)
    requires s.active > 0 && Step(s, e).Some? && e.p != p && b < |s.bars| && !s.pc[e.p].Enabling?
    requires !e.Resign? && !e.Enroll? && !e.DisableBarrier?
    ensures LeavesAlone(s, Step(s, e).value, p, e.p, b)
  {
    match e
    case Start(_, _) =>
    case Retry(_) =>
    case EndDisable(_, _) =>
    case _ =>
  }

  lemma DoomedOtherStep(s: State, e: Event, p: nat, b: nat)
    requires Inv(s) && DoomedBy(s, p, b) && s.active > 0 && Step(s, e).Some? && e.p != p && !s.pc[e.p].Enabling?
    ensures DoomedBy(Step(s, e).value, p, b) && |Step(s, e).value.log| == |s.log|
  {
    if e.Resign? || e.Enroll? || e.DisableBarrier? {
      MembersLeaveAlone(s, e, p, b);
    } else {
      OthersLeaveAlone(s, e, p, b);
    }
  }

  lemma DoomedKeeps(s: State, e: Event, p: nat, b: nat)
    requires Inv(s) && DoomedBy(s, p, b) && Step(s, e).Some?
    ensures DoomedBy(Step(s, e).value, p, b) && |Step(s, e).value.log| == |s.log|
  {
    KeeperKeepsItBusy(s, p);
    if e.p == p {
      DoomedOwnStep(s, e, b);
    } else {
      DoomedOtherStep(s, e, p, b);
    }
  }

  /** Then the coordinator is never free again, and no barrier completes any more. */
  lemma {:induction false} DoomedForever(s: State, p: nat, b: nat, es: seq<Event>)
    requires Inv(s) && DoomedBy(s, p, b) && Run(Step, s, es).Some?
    ensures var t := Run(Step, s, es).value;
      Inv(t) && DoomedBy(t, p, b) && t.active > 0 && |t.log| == |s.log|
    decreases |es|
  {
    if es != [] {
      DoomedForever(s, p, b, es[..|es| - 1]);
      var t := Run(Step, s, es[..|es| - 1]).value;
      StepKeepsInv(t, es[|es| - 1]);
      DoomedKeeps(t, es[|es| - 1], p, b);
      KeeperKeepsItBusy(Step(t, es[|es| - 1]).value, p);
    } else {
      KeeperKeepsItBusy(s, p);
    }
  }

  predicate SelectionStep(e: Event) {
    e.EnableBarrier? || e.EnableOther? || e.EndEnable? || e.Wake? || e.DisableBarrier? || e.EndDisable?
  }

  lemma NextToEnable(s: State, p: nat, pick: nat) returns (e: Event)
    requires Inv(s) && p < |s.pc| && s.pc[p].Enabling? && p !in s.owed && forall b :: !DoomedBy(s, p, b)
    requires MayPick(s.cond, One, pick)
    ensures e.p == p && SelectionStep(e) && Step(s, e).Some?
  {
    assert PhaseOk(s, p);
    var todo := s.pc[p].todo;
    if todo == [] {
      e := EndEnable(p, pick);
    } else if todo[0].OnOther? {
      e := EnableOther(p, true, pick);
    } else {
      assert Uses(s.bars, p, todo[0]) && !DoomedBy(s, p, todo[0].b);
      e := EnableBarrier(p);
    }
  }

  /** Otherwise whoever keeps the coordinator can go on with its selection. */
  lemma OtherwiseTheyMove(n: nat, k: nat, s: State, p: nat) returns (e: Event)
    requires Reached(n, k, s) && Keeps(s, p) && forall b :: !DoomedBy(s, p, b)
    ensures e.p == p && SelectionStep(e) && Step(s, e).Some?
  {
    ReachedHasInv(n, k, s);
    KeeperKeepsItBusy(s, p);
    assert PhaseOk(s, p);
    var pick: nat :| s.cond.waiting != {} ==> pick in s.cond.waiting;
    if s.pc[p].Enabling? {
      e := NextToEnable(s, p, pick);
    } else if s.pc[p].Offering? {
      e := Wake(p);
    } else if OffersNothing(s.bars, p) {
      e := EndDisable(p, pick);
    } else {
      var b :| 0 <= b < |s.bars| && p in s.bars[b].offers;
      assert !DoomedBy(s, p, b);
      e := DisableBarrier(p, b);
    }
  }

  ghost predicate Doomed(s: State) { exists p, b :: DoomedBy(s, p, b) }

  // ---------- which steps lead there ----------

  predicate Held(s: State, b: nat) { b < |s.lock| && s.lock[b].Some? }

  /** The next guard to be enabled is a barrier whose mutex is held. */
  predicate HeadHeld(s: State, todo: seq<Guard>) { todo != [] && todo[0].OnBarrier? && Held(s, todo[0].b) }

  /** One of `who` offers another barrier than `b`, and its mutex is held. */
  ghost predicate OffersHeld(s: State, who: set<nat>, b: nat) {
    exists q, c :: q in who && c != b && Held(s, c) && Offers(s.bars, q, c)
  }

  /** Process `q` keeps the coordinator and needs barrier `b` next. */
  predicate KeeperNeeds(s: State, q: nat, b: nat) {
    Keeps(s, q) && if q in s.owed then Offers(s.bars, q, b) else s.pc[q].todo != [] && s.pc[q].todo[0] == OnBarrier(b)
  }

  /** What a step must do to block everybody: take a mutex that a keeper of the coordinator
      needs, complete a barrier for a process that offers another one whose mutex is held, or
      come to a guard whose mutex is held. */
  ghost predicate Dooms(s: State, e: Event)
    requires Step(s, e).Some?
  {
    match e
    case Start(_, guards) => s.active == 0 && HeadHeld(s, guards)
    case Retry(p) =>
      s.active == 0 &&
      (match s.pc[p]
       case Starting(todo) => HeadHeld(s, todo)
       case Resigning(b) => b < |s.bars| && OffersHeld(s, s.bars[b].offers, b)
       case _ => false)
    case EnableBarrier(p) =>
      var todo := s.pc[p].todo;
      var f := s.bars[todo[0].b];
      if p !in f.offers && f.offers + {p} == f.members then OffersHeld(s, f.members, todo[0].b)
      else HeadHeld(s, todo[1..])
    case EnableOther(p, ready, _) => !ready && HeadHeld(s, s.pc[p].todo[1..])
    case Resign(p, b) =>
      && s.bars[b].offers == s.bars[b].members - {p} != {} && !Pending(s, b)
      && if s.active == 0 then OffersHeld(s, s.bars[b].offers, b) else exists q :: KeeperNeeds(s, q, b)
    case _ => false
  }

  /** No mutex was taken and nobody needs more than before. */
  lemma NothingNew(s: State, t: State)
    requires !Doomed(s) && t.lock == s.lock && |t.bars| == |s.bars| && |t.pc| == |s.pc| && t.owed <= s.owed
    requires forall b :: 0 <= b < |s.bars| ==> t.bars[b].offers <= s.bars[b].offers
    requires forall q :: 0 <= q < |s.pc| && t.pc[q].Enabling? ==> t.pc[q] == s.pc[q] && q !in s.owed
    ensures !Doomed(t)
  {
    if p, b :| DoomedBy(t, p, b) {
      assert DoomedBy(s, p, b);
    }
  }

  /** A process that goes on enabling with `todo`. */
  lemma EnablingDooms(s: State, t: State, p: nat, todo: seq<Guard>)
    requires !Doomed(s) && Inv(t) && p < |t.pc| && t.pc[p] == Enabling(todo)
    requires t.lock == s.lock
    ensures Doomed(t) <==> HeadHeld(s, todo)
  {
    assert PhaseOk(t, p);
    if HeadHeld(s, todo) {
      assert DoomedBy(t, p, todo[0].b);
    }
    forall q, b | DoomedBy(t, q, b) ensures q == p {
      assert PhaseOk(t, q);
    }
  }

  /** A barrier `b` has just been announced for `who`; nobody offers more than before. */
  lemma AnnouncedDooms(s: State, t: State, who: set<nat>, b: nat)
    requires Inv(t) && t.owed == who && who != {} && t.current == b && t.holder.None?
    requires |t.bars| == |s.bars| == |s.lock| == |t.lock| && b < |s.bars|
    requires forall c :: 0 <= c < |s.bars| && c != b ==> t.lock[c] == s.lock[c] && t.bars[c] == s.bars[c]
    ensures Doomed(t) <==> OffersHeld(s, who, b)
  {
    assert BarOk(t, b);
    if OffersHeld(s, who, b) {
      var q, c :| q in who && c != b && Held(s, c) && Offers(s.bars, q, c);
      assert DoomedBy(t, q, c);
    }
    if Doomed(t) {
      var q, c :| DoomedBy(t, q, c);
      assert PhaseOk(t, q);
      assert Offers(s.bars, q, c) && Held(s, c);
    }
  }

  /** A process has just taken the mutex of `b` and waits. */
  lemma HoldingDooms(s: State, t: State, b: nat)
    requires !Doomed(s) && Inv(s) && Inv(t) && b < |s.lock| == |s.bars| == |t.bars|
    requires t.lock == s.lock[b := t.lock[b]] && t.lock[b].Some? && t.owed == s.owed && |t.pc| == |s.pc|
    requires forall q :: 0 <= q < |s.pc| ==> (t.pc[q].Enabling? <==> s.pc[q].Enabling?)
    requires forall q :: 0 <= q < |s.pc| && s.pc[q].Enabling? ==> t.pc[q] == s.pc[q]
    requires forall c :: 0 <= c < |s.bars| ==> t.bars[c].offers == s.bars[c].offers
    ensures Doomed(t) <==> exists q :: KeeperNeeds(s, q, b)
  {
    if q :| KeeperNeeds(s, q, b) {
      assert DoomedBy(t, q, b);
    }
    if q, c :| DoomedBy(t, q, c) {
      assert c != b ==> DoomedBy(s, q, c);
      assert KeeperNeeds(s, q, b);
    }
  }

  predicate Harmless(e: Event) {
    e.EndEnable? || e.OtherReady? || e.Wake? || e.DisableBarrier? || e.EndDisable? || e.Enroll?
  }

  lemma EnablersOweNothing(s: State)
    requires PhasesOk(s)
    ensures forall q :: 0 <= q < |s.pc| && s.pc[q].Enabling? ==> q !in s.owed
  {
    forall q | 0 <= q < |s.pc| && s.pc[q].Enabling? ensures q !in s.owed {
      assert PhaseOk(s, q);
    }
  }

  lemma HarmlessPhases(s: State, e: Event)
    requires Step(s, e).Some? && Harmless(e)
    ensures var t := Step(s, e).value;
      && |t.pc| == |s.pc| && |t.bars| == |s.bars| && t.lock == s.lock && t.owed <= s.owed
      && (forall q :: 0 <= q < |s.pc| && t.pc[q].Enabling? ==> t.pc[q] == s.pc[q])
      && (forall b :: 0 <= b < |s.bars| ==> t.bars[b].offers <= s.bars[b].offers)
  {
    match e
    case DisableBarrier(_, _) =>
    case EndDisable(_, _) =>
    case Enroll(_, _) =>
    case _ =>
  }

  lemma HarmlessSteps(s: State, e: Event)
    requires Inv(s) && Step(s, e).Some? && !Doomed(s) && Harmless(e)
    ensures !Doomed(Step(s, e).value)
  {
    HarmlessPhases(s, e);
    EnablersOweNothing(s);
    NothingNew(s, Step(s, e).value);
  }

  /** A process waits for the coordinator without a mutex. */
  lemma QueueingDooms(s: State, t: State)
    requires Inv(s) && !Doomed(s) && t.lock == s.lock && t.bars == s.bars && |t.pc| == |s.pc| && t.owed == s.owed
    requires forall q :: 0 <= q < |s.pc| && t.pc[q].Enabling? ==> t.pc[q] == s.pc[q]
    ensures !Doomed(t)
  {
    EnablersOweNothing(s);
    NothingNew(s, t);
  }

  lemma StartDooms(s: State, p: nat, guards: seq<Guard>)
    requires Inv(s) && !Doomed(s) && Step(s, Start(p, guards)).Some?
    ensures Doomed(Step(s, Start(p, guards)).value) <==> Dooms(s, Start(p, guards))
  {
    var t := Step(s, Start(p, guards)).value;
    if s.active == 0 {
      StepKeepsInv(s, Start(p, guards));
      EnablingDooms(s, t, p, guards);
    } else {
      QueueingDooms(s, t);
    }
  }

  lemma AdmittedResignerDooms(s: State, p: nat)
    requires Inv(s) && !Doomed(s) && Step(s, Retry(p)).Some? && s.active == 0 && s.pc[p].Resigning?
    ensures Doomed(Step(s, Retry(p)).value) <==> Dooms(s, Retry(p))
  {
    assert PhaseOk(s, p);
    var b := s.pc[p].b;
    assert BarOk(s, b);
    StepKeepsInv(s, Retry(p));
    AnnouncedDooms(s, Step(s, Retry(p)).value, s.bars[b].offers, b);
  }

  lemma AdmittedEnablerDooms(s: State, p: nat)
    requires Inv(s) && !Doomed(s) && Step(s, Retry(p)).Some? && s.active == 0 && s.pc[p].Starting?
    ensures Doomed(Step(s, Retry(p)).value) <==> Dooms(s, Retry(p))
  {
    StepKeepsInv(s, Retry(p));
    EnablingDooms(s, Step(s, Retry(p)).value, p, s.pc[p].todo);
  }

  lemma RetryDooms(s: State, p: nat)
    requires Inv(s) && !Doomed(s) && Step(s, Retry(p)).Some?
    ensures Doomed(Step(s, Retry(p)).value) <==> Dooms(s, Retry(p))
  {
    assert Waits(s, p);
    if s.active > 0 {
      QueueingDooms(s, Step(s, Retry(p)).value);
    } else if s.pc[p].Starting? {
      AdmittedEnablerDooms(s, p);
    } else {
      AdmittedResignerDooms(s, p);
    }
  }

  lemma EnableDooms(s: State, p: nat)
    requires Inv(s) && !Doomed(s) && Step(s, EnableBarrier(p)).Some?
    ensures Doomed(Step(s, EnableBarrier(p)).value) <==> Dooms(s, EnableBarrier(p))
  {
    var t := Step(s, EnableBarrier(p)).value;
    var b := s.pc[p].todo[0].b;
    assert PhaseOk(s, p) && Uses(s.bars, p, s.pc[p].todo[0]) && BarOk(s, b);
    StepKeepsInv(s, EnableBarrier(p));
    if p !in s.bars[b].offers {
      CompletesWhenLast(s.bars[b], p);
    }
    if p !in s.bars[b].offers && s.bars[b].offers + {p} == s.bars[b].members {
      AnnouncedDooms(s, t, s.bars[b].members, b);
    } else {
      EnablingDooms(s, t, p, s.pc[p].todo[1..]);
    }
  }

  lemma EnableOtherDooms(s: State, p: nat, ready: bool, pick: nat)
    requires Inv(s) && !Doomed(s) && Step(s, EnableOther(p, ready, pick)).Some?
    ensures Doomed(Step(s, EnableOther(p, ready, pick)).value) <==> Dooms(s, EnableOther(p, ready, pick))
  {
    var t := Step(s, EnableOther(p, ready, pick)).value;
    if ready {
      QueueingDooms(s, t);
    } else {
      StepKeepsInv(s, EnableOther(p, ready, pick));
      EnablingDooms(s, t, p, s.pc[p].todo[1..]);
    }
  }

  lemma WaitingResignationDooms(s: State, p: nat, b: nat)
    requires Inv(s) && !Doomed(s) && Step(s, Resign(p, b)).Some? && s.active > 0
    requires Leave(false, s.bars[b], p).1.Ready?
    ensures Doomed(Step(s, Resign(p, b)).value) <==> exists q :: KeeperNeeds(s, q, b)
  {
    StepKeepsInv(s, Resign(p, b));
    HoldingDooms(s, Step(s, Resign(p, b)).value, b);
  }

  lemma ImmediateResignationDooms(s: State, p: nat, b: nat)
    requires Inv(s) && !Doomed(s) && Step(s, Resign(p, b)).Some? && s.active == 0
    requires Leave(false, s.bars[b], p).1.Ready?
    ensures Doomed(Step(s, Resign(p, b)).value) <==> OffersHeld(s, s.bars[b].offers, b)
  {
    ResignationIsReady(s, p, b);
    StepKeepsInv(s, Resign(p, b));
    AnnouncedDooms(s, Step(s, Resign(p, b)).value, s.bars[b].offers, b);
  }

  lemma QuietResignation(s: State, t: State, p: nat, b: nat)
    requires Inv(s) && !Doomed(s) && Step(s, Resign(p, b)) == Some(t) && !Leave(false, s.bars[b], p).1.Ready?
    ensures !Doomed(t)
  {
    EnablersOweNothing(s);
    NothingNew(s, t);
  }

  lemma ResignDooms(s: State, p: nat, b: nat)
    requires Inv(s) && !Doomed(s) && Step(s, Resign(p, b)).Some?
    ensures Doomed(Step(s, Resign(p, b)).value) <==> Dooms(s, Resign(p, b))
  {
    ResignationIsReady(s, p, b);
    if !Leave(false, s.bars[b], p).1.Ready? {
      QuietResignation(s, Step(s, Resign(p, b)).value, p, b);
    } else if s.active == 0 {
      ImmediateResignationDooms(s, p, b);
    } else {
      WaitingResignationDooms(s, p, b);
    }
  }

  /** A step blocks everybody exactly when it does one of the things `Dooms` lists. */
  lemma StepDoomsExactlyWhen(n: nat, k: nat, s: State, e: Event)
    requires Reached(n, k, s) && !Doomed(s) && Step(s, e).Some?
    ensures Doomed(Step(s, e).value) <==> Dooms(s, e)
  {
    ReachedHasInv(n, k, s);
    match e
    case Start(p, guards) => StartDooms(s, p, guards);
    case Retry(p) => RetryDooms(s, p);
    case EnableBarrier(p) => EnableDooms(s, p);
    case EnableOther(p, ready, pick) => EnableOtherDooms(s, p, ready, pick);
    case Resign(p, b) => ResignDooms(s, p, b);
    case _ => HarmlessSteps(s, e);
  }

  // ---------- what a caller of resign can check ----------

  /** How many alting barriers a list of guards has. */
  function Barriers(guards: seq<Guard>): nat
    decreases |guards|
  {
    if guards == [] then 0 else (if guards[0].OnBarrier? then 1 else 0) + Barriers(guards[1..])
  }

  lemma {:induction false} NoBarriers(guards: seq<Guard>, b: nat)
    requires Barriers(guards) == 0
    ensures OnBarrier(b) !in guards
    decreases |guards|
  {
    if guards != [] {
      NoBarriers(guards[1..], b);
    }
  }

  /** Barrier `b` is all that process `q` offers, has to enable or has chosen. */
  ghost predicate OnlyBarrier(s: State, q: nat, b: nat) {
    && q < |s.pc| && q !in s.owed
    && (forall c :: Offers(s.bars, q, c) ==> c == b)
    && (s.pc[q].Enabling? ==> Barriers(s.pc[q].todo) == 0)
  }

  /** Process `p` waits with the mutex of `b`, and nobody who offers `b` has another barrier. */
  ghost predicate WaitsSafely(s: State, p: nat, b: nat) {
    b < |s.lock| == |s.bars| && s.lock[b] == Some(p) && forall q :: q in s.bars[b].offers ==> OnlyBarrier(s, q, b)
  }

  lemma SafeWaitersDoomNobody(s: State, p: nat, b: nat, q: nat)
    requires Inv(s) && WaitsSafely(s, p, b)
    ensures !DoomedBy(s, q, b)
  {
    assert BarOk(s, b);
    if q < |s.pc| && s.pc[q].Enabling? && s.pc[q].todo != [] {
      assert PhaseOk(s, q) && Uses(s.bars, q, s.pc[q].todo[0]);
      if q in s.bars[b].offers {
        NoBarriers(s.pc[q].todo, b);
      }
    }
  }

  lemma OwnStepKeepsOnly(s: State, e: Event, b: nat)
    requires Inv(s) && Step(s, e).Some? && Held(s, b) && b < |s.bars|
    requires e.p in s.bars[b].offers && OnlyBarrier(s, e.p, b)
    ensures OnlyBarrier(Step(s, e).value, e.p, b)
  {
    assert PhaseOk(s, e.p);
  }

  /** The processes a step makes owed all offered the barrier it completes, but the one that
      completes it. */
  lemma NewlyOwedOffered(s: State, e: Event, q: nat)
    requires Inv(s) && Step(s, e).Some? && q !in s.owed && q in Step(s, e).value.owed && q != e.p
    ensures exists c :: Offers(s.bars, q, c) && Free(Step(s, e).value, c)
  {
    assert PhaseOk(s, e.p);
    var t := Step(s, e).value;
    assert e.EnableBarrier? || e.Retry? || e.Resign?;
    assert Free(t, t.current) && Offers(s.bars, q, t.current);
  }

  ghost predicate StaysHeld(s: State, t: State, b: nat) {
    && b < |s.bars| == |t.bars| && |s.lock| == |t.lock| == |s.bars|
    && t.lock[b] == s.lock[b] && t.bars[b].offers == s.bars[b].offers
  }

  lemma HeldThroughRetry(s: State, p: nat, b: nat)
    requires Step(s, Retry(p)).Some? && Held(s, b) && b < |s.bars| && Held(Step(s, Retry(p)).value, b)
    ensures StaysHeld(s, Step(s, Retry(p)).value, b)
  {
  }

  lemma HeldThroughResign(s: State, p: nat, c: nat, b: nat)
    requires Step(s, Resign(p, c)).Some? && Held(s, b) && b < |s.bars| && Held(Step(s, Resign(p, c)).value, b)
    ensures StaysHeld(s, Step(s, Resign(p, c)).value, b)
  {
    assert c != b;
  }

  /** A barrier whose mutex is held keeps its offers, and its mutex its owner. */
  lemma HeldStays(s: State, e: Event, b: nat)
    requires Step(s, e).Some? && Held(s, b) && b < |s.bars| && Held(Step(s, e).value, b)
    ensures StaysHeld(s, Step(s, e).value, b)
  {
    if e.Retry? {
      HeldThroughRetry(s, e.p, b);
    } else if e.Resign? {
      HeldThroughResign(s, e.p, e.b, b);
    } else {
      match e
      case EnableBarrier(_) =>
      case Start(_, _) =>
      case _ =>
    }
  }

  /** What a step does to the offers and the phase of the other processes. */
  ghost predicate LeavesTheRest(s: State, t: State, p: nat) {
    && |t.pc| == |s.pc| && |t.bars| == |s.bars|
    && (forall q, b {:trigger q in t.bars[b].offers} ::
          q != p && 0 <= b < |s.bars| && q in t.bars[b].offers ==> q in s.bars[b].offers)
    && (forall q :: 0 <= q < |s.pc| && q != p ==> t.pc[q] == s.pc[q] || t.pc[q].Offering?)
  }

  lemma ResignLeavesOthers(s: State, p: nat, b: nat)
    requires Step(s, Resign(p, b)).Some?
    ensures LeavesTheRest(s, Step(s, Resign(p, b)).value, p)
  {
  }

  lemma EnableLeavesOthers(s: State, p: nat)
    requires Step(s, EnableBarrier(p)).Some?
    ensures LeavesTheRest(s, Step(s, EnableBarrier(p)).value, p)
  {
  }

  lemma StepLeavesOthers(s: State, e: Event)
    requires Step(s, e).Some?
    ensures LeavesTheRest(s, Step(s, e).value, e.p)
  {
    match e
    case Resign(p, b) => ResignLeavesOthers(s, p, b);
    case EnableBarrier(p) => EnableLeavesOthers(s, p);
    case DisableBarrier(_, _) =>
    case Enroll(_, _) =>
    case Retry(_) =>
    case Start(_, _) =>
    case _ =>
  }

  lemma SafeWaitersWaitOn(s: State, e: Event, p: nat, b: nat)
    requires Inv(s) && Step(s, e).Some? && WaitsSafely(s, p, b) && Held(Step(s, e).value, b)
    ensures WaitsSafely(Step(s, e).value, p, b)
  {
    var t := Step(s, e).value;
    HeldStays(s, e, b);
    StepLeavesOthers(s, e);
    forall q | q in t.bars[b].offers ensures OnlyBarrier(t, q, b) {
      if q == e.p {
        OwnStepKeepsOnly(s, e, b);
      } else {
        if q in t.owed {
          NewlyOwedOffered(s, e, q);
        }
        assert forall c :: Offers(t.bars, q, c) ==> Offers(s.bars, q, c);
      }
    }
  }

  /** `p` is not let through in any state of the run `es` from `s`. */
  ghost predicate KeepsWaiting(s: State, es: seq<Event>, p: nat, b: nat)
    decreases |es|
  {
    && (es != [] ==> KeepsWaiting(s, es[..|es| - 1], p, b))
    && Run(Step, s, es).Some? && Held(Run(Step, s, es).value, b)
  }

  lemma {:induction false} SafeRuns(s: State, es: seq<Event>, p: nat, b: nat)
    requires Inv(s) && WaitsSafely(s, p, b) && KeepsWaiting(s, es, p, b)
    ensures Inv(Run(Step, s, es).value) && WaitsSafely(Run(Step, s, es).value, p, b)
    decreases |es|
  {
    if es != [] {
      var before := es[..|es| - 1];
      SafeRuns(s, before, p, b);
      StepKeepsInv(Run(Step, s, before).value, es[|es| - 1]);
      SafeWaitersWaitOn(Run(Step, s, before).value, es[|es| - 1], p, b);
    }
  }

  lemma {:induction false} KeptWaiting(s: State, es: seq<Event>, p: nat, b: nat)
    requires KeepsWaiting(s, es, p, b)
    ensures Held(s, b)
    decreases |es|
  {
    if es != [] {
      KeptWaiting(s, es[..|es| - 1], p, b);
    }
  }

  /** A resignation takes no mutex when the coordinator is free. */
  lemma FreeCoordinatorNeedsNoMutex(n: nat, k: nat, s: State, p: nat, b: nat)
    requires Reached(n, k, s) && Step(s, Resign(p, b)).Some? && s.active == 0
    ensures Step(s, Resign(p, b)).value.lock == s.lock
  {
    ReachedHasInv(n, k, s);
    ResignationIsReady(s, p, b);
  }

  lemma ResignationWaitsSafely(s: State, p: nat, b: nat)
    requires Inv(s) && Step(s, Resign(p, b)).Some? && Held(Step(s, Resign(p, b)).value, b)
    requires forall r :: r in s.bars[b].offers ==> OnlyBarrier(s, r, b)
    ensures WaitsSafely(Step(s, Resign(p, b)).value, p, b)
  {
    var t := Step(s, Resign(p, b)).value;
    ResignationIsReady(s, p, b);
    forall r | r in t.bars[b].offers ensures OnlyBarrier(t, r, b) {
      assert OnlyBarrier(s, r, b) && r != p;
      assert forall c :: Offers(t.bars, r, c) ==> Offers(s.bars, r, c);
    }
  }

  /** When it is not free, the mutex that the resigning process waits with is never what blocks
      the others, provided that nobody who offers the barrier has another in its selection. */
  lemma ResigningIsSafe(n: nat, k: nat, s: State, p: nat, b: nat, es: seq<Event>, q: nat)
    requires Reached(n, k, s) && Step(s, Resign(p, b)).Some?
    requires forall r :: r in s.bars[b].offers ==> OnlyBarrier(s, r, b)
    requires KeepsWaiting(Step(s, Resign(p, b)).value, es, p, b)
    ensures !DoomedBy(Run(Step, Step(s, Resign(p, b)).value, es).value, q, b)
  {
    ReachedHasInv(n, k, s);
    var t := Step(s, Resign(p, b)).value;
    StepKeepsInv(s, Resign(p, b));
    KeptWaiting(t, es, p, b);
    ResignationWaitsSafely(s, p, b);
    SafeRuns(t, es, p, b);
    SafeWaitersDoomNobody(Run(Step, t, es).value, p, b, q);
  }

  predicate SameBar(f: Bar, g: Bar) {
    f.enrolled == g.enrolled && f.countdown == g.countdown && f.members == g.members && f.offers == g.offers
  }

  predicate SameBars(s: State, t: State) {
    |s.bars| == |t.bars| && forall b :: 0 <= b < |s.bars| ==> SameBar(s.bars[b], t.bars[b])
  }

  predicate SamePhases(s: State, t: State) {
    |s.pc| == |t.pc| && forall p :: 0 <= p < |s.pc| ==> s.pc[p] == t.pc[p]
  }

  predicate SameRest(s: State, t: State) {
    && s.lock == t.lock && s.active == t.active && s.fault == t.fault && s.holder == t.holder && s.current == t.current
    && s.cond.waiting == t.cond.waiting && s.cond.woken == t.cond.woken && s.owed == t.owed && s.log == t.log
  }

  lemma Same(s: State, t: State)
    requires SameBars(s, t) && SamePhases(s, t) && SameRest(s, t)
    ensures s == t
  {
    forall b | 0 <= b < |s.bars| ensures s.bars[b] == t.bars[b] {
      assert SameBar(s.bars[b], t.bars[b]);
    }
    assert s.bars == t.bars && s.pc == t.pc && s.cond == t.cond;
  }

  // For example: process 0 may choose between two barriers, the first completes with process 1,
  // and process 2, the only other member of the second, resigns from it just then.

  const BOTH := [OnBarrier(0), OnBarrier(1)]

  function Joined(): State {
    State([Bar(2, 2, {0, 1}, {}), Bar(2, 2, {0, 2}, {})], [None, None], [Idle, Idle, Idle],
          0, IDLE, false, None, {}, 0, [])
  }

  function Offered(): State {
    Joined().(bars := [Bar(2, 1, {0, 1}, {0}), Bar(2, 1, {0, 2}, {0})],
              pc := [Offering(false), Idle, Idle])
  }

  function Completed(): State {
    Joined().(bars := [Bar(2, 2, {0, 1}, {0}), Bar(2, 1, {0, 2}, {0})],
              pc := [Offering(true), Disabling(Some(0)), Idle],
              active := 2, owed := {0, 1}, log := [Round(0, {0, 1}, {})])
  }

  function HalfJoined(): State { Joined().(bars := [Bar(1, 1, {0}, {}), Bar(1, 1, {0}, {})]) }

  lemma OneJoins()
    ensures Run(Step, Init(3, 2), [Enroll(0, 0), Enroll(0, 1)]) == Some(HalfJoined())
  {
    var s0 := Init(3, 2);
    var es := [Enroll(0, 0), Enroll(0, 1)];
    var s1 := s0.(bars := [Bar(1, 1, {0}, {}), Bar(0, 0, {}, {})]);
    Same(Step(s0, es[0]).value, s1);
    Same(Step(s1, es[1]).value, HalfJoined());
    Few(Step, s0, es);
  }

  lemma OthersJoin()
    ensures Run(Step, HalfJoined(), [Enroll(1, 0), Enroll(2, 1)]) == Some(Joined())
  {
    var s0 := HalfJoined();
    var es := [Enroll(1, 0), Enroll(2, 1)];
    var s1 := s0.(bars := [Bar(2, 2, {0, 1}, {}), Bar(1, 1, {0}, {})]);
    Same(Step(s0, es[0]).value, s1);
    Same(Step(s1, es[1]).value, Joined());
    Few(Step, s0, es);
  }

  function HalfOffered(): State {
    Joined().(bars := [Bar(2, 1, {0, 1}, {0}), Bar(2, 2, {0, 2}, {})],
              pc := [Enabling([OnBarrier(1)]), Idle, Idle], active := 1, holder := Some(0))
  }

  lemma OneOffers()
    ensures Run(Step, Joined(), [Start(0, BOTH), EnableBarrier(0)]) == Some(HalfOffered())
  {
    var s0 := Joined();
    var es := [Start(0, BOTH), EnableBarrier(0)];
    var s1 := s0.(pc := [Enabling(BOTH), Idle, Idle], active := 1, holder := Some(0));
    Same(Step(s0, es[0]).value, s1);
    Same(Step(s1, es[1]).value, HalfOffered());
    Few(Step, s0, es);
  }

  lemma OneOffersBoth()
    ensures Run(Step, HalfOffered(), [EnableBarrier(0), EndEnable(0, 0)]) == Some(Offered())
  {
    var s0 := HalfOffered();
    var es := [EnableBarrier(0), EndEnable(0, 0)];
    var s1 := s0.(bars := Offered().bars, pc := [Enabling([]), Idle, Idle]);
    Same(Step(s0, es[0]).value, s1);
    Same(Step(s1, es[1]).value, Offered());
    Few(Step, s0, es);
  }

  lemma TheyComplete()
    ensures Run(Step, Offered(), [Start(1, [OnBarrier(0)]), EnableBarrier(1)]) == Some(Completed())
  {
    var s0 := Offered();
    var es := [Start(1, [OnBarrier(0)]), EnableBarrier(1)];
    var s1 := s0.(pc := [Offering(false), Enabling([OnBarrier(0)]), Idle], active := 1, holder := Some(1));
    Same(Step(s0, es[0]).value, s1);
    assert s1.bars[0].offers + {1} == {0, 1};
    Same(Step(s1, es[1]).value, Completed());
    Few(Step, s0, es);
  }

  lemma CompletedIsReached() returns (es: seq<Event>)
    ensures Run(Step, Init(3, 2), es) == Some(Completed())
  {
    OneJoins();
    OthersJoin();
    OneOffers();
    OneOffersBoth();
    TheyComplete();
    var a := [Enroll(0, 0), Enroll(0, 1)];
    var b := [Enroll(1, 0), Enroll(2, 1)];
    var c := [Start(0, BOTH), EnableBarrier(0)];
    var d := [EnableBarrier(0), EndEnable(0, 0)];
    var e := [Start(1, [OnBarrier(0)]), EnableBarrier(1)];
    Append(Step, Init(3, 2), a, b);
    Append(Step, Init(3, 2), a + b, c);
    Append(Step, Init(3, 2), a + b + c, d);
    Append(Step, Init(3, 2), a + b + c + d, e);
    es := a + b + c + d + e;
  }

  lemma LastLeaves()
    ensures Step(Completed(), Resign(2, 1)).Some? && DoomedBy(Step(Completed(), Resign(2, 1)).value, 0, 1)
  {
    assert {0, 2} - {2} == {0};
    assert Completed().bars[1] == Bar(2, 1, {0, 2}, {0});
  }

  lemma DoomCanHappen() returns (s: State)
    ensures Reached(3, 2, s) && DoomedBy(s, 0, 1)
  {
    LastLeaves();
    var es := CompletedIsReached();
    Snoc(Step, Init(3, 2), es, Resign(2, 1));
    s := Step(Completed(), Resign(2, 1)).value;
  }
}
