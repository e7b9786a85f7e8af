/** Processes choosing among alting barriers and channels: multiway synchronisation.

    Every process may run selections over any of the barriers it is enrolled in, mixed with
    other guards, and may resign from a barrier and enrol again between selections.  The
    conditions are the intended ones (see module AltingBarrier); an alt disables every guard it
    enabled, in any order, which is what module AltCore proves of the disable loops. */
module AltingBarrierSystem {
  import opened Runs
  import opened Condvar
  import opened Barrier
  import opened AltingBarrier

  datatype Guard = OnBarrier(b: nat) | OnOther

  /** Where a process is.  `Starting` and `Resigning` wait in `start_enable`, the latter
      holding the mutex of its barrier; `Enabling` and `Starting` carry the guards still to
      be enabled; `Offering` is the wait of the alt, `woken` once it was scheduled; and
      `chosen` is the barrier that the disable sequence has found complete. */
  datatype Phase =
    | Idle
    | Starting(todo: seq<Guard>)
    | Enabling(todo: seq<Guard>)
    | Offering(woken: bool)
    | Disabling(chosen: Option<nat>)
    | Resigning(b: nat)

  /** One completion: the barrier, who was enrolled then, and who has since ended a
      selection by choosing it. */
  datatype Round = Round(b: nat, members: set<nat>, agreed: set<nat>)

  /** `holder`, `owed`, `current` and `log` only observe: the process that is enabling, the
      processes that must still find the barrier `current` complete or finish choosing it. */
  datatype State = State(
    bars: seq<Bar>, lock: seq<Option<nat>>, pc: seq<Phase>, active: nat, cond: Cond, fault: bool,
    holder: Option<nat>, owed: set<nat>, current: nat, log: seq<Round>)

  datatype Event =
    | Start(p: nat, guards: seq<Guard>)
    | Retry(p: nat)
    | EnableBarrier(p: nat)
    | EnableOther(p: nat, ready: bool, pick: nat)
    | EndEnable(p: nat, pick: nat)
    | OtherReady(p: nat)
    | Wake(p: nat)
    | DisableBarrier(p: nat, b: nat)
    | EndDisable(p: nat, pick: nat)
    | Resign(p: nat, b: nat)
    | Enroll(p: nat, b: nat)

  function Init(n: nat, k: nat): State {
    State(seq(k, i => Bar(0, 0, {}, {})), seq(k, i => None), seq(n, i => Idle), 0, IDLE, false, None, {}, 0, [])
  }

  predicate Wf(s: State) { |s.lock| == |s.bars| }

  /** The offering alts of a completed barrier are scheduled. */
  function Scheduled(pc: seq<Phase>, offers: set<nat>): (r: seq<Phase>)
    ensures |r| == |pc|
  {
    seq(|pc|, i requires 0 <= i < |pc| => if i in offers && pc[i].Offering? then Offering(true) else pc[i])
  }

  /** `start_disable` and the scheduling, for the enrolled front ends `who` of barrier `b`. */
  function Announce(s: State, b: nat, who: set<nat>): State
    requires b < |s.bars|
  {
    var (a, ok) := StartDisable(s.active, s.bars[b].enrolled);
    s.(active := a, fault := s.fault || !ok, pc := Scheduled(s.pc, s.bars[b].offers),
       holder := None, owed := who, current := b, log := s.log + [Round(b, s.bars[b].members, {})])
  }

  function SetPc(s: State, p: nat, ph: Phase): State
    requires p < |s.pc|
  {
    s.(pc := s.pc[p := ph])
  }

  /** What a process does once `start_enable` lets it through. */
  function Admitted(s: State, p: nat): State
    requires p < |s.pc| && Wf(s)
  {
    var t := s.(active := StartEnable(0).0);
    match s.pc[p]
    case Starting(todo) => SetPc(t, p, Enabling(todo)).(holder := Some(p))
    case Resigning(b) =>
      if b < |s.bars| then
        SetPc(Announce(t.(lock := t.lock[b := None]), b, s.bars[b].offers), p, Idle)
      else t
    case _ => t
  }

  /** `start_enable`: wait while another sequence is active. */
  function TryStart(s: State, p: nat): State
    requires p < |s.pc| && Wf(s)
  {
    if StartEnable(s.active).1 then Admitted(s, p) else s.(cond := Block(s.cond, p))
  }

  function DoEnableBarrier(s: State, p: nat, b: nat): State
    requires p < |s.pc| && b < |s.bars| && s.pc[p].Enabling? && s.pc[p].todo != []
  {
    var (f, answer) := Enable(false, s.bars[b], p);
    var t := s.(bars := s.bars[b := f]);
    match answer
    case Throws => t.(fault := true)
    case NotReady => SetPc(t, p, Enabling(s.pc[p].todo[1..]))
    case Ready => SetPc(Announce(t, b, f.offers + {p}), p, Disabling(Some(b)))
  }

  function DoEndEnable(s: State, p: nat, pick: nat, ph: Phase): State
    requires p < |s.pc| && MayPick(s.cond, One, pick)
  {
    var (a, ok) := FinishEnable(s.active);
    SetPc(s, p, ph).(active := a, fault := s.fault || !ok, holder := None,
                     cond := Signal(s.cond, NotifiesWhenFree(a, ok), pick))
  }

  function DoDisableBarrier(s: State, p: nat, b: nat): State
    requires p < |s.pc| && b < |s.bars| && s.pc[p].Disabling?
  {
    var (f, ready) := Disable(s.bars[b], p);
    var t := s.(bars := s.bars[b := f]);
    if !ready then t
    else if s.pc[p].chosen.Some? then t.(fault := true)
    else SetPc(t, p, Disabling(Some(b)))
  }

  function Agree(log: seq<Round>, p: nat, b: nat): seq<Round> {
    var k := |log| - 1;
    if k >= 0 && log[k].b == b then log[k := log[k].(agreed := log[k].agreed + {p})] else log
  }

  function DoEndDisable(s: State, p: nat, pick: nat): State
    requires p < |s.pc| && s.pc[p].Disabling? && MayPick(s.cond, One, pick)
  {
    var t := SetPc(s, p, Idle);
    match s.pc[p].chosen
    case None => t
    case Some(b) =>
      var (a, ok) := FinishDisable(s.active);
      t.(active := a, fault := s.fault || !ok, owed := s.owed - {p}, log := Agree(s.log, p, b),
         cond := Signal(s.cond, NotifiesWhenFree(a, ok), pick))
  }

  function DoResign(s: State, p: nat, b: nat): State
    requires p < |s.pc| && b < |s.bars| && Wf(s)
  {
    var (f, answer) := Leave(false, s.bars[b], p);
    var t := s.(bars := s.bars[b := f]);
    match answer
    case Throws => t.(fault := true)
    case NotReady => t
    case Ready => TryStart(SetPc(t, p, Resigning(b)).(lock := t.lock[b := Some(p)]), p)
  }

  predicate Uses(bars: seq<Bar>, p: nat, g: Guard) { g.OnBarrier? ==> g.b < |bars| && p in bars[g.b].members }

  predicate Offers(bars: seq<Bar>, p: nat, b: nat) { b < |bars| && p in bars[b].offers }

  predicate OffersNothing(bars: seq<Bar>, p: nat) { forall b :: 0 <= b < |bars| ==> p !in bars[b].offers }

  predicate Free(s: State, b: nat) { b < |s.lock| && s.lock[b].None? }

  function Step(s: State, e: Event): Option<State> {
    if !Wf(s) || e.p >= |s.pc| then None
    else
      var ph := s.pc[e.p];
      match e
      case Start(p, guards) =>
        if ph.Idle? && forall g :: g in guards ==> Uses(s.bars, p, g)
        then Some(TryStart(SetPc(s, p, Starting(guards)), p)) else None
      case Retry(p) => if p in s.cond.woken then Some(TryStart(s.(cond := Condvar.Resume(s.cond, p)), p)) else None
      case EnableBarrier(p) =>
        if ph.Enabling? && ph.todo != [] && ph.todo[0].OnBarrier? && ph.todo[0].b < |s.bars| && Free(s, ph.todo[0].b)
        then Some(DoEnableBarrier(s, p, ph.todo[0].b)) else None
      case EnableOther(p, ready, pick) =>
        if ph.Enabling? && ph.todo != [] && ph.todo[0].OnOther? && MayPick(s.cond, One, pick) then
          if ready then Some(DoEndEnable(s, p, pick, Disabling(None)))
          else Some(SetPc(s, p, Enabling(ph.todo[1..])))
        else None
      case EndEnable(p, pick) =>
        if ph.Enabling? && ph.todo == [] && MayPick(s.cond, One, pick)
        then Some(DoEndEnable(s, p, pick, Offering(false))) else None
      case OtherReady(p) => if ph.Offering? then Some(SetPc(s, p, Offering(true))) else None
      case Wake(p) => if ph.Offering? && ph.woken then Some(SetPc(s, p, Disabling(None))) else None
      case DisableBarrier(p, b) =>
        if ph.Disabling? && Offers(s.bars, p, b) && Free(s, b) then Some(DoDisableBarrier(s, p, b)) else None
      case EndDisable(p, pick) =>
        if ph.Disabling? && OffersNothing(s.bars, p) && MayPick(s.cond, One, pick)
        then Some(DoEndDisable(s, p, pick)) else None
      case Resign(p, b) =>
        if ph.Idle? && b < |s.bars| && Free(s, b) && p in s.bars[b].members then Some(DoResign(s, p, b)) else None
      case Enroll(p, b) =>
        if ph.Idle? && b < |s.bars| && Free(s, b) && p !in s.bars[b].members && |s.bars[b].members| + 1 < WORD
        then Some(s.(bars := s.bars[b := Join(s.bars[b], p).0])) else None
  }

  // ---------- the invariant ----------

  /** Some alts still have to find barrier `b` complete. */
  predicate Pending(s: State, b: nat) { s.owed != {} && s.current == b }

  ghost predicate BarOk(s: State, b: nat)
    requires Wf(s) && b < |s.bars|
  {
    var f := s.bars[b];
    && f.enrolled == |f.members| < WORD && f.offers <= f.members
    && (forall p :: p in f.members ==> p < |s.pc|)
    && (if Pending(s, b) then f.countdown == f.enrolled && f.offers <= s.owed && s.lock[b].None?
        else if s.lock[b].Some? then f.countdown == f.enrolled && f.offers == f.members != {}
        else Counting(f))
  }

  ghost predicate PhaseOk(s: State, p: nat)
    requires Wf(s) && p < |s.pc|
  {
    match s.pc[p]
    case Idle => OffersNothing(s.bars, p) && p !in s.owed
    case Starting(todo) => OffersNothing(s.bars, p) && p !in s.owed && forall g :: g in todo ==> Uses(s.bars, p, g)
    case Enabling(todo) => s.holder == Some(p) && p !in s.owed && forall g :: g in todo ==> Uses(s.bars, p, g)
    case Offering(woken) => p in s.owed ==> woken && Offers(s.bars, p, s.current)
    case Disabling(None) => p in s.owed ==> Offers(s.bars, p, s.current)
    case Disabling(Some(b)) => p in s.owed && b == s.current && !Offers(s.bars, p, b)
    case Resigning(b) => b < |s.bars| && s.lock[b] == Some(p) && OffersNothing(s.bars, p) && p !in s.owed
  }

  predicate Waits(s: State, p: nat) { p < |s.pc| && (s.pc[p].Starting? || s.pc[p].Resigning?) }

  ghost predicate CondOk(s: State) {
    && s.cond.waiting !! s.cond.woken
    && (forall p: nat :: p in s.cond.waiting || p in s.cond.woken <==> Waits(s, p))
    && (s.active == 0 && s.cond.waiting != {} ==> s.cond.woken != {})
  }

  ghost predicate ActiveOk(s: State) {
    && !s.fault
    && (s.holder.Some? ==> s.holder.value < |s.pc| && s.pc[s.holder.value].Enabling? && s.owed == {})
    && s.active == (if s.holder.Some? then 1 else |s.owed|)
    && (s.owed != {} ==> s.current < |s.bars|)
    && (forall p :: p in s.owed ==> p < |s.pc|)
    && (forall b :: 0 <= b < |s.lock| && s.lock[b].Some? ==>
          s.lock[b].value < |s.pc| && s.pc[s.lock[b].value] == Resigning(b))
  }

  ghost predicate LogOk(s: State) {
    && (s.owed != {} ==> s.log != [] && s.log[|s.log| - 1].b == s.current)
    && (forall k :: 0 <= k < |s.log| ==> k < |s.log| - 1 || s.owed == {} ==> s.log[k].agreed == s.log[k].members)
    && (s.log != [] ==> var r := s.log[|s.log| - 1]; r.agreed + s.owed == r.members && r.agreed !! s.owed)
  }

  ghost predicate BarsOk(s: State) { Wf(s) && forall b :: 0 <= b < |s.bars| ==> BarOk(s, b) }

  ghost predicate PhasesOk(s: State) { Wf(s) && forall p :: 0 <= p < |s.pc| ==> PhaseOk(s, p) }

  ghost predicate Inv(s: State) { BarsOk(s) && PhasesOk(s) && CondOk(s) && ActiveOk(s) && LogOk(s) }

  // ---------- every step keeps it ----------

  /** Only barrier `b` changed, and in it only what concerns process `p`. */
  ghost predicate OneBar(s: State, t: State, p: nat, b: nat) {
    && Wf(s) && |t.bars| == |s.bars| && |t.lock| == |s.lock| && |t.pc| == |s.pc| && b < |s.bars|
    && t.owed == s.owed && t.current == s.current && t.holder == s.holder
    && t.bars == s.bars[b := t.bars[b]] && t.lock == s.lock[b := t.lock[b]]
    && (forall q :: q != p ==> (q in t.bars[b].members <==> q in s.bars[b].members))
    && (forall q :: q != p ==> (q in t.bars[b].offers <==> q in s.bars[b].offers))
  }

  lemma OneBarKeepsBars(s: State, t: State, p: nat, b: nat)
    requires BarsOk(s) && OneBar(s, t, p, b) && BarOk(t, b)
    ensures BarsOk(t)
  {
    forall c | 0 <= c < |s.bars| ensures BarOk(t, c) {
      assert BarOk(s, c);
    }
  }

  lemma OneBarKeepsActive(s: State, t: State, p: nat, b: nat)
    requires ActiveOk(s) && OneBar(s, t, p, b) && t.lock == s.lock && p < |s.pc|
    requires t.active == s.active && t.fault == s.fault
    requires t.pc == s.pc[p := t.pc[p]] && (s.pc[p].Enabling? <==> t.pc[p].Enabling?) && !s.pc[p].Resigning?
    ensures ActiveOk(t)
  {
  }

  lemma NewPhaseKeepsCond(s: State, t: State, p: nat)
    requires CondOk(s) && t.cond == s.cond && t.active == s.active && p < |s.pc| == |t.pc|
    requires t.pc == s.pc[p := t.pc[p]]
    requires !s.pc[p].Starting? && !s.pc[p].Resigning? && !t.pc[p].Starting? && !t.pc[p].Resigning?
    ensures CondOk(t)
  {
    forall q: nat ensures Waits(t, q) <==> Waits(s, q) {
    }
  }

  /** Nothing is claimed, released or waited for. */
  lemma OneBarKeepsRest(s: State, t: State, p: nat, b: nat)
    requires CondOk(s) && ActiveOk(s) && LogOk(s) && OneBar(s, t, p, b) && t.lock == s.lock && p < |s.pc|
    requires t.cond == s.cond && t.active == s.active && t.fault == s.fault && t.log == s.log
    requires t.pc == s.pc[p := t.pc[p]] && (s.pc[p].Enabling? <==> t.pc[p].Enabling?)
    requires !s.pc[p].Starting? && !s.pc[p].Resigning? && !t.pc[p].Starting? && !t.pc[p].Resigning?
    ensures CondOk(t) && ActiveOk(t) && LogOk(t)
  {
    OneBarKeepsActive(s, t, p, b);
    NewPhaseKeepsCond(s, t, p);
  }

  lemma OneBarKeepsPhase(s: State, t: State, p: nat, b: nat, q: nat)
    requires Wf(s) && OneBar(s, t, p, b) && q < |s.pc| && q != p && t.pc[q] == s.pc[q] && PhaseOk(s, q)
    requires s.pc[q].Resigning? && s.pc[q].b == b ==> t.lock[b] == s.lock[b]
    ensures PhaseOk(t, q)
  {
    assert OffersNothing(s.bars, q) ==> OffersNothing(t.bars, q);
    assert forall g :: Uses(s.bars, q, g) ==> Uses(t.bars, q, g);
  }

  lemma OneBarKeepsPhases(s: State, t: State, p: nat, b: nat)
    requires PhasesOk(s) && OneBar(s, t, p, b) && p < |s.pc| && t.pc == s.pc[p := t.pc[p]] && PhaseOk(t, p)
    requires t.lock[b] == s.lock[b] || s.lock[b].None?
    ensures PhasesOk(t)
  {
    forall q | 0 <= q < |s.pc| && q != p ensures PhaseOk(t, q) {
      assert PhaseOk(s, q);
      OneBarKeepsPhase(s, t, p, b, q);
    }
  }

  /** The condition variable while `p` is neither blocked nor woken. */
  ghost predicate CondBut(s: State, p: nat) {
    && s.cond.waiting !! s.cond.woken && p !in s.cond.waiting && p !in s.cond.woken
    && (forall q: nat :: q in s.cond.waiting || q in s.cond.woken <==> Waits(s, q) && q != p)
  }

  ghost predicate AtTheGate(s: State, p: nat) {
    BarsOk(s) && PhasesOk(s) && ActiveOk(s) && LogOk(s) && Waits(s, p) && CondBut(s, p)
  }

  lemma AdmitEnabler(s: State, p: nat)
    requires AtTheGate(s, p) && s.active == 0 && s.pc[p].Starting?
    ensures Inv(Admitted(s, p))
  {
    var t := Admitted(s, p);
    assert s.owed == {};
    forall b | 0 <= b < |s.bars| ensures BarOk(t, b) {
      assert BarOk(s, b);
    }
    forall q | 0 <= q < |s.pc| ensures PhaseOk(t, q) {
      assert PhaseOk(s, q) && PhaseOk(s, p);
    }
  }

  lemma AdmitResignerBars(s: State, t: State, b: nat)
    requires BarsOk(s) && s.owed == {} && b < |s.bars| && s.lock[b].Some?
    requires t.bars == s.bars && t.lock == s.lock[b := None] && |t.pc| == |s.pc|
    requires t.owed == s.bars[b].offers && t.current == b
    ensures BarsOk(t)
  {
    forall c | 0 <= c < |s.bars| ensures BarOk(t, c) {
      assert BarOk(s, c);
    }
  }

  lemma AdmitResignerPhases(s: State, t: State, p: nat, b: nat)
    requires PhasesOk(s) && s.owed == {} && p < |s.pc| && s.pc[p] == Resigning(b)
    requires b < |s.bars| && s.lock[b] == Some(p)
    requires forall q :: 0 <= q < |s.pc| ==> !s.pc[q].Enabling?
    requires t.bars == s.bars && t.lock == s.lock[b := None] && t.owed == s.bars[b].offers && t.current == b
    requires t.pc == Scheduled(s.pc, s.bars[b].offers)[p := Idle]
    ensures PhasesOk(t)
  {
    forall q | 0 <= q < |s.pc| ensures PhaseOk(t, q) {
      assert PhaseOk(s, q) && PhaseOk(s, p);
    }
  }

  lemma AdmitResigner(s: State, p: nat)
    requires AtTheGate(s, p) && s.active == 0 && s.pc[p].Resigning?
    ensures Inv(Admitted(s, p))
  {
    var t := Admitted(s, p);
    var b := s.pc[p].b;
    assert PhaseOk(s, p) && BarOk(s, b) && s.owed == {};
    AdmitResignerBars(s, t, b);
    forall q | 0 <= q < |s.pc| ensures !s.pc[q].Enabling? {
      assert PhaseOk(s, q);
    }
    AdmitResignerPhases(s, t, p, b);
  }

  lemma TryStartKeeps(s: State, p: nat)
    requires AtTheGate(s, p)
    ensures Inv(TryStart(s, p))
  {
    if s.active > 0 {
      var t := TryStart(s, p);
      forall b | 0 <= b < |s.bars| ensures BarOk(t, b) {
        assert BarOk(s, b);
      }
      forall q | 0 <= q < |s.pc| ensures PhaseOk(t, q) {
        assert PhaseOk(s, q);
      }
    } else if s.pc[p].Starting? {
      AdmitEnabler(s, p);
    } else {
      AdmitResigner(s, p);
    }
  }

  lemma StartKeeps(s: State, p: nat, guards: seq<Guard>)
    requires Inv(s) && Step(s, Start(p, guards)).Some?
    ensures Inv(Step(s, Start(p, guards)).value)
  {
    var t := SetPc(s, p, Starting(guards));
    assert PhaseOk(s, p);
    forall b | 0 <= b < |s.bars| ensures BarOk(t, b) {
      assert BarOk(s, b);
    }
    forall q | 0 <= q < |s.pc| ensures PhaseOk(t, q) {
      assert PhaseOk(s, q);
    }
    TryStartKeeps(t, p);
  }

  lemma RetryKeeps(s: State, p: nat)
    requires Inv(s) && Step(s, Retry(p)).Some?
    ensures Inv(Step(s, Retry(p)).value)
  {
    var t := s.(cond := Condvar.Resume(s.cond, p));
    forall b | 0 <= b < |s.bars| ensures BarOk(t, b) {
      assert BarOk(s, b);
    }
    forall q | 0 <= q < |s.pc| ensures PhaseOk(t, q) {
      assert PhaseOk(s, q);
    }
    TryStartKeeps(t, p);
  }

  lemma OfferKeeps(s: State, p: nat, b: nat)
    requires Inv(s) && Step(s, EnableBarrier(p)).Some? && b == s.pc[p].todo[0].b
    requires !Enable(false, s.bars[b], p).1.Ready?
    ensures Inv(Step(s, EnableBarrier(p)).value)
  {
    var t := Step(s, EnableBarrier(p)).value;
    assert PhaseOk(s, p) && Uses(s.bars, p, s.pc[p].todo[0]) && BarOk(s, b);
    if p !in s.bars[b].offers {
      CompletesWhenLast(s.bars[b], p);
    }
    OneBarKeepsBars(s, t, p, b);
    OneBarKeepsRest(s, t, p, b);
    assert PhaseOk(t, p) by {
      forall g | g in s.pc[p].todo[1..] ensures Uses(t.bars, p, g) {
        assert Uses(s.bars, p, g);
      }
    }
    OneBarKeepsPhases(s, t, p, b);
  }

  lemma CompleteBars(s: State, t: State, b: nat)
    requires BarsOk(s) && s.owed == {} && b < |s.bars| && s.lock[b].None?
    requires t.bars == s.bars[b := s.bars[b].(countdown := s.bars[b].enrolled)] && t.lock == s.lock && |t.pc| == |s.pc|
    requires t.owed >= s.bars[b].offers && t.owed != {} && t.current == b
    ensures BarsOk(t)
  {
    forall c | 0 <= c < |s.bars| ensures BarOk(t, c) {
      assert BarOk(s, c);
    }
  }

  /** A process that does not complete the barrier `b` itself. */
  lemma CompletePhase(s: State, t: State, p: nat, b: nat, q: nat)
    requires Wf(s) && b < |s.bars| && q < |s.pc| && PhaseOk(s, q) && s.holder == Some(p) && q != p && s.owed == {}
    requires t.bars == s.bars[b := s.bars[b].(countdown := s.bars[b].enrolled)] && t.lock == s.lock
    requires |t.pc| == |s.pc| && t.owed == s.bars[b].offers + {p} && t.current == b && t.holder.None?
    requires t.pc[q] == if q in s.bars[b].offers && s.pc[q].Offering? then Offering(true) else s.pc[q]
    ensures PhaseOk(t, q)
  {
    assert q in s.bars[b].offers ==> !OffersNothing(s.bars, q);
    assert OffersNothing(s.bars, q) ==> OffersNothing(t.bars, q);
  }

  lemma CompletePhases(s: State, t: State, p: nat, b: nat)
    requires PhasesOk(s) && b < |s.bars| && s.holder == Some(p) && s.owed == {} && p < |s.pc| && p !in s.bars[b].offers
    requires t.bars == s.bars[b := s.bars[b].(countdown := s.bars[b].enrolled)] && t.lock == s.lock
    requires t.owed == s.bars[b].offers + {p} && t.current == b && t.holder.None?
    requires t.pc == Scheduled(s.pc, s.bars[b].offers)[p := Disabling(Some(b))]
    ensures PhasesOk(t)
  {
    forall q | 0 <= q < |s.pc| ensures PhaseOk(t, q) {
      if q != p {
        assert PhaseOk(s, q);
        CompletePhase(s, t, p, b, q);
      }
    }
  }

  lemma CompleteCounts(s: State, p: nat, b: nat)
    requires Inv(s) && Step(s, EnableBarrier(p)).Some? && b == s.pc[p].todo[0].b && p in s.bars[b].members
    requires Enable(false, s.bars[b], p).1.Ready? && s.bars[b].offers + {p} == s.bars[b].members
    ensures ActiveOk(Step(s, EnableBarrier(p)).value) && LogOk(Step(s, EnableBarrier(p)).value)
  {
    assert PhaseOk(s, p) && BarOk(s, b);
  }

  lemma CompleteWakes(s: State, t: State, p: nat, offers: set<nat>, b: nat)
    requires CondOk(s) && p < |s.pc| && !s.pc[p].Starting? && !s.pc[p].Resigning?
    requires t.cond == s.cond && t.active > 0 && t.pc == Scheduled(s.pc, offers)[p := Disabling(Some(b))]
    ensures CondOk(t)
  {
    forall q: nat ensures Waits(t, q) <==> Waits(s, q) {
    }
  }

  lemma CompleteKeeps(s: State, p: nat, b: nat)
    requires Inv(s) && Step(s, EnableBarrier(p)).Some? && b == s.pc[p].todo[0].b
    requires Enable(false, s.bars[b], p).1.Ready?
    ensures Inv(Step(s, EnableBarrier(p)).value)
  {
    var t := Step(s, EnableBarrier(p)).value;
    assert PhaseOk(s, p) && Uses(s.bars, p, s.pc[p].todo[0]) && BarOk(s, b);
    CompletesWhenLast(s.bars[b], p);
    CompleteCounts(s, p, b);
    CompleteWakes(s, t, p, s.bars[b].offers, b);
    CompleteBars(s, t, b);
    CompletePhases(s, t, p, b);
  }

  lemma EndEnableKeeps(s: State, p: nat, pick: nat, ph: Phase)
    requires Inv(s) && p < |s.pc| && s.pc[p].Enabling? && MayPick(s.cond, One, pick)
    requires ph == Disabling(None) || ph == Offering(false)
    ensures Inv(DoEndEnable(s, p, pick, ph))
  {
    var t := DoEndEnable(s, p, pick, ph);
    assert PhaseOk(s, p);
    forall b | 0 <= b < |s.bars| ensures BarOk(t, b) {
      assert BarOk(s, b);
    }
    forall q | 0 <= q < |s.pc| ensures PhaseOk(t, q) {
      assert PhaseOk(s, q);
    }
  }

  /** Steps that only move a process on. */
  lemma MoveKeeps(s: State, p: nat, ph: Phase)
    requires Inv(s) && p < |s.pc| && PhaseOk(SetPc(s, p, ph), p)
    requires s.pc[p].Enabling? <==> ph.Enabling?
    requires s.pc[p].Resigning? <==> ph.Resigning?
    requires s.pc[p].Starting? <==> ph.Starting?
    requires ph.Resigning? ==> s.pc[p] == ph
    ensures Inv(SetPc(s, p, ph))
  {
    var t := SetPc(s, p, ph);
    forall b | 0 <= b < |s.bars| ensures BarOk(t, b) {
      assert BarOk(s, b);
    }
    forall q | 0 <= q < |s.pc| ensures PhaseOk(t, q) {
      assert PhaseOk(s, q);
    }
  }

  lemma DisableKeepsBar(s: State, t: State, p: nat, b: nat)
    requires Wf(s) && b < |s.bars| && BarOk(s, b) && p in s.bars[b].offers && Free(s, b)
    requires Pending(s, b) ==> p in s.owed
    requires t.bars == s.bars[b := Disable(s.bars[b], p).0] && t.lock == s.lock && |t.pc| == |s.pc|
    requires t.owed == s.owed && t.current == s.current
    ensures BarOk(t, b) && (Disable(s.bars[b], p).1 <==> Pending(s, b))
  {
    if !Pending(s, b) {
      WithdrawsQuietly(s.bars[b], p);
    }
  }

  lemma DisableKeeps(s: State, p: nat, b: nat)
    requires Inv(s) && Step(s, DisableBarrier(p, b)).Some?
    ensures Inv(Step(s, DisableBarrier(p, b)).value)
  {
    var t := Step(s, DisableBarrier(p, b)).value;
    assert PhaseOk(s, p) && BarOk(s, b);
    DisableKeepsBar(s, t, p, b);
    OneBarKeepsBars(s, t, p, b);
    OneBarKeepsRest(s, t, p, b);
    OneBarKeepsPhases(s, t, p, b);
  }

  lemma AgreeKeepsLog(s: State, t: State, p: nat)
    requires LogOk(s) && p in s.owed && t.log == Agree(s.log, p, s.current) && t.owed == s.owed - {p}
    requires t.current == s.current
    ensures LogOk(t)
  {
  }

  lemma ChoseKeepsBars(s: State, t: State, p: nat)
    requires BarsOk(s) && PhasesOk(s) && p in s.owed && OffersNothing(s.bars, p)
    requires t.bars == s.bars && t.lock == s.lock && |t.pc| == |s.pc|
    requires t.owed == s.owed - {p} && t.current == s.current
    ensures BarsOk(t)
  {
    forall c | 0 <= c < |s.bars| ensures BarOk(t, c) {
      assert BarOk(s, c);
    }
  }

  lemma EndDisablePhases(s: State, t: State, p: nat)
    requires PhasesOk(s) && p < |s.pc| && p in s.owed && OffersNothing(s.bars, p)
    requires t.bars == s.bars && t.lock == s.lock && t.holder == s.holder && t.current == s.current
    requires t.owed == s.owed - {p} && t.pc == s.pc[p := Idle]
    ensures PhasesOk(t)
  {
    forall q | 0 <= q < |s.pc| ensures PhaseOk(t, q) {
      assert PhaseOk(s, q);
    }
  }

  lemma EndDisableCounts(s: State, p: nat, pick: nat)
    requires Inv(s) && Step(s, EndDisable(p, pick)).Some? && s.pc[p].chosen.Some?
    ensures p in s.owed && ActiveOk(Step(s, EndDisable(p, pick)).value)
  {
    assert PhaseOk(s, p);
  }

  lemma EndDisableNotifies(s: State, p: nat, pick: nat)
    requires Wf(s) && CondOk(s) && ActiveOk(s) && s.active > 0
    requires Step(s, EndDisable(p, pick)).Some? && s.pc[p].chosen.Some?
    ensures CondOk(Step(s, EndDisable(p, pick)).value)
  {
  }

  lemma EndDisableKeeps(s: State, p: nat, pick: nat)
    requires Inv(s) && Step(s, EndDisable(p, pick)).Some? && s.pc[p].chosen.Some?
    ensures Inv(Step(s, EndDisable(p, pick)).value)
  {
    var t := Step(s, EndDisable(p, pick)).value;
    EndDisableCounts(s, p, pick);
    EndDisableNotifies(s, p, pick);
    assert s.pc[p].chosen.value == s.current by {
      assert PhaseOk(s, p);
    }
    AgreeKeepsLog(s, t, p);
    ChoseKeepsBars(s, t, p);
    EndDisablePhases(s, t, p);
  }

  lemma EnrollKeeps(s: State, p: nat, b: nat)
    requires Inv(s) && Step(s, Enroll(p, b)).Some?
    ensures Inv(Step(s, Enroll(p, b)).value)
  {
    var t := Step(s, Enroll(p, b)).value;
    assert PhaseOk(s, p) && BarOk(s, b);
    if !Pending(s, b) {
      JoinsQuietly(s.bars[b], p);
    }
    OneBarKeepsBars(s, t, p, b);
    OneBarKeepsRest(s, t, p, b);
    OneBarKeepsPhases(s, t, p, b);
  }

  lemma LeaveKeepsBar(s: State, t: State, p: nat, b: nat)
    requires Wf(s) && b < |s.bars| && BarOk(s, b) && p in s.bars[b].members && p !in s.bars[b].offers && Free(s, b)
    requires Leave(false, s.bars[b], p).1.NotReady?
    requires t.bars == s.bars[b := Leave(false, s.bars[b], p).0] && t.lock == s.lock && |t.pc| == |s.pc|
    requires t.owed == s.owed && t.current == s.current
    ensures BarOk(t, b)
  {
    if !Pending(s, b) {
      LeavingCompletes(s.bars[b], p);
    }
  }

  lemma QuietlyResignKeeps(s: State, p: nat, b: nat)
    requires Inv(s) && Step(s, Resign(p, b)).Some? && Leave(false, s.bars[b], p).1.NotReady?
    ensures Inv(Step(s, Resign(p, b)).value)
  {
    var t := Step(s, Resign(p, b)).value;
    assert PhaseOk(s, p) && BarOk(s, b);
    LeaveKeepsBar(s, t, p, b);
    OneBarKeepsBars(s, t, p, b);
    OneBarKeepsRest(s, t, p, b);
    OneBarKeepsPhases(s, t, p, b);
  }

  /** A resignation that completes the barrier brings the process to `start_enable`. */
  function AtStartEnable(s: State, p: nat, b: nat): State
    requires p < |s.pc| && b < |s.bars| && Wf(s)
  {
    SetPc(s.(bars := s.bars[b := Leave(false, s.bars[b], p).0]), p, Resigning(b)).(lock := s.lock[b := Some(p)])
  }

  lemma ResignReachesGate(s: State, p: nat, b: nat)
    requires Inv(s) && Step(s, Resign(p, b)).Some? && Leave(false, s.bars[b], p).1.Ready?
    ensures AtTheGate(AtStartEnable(s, p, b), p)
  {
    var t := AtStartEnable(s, p, b);
    assert PhaseOk(s, p) && BarOk(s, b);
    if !Pending(s, b) {
      LeavingCompletes(s.bars[b], p);
    }
    OneBarKeepsBars(s, t, p, b);
    OneBarKeepsPhases(s, t, p, b);
  }

  lemma ResignReadyKeeps(s: State, p: nat, b: nat)
    requires Inv(s) && Step(s, Resign(p, b)).Some? && Leave(false, s.bars[b], p).1.Ready?
    ensures Inv(Step(s, Resign(p, b)).value)
  {
    ResignReachesGate(s, p, b);
    TryStartKeeps(AtStartEnable(s, p, b), p);
  }

  lemma StepKeepsInv(s: State, e: Event)
    requires Inv(s) && Step(s, e).Some?
    ensures Inv(Step(s, e).value)
  {
    assert PhaseOk(s, e.p);
    match e
    case Start(p, guards) => StartKeeps(s, p, guards);
    case Retry(p) => RetryKeeps(s, p);
    case EnableBarrier(p) =>
      if Enable(false, s.bars[s.pc[p].todo[0].b], p).1.Ready? {
        CompleteKeeps(s, p, s.pc[p].todo[0].b);
      } else {
        OfferKeeps(s, p, s.pc[p].todo[0].b);
      }
    case EnableOther(p, ready, pick) =>
      if ready { EndEnableKeeps(s, p, pick, Disabling(None)); } else { MoveKeeps(s, p, Enabling(s.pc[p].todo[1..])); }
    case EndEnable(p, pick) => EndEnableKeeps(s, p, pick, Offering(false));
    case OtherReady(p) => MoveKeeps(s, p, Offering(true));
    case Wake(p) => MoveKeeps(s, p, Disabling(None));
    case DisableBarrier(p, b) => DisableKeeps(s, p, b);
    case EndDisable(p, pick) =>
      if s.pc[p].chosen.Some? { EndDisableKeeps(s, p, pick); } else { MoveKeeps(s, p, Idle); }
    case Resign(p, b) =>
      if Leave(false, s.bars[b], p).1.Ready? { ResignReadyKeeps(s, p, b); } else { QuietlyResignKeeps(s, p, b); }
    case Enroll(p, b) => EnrollKeeps(s, p, b);
  }

  lemma InitHasInv(n: nat, k: nat)
    ensures Inv(Init(n, k))
  {
    var s := Init(n, k);
    forall b | 0 <= b < k ensures BarOk(s, b) {
    }
    forall p | 0 <= p < n ensures PhaseOk(s, p) {
    }
  }

  lemma RunKeepsInv(n: nat, k: nat, es: seq<Event>)
    requires Run(Step, Init(n, k), es).Some?
    ensures Inv(Run(Step, Init(n, k), es).value)
  {
    forall s, e | Inv(s) && Step(s, e).Some? ensures Inv(Step(s, e).value) {
      StepKeepsInv(s, e);
    }
    InitHasInv(n, k);
    Invariance(Step, s => Inv(s), Init(n, k), es);
  }

  /** `n` processes and `k` barriers, started afresh, can come to state `s`. */
  ghost predicate Reached(n: nat, k: nat, s: State) { Reachable(Step, Init(n, k), s) }

  lemma ReachedHasInv(n: nat, k: nat, s: State)
    requires Reached(n, k, s)
    ensures Inv(s)
  {
    var es: seq<Event> :| Run(Step, Init(n, k), es) == Some(s);
    RunKeepsInv(n, k, es);
  }

  // ---------- what holds in every reachable state ----------

  /** No sanity check ever fails: the coordinator's count is always the one its caller expects,
      no enrolled front end is turned away, and no alt sees two barriers complete.  The count
      is exactly the number of front ends still to be disabled, or 1 while guards are enabled. */
  lemma NoSanityCheckFails(n: nat, k: nat, s: State)
    requires Reached(n, k, s)
    ensures !s.fault && s.active == (if s.holder.Some? then 1 else |s.owed|)
    ensures forall p :: 0 <= p < |s.pc| && s.pc[p].Enabling? ==> s.holder == Some(p) && s.owed == {}
  {
    ReachedHasInv(n, k, s);
    forall p | 0 <= p < |s.pc| && s.pc[p].Enabling? ensures s.holder == Some(p) {
      assert PhaseOk(s, p);
    }
  }

  /** A step completes a barrier exactly when it leaves every enrolled front end offering, and
      then all of them are owed: every one must find the barrier complete. */
  lemma CompletionTakesEverybody(n: nat, k: nat, s: State, p: nat)
    requires Reached(n, k, s) && Step(s, EnableBarrier(p)).Some?
    ensures var t := Step(s, EnableBarrier(p)).value;
      var b := s.pc[p].todo[0].b;
      var f := s.bars[b];
      && s.owed == {}
      && (t.log != s.log <==> p !in f.offers && f.offers + {p} == f.members)
      && (t.log != s.log ==>
            && t.log == s.log + [Round(b, f.members, {})] && t.owed == f.members && t.current == b
            && t.active == |f.members| && t.pc[p] == Disabling(Some(b)))
      && (t.log == s.log ==> p in t.bars[b].offers && t.owed == {} && t.active == 1)
  {
    var b := s.pc[p].todo[0].b;
    assert BarOk(s, b) && p in s.bars[b].members && s.active == 1 && s.owed == {} by {
      ReachedHasInv(n, k, s);
      assert PhaseOk(s, p) && Uses(s.bars, p, s.pc[p].todo[0]);
    }
    if p !in s.bars[b].offers {
      CompletesWhenLast(s.bars[b], p);
    }
  }

  lemma ResignationIsReady(s: State, p: nat, b: nat)
    requires Inv(s) && Step(s, Resign(p, b)).Some?
    ensures Leave(false, s.bars[b], p).1.Ready? <==>
      s.bars[b].offers == s.bars[b].members - {p} != {} && !Pending(s, b)
    ensures !Leave(false, s.bars[b], p).1.Throws?
    ensures p !in s.bars[b].offers && (s.active == 0 ==> s.owed == {})
  {
    assert PhaseOk(s, p) && BarOk(s, b);
    if !Pending(s, b) {
      LeavingCompletes(s.bars[b], p);
    }
  }

  /** A resignation completes the barrier exactly when somebody stays and all who stay offer
      it, and it is not just being left after a completion. */
  lemma ResignationTakesThoseWhoStay(n: nat, k: nat, s: State, p: nat, b: nat)
    requires Reached(n, k, s) && Step(s, Resign(p, b)).Some?
    ensures var t := Step(s, Resign(p, b)).value;
      var stay := s.bars[b].members - {p};
      && t.bars[b].members == stay
      && (t.log != s.log || t.pc[p] == Resigning(b) <==> s.bars[b].offers == stay != {} && !Pending(s, b))
      && (t.log != s.log ==> t.log == s.log + [Round(b, stay, {})] && t.owed == stay && t.current == b)
      && (t.pc[p] == Resigning(b) ==> s.active > 0)
  {
    ReachedHasInv(n, k, s);
    ResignationIsReady(s, p, b);
  }

  /** When it has had to wait, all who stay still offer the barrier once it gets through. */
  lemma WaitingResignationTakesThem(n: nat, k: nat, s: State, p: nat)
    requires Reached(n, k, s) && p < |s.pc| && s.pc[p].Resigning? && Step(s, Retry(p)).Some? && s.active == 0
    ensures var t := Step(s, Retry(p)).value;
      var b := s.pc[p].b;
      && b < |s.bars| && s.bars[b].offers == s.bars[b].members != {}
      && t.log == s.log + [Round(b, s.bars[b].members, {})] && t.owed == s.bars[b].members && t.current == b
  {
    ReachedHasInv(n, k, s);
    assert PhaseOk(s, p) && BarOk(s, s.pc[p].b);
  }

  /** Agreement: disabling a front end answers true exactly for the processes owed and the
      barrier that completed. */
  lemma ExactlyTheOwedFindItComplete(n: nat, k: nat, s: State, p: nat, b: nat)
    requires Reached(n, k, s) && Step(s, DisableBarrier(p, b)).Some?
    ensures Disable(s.bars[b], p).1 <==> p in s.owed && b == s.current
    ensures s.pc[p].chosen == None || !Disable(s.bars[b], p).1
  {
    ReachedHasInv(n, k, s);
    assert PhaseOk(s, p) && BarOk(s, b);
    if !Pending(s, b) {
      WithdrawsQuietly(s.bars[b], p);
    }
  }

  lemma OwedPhase(s: State, p: nat)
    requires PhasesOk(s) && p < |s.pc|
    ensures p in s.owed && Offers(s.bars, p, s.current) ==> s.pc[p] == Offering(true) || s.pc[p] == Disabling(None)
    ensures p in s.owed && !Offers(s.bars, p, s.current) ==> s.pc[p] == Disabling(Some(s.current))
    ensures p !in s.owed && s.pc[p].Disabling? ==> s.pc[p].chosen.None?
  {
    assert PhaseOk(s, p);
  }

  /** An owed process that is still waiting has been scheduled, and one that does not offer the
      barrier any more has chosen it; nobody else has chosen a barrier. */
  lemma TheOwedWillChooseIt(n: nat, k: nat, s: State, p: nat)
    requires Reached(n, k, s) && p < |s.pc|
    ensures p in s.owed && Offers(s.bars, p, s.current) ==> s.pc[p] == Offering(true) || s.pc[p] == Disabling(None)
    ensures p in s.owed && !Offers(s.bars, p, s.current) ==> s.pc[p] == Disabling(Some(s.current))
    ensures p !in s.owed && s.pc[p].Disabling? ==> s.pc[p].chosen.None?
  {
    assert PhasesOk(s) by {
      ReachedHasInv(n, k, s);
    }
    OwedPhase(s, p);
  }

  /** Every completion but the last was chosen by exactly the processes enrolled when it
      happened, and so was the last one once the count is back at zero. */
  lemma MultiwayAgreement(n: nat, k: nat, s: State, r: nat)
    requires Reached(n, k, s) && r < |s.log|
    ensures r < |s.log| - 1 || s.active == 0 || s.holder.Some? ==> s.log[r].agreed == s.log[r].members
    ensures r == |s.log| - 1 ==> s.log[r].agreed + s.owed == s.log[r].members && s.log[r].agreed !! s.owed
  {
    ReachedHasInv(n, k, s);
  }

  /** No enable sequence, and no further completion, starts before all of them have chosen. */
  lemma NothingStartsBeforeAllFinish(n: nat, k: nat, s: State, e: Event)
    requires Reached(n, k, s) && Step(s, e).Some?
    requires (Step(s, e).value.holder.Some? && s.holder.None?) || |Step(s, e).value.log| > |s.log|
    ensures s.owed == {} && forall r :: 0 <= r < |s.log| ==> s.log[r].agreed == s.log[r].members
  {
    ReachedHasInv(n, k, s);
    assert PhaseOk(s, e.p);
  }

  /** Whenever the coordinator is free and somebody waits for it, somebody has been notified
      and will be let through. */
  lemma TurnIsNeverLost(n: nat, k: nat, s: State) returns (p: nat)
    requires Reached(n, k, s) && s.active == 0 && s.cond.waiting != {}
    ensures p in s.cond.woken && Step(s, Retry(p)).Some? && Step(s, Retry(p)).value.active > 0
  {
    ReachedHasInv(n, k, s);
    p :| p in s.cond.woken;
    assert Waits(s, p);
    assert PhaseOk(s, p);
    if s.pc[p].Resigning? {
      assert BarOk(s, s.pc[p].b);
    }
  }
}
