/** What the guards of a running alt answer.

    AltSystem runs one alt among writers, module Alt computes what its loops do with given
    answers.  Here a run is watched: the answers to the questions of one selection are
    recorded, and the selection made is the one module Alt computes from them. */
module AltHistory {
  import opened Runs
  import opened AltCore
  import opened Alt
  import S = AltSystem

  /** `a` and `b` are the answers of the current selection while enabling and disabling, `sel`
      what enabling ended with, and `on` the enabled guards that were ready when it began. */
  datatype Watched<T> = Watched(s: S.State<T>, a: Answers, b: Answers, sel: int, on: set<nat>)

  ghost function ReadyGuards<T>(s: S.State<T>): set<nat>
    requires S.WellFormed(s)
  {
    set i: nat | i < |s.guards| && s.pre[i] && S.GuardReady(s, i)
  }

  /** Whether guard `i` is enabled and ready, which is what it answers. */
  ghost predicate Answer<T>(s: S.State<T>, i: nat)
    requires S.WellFormed(s) && i < |s.guards|
  {
    s.pre[i] && S.GuardReady(s, i)
  }

  ghost function Step<T>(w: Watched<T>, e: S.Event<T>): Option<Watched<T>> {
    match S.Step(w.s, e)
    case None => None
    case Some(t) =>
      var s, n := w.s, |w.s.guards|;
      var u := w.(s := t);
      match e
      case Begin(_) => Some(Watched(t, [], [], NONE, ReadyGuards(t)))
      case EnableOne =>
        if s.pc.k >= n then Some(u.(sel := NONE))
        else
          var i := Rot(n, s.next, s.pc.k);
          Some(u.(a := w.a + [Answer(s, i)], sel := if Answer(s, i) then i else NONE))
      case DisableOne => Some(u.(b := w.b + [Answer(s, s.pc.order[s.pc.j])]))
      case _ => Some(u)
  }

  ghost function Start<T>(s: S.State<T>): Watched<T> { Watched(s, [], [], NONE, {}) }

  /** Watching does not change what happens. */
  lemma {:induction false} WatchingIsFree<T(!new)>(s0: S.State<T>, es: seq<S.Event<T>>)
    requires Run(S.Step<T>, s0, es).Some?
    ensures Run(Step<T>, Start(s0), es).Some? && Run(Step<T>, Start(s0), es).value.s == Run(S.Step<T>, s0, es).value
    decreases |es|
  {
    if es != [] {
      WatchingIsFree(s0, es[..|es| - 1]);
    }
  }

  // ---------- one more answer ----------

  lemma {:induction false} NothingSaid(n: nat, next: nat, pre: seq<bool>, a: Answers, k: nat)
    requires next <= n == |pre| && |a| <= k <= n
    ensures EnableFrom(n, next, pre, a, k) == NONE
    decreases n - k
  {
    if k < n {
      NothingSaid(n, next, pre, a, k + 1);
    }
  }

  lemma {:induction false} EnableFromSnoc(n: nat, next: nat, pre: seq<bool>, a: Answers, x: bool, k: nat)
    requires next <= n == |pre| && k <= |a| < n && EnableFrom(n, next, pre, a, k) == NONE
    ensures var i := Rot(n, next, |a|);
      EnableFrom(n, next, pre, a + [x], k) == if pre[i] && x then i else NONE
    decreases |a| - k
  {
    if k == |a| {
      NothingSaid(n, next, pre, a + [x], k + 1);
    } else {
      EnableFromSnoc(n, next, pre, a, x, k + 1);
    }
  }

  lemma {:induction false} SurvivorHeard(order: seq<nat>, pre: seq<bool>, b: Answers, x: bool, sel: int)
    requires |order| <= |b|
    ensures Survivor(order, pre, b + [x], sel) == Survivor(order, pre, b, sel)
    decreases |order|
  {
    if order != [] {
      SurvivorHeard(order[..|order| - 1], pre, b, x, sel);
    }
  }

  lemma SurvivorNext(order: seq<nat>, j: nat, pre: seq<bool>, b: Answers, x: bool, sel: int)
    requires |b| == j < |order| && order[j] < |pre|
    ensures Survivor(order[..j + 1], pre, b + [x], sel)
         == if pre[order[j]] && x then order[j] else Survivor(order[..j], pre, b, sel)
  {
    assert order[..j + 1] == order[..j] + [order[j]];
    SurvivorSnoc(order[..j], order[j], pre, b + [x], sel);
    SurvivorHeard(order[..j], pre, b, x, sel);
  }

  // ---------- the invariant ----------

  /** Once a guard has answered ready it is ready and answers ready again. */
  ghost predicate Grows<T>(w: Watched<T>, order: seq<nat>)
    requires S.WellFormed(w.s)
  {
    && |w.b| <= |order|
    && (forall i :: 0 <= i < |w.b| && w.b[i] ==> order[i] < |w.s.guards| && Answer(w.s, order[i]))
    && (forall i, k :: 0 <= i <= k < |w.b| && order[i] == order[k] && w.b[i] ==> w.b[k])
  }

  /** Guard `g` is ready and has always said so while disabling. */
  ghost predicate SaysYes<T>(w: Watched<T>, order: seq<nat>, g: nat)
    requires S.WellFormed(w.s) && |w.b| <= |order|
  {
    g < |w.s.guards| && w.s.pre[g] && S.GuardReady(w.s, g) && forall i :: 0 <= i < |w.b| && order[i] == g ==> w.b[i]
  }

  ghost predicate Heard<T>(w: Watched<T>, order: seq<nat>)
    requires S.WellFormed(w.s)
  {
    && Grows(w, order)
    && (exists g :: SaysYes(w, order, g) && (w.sel != NONE ==> g == w.sel))
    && (forall g :: g in w.on ==> SaysYes(w, order, g))
  }

  ghost predicate Enabled<T>(w: Watched<T>)
    requires S.WellFormed(w.s)
  {
    w.sel == EnableFrom(|w.s.guards|, w.s.next, w.s.pre, w.a, 0)
  }

  /** Each guard of `on` that has been asked while enabling has answered ready. */
  ghost predicate OnSaidYes<T>(w: Watched<T>)
    requires S.WellFormed(w.s)
  {
    forall g :: g in w.on ==>
      && g < |w.s.guards| && w.s.pre[g]
      && (RotInverse(|w.s.guards|, w.s.next, g) < |w.a| ==> w.a[RotInverse(|w.s.guards|, w.s.next, g)])
  }

  /** All attempts that were made have been recorded. */
  ghost predicate AllAsked<T>(w: Watched<T>)
    requires S.WellFormed(w.s) && NONE <= w.sel < |w.s.guards|
  {
    |w.a| == if w.sel == NONE then |w.s.guards| else RotInverse(|w.s.guards|, w.s.next, w.sel) + 1
  }

  ghost predicate AllReady<T>(s: S.State<T>, on: set<nat>)
    requires S.WellFormed(s)
  {
    forall g :: g in on ==> g < |s.guards| && S.GuardReady(s, g)
  }

  /** The selection is over: it is the one computed from the answers, which are consistent. */
  ghost predicate Finished<T>(w: Watched<T>)
    requires S.WellFormed(w.s)
  {
    var order := DisableOrder(|w.s.guards|, w.s.next, w.sel);
    && w.s.selected == Selection(w.s.pre, w.s.next, w.a, w.b) && Consistent(w.s.pre, w.s.next, w.a, w.b)
    && (forall g, j :: g in w.on && 0 <= j < |order| && order[j] == g ==> Said(w.b, j))
  }

  /** Enabling is over and disabling has not begun. */
  ghost predicate Asked<T>(w: Watched<T>)
    requires S.WellFormed(w.s)
  {
    && Enabled(w) && w.b == [] && w.s.selected == w.sel
    && OnSaidYes(w) && AllAsked(w) && AllReady(w.s, w.on)
  }

  ghost predicate Recorded<T>(w: Watched<T>) {
    S.WellFormed(w.s) &&
    var n, s := |w.s.guards|, w.s;
    match s.pc
    case Idle => true
    case EnablingAt(k) =>
      |w.a| == k <= n && w.b == [] && Enabled(w) && w.sel == NONE && OnSaidYes(w) && AllReady(s, w.on)
    case Checking => Asked(w)
    case Asleep(_) => Asked(w)
    case DisablingAt(order, j) =>
      && Enabled(w) && OnSaidYes(w) && AllAsked(w) && |w.b| == j <= |order| && order == DisableOrder(n, s.next, w.sel)
      && s.selected == Survivor(order[..j], s.pre, w.b, w.sel) && Heard(w, order)
    case _ =>
      && Enabled(w) && OnSaidYes(w) && AllAsked(w) && Finished(w)
  }

  ghost predicate Inv<T>(w: Watched<T>) { S.Inv(w.s) && Recorded(w) }

  // ---------- every step keeps it ----------

  /** Only readiness changes between the two states, and it grows. */
  ghost predicate Quietly<T>(s: S.State<T>, t: S.State<T>) {
    && S.WellFormed(s) && S.WellFormed(t)
    && t.guards == s.guards && t.pre == s.pre && t.next == s.next && t.selected == s.selected
    && (forall i :: 0 <= i < |s.guards| && S.GuardReady(s, i) ==> S.GuardReady(t, i))
  }

  lemma ReadinessGrowsEverywhere<T>(s: S.State<T>, e: S.Event<T>)
    requires S.Inv(s) && !s.pc.Idle? && !s.pc.Chosen? && S.Step(s, e).Some?
    requires S.WellFormed(S.Step(s, e).value)
    ensures var t := S.Step(s, e).value;
      forall i :: 0 <= i < |s.guards| && S.GuardReady(s, i) ==> i < |t.guards| && S.GuardReady(t, i)
  {
    forall i | 0 <= i < |s.guards| && S.GuardReady(s, i)
      ensures i < |S.Step(s, e).value.guards| && S.GuardReady(S.Step(s, e).value, i)
    {
      S.ReadyStaysReady(s, e, i);
    }
  }

  lemma HeardGrows<T>(w: Watched<T>, u: Watched<T>, order: seq<nat>)
    requires S.WellFormed(w.s) && Heard(w, order) && Quietly(w.s, u.s) && u == w.(s := u.s)
    ensures Heard(u, order)
  {
    assert forall g :: SaysYes(w, order, g) ==> SaysYes(u, order, g);
  }

  lemma QuietKeeps<T>(w: Watched<T>, u: Watched<T>)
    requires Inv(w) && Quietly(w.s, u.s) && u == w.(s := u.s)
    requires u.s.pc == w.s.pc || (u.s.pc.Asleep? && w.s.pc.Asleep?)
    ensures Recorded(u)
  {
    if w.s.pc.DisablingAt? {
      HeardGrows(w, u, w.s.pc.order);
    }
  }

  predicate ByOthers<T>(e: S.Event<T>) {
    e.WriterEnters? || e.Schedule? || e.WriterLeaves? || e.PoisonIt? || e.Tick?
  }

  /** The others touch nothing that belongs to the selecting process, but may notify it. */
  lemma OthersTouchLittle<T>(s: S.State<T>, e: S.Event<T>)
    requires S.WellFormed(s) && S.Step(s, e).Some? && ByOthers(e)
    ensures var t := S.Step(s, e).value;
      && t.guards == s.guards && t.pre == s.pre && t.next == s.next && t.selected == s.selected
      && (t.pc == s.pc || (t.pc.Asleep? && s.pc.Asleep?))
  {
    match e
    case WriterEnters(_, _) =>
    case Schedule(_) =>
    case _ =>
  }

  lemma ChosenStays<T>(w: Watched<T>, u: Watched<T>)
    requires S.WellFormed(w.s) && Recorded(w) && w.s.pc.Chosen? && u == w.(s := u.s) && u.s.pc == w.s.pc
    requires S.WellFormed(u.s) && u.s.guards == w.s.guards && u.s.pre == w.s.pre && u.s.next == w.s.next
    requires u.s.selected == w.s.selected
    ensures Recorded(u)
  {
  }

  lemma OthersKeep<T>(w: Watched<T>, e: S.Event<T>)
    requires Inv(w) && Step(w, e).Some? && !w.s.pc.Idle? && ByOthers(e)
    ensures Recorded(Step(w, e).value)
  {
    var u := Step(w, e).value;
    assert S.WellFormed(u.s) by {
      S.StepKeepsInv(w.s, e);
    }
    OthersTouchLittle(w.s, e);
    if w.s.pc.Chosen? {
      ChosenStays(w, u);
    } else {
      ReadinessGrowsEverywhere(w.s, e);
      QuietKeeps(w, u);
    }
  }

  lemma BeginKeeps<T>(w: Watched<T>, pre: seq<bool>)
    requires Inv(w) && Step(w, S.Begin(pre)).Some?
    ensures Recorded(Step(w, S.Begin(pre)).value)
  {
    S.StepKeepsInv(w.s, S.Begin(pre));
    var u := Step(w, S.Begin(pre)).value;
    NothingSaid(|pre|, u.s.next, pre, [], 0);
  }

  lemma EnableKeeps<T>(w: Watched<T>)
    requires Inv(w) && Step(w, S.EnableOne).Some? && w.s.pc.k < |w.s.guards|
    ensures Recorded(Step(w, S.EnableOne).value)
  {
    var s, u := w.s, Step(w, S.EnableOne).value;
    var n, k := |s.guards|, s.pc.k;
    var i := Rot(n, s.next, k);
    S.StepKeepsInv(s, S.EnableOne);
    ReadinessGrowsEverywhere(s, S.EnableOne);
    EnableFromSnoc(n, s.next, s.pre, w.a, Answer(s, i), 0);
    assert RotInverse(n, s.next, i) == k;
    forall g | g in u.on ensures RotInverse(n, s.next, g) < |u.a| ==> u.a[RotInverse(n, s.next, g)] {
      if RotInverse(n, s.next, g) == k {
        assert Rot(n, s.next, RotInverse(n, s.next, g)) == g;
      }
    }
  }

  /** One more guard has been asked while disabling. */
  lemma HeardOneMore<T>(w: Watched<T>, u: Watched<T>, order: seq<nat>)
    requires S.WellFormed(w.s) && S.WellFormed(u.s) && Heard(w, order) && |w.b| < |order|
    requires u.s.guards == w.s.guards && u.s.pre == w.s.pre && u.sel == w.sel && u.on == w.on
    requires order[|w.b|] < |w.s.guards| && u.b == w.b + [Answer(w.s, order[|w.b|])]
    requires forall i :: 0 <= i < |w.s.guards| && S.GuardReady(w.s, i) ==> S.GuardReady(u.s, i)
    ensures Heard(u, order)
  {
    assert forall g :: SaysYes(w, order, g) ==> SaysYes(u, order, g);
  }

  lemma DisableTouchesLittle<T>(s: S.State<T>)
    requires S.WellFormed(s) && S.Step(s, S.DisableOne).Some?
    ensures var t := S.Step(s, S.DisableOne).value;
      && t.guards == s.guards && t.pre == s.pre && t.next == s.next
      && t.pc == S.DisablingAt(s.pc.order, s.pc.j + 1)
      && t.selected == (if Answer(s, s.pc.order[s.pc.j]) then s.pc.order[s.pc.j] else s.selected)
  {
  }

  lemma DisableKeeps<T>(w: Watched<T>)
    requires Inv(w) && Step(w, S.DisableOne).Some?
    ensures Recorded(Step(w, S.DisableOne).value)
  {
    var s, u := w.s, Step(w, S.DisableOne).value;
    var order, j := s.pc.order, s.pc.j;
    assert S.WellFormed(u.s) by {
      S.StepKeepsInv(s, S.DisableOne);
    }
    ReadinessGrowsEverywhere(s, S.DisableOne);
    DisableTouchesLittle(s);
    SurvivorNext(order, j, s.pre, w.b, Answer(s, order[j]), w.sel);
    HeardOneMore(w, u, order);
  }

  lemma StartsHearing<T>(w: Watched<T>, t: S.State<T>)
    requires Inv(w) && (w.s.pc.Checking? || w.s.pc.Asleep?) && w.b == [] && S.Inv(t)
    requires t == S.StartDisabling(w.s)
    ensures Recorded(w.(s := t))
  {
    var u := w.(s := t);
    var order := t.pc.order;
    assert order[..0] == [];
    if w.sel != NONE {
      assert SaysYes(u, order, w.sel);
    } else {
      var g: nat :| g < |t.guards| && t.pre[g] && S.GuardReady(t, g);
      assert SaysYes(u, order, g);
    }
  }

  /** Everything has been heard: the answers are consistent and decide the selection. */
  lemma HeardAll<T>(w: Watched<T>)
    requires S.WellFormed(w.s) && NONE <= w.sel < |w.s.guards| && Enabled(w) && OnSaidYes(w)
    requires var order := DisableOrder(|w.s.guards|, w.s.next, w.sel);
      |w.b| == |order| && Heard(w, order) && w.s.selected == Survivor(order, w.s.pre, w.b, w.sel)
    ensures Finished(w)
  {
  }

  lemma EndKeeps<T>(w: Watched<T>)
    requires Inv(w) && Step(w, S.EndDisable).Some?
    ensures Recorded(Step(w, S.EndDisable).value)
  {
    var order := w.s.pc.order;
    S.EndDisableKeeps(w.s);
    assert order[..|order|] == order;
    HeardAll(w);
  }

  lemma EnablingEnds<T>(w: Watched<T>)
    requires Inv(w) && Step(w, S.EnableOne).Some? && w.s.pc.k >= |w.s.guards|
    ensures Recorded(Step(w, S.EnableOne).value)
  {
    S.StepKeepsInv(w.s, S.EnableOne);
    ReadinessGrowsEverywhere(w.s, S.EnableOne);
  }

  lemma OutsideKeeps<T>(w: Watched<T>, e: S.Event<T>)
    requires Inv(w) && Step(w, e).Some? && (ByOthers(e) || e.Close? || e.SetAlarm? || e.Take?)
    ensures Recorded(Step(w, e).value)
  {
    S.StepKeepsInv(w.s, e);
    if ByOthers(e) {
      if w.s.pc.Idle? {
        OthersTouchLittle(w.s, e);
      } else {
        OthersKeep(w, e);
      }
    }
  }

  lemma SelectingKeeps<T>(w: Watched<T>, e: S.Event<T>)
    requires Inv(w) && Step(w, e).Some? && (e.EnableOne? || e.DisableOne? || e.EndDisable?)
    ensures Recorded(Step(w, e).value)
  {
    if e.DisableOne? {
      DisableKeeps(w);
    } else if e.EndDisable? {
      EndKeeps(w);
    } else if w.s.pc.k < |w.s.guards| {
      EnableKeeps(w);
    } else {
      EnablingEnds(w);
    }
  }

  lemma StepKeepsInv<T>(w: Watched<T>, e: S.Event<T>)
    requires Inv(w) && Step(w, e).Some?
    ensures Inv(Step(w, e).value)
  {
    S.StepKeepsInv(w.s, e);
    if e.EnableOne? || e.DisableOne? || e.EndDisable? {
      SelectingKeeps(w, e);
    } else if e.Begin? {
      BeginKeeps(w, e.pre);
    } else if e.WakeNotified? || e.WakeTimeout? || (e.Check? && w.s.state != AltCore.Enabling) {
      StartsHearing(w, S.StartDisabling(w.s));
    } else if !e.Check? {
      OutsideKeeps(w, e);
    }
  }

  lemma RunKeepsInv<T(!new)>(s0: S.State<T>, es: seq<S.Event<T>>)
    requires S.Init(s0) && Run(Step<T>, Start(s0), es).Some?
    ensures Inv(Run(Step<T>, Start(s0), es).value)
  {
    forall w: Watched<T>, e: S.Event<T> | Inv(w) && Step(w, e).Some? ensures Inv(Step(w, e).value) {
      StepKeepsInv(w, e);
    }
    Invariance(Step<T>, Inv<T>, Start(s0), es);
  }

  // ---------- what holds in every run ----------

  /** The state after some watched run. */
  ghost predicate Reached<T(!new)>(w: Watched<T>) {
    exists s0: S.State<T> :: S.Init(s0) && Reachable(Step<T>, Start(s0), w)
  }

  lemma ReachedHasInv<T(!new)>(w: Watched<T>)
    requires Reached(w)
    ensures Inv(w)
  {
    var s0: S.State<T> :| S.Init(s0) && Reachable(Step<T>, Start(s0), w);
    var es: seq<S.Event<T>> :| Run(Step<T>, Start(s0), es) == Some(w);
    RunKeepsInv(s0, es);
  }

  /** The selection made is the one the loops compute from the answers given, and the answers
      are consistent: readiness only grew, and some enabled guard answered ready throughout. */
  lemma RunsSelect<T(!new)>(w: Watched<T>)
    requires Reached(w) && w.s.pc.Chosen?
    ensures w.s.next <= |w.s.pre| == |w.s.guards| && Consistent(w.s.pre, w.s.next, w.a, w.b)
    ensures w.s.selected == Selection(w.s.pre, w.s.next, w.a, w.b) != NONE
  {
    ReachedHasInv(w);
  }

  /** Priority: a selection begun with `_next` = 0 chooses an enabled guard that answered ready
      when it was last asked, and every smaller enabled guard was not ready when it was. */
  lemma PriorityInRuns<T(!new)>(w: Watched<T>, i: nat)
    requires Reached(w) && w.s.pc.Chosen? && w.s.next == 0
    requires i < w.s.selected && i < |w.s.pre| && w.s.pre[i]
    ensures var order := DisableOrder(|w.s.guards|, 0, w.sel);
      LastAskedUnready(order, w.b, i) && !LastAskedUnready(order, w.b, w.s.selected)
  {
    ReachedHasInv(w);
    PriSelectIsLeast(w.s.pre, w.a, w.b, i);
  }

  /** A guard that is ready when a selection begins answers ready whenever it is asked, so the
      choice is `_next`, or not above that guard, and `_next` if that is the guard. */
  lemma ReadyGuardsLimitTheChoice<T(!new)>(w: Watched<T>, g: nat)
    requires Reached(w) && w.s.pc.Chosen? && g in w.on
    ensures w.s.next <= |w.s.pre| && w.sel == EnableFrom(|w.s.pre|, w.s.next, w.s.pre, w.a, 0)
    ensures AnswersReady(w.s.pre, w.s.next, w.a, w.b, w.sel, DisableOrder(|w.s.pre|, w.s.next, w.sel), g)
    ensures w.s.selected == w.s.next || (g != w.s.next && w.s.selected <= g)
  {
    ReachedHasInv(w);
    NestedStopsAt(w.s.pre, w.s.next, w.a, w.b, g);
  }
}
