/** What a selection makes of alting barriers (csp/alt.h:657-927). */
module AltBarriers {
  import opened Runs
  import opened AltCore
  import opened Alt
  import G = AltingBarrier

  /** Question `j` of the disable loops finds a completed barrier. */
  predicate Completes(order: seq<nat>, pre: seq<bool>, b: Answers, barriers: set<nat>, j: nat)
    requires j < |order|
  {
    Yes(order, pre, b, j) && order[j] in barriers
  }

  lemma OneMoreDisabled(order: seq<nat>, pre: seq<bool>, b: Answers, barriers: set<nat>, chosen: int)
    requires order != []
    ensures var last := |order| - 1;
      BarrierAfter(order, pre, b, barriers, chosen)
      == match BarrierAfter(order[..last], pre, b, barriers, chosen)
         case None => None
         case Some(c) =>
           if Completes(order, pre, b, barriers, last) then if c != NONE then None else Some(order[last]) else Some(c)
  {
  }

  lemma {:induction false} BarrierAfterExactly(
    order: seq<nat>, pre: seq<bool>, b: Answers, barriers: set<nat>, chosen: int)
    ensures var r := BarrierAfter(order, pre, b, barriers, chosen);
      && ((forall j :: 0 <= j < |order| ==> !Completes(order, pre, b, barriers, j)) ==> r == Some(chosen))
      && (r.None? <==>
            || (exists i, j :: 0 <= i < j < |order|
                               && Completes(order, pre, b, barriers, i) && Completes(order, pre, b, barriers, j))
            || (chosen != NONE && exists j :: 0 <= j < |order| && Completes(order, pre, b, barriers, j)))
      && (r.Some? ==> forall j :: 0 <= j < |order| && Completes(order, pre, b, barriers, j) ==> r.value == order[j])
    decreases |order|
  {
    if order != [] {
      var last, before := |order| - 1, order[..|order| - 1];
      BarrierAfterExactly(before, pre, b, barriers, chosen);
      forall j | 0 <= j < last ensures Completes(before, pre, b, barriers, j) == Completes(order, pre, b, barriers, j) {
        assert Yes(before, pre, b, j) == Yes(order, pre, b, j);
      }
      assert forall j :: 0 <= j < last && Completes(order, pre, b, barriers, j) ==>
        Completes(before, pre, b, barriers, j);
      OneMoreDisabled(order, pre, b, barriers, chosen);
    }
  }

  /** Question `k` of a selection finds a completed barrier: number 0 is the one that stopped
      enabling, the others are those of the disable loops. */
  ghost predicate FindsBarrier(barriers: set<nat>, pre: seq<bool>, next: nat, a: Answers, b: Answers, k: nat)
    requires next <= |pre|
  {
    var sel := EnableFrom(|pre|, next, pre, a, 0);
    var order := DisableOrder(|pre|, next, sel);
    if k == 0 then BarrierEnabled(barriers, sel) != NONE
    else k - 1 < |order| && Completes(order, pre, b, barriers, k - 1)
  }

  /** The guard that question is put to. */
  ghost function AskedBy(pre: seq<bool>, next: nat, a: Answers, k: nat): int
    requires next <= |pre|
  {
    var sel := EnableFrom(|pre|, next, pre, a, 0);
    var order := DisableOrder(|pre|, next, sel);
    if k == 0 then sel else if k - 1 < |order| then order[k - 1] else NONE
  }

  /** A completed barrier is chosen whatever else is ready, without one the selection is as
      ever, and a second one makes it fail, which AltingBarrierSystem.NoSanityCheckFails shows
      never to happen.  As written the alt never gets to know of one: `barriers` is empty. */
  lemma BarrierComesFirst(
    guards: seq<Guard>, barriers: set<nat>, pre: seq<bool>, next: nat, a: Answers, b: Answers, d: Deadline)
    requires next <= |guards| == |pre|
    ensures var r := Chosen(guards, barriers, pre, next, a, b, d);
      && (r.None? <==>
            exists i, k :: i < k && FindsBarrier(barriers, pre, next, a, b, i)
                           && FindsBarrier(barriers, pre, next, a, b, k))
      && (r.Some? ==> forall k :: FindsBarrier(barriers, pre, next, a, b, k) ==> r.value == AskedBy(pre, next, a, k))
      && ((forall k :: !FindsBarrier(barriers, pre, next, a, b, k)) ==> r == Some(Outcome(guards, pre, next, a, b, d)))
  {
    var sel := EnableFrom(|pre|, next, pre, a, 0);
    var order := DisableOrder(|pre|, next, sel);
    BarrierAfterExactly(order, pre, b, barriers, BarrierEnabled(barriers, sel));
    assert forall j :: 0 <= j < |order| ==>
      FindsBarrier(barriers, pre, next, a, b, j + 1) == Completes(order, pre, b, barriers, j);
    assert FindsBarrier(barriers, pre, next, a, b, 0) <==> BarrierEnabled(barriers, sel) != NONE;
  }

  // ---------- the coordinator ----------

  /** The count after these calls, and whether all their checks passed. */
  function AfterCalls(active: nat, calls: seq<Call>): (nat, bool)
    decreases |calls|
  {
    if calls == [] then (active, true)
    else
      var (a, ok) := AfterCalls(active, calls[..|calls| - 1]);
      var (b, passed) :=
        match calls[|calls| - 1]
        case StartEnable => G.StartEnable(a)
        case FinishEnable => G.FinishEnable(a)
        case FinishDisable => G.FinishDisable(a);
      (b, ok && passed)
  }

  /** The enable sequence of an alt that the coordinator lets in, in which the guard `sel` calls
      `start_disable` for `n` members if it completes a barrier.  `triggering` are the barriers
      whose completion the alt gets to know of. */
  function Enabling(present: bool, barriers: set<nat>, triggering: set<nat>, sel: int, n: nat): (nat, bool) {
    var calls := EnableCalls(present, triggering, sel);
    if BarrierEnabled(barriers, sel) == NONE then AfterCalls(0, calls)
    else
      var (a, ok) := AfterCalls(0, calls[..if calls == [] then 0 else 1]);
      var (b, started) := G.StartDisable(a, n);
      var (c, rest) := AfterCalls(b, if calls == [] then [] else calls[1..]);
      (c, ok && started && rest)
  }

  lemma FewCalls(active: nat, c: Call, d: Call)
    ensures AfterCalls(active, []) == (active, true)
    ensures AfterCalls(active, [c])
         == match c
            case StartEnable => G.StartEnable(active)
            case FinishEnable => G.FinishEnable(active)
            case FinishDisable => G.FinishDisable(active)
    ensures AfterCalls(active, [c, d])
         == var (a, ok) := AfterCalls(active, [c]);
            var (b, passed) := AfterCalls(a, [d]);
            (b, ok && passed)
  {
    assert [c][..0] == [] && [d][..0] == [] && [c, d][..1] == [c];
  }

  /** With the flag repaired, the enable sequence passes all checks of the coordinator and gives
      it back, or leaves the members of the barrier it completed to be disabled.  As written it
      passes them after a completion only when the barrier has a single member. */
  lemma EnablingGivesTheTurnBack(barriers: set<nat>, sel: int, n: nat)
    requires barriers != {} && n > 0
    ensures Enabling(true, barriers, barriers, sel, n)
         == (if BarrierEnabled(barriers, sel) != NONE then n else 0, true)
    ensures Enabling(true, barriers, {}, sel, n).1 <==> BarrierEnabled(barriers, sel) == NONE || n == 1
    ensures Enabling(false, {}, {}, sel, n) == (0, true)
  {
    FewCalls(0, StartEnable, FinishEnable);
    FewCalls(n, FinishEnable, FinishEnable);
    assert [StartEnable][..1] == [StartEnable] && [StartEnable][1..] == [];
    assert [StartEnable, FinishEnable][..1] == [StartEnable] && [StartEnable, FinishEnable][1..] == [FinishEnable];
  }

  /** A selection that chose a barrier is one of its members and takes itself off the count, at
      its end; one that did not leaves the count alone.  A barrier found while enabling is the
      one chosen. */
  lemma SelectionPaysOnce(
    barriers: set<nat>, pre: seq<bool>, next: nat, a: Answers, b: Answers, active: nat)
    requires next <= |pre| && BarrierFound(barriers, pre, next, a, b).Some?
    ensures var c := BarrierFound(barriers, pre, next, a, b).value;
      var early := BarrierEnabled(barriers, EnableFrom(|pre|, next, pre, a, 0));
      && (early != NONE ==> c == early)
      && (c == NONE ==> AfterCalls(active, LastCall(true, c)) == (active, true))
      && (c != NONE && active > 0 ==> AfterCalls(active, LastCall(true, c)) == (active - 1, true))
  {
    var sel := EnableFrom(|pre|, next, pre, a, 0);
    BarrierAfterExactly(DisableOrder(|pre|, next, sel), pre, b, barriers, BarrierEnabled(barriers, sel));
    FewCalls(active, FinishDisable, FinishDisable);
  }
}
