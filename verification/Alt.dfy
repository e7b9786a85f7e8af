/** The loops of `alt_internal` (csp/alt.h:657-964), run against whatever the guards answer.
    What alting barriers do when they are enabled or disabled is in AltingBarrier.dfy; here
    are the trigger they set, the barrier selected and the calls of their coordinator. */
module Alt {
  import opened AltCore
  import opened Runs

  /** What the guards answer: `a[j]` is the answer to the `j`-th question. */
  type Answers = seq<bool>

  predicate Said(a: Answers, j: nat) { j < |a| && a[j] }

  /** Attempts `k..n` of enabling: the guard that stops it, or NONE. */
  function EnableFrom(n: nat, next: nat, pre: seq<bool>, a: Answers, k: nat): (sel: int)
    requires next <= n == |pre| && k <= n
    ensures NONE <= sel < n
    decreases n - k
  {
    if k == n then NONE
    else
      var i := Rot(n, next, k);
      if pre[i] && Said(a, k) then i else EnableFrom(n, next, pre, a, k + 1)
  }

  /** The deadline after the timers among the first `k` attempts registered. */
  function DueAfter(guards: seq<Guard>, next: nat, pre: seq<bool>, d: Deadline, k: nat): Deadline
    requires next <= |guards| == |pre| && k <= |guards|
  {
    if k == 0 then d
    else
      var i := Rot(|guards|, next, k - 1);
      var before := DueAfter(guards, next, pre, d, k - 1);
      if pre[i] && guards[i].OnTimer? then SetTimeout(before, guards[i].alarm, i) else before
  }

  ghost predicate TimerAsked(guards: seq<Guard>, next: nat, pre: seq<bool>, k: nat)
    requires next <= |guards| == |pre|
  {
    k < |guards| && pre[Rot(|guards|, next, k)] && guards[Rot(|guards|, next, k)].OnTimer?
  }

  /** The deadline is that of the timer asked first among those with the earliest alarm. */
  lemma {:induction false} DueIsTheFirst(guards: seq<Guard>, next: nat, pre: seq<bool>, d: Deadline, k: nat)
    returns (j: nat)
    requires next <= |guards| == |pre| && k <= |guards| && !d.timeout
    ensures var due := DueAfter(guards, next, pre, d, k);
      && (!due.timeout <==> forall i: nat :: i < k ==> !TimerAsked(guards, next, pre, i))
      && (due.timeout ==>
            && j < k && TimerAsked(guards, next, pre, j) && due.index == Rot(|guards|, next, j)
            && due.time == guards[due.index].alarm
            && forall i: nat :: i < k && TimerAsked(guards, next, pre, i) ==>
                 var alarm := guards[Rot(|guards|, next, i)].alarm;
                 if i < j then due.time < alarm else due.time <= alarm)
    decreases k
  {
    j := 0;
    if k > 0 {
      j := DueIsTheFirst(guards, next, pre, d, k - 1);
      var before := DueAfter(guards, next, pre, d, k - 1);
      var i := Rot(|guards|, next, k - 1);
      if TimerAsked(guards, next, pre, k - 1) && !(before.timeout && before.time <= guards[i].alarm) {
        j := k - 1;
      }
    }
  }

  /** The selection after the guards `order` were disabled: each one that
      answers ready overrides what was selected before. */
  function Survivor(order: seq<nat>, pre: seq<bool>, a: Answers, sel: int): int
    decreases |order|
  {
    if order == [] then sel
    else
      var last, before := |order| - 1, Survivor(order[..|order| - 1], pre, a, sel);
      if order[last] < |pre| && pre[order[last]] && Said(a, last) then order[last] else before
  }

  lemma SurvivorSnoc(order: seq<nat>, i: nat, pre: seq<bool>, a: Answers, sel: int)
    ensures Survivor(order + [i], pre, a, sel)
         == if i < |pre| && pre[i] && Said(a, |order|) then i else Survivor(order, pre, a, sel)
  {
    assert (order + [i])[..|order|] == order;
  }

  /** What the question to guard `i` of a backward loop contributes. */
  lemma OneQuestion(before: seq<nat>, start: int, i: nat, pre: seq<bool>, a: Answers, sel: int)
    requires i <= start
    ensures var asked := before + Down(start, i + 1);
      && before + Down(start, i) == asked + [i]
      && Survivor(asked + [i], pre, a, sel)
         == if i < |pre| && pre[i] && Said(a, |asked|) then i else Survivor(asked, pre, a, sel)
  {
    SurvivorSnoc(before + Down(start, i + 1), i, pre, a, sel);
    OneMoreGuard(before, start, i);
  }

  lemma DownPrefix(before: seq<nat>, start: int, i: nat)
    requires i <= start
    ensures before + Down(start, i + 1) + [i] <= before + Down(start, 0)
  {
    OneMoreGuard(before, start, i);
    assert Down(start, i) == Down(start, 0)[..start - i + 1];
  }

  /** What attempt `k`, which asks guard `i`, contributes. */
  lemma OneAttempt(guards: seq<Guard>, next: nat, pre: seq<bool>, a: Answers, d: Deadline, i: nat, k: nat)
    requires next <= |guards| == |pre| && k < |guards| && i == Rot(|guards|, next, k)
    ensures RotInverse(|guards|, next, i) == k
    ensures EnableFrom(|guards|, next, pre, a, k)
         == if pre[i] && Said(a, k) then i else EnableFrom(|guards|, next, pre, a, k + 1)
    ensures DueAfter(guards, next, pre, d, k + 1)
         == var before := DueAfter(guards, next, pre, d, k);
            if pre[i] && guards[i].OnTimer? then SetTimeout(before, guards[i].alarm, i) else before
  {
  }

  lemma {:induction false} SurvivorInRange(order: seq<nat>, pre: seq<bool>, a: Answers, sel: int)
    requires NONE <= sel < |pre|
    ensures NONE <= Survivor(order, pre, a, sel) < |pre|
    ensures sel != NONE ==> Survivor(order, pre, a, sel) != NONE
    decreases |order|
  {
    if order != [] {
      SurvivorInRange(order[..|order| - 1], pre, a, sel);
    }
  }

  function Selection(pre: seq<bool>, next: nat, a: Answers, b: Answers): (r: int)
    requires next <= |pre|
    ensures NONE <= r < |pre|
  {
    var sel := EnableFrom(|pre|, next, pre, a, 0);
    SurvivorInRange(DisableOrder(|pre|, next, sel), pre, b, sel);
    Survivor(DisableOrder(|pre|, next, sel), pre, b, sel)
  }

  /** The selection, or the timer registered for the earliest alarm if nobody answered ready. */
  function Outcome(guards: seq<Guard>, pre: seq<bool>, next: nat, a: Answers, b: Answers, d: Deadline): (r: int)
    requires next <= |guards| == |pre|
  {
    var sel := Selection(pre, next, a, b);
    if sel == NONE then DueAfter(guards, next, pre, d, |guards|).index else sel
  }

  // ---------- alting barriers ----------

  /** The calls that a selection makes of the coordinator. */
  datatype Call = StartEnable | FinishEnable | FinishDisable

  /** The guard found to be a completed barrier after the guards `order` were disabled, where
      `chosen` was found before; `None` when a second one is found, for which the source throws. */
  function BarrierAfter(order: seq<nat>, pre: seq<bool>, a: Answers, barriers: set<nat>, chosen: int): Option<int>
    decreases |order|
  {
    if order == [] then Some(chosen)
    else
      var last := |order| - 1;
      match BarrierAfter(order[..last], pre, a, barriers, chosen)
      case None => None
      case Some(c) =>
        if order[last] < |pre| && pre[order[last]] && Said(a, last) && order[last] in barriers then
          if c != NONE then None else Some(order[last])
        else Some(c)
  }

  lemma BarrierSnoc(order: seq<nat>, i: nat, pre: seq<bool>, a: Answers, barriers: set<nat>, chosen: int)
    ensures BarrierAfter(order + [i], pre, a, barriers, chosen)
         == match BarrierAfter(order, pre, a, barriers, chosen)
            case None => None
            case Some(c) =>
              if i < |pre| && pre[i] && Said(a, |order|) && i in barriers then if c != NONE then None else Some(i)
              else Some(c)
  {
    assert (order + [i])[..|order|] == order;
  }

  lemma {:induction false} StaysFailed(
    order: seq<nat>, longer: seq<nat>, pre: seq<bool>, a: Answers, barriers: set<nat>, chosen: int)
    requires order <= longer && BarrierAfter(order, pre, a, barriers, chosen).None?
    ensures BarrierAfter(longer, pre, a, barriers, chosen).None?
    decreases |longer|
  {
    if |order| < |longer| {
      StaysFailed(order, longer[..|longer| - 1], pre, a, barriers, chosen);
    } else {
      assert order == longer;
    }
  }

  lemma PassFails(
    before: seq<nat>, m: nat, k: nat, start: int, n: nat,
    pre: seq<bool>, a: Answers, barriers: set<nat>, chosen: int)
    requires m <= k && BarrierAfter(before + Passes(m, start, n), pre, a, barriers, chosen).None?
    ensures BarrierAfter(before + Passes(k, start, n), pre, a, barriers, chosen).None?
  {
    PassesPrefix(m, k, start, n);
    StaysFailed(before + Passes(m, start, n), before + Passes(k, start, n), pre, a, barriers, chosen);
  }

  lemma {:induction false} BarrierInRange(order: seq<nat>, pre: seq<bool>, a: Answers, barriers: set<nat>, chosen: int)
    requires NONE <= chosen < |pre|
    ensures var c := BarrierAfter(order, pre, a, barriers, chosen); c.Some? ==> NONE <= c.value < |pre|
    decreases |order|
  {
    if order != [] {
      BarrierInRange(order[..|order| - 1], pre, a, barriers, chosen);
    }
  }

  /** The barrier that enabling completed, if that is what stopped it. */
  function BarrierEnabled(barriers: set<nat>, sel: int): int { if sel >= 0 && sel in barriers then sel else NONE }

  /** The barrier that one selection finds completed. */
  function BarrierFound(barriers: set<nat>, pre: seq<bool>, next: nat, a: Answers, b: Answers): Option<int>
    requires next <= |pre|
  {
    var sel := EnableFrom(|pre|, next, pre, a, 0);
    BarrierAfter(DisableOrder(|pre|, next, sel), pre, b, barriers, BarrierEnabled(barriers, sel))
  }

  /** What is selected: the barrier found, and otherwise what `Outcome` says. */
  function Chosen(
    guards: seq<Guard>, barriers: set<nat>, pre: seq<bool>, next: nat, a: Answers, b: Answers, d: Deadline)
    : Option<int>
    requires next <= |guards| == |pre|
  {
    match BarrierFound(barriers, pre, next, a, b)
    case None => None
    case Some(c) => Some(if c != NONE then c else Outcome(guards, pre, next, a, b, d))
  }

  /** How the parts of one selection make up what it chooses. */
  lemma ChosenInParts(
    guards: seq<Guard>, barriers: set<nat>, pre: seq<bool>, next: nat, a: Answers, b: Answers, d: Deadline)
    requires next <= |guards| == |pre|
    ensures var sel := EnableFrom(|pre|, next, pre, a, 0);
      var r, c := Survivor(DisableOrder(|pre|, next, sel), pre, b, sel), BarrierFound(barriers, pre, next, a, b);
      && (r == NONE ==> sel == NONE)
      && (c.None? ==> Chosen(guards, barriers, pre, next, a, b, d).None?)
      && (c.Some? ==>
            Chosen(guards, barriers, pre, next, a, b, d)
            == Some(if c.value != NONE then c.value
                    else if r == NONE then DueAfter(guards, next, pre, d, |guards|).index else r))
  {
    var sel := EnableFrom(|pre|, next, pre, a, 0);
    SurvivorInRange(DisableOrder(|pre|, next, sel), pre, b, sel);
  }

  /** What enabling that ended with `sel` asks of the coordinator, if there are barriers. */
  function EnableCalls(present: bool, barriers: set<nat>, sel: int): seq<Call> {
    if !present then []
    else if BarrierEnabled(barriers, sel) != NONE then [StartEnable]
    else [StartEnable, FinishEnable]
  }

  /** The call at the end, where the source has `finish_enable` (alt.h:852 and 925). */
  function LastCall(repaired: bool, c: int): seq<Call> {
    if c == NONE then [] else if repaired then [FinishDisable] else [FinishEnable]
  }

  /** `barriers` are the guards that are alting barriers.  As the source has it
      `set_barrier_trigger` stores 0 (alt.h:239); `repaired` has it store 1, and
      `finish_disable` called at the end of a selection that found a completed barrier. */
  class AltInternal {
    const guards: seq<Guard>
    const barriers: set<nat>
    const repaired: bool
    const barrierPresent: bool
    var next: int
    var selected: int
    var state: AltState
    var due: Deadline
    var enableIndex: int
    var barrierTrigger: bool
    var barrierSelected: int
    var calls: seq<Call>

    ghost predicate Valid() reads this {
      && 0 < |guards| && 0 <= next <= |guards| && NONE <= selected < |guards| && NONE <= due.index < |guards|
      && NONE <= barrierSelected < |guards| && !barrierTrigger && barrierPresent == (barriers != {})
    }

    /** The guards whose completion the alt gets to know of. */
    function Triggering(): set<nat> { if repaired then barriers else {} }

    constructor (guards: seq<Guard>, barriers: set<nat>, repaired: bool)
      requires guards != []
      ensures Valid() && this.guards == guards && this.barriers == barriers && this.repaired == repaired
      ensures next == 0 && !due.timeout && calls == []
    {
      this.guards, this.barriers, this.repaired := guards, barriers, repaired;
      barrierPresent := barriers != {};
      next, selected, state := 0, NONE, Inactive;
      due, enableIndex := Deadline(false, 0, NONE), NONE;
      barrierTrigger, barrierSelected, calls := false, NONE, [];
    }

    method RegisterTimeout(time: int)
      modifies this`due
      ensures due == SetTimeout(old(due), time, enableIndex)
    {
      if due.timeout {
        if time < due.time {
          due := Deadline(true, time, enableIndex);
        }
      } else {
        due := Deadline(true, time, enableIndex);
      }
    }

    /** `enable` of a guard that is not ready: a timer registers its alarm (timer.h:72). */
    method EnableUnready(i: nat)
      requires i < |guards| && enableIndex == i
      modifies this`due
      ensures due == if guards[i].OnTimer? then SetTimeout(old(due), guards[i].alarm, i) else old(due)
    {
      if guards[i].OnTimer? {
        RegisterTimeout(guards[i].alarm);
      }
    }

    /** A barrier that answers ready has called `set_barrier_trigger`. */
    method SetTrigger(i: nat)
      modifies this`barrierTrigger
      ensures barrierTrigger == if i in barriers then repaired else old(barrierTrigger)
    {
      if i in barriers {
        barrierTrigger := repaired;
      }
    }

    /** What the two enable loops do when guard `i` is ready. */
    method StopEnabling(i: nat)
      requires Valid() && i < |guards| && barrierSelected == NONE
      modifies `selected, `state, `barrierTrigger, `barrierSelected, `calls
      ensures Valid() && selected == i && state == Ready
      ensures barrierSelected == BarrierEnabled(Triggering(), i)
      ensures calls == old(calls) + if barrierPresent && barrierSelected == NONE then [FinishEnable] else []
    {
      SetTrigger(i);
      selected := i;
      state := Ready;
      if barrierTrigger {
        barrierSelected := selected;
        barrierTrigger := false;
      } else if barrierPresent {
        calls := calls + [FinishEnable];
      }
    }

    /** One of the two enable loops, which differ only in their bounds: guards `from..to`,
        the first of them at attempt `k`. */
    method EnableSpan(pre: seq<bool>, a: Answers, from: nat, to: nat, ghost k: nat, ghost d: Deadline)
      returns (found: bool)
      requires Valid() && |pre| == |guards| && barrierSelected == NONE
      requires (from == next && to == |guards| && k == 0) || (from == 0 && to == next && k == |guards| - next)
      requires due == DueAfter(guards, next, pre, d, k)
      modifies `selected, `state, `due, `enableIndex, `barrierTrigger, `barrierSelected, `calls
      ensures Valid()
      ensures found ==> from <= selected < to && state == Ready
      ensures found ==> EnableFrom(|guards|, next, pre, a, k) == selected
      ensures found ==> barrierSelected == BarrierEnabled(Triggering(), selected)
      ensures found ==>
        calls == old(calls) + if barrierPresent && barrierSelected == NONE then [FinishEnable] else []
      ensures !found ==> state == old(state) && selected == old(selected)
      ensures !found ==> barrierSelected == NONE && calls == old(calls)
      ensures !found ==>
        EnableFrom(|guards|, next, pre, a, k) == EnableFrom(|guards|, next, pre, a, k + to - from)
      ensures due == DueAfter(guards, next, pre, d, if found then k + selected - from else k + to - from)
    {
      enableIndex := from;
      ghost var m := k;
      while enableIndex < to
        invariant Valid() && from <= enableIndex <= to && state == old(state) && selected == old(selected)
        invariant barrierSelected == NONE && calls == old(calls)
        invariant m == k + enableIndex - from
        invariant EnableFrom(|guards|, next, pre, a, k) == EnableFrom(|guards|, next, pre, a, m)
        invariant due == DueAfter(guards, next, pre, d, m)
      {
        OneAttempt(guards, next, pre, a, d, enableIndex, m);
        m := m + 1;
        if pre[enableIndex] {
          var answer := Said(a, RotInverse(|guards|, next, enableIndex));
          if answer {
            StopEnabling(enableIndex);
            return true;
          }
          EnableUnready(enableIndex);
        }
        enableIndex := enableIndex + 1;
      }
      found := false;
    }

    method EnableGuards(pre: seq<bool>, a: Answers)
      requires Valid() && |pre| == |guards|
      modifies this
      ensures Valid() && next == old(next)
      ensures selected == EnableFrom(|guards|, next, pre, a, 0)
      ensures state == if selected == NONE then old(state) else Ready
      ensures due == DueAfter(guards, next, pre, old(due),
                              if selected == NONE then |guards| else RotInverse(|guards|, next, selected))
      ensures barrierSelected == BarrierEnabled(Triggering(), selected)
      ensures calls == old(calls) + EnableCalls(barrierPresent, Triggering(), selected)
    {
      if barrierPresent {
        calls := calls + [StartEnable];
      }
      barrierSelected := NONE;
      var found := EnableSpan(pre, a, next, |guards|, 0, due);
      if found {
        return;
      }
      found := EnableSpan(pre, a, 0, next, |guards| - next, old(due));
      if found {
        return;
      }
      selected := NONE;
      if barrierPresent {
        calls := calls + [FinishEnable];
      }
    }

    /** Guard `i` has answered ready while disabling; `ok` is false where the source throws. */
    method FoundReady(i: nat) returns (ok: bool)
      requires Valid() && i < |guards|
      modifies `selected, `barrierTrigger, `barrierSelected
      ensures ok == !(i in Triggering() && old(barrierSelected) != NONE)
      ensures ok ==> Valid() && selected == i
      ensures ok ==> barrierSelected == if i in Triggering() then i else old(barrierSelected)
    {
      SetTrigger(i);
      selected := i;
      if barrierTrigger {
        if barrierSelected != NONE {
          return false;
        }
        barrierSelected := selected;
        barrierTrigger := false;
      }
      ok := true;
    }

    /** One backward disable loop: guards `start`, ..., 0. */
    method DisableDown(pre: seq<bool>, a: Answers, start: int, before: seq<nat>, ghost sel: int, ghost chosen: int)
      returns (asked: seq<nat>, ok: bool)
      requires Valid() && |pre| == |guards| && -1 <= start < |guards|
      requires selected == Survivor(before, pre, a, sel)
      requires BarrierAfter(before, pre, a, Triggering(), chosen) == Some(barrierSelected)
      modifies `selected, `barrierTrigger, `barrierSelected
      ensures ok ==> Valid() && asked == before + Down(start, 0) && selected == Survivor(asked, pre, a, sel)
      ensures ok ==> BarrierAfter(asked, pre, a, Triggering(), chosen) == Some(barrierSelected)
      ensures !ok ==> BarrierAfter(before + Down(start, 0), pre, a, Triggering(), chosen).None?
    {
      asked := before;
      var i := start;
      ghost var rest := start + 1;
      while i >= 0
        invariant -1 <= i <= start && Valid() && rest == i + 1
        invariant asked == before + Down(start, rest)
        invariant selected == Survivor(asked, pre, a, sel)
        invariant BarrierAfter(asked, pre, a, Triggering(), chosen) == Some(barrierSelected)
      {
        OneQuestion(before, start, i, pre, a, sel);
        BarrierSnoc(asked, i, pre, a, Triggering(), chosen);
        if pre[i] && Said(a, |asked|) {
          ok := FoundReady(i);
          if !ok {
            DownPrefix(before, start, i);
            StaysFailed(asked + [i], before + Down(start, 0), pre, a, Triggering(), chosen);
            return;
          }
        }
        asked := asked + [i];
        rest := i;
        i := i - 1;
      }
      ok := true;
    }

    /** The copied inner loop, inside turn `m` of the `turns` of the outer one. */
    method NestedTurn(
      pre: seq<bool>, a: Answers, start: int, so: seq<nat>, ghost before: seq<nat>, ghost first: int, ghost m: nat,
      ghost turns: nat, ghost sel: int, ghost chosen: int) returns (asked: seq<nat>, ok: bool)
      requires Valid() && |pre| == |guards| && -1 <= start < |guards| && m < turns
      requires start == (if m == 0 then first else |guards| - 1) && so == before + Passes(m, first, |guards|)
      requires selected == Survivor(so, pre, a, sel)
      requires BarrierAfter(so, pre, a, Triggering(), chosen) == Some(barrierSelected)
      modifies `selected, `barrierTrigger, `barrierSelected
      ensures ok ==> Valid() && asked == before + Passes(m + 1, first, |guards|)
      ensures ok ==> selected == Survivor(asked, pre, a, sel)
      ensures ok ==> BarrierAfter(asked, pre, a, Triggering(), chosen) == Some(barrierSelected)
      ensures !ok ==> BarrierAfter(before + Passes(turns, first, |guards|), pre, a, Triggering(), chosen).None?
    {
      assert so + Down(start, 0) == before + Passes(m + 1, first, |guards|) by {
        OneMorePassAfter(before, m, first, |guards|);
      }
      asked, ok := DisableDown(pre, a, start, so, sel, chosen);
      if !ok {
        PassFails(before, m + 1, turns, first, |guards|, pre, a, Triggering(), chosen);
      }
    }

    /** The loop nested in a copy of itself. */
    method NestedDisable(pre: seq<bool>, a: Answers, first: int, before: seq<nat>, ghost sel: int, ghost chosen: int)
      returns (asked: seq<nat>, ok: bool)
      requires Valid() && |pre| == |guards| && next - 1 <= first < |guards|
      requires selected == Survivor(before, pre, a, sel)
      requires BarrierAfter(before, pre, a, Triggering(), chosen) == Some(barrierSelected)
      modifies `selected, `barrierTrigger, `barrierSelected
      ensures ok ==> Valid() && asked == before + Passes(first - next + 1, first, |guards|)
      ensures ok ==> selected == Survivor(asked, pre, a, sel)
      ensures ok ==> BarrierAfter(asked, pre, a, Triggering(), chosen) == Some(barrierSelected)
      ensures !ok ==>
        BarrierAfter(before + Passes(first - next + 1, first, |guards|), pre, a, Triggering(), chosen).None?
    {
      asked, ok := before, true;
      var start, i := first, first;
      ghost var turns := first - next + 1;
      ghost var m := 0;
      assert before + Passes(0, first, |guards|) == before;
      while ok && i >= next
        invariant next - 1 <= i <= first && m == first - i && 0 <= m <= turns
        invariant start == if m == 0 then first else |guards| - 1
        invariant ok ==> Valid() && asked == before + Passes(m, first, |guards|)
        invariant ok ==> selected == Survivor(asked, pre, a, sel)
        invariant ok ==> BarrierAfter(asked, pre, a, Triggering(), chosen) == Some(barrierSelected)
        invariant !ok ==> BarrierAfter(before + Passes(turns, first, |guards|), pre, a, Triggering(), chosen).None?
        decreases i
      {
        asked, ok := NestedTurn(pre, a, start, asked, before, first, m, turns, sel, chosen);
        m := m + 1;
        start := |guards| - 1;
        i := i - 1;
      }
    }

    /** The guards before `_next`, when something beyond them was selected or nothing was. */
    method DisableFirst(pre: seq<bool>, a: Answers) returns (asked: seq<nat>, start: int, ok: bool)
      requires Valid() && |pre| == |guards| && selected != next
      modifies `selected, `barrierTrigger, `barrierSelected
      ensures ok ==> Valid() && asked == FirstOrder(next, old(selected))
      ensures ok ==> start == NestedStart(|guards|, next, old(selected))
      ensures ok ==> selected == Survivor(asked, pre, a, old(selected))
      ensures ok ==> BarrierAfter(asked, pre, a, Triggering(), old(barrierSelected)) == Some(barrierSelected)
      ensures !ok ==>
        BarrierAfter(FirstOrder(next, old(selected)), pre, a, Triggering(), old(barrierSelected)).None?
    {
      start := if selected == NONE then next - 1 else selected - 1;
      if selected < next {
        NothingBefore(Down(start, 0));
        asked, ok := DisableDown(pre, a, start, [], selected, barrierSelected);
        start := |guards| - 1;
      } else {
        asked, ok := [], true;
      }
    }

    /** Both disable loops. */
    method DisableLoops(pre: seq<bool>, a: Answers) returns (asked: seq<nat>, ok: bool)
      requires Valid() && |pre| == |guards| && selected != next
      modifies `selected, `barrierTrigger, `barrierSelected
      ensures ok ==> Valid() && asked == DisableOrder(|guards|, next, old(selected))
      ensures ok ==> selected == Survivor(asked, pre, a, old(selected))
      ensures ok ==> BarrierAfter(asked, pre, a, Triggering(), old(barrierSelected)) == Some(barrierSelected)
      ensures !ok ==>
        BarrierAfter(DisableOrder(|guards|, next, old(selected)), pre, a, Triggering(), old(barrierSelected)).None?
    {
      ghost var sel, chosen := selected, barrierSelected;
      var start;
      NestedOrder(|guards|, next, selected);
      asked, start, ok := DisableFirst(pre, a);
      if !ok {
        StaysFailed(FirstOrder(next, sel), DisableOrder(|guards|, next, sel), pre, a, Triggering(), chosen);
        return;
      }
      asked, ok := NestedDisable(pre, a, start, asked, sel, chosen);
    }

    /** `disable_guards`, with the second loop nested in a copy of itself as it is in the
        source; `asked` lists the guards in the order they were reached.  `ok` is false when the
        source throws because a second barrier completed. */
    method DisableGuards(pre: seq<bool>, a: Answers) returns (asked: seq<nat>, ok: bool)
      requires Valid() && |pre| == |guards|
      modifies `selected, `barrierTrigger, `barrierSelected, `calls
      ensures ok == BarrierAfter(DisableOrder(|guards|, next, old(selected)), pre, a, Triggering(),
                                 old(barrierSelected)).Some?
      ensures ok ==> Valid() && asked == DisableOrder(|guards|, next, old(selected))
      ensures ok ==> BarrierAfter(asked, pre, a, Triggering(), old(barrierSelected)) == Some(barrierSelected)
      ensures ok ==> calls == old(calls) + LastCall(repaired, barrierSelected)
      ensures ok ==> selected == var r := Survivor(asked, pre, a, old(selected));
                                 if barrierSelected != NONE then barrierSelected
                                 else if r == NONE && old(selected) != next then due.index else r
    {
      asked, ok := [], true;
      if selected != next {
        asked, ok := DisableLoops(pre, a);
        if !ok {
          return;
        }
        if selected == NONE {
          selected := due.index;
        }
      }
      if barrierSelected != NONE {
        selected := barrierSelected;
        calls := calls + [if repaired then FinishDisable else FinishEnable];
      }
    }

    /** `do_select` (alt.h:609-655): enable, sleep if nothing was ready, disable.  `a` are
        the answers while enabling, `b` those while disabling.  When nobody ever answers ready
        it falls back on the earliest timer; AltHistory shows that no run gets there.  `None`
        is the exception for a second completed barrier, which `noexcept` makes final. */
    method DoSelect(pre: seq<bool>, a: Answers, b: Answers) returns (r: Option<int>)
      requires Valid() && |pre| == |guards| && !due.timeout
      modifies this
      ensures next == old(next) && r == Chosen(guards, Triggering(), pre, next, a, b, old(due))
      ensures r.Some? ==> Valid() && state == Inactive && !due.timeout && selected == r.value
      ensures r.Some? ==>
        calls == old(calls) + EnableCalls(barrierPresent, Triggering(), EnableFrom(|pre|, next, pre, a, 0))
               + LastCall(repaired, BarrierFound(Triggering(), pre, next, a, b).value)
    {
      ChosenInParts(guards, Triggering(), pre, next, a, b, due);
      r := None;
      state := Enabling;
      EnableGuards(pre, a);
      if state == Enabling {
        state := Waiting;
        state := Ready;
      }
      var _, ok := DisableGuards(pre, b);
      if ok {
        state := Inactive;
        due := due.(timeout := false);
        r := Some(selected);
      }
    }

    method PriSelect(pre: seq<bool>, a: Answers, b: Answers) returns (r: Option<int>)
      requires Valid() && |pre| == |guards| && !due.timeout
      modifies this
      ensures r == Chosen(guards, Triggering(), pre, 0, a, b, old(due))
      ensures r.Some? ==> Valid() && next == 0
    {
      next := 0;
      r := DoSelect(pre, a, b);
    }

    /** `fair_select` without preconditions (alt.h:957-964). */
    method FairSelect(a: Answers, b: Answers) returns (r: Option<int>)
      requires Valid() && !due.timeout
      modifies this
      ensures r == Chosen(guards, Triggering(), seq(|guards|, _ => true), old(next), a, b, old(due))
      ensures r.Some? ==> Valid() && next == NextAfter(false, |guards|, old(next), r.value)
    {
      r := DoSelect(seq(|guards|, _ => true), a, b);
      if r.Some? {
        next := if next == |guards| then 0 else r.value + 1;
      }
    }

    /** `fair_select` with preconditions leaves `_next` at the guard it chose (alt.h:966-974),
        which would be -1 if it ever chose none. */
    method FairSelectGuarded(pre: seq<bool>, a: Answers, b: Answers) returns (r: Option<int>)
      requires Valid() && |pre| == |guards| && !due.timeout
      modifies this
      ensures r == Chosen(guards, Triggering(), pre, old(next), a, b, old(due))
      ensures r.Some? ==> next == NextAfter(true, |guards|, old(next), r.value) && (Valid() <==> next != NONE)
    {
      r := DoSelect(pre, a, b);
      if r.Some? {
        next := if next == |guards| then 0 else r.value;
      }
    }
  }

  // ---------- what a selection promises ----------

  /** Readiness only grows: a guard that answered ready answers ready from then on, and if
      enabling found nothing, some enabled guard woke the alt. */
  ghost predicate Consistent(pre: seq<bool>, next: nat, a: Answers, b: Answers)
    requires next <= |pre|
  {
    var sel := EnableFrom(|pre|, next, pre, a, 0);
    var order := DisableOrder(|pre|, next, sel);
    && (forall j, k :: 0 <= j <= k < |order| && order[j] == order[k] && Said(b, j) ==> Said(b, k))
    && (exists g :: 0 <= g < |pre| && pre[g] && (sel != NONE ==> g == sel)
                    && forall j :: 0 <= j < |order| && order[j] == g ==> Said(b, j))
  }

  /** The questions put to guard `i` end with a refusal. */
  ghost predicate LastAskedUnready(order: seq<nat>, b: Answers, i: nat) {
    exists j :: 0 <= j < |order| && order[j] == i && !Said(b, j) && forall k :: j < k < |order| ==> order[k] != i
  }

  predicate Yes(order: seq<nat>, pre: seq<bool>, b: Answers, j: nat)
    requires j < |order|
  {
    order[j] < |pre| && pre[order[j]] && Said(b, j)
  }

  /** The last guard that answers ready is the one selected. */
  lemma {:induction false} LastYesDecides(order: seq<nat>, pre: seq<bool>, b: Answers, sel: int)
    ensures var r := Survivor(order, pre, b, sel);
      || (r == sel && forall j :: 0 <= j < |order| ==> !Yes(order, pre, b, j))
      || exists j :: 0 <= j < |order| && Yes(order, pre, b, j) && order[j] == r
                     && forall k :: j < k < |order| ==> !Yes(order, pre, b, k)
    decreases |order|
  {
    if order != [] {
      var last, before := |order| - 1, order[..|order| - 1];
      LastYesDecides(before, pre, b, sel);
      assert forall j :: 0 <= j < last ==> Yes(before, pre, b, j) == Yes(order, pre, b, j);
      if !Yes(order, pre, b, last) && Survivor(before, pre, b, sel) != sel {
        var j :| 0 <= j < last && Yes(before, pre, b, j) && before[j] == Survivor(before, pre, b, sel)
                 && forall k :: j < k < last ==> !Yes(before, pre, b, k);
        assert Yes(order, pre, b, j);
      }
    }
  }

  lemma EndsWithPass(first: seq<nat>, h: int)
    requires h >= -1
    ensures var order := first + Down(h, 0);
      |order| == |first| + h + 1 && forall j :: |first| <= j < |order| ==> order[j] == h - (j - |first|)
  {
  }

  /** From question `p` on the order is a pass from `h` down to guard 0. */
  ghost predicate IsFinalPass(order: seq<nat>, p: nat, h: int) {
    h >= -1 && |order| == p + h + 1 && forall j :: p <= j < |order| ==> order[j] == h - (j - p)
  }

  lemma LastPass(before: seq<nat>, m: nat, start: int, n: nat)
    requires -1 <= start && 0 < n
    ensures IsFinalPass(before + Passes(m + 1, start, n), |before| + |Passes(m, start, n)|,
                        if m == 0 then start else n - 1)
  {
    OneMorePassAfter(before, m, start, n);
    EndsWithPass(before + Passes(m, start, n), if m == 0 then start else n - 1);
  }

  lemma SplitBefore(n: nat, next: nat, sel: int) returns (p: nat, h: int)
    requires next <= n && NONE <= sel < next && 0 < n
    ensures IsFinalPass(DisableOrder(n, next, sel), p, h) && h < n && (h == n - 1 || (p == 0 && h == sel - 1))
  {
    var first := if sel == NONE then next - 1 else sel - 1;
    if next == n {
      assert DisableOrder(n, next, sel) == Down(first, 0) by {
        assert Down(first, 0) + [] == Down(first, 0);
      }
      p, h := 0, first;
    } else {
      LastPass(Down(first, 0), n - next - 1, n - 1, n);
      p, h := |Down(first, 0)| + |Passes(n - next - 1, n - 1, n)|, n - 1;
    }
  }

  lemma SplitBeyond(n: nat, next: nat, sel: nat) returns (p: nat, h: int)
    requires next < sel < n
    ensures IsFinalPass(DisableOrder(n, next, sel), p, h) && h < n && (h == n - 1 || (p == 0 && h == sel - 1))
  {
    var m := sel - next - 1;
    LastPass([], m, sel - 1, n);
    NothingBefore(Passes(m + 1, sel - 1, n));
    p, h := |Passes(m, sel - 1, n)|, if m == 0 then sel - 1 else n - 1;
  }

  lemma SplitOrder(n: nat, next: nat, sel: int) returns (p: nat, h: int)
    requires next <= n && NONE <= sel < n && sel != next && 0 < n
    ensures IsFinalPass(DisableOrder(n, next, sel), p, h) && h < n && (h == n - 1 || (p == 0 && h == sel - 1))
  {
    if sel < next {
      p, h := SplitBefore(n, next, sel);
    } else {
      p, h := SplitBeyond(n, next, sel);
    }
  }

  lemma {:induction false} EnableFromReady(pre: seq<bool>, next: nat, a: Answers, k: nat)
    requires next <= |pre| && k <= |pre|
    ensures var sel := EnableFrom(|pre|, next, pre, a, k);
      && (sel != NONE ==> pre[sel] && Said(a, RotInverse(|pre|, next, sel)))
      && (forall j :: k <= j < (if sel == NONE then |pre| else RotInverse(|pre|, next, sel)) ==>
            !(pre[Rot(|pre|, next, j)] && Said(a, j)))
    decreases |pre| - k
  {
    if k < |pre| {
      EnableFromReady(pre, next, a, k + 1);
    }
  }

  /** Priority selection: every enabled guard before the selected one refused when it was
      last asked, although the nested loop asks most of them many times. */
  lemma PriSelectIsLeast(pre: seq<bool>, a: Answers, b: Answers, i: nat)
    requires 0 < |pre| && Consistent(pre, 0, a, b)
    requires i < Selection(pre, 0, a, b) && pre[i]
    ensures var r := Selection(pre, 0, a, b);
      var order := DisableOrder(|pre|, 0, EnableFrom(|pre|, 0, pre, a, 0));
      pre[r] && LastAskedUnready(order, b, i) && !LastAskedUnready(order, b, r)
  {
    var n := |pre|;
    var sel := EnableFrom(n, 0, pre, a, 0);
    var order := DisableOrder(n, 0, sel);
    EnableFromReady(pre, 0, a, 0);
    if sel != 0 {
      var q, h := SplitOrder(n, 0, sel);
      LastYesDecides(order, pre, b, sel);
      var g :| 0 <= g < n && pre[g] && (sel != NONE ==> g == sel)
               && forall j :: 0 <= j < |order| && order[j] == g ==> Said(b, j);
      if g <= h {
        assert order[q + h - g] == g && Yes(order, pre, b, q + h - g);
      }
      var p := q + h - i;
      assert order[p] == i && !Yes(order, pre, b, p);
      assert forall k :: p < k < |order| ==> order[k] != i;
    }
  }

  /** Readiness does not change during the selection: `on` are the guards that are enabled
      and ready. */
  ghost predicate Steady(pre: seq<bool>, on: seq<bool>, next: nat, a: Answers, b: Answers)
    requires next <= |on|
  {
    && |pre| == |on| && (forall i :: 0 <= i < |on| && on[i] ==> pre[i])
    && (forall k :: 0 <= k < |on| && pre[Rot(|on|, next, k)] ==> Said(a, k) == on[Rot(|on|, next, k)])
    && var order := DisableOrder(|on|, next, EnableFrom(|on|, next, pre, a, 0));
       forall j :: 0 <= j < |order| && order[j] < |on| ==> Yes(order, pre, b, j) == on[order[j]]
  }

  ghost predicate IsLeast(on: seq<bool>, r: int) {
    0 <= r < |on| && on[r] && forall i :: 0 <= i < r ==> !on[i]
  }

  lemma FinalPassPicksLeast(order: seq<nat>, p: nat, h: int, pre: seq<bool>, on: seq<bool>, b: Answers, sel: nat)
    requires |pre| == |on| && -1 <= h < |on| && sel < |on| && on[sel] && |order| == p + h + 1
    requires forall j :: p <= j < |order| ==> order[j] == h - (j - p)
    requires h == |on| - 1 || (p == 0 && h == sel - 1)
    requires forall j :: 0 <= j < |order| && order[j] < |on| ==> Yes(order, pre, b, j) == on[order[j]]
    ensures IsLeast(on, Survivor(order, pre, b, sel))
  {
    LastYesDecides(order, pre, b, sel);
    var r := Survivor(order, pre, b, sel);
    assert h == |on| - 1 ==> order[p + h - sel] == sel && Yes(order, pre, b, p + h - sel);
    assert h == |on| - 1 || r == sel || r <= h;
    assert 0 <= r < |on| && on[r];
    forall g | 0 <= g < r ensures !on[g] {
      assert g <= h;
      var q := p + h - g;
      assert order[q] == g && Yes(order, pre, b, q) == on[g];
    }
  }

  /** The disable loops as written undo the rotation: guard `_next` is selected when it is
      ready, and otherwise the least ready guard, wherever `_next` stands. */
  lemma SelectionAsWritten(pre: seq<bool>, on: seq<bool>, next: nat, a: Answers, b: Answers)
    requires next <= |on| && Steady(pre, on, next, a, b)
    requires exists i :: 0 <= i < |on| && on[i]
    ensures var r := Selection(pre, next, a, b);
      if next < |on| && on[next] then r == next else IsLeast(on, r)
  {
    var n := |on|;
    var sel := EnableFrom(n, next, pre, a, 0);
    var order := DisableOrder(n, next, sel);
    EnableFromReady(pre, next, a, 0);
    var i :| 0 <= i < n && on[i];
    assert Rot(n, next, RotInverse(n, next, i)) == i;
    assert sel != NONE && on[sel];
    assert next < n ==> Rot(n, next, 0) == next && RotInverse(n, next, next) == 0;
    if sel != next {
      var p, h := SplitOrder(n, next, sel);
      FinalPassPicksLeast(order, p, h, pre, on, b, sel);
    }
  }

  // ---------- a single backward pass ----------

  /** What a single backward pass with answers `b` would leave selected. */
  function SingleSelection(pre: seq<bool>, next: nat, a: Answers, b: Answers): (r: int)
    requires next <= |pre|
    ensures NONE <= r < |pre|
  {
    var sel := EnableFrom(|pre|, next, pre, a, 0);
    SurvivorInRange(SinglePass(|pre|, next, sel), pre, b, sel);
    Survivor(SinglePass(|pre|, next, sel), pre, b, sel)
  }

  /** The guard that attempt `k` of enabling asks comes first among those for which `on` holds. */
  ghost predicate FirstInRotation(on: seq<bool>, next: nat, r: int)
    requires next <= |on|
  {
    0 <= r < |on| && on[r] &&
    forall i :: 0 <= i < |on| && on[i] ==> RotInverse(|on|, next, r) <= RotInverse(|on|, next, i)
  }

  /** A single pass selects the first ready guard in the rotated order, where `on` are the
      guards ready while disabling, whether enabling had found one of them or none. */
  lemma SinglePassPicksFirst(pre: seq<bool>, on: seq<bool>, next: nat, a: Answers, b: Answers)
    requires next <= |on| == |pre| && exists i :: 0 <= i < |on| && on[i]
    requires var sel := EnableFrom(|on|, next, pre, a, 0);
      var order := SinglePass(|on|, next, sel);
      && (sel != NONE ==> on[sel])
      && forall j :: 0 <= j < |order| && order[j] < |on| ==> Yes(order, pre, b, j) == on[order[j]]
    ensures FirstInRotation(on, next, SingleSelection(pre, next, a, b))
  {
    var n := |on|;
    var sel, r := EnableFrom(n, next, pre, a, 0), SingleSelection(pre, next, a, b);
    var order, m := SinglePass(n, next, sel), LastAttempt(n, next, sel);
    SinglePassGoesBack(n, next, sel);
    LastYesDecides(order, pre, b, sel);
    forall i | 0 <= i < n && on[i] ensures r != NONE && RotInverse(n, next, r) <= RotInverse(n, next, i) {
      if RotInverse(n, next, i) <= m {
        assert order[m - RotInverse(n, next, i)] == i && Yes(order, pre, b, m - RotInverse(n, next, i));
      }
    }
  }

  /** Guard `g` is enabled and answers ready whenever it is asked, while enabling, which ended
      with `sel`, and by the loops of `order`. */
  ghost predicate AnswersReady(
    pre: seq<bool>, next: nat, a: Answers, b: Answers, sel: int, order: seq<nat>, g: nat)
    requires next <= |pre| && NONE <= sel < |pre|
  {
    && g < |pre| && pre[g]
    && (sel == NONE || RotInverse(|pre|, next, g) <= RotInverse(|pre|, next, sel) ==>
          Said(a, RotInverse(|pre|, next, g)))
    && forall j :: 0 <= j < |order| && order[j] == g ==> Said(b, j)
  }

  /** Whatever the other guards answer, a single pass chooses no guard beyond one that stays
      ready, in the rotated order. */
  lemma SinglePassStopsAt(pre: seq<bool>, next: nat, a: Answers, b: Answers, g: nat)
    requires next <= |pre|
    requires var sel := EnableFrom(|pre|, next, pre, a, 0);
      AnswersReady(pre, next, a, b, sel, SinglePass(|pre|, next, sel), g)
    ensures var r := SingleSelection(pre, next, a, b);
      0 <= r && RotInverse(|pre|, next, r) <= RotInverse(|pre|, next, g)
  {
    var n := |pre|;
    var sel, k := EnableFrom(n, next, pre, a, 0), RotInverse(n, next, g);
    var order, m := SinglePass(n, next, sel), LastAttempt(n, next, sel);
    SinglePassGoesBack(n, next, sel);
    EnableFromReady(pre, next, a, 0);
    LastYesDecides(order, pre, b, sel);
    assert sel != NONE by {
      assert Rot(n, next, k) == g;
    }
  }

  /** Whatever the other guards answer, the loops as written choose guard `_next`, or a guard
      that is not above one that stays ready, and `_next` itself when that one stays ready. */
  lemma NestedStopsAt(pre: seq<bool>, next: nat, a: Answers, b: Answers, g: nat)
    requires next <= |pre|
    requires var sel := EnableFrom(|pre|, next, pre, a, 0);
      AnswersReady(pre, next, a, b, sel, DisableOrder(|pre|, next, sel), g)
    ensures var r := Selection(pre, next, a, b);
      0 <= r && (r == next || (g != next && r <= g))
  {
    var n := |pre|;
    var sel := EnableFrom(n, next, pre, a, 0);
    var order := DisableOrder(n, next, sel);
    EnableFromReady(pre, next, a, 0);
    assert Rot(n, next, RotInverse(n, next, g)) == g;
    assert sel != NONE;
    assert g == next ==> sel == next;
    if sel != next {
      var p, h := SplitOrder(n, next, sel);
      LastYesDecides(order, pre, b, sel);
      if g <= h {
        assert order[p + h - g] == g && Yes(order, pre, b, p + h - g);
      }
    }
  }

  // ---------- priority ----------

  /** The last time guard `i` is asked it answers ready. */
  ghost predicate LastAskedReady(order: seq<nat>, b: Answers, i: nat) {
    exists j :: 0 <= j < |order| && order[j] == i && Said(b, j) && forall k :: j < k < |order| ==> order[k] != i
  }

  lemma FinalPassSelects(pre: seq<bool>, order: seq<nat>, b: Answers, p: nat, h: int, sel: int, g: nat)
    requires NONE <= sel < |pre| && IsFinalPass(order, p, h) && h < |pre|
    requires h == |pre| - 1 || (p == 0 && h == sel - 1)
    requires g < |pre| && pre[g] && (sel != NONE ==> g == sel)
    requires forall j :: 0 <= j < |order| && order[j] == g ==> Said(b, j)
    requires forall j, k :: 0 <= j <= k < |order| && order[j] == order[k] && Said(b, j) ==> Said(b, k)
    ensures var r := Survivor(order, pre, b, sel);
      && 0 <= r < |pre| && pre[r] && (sel != NONE ==> r <= sel) && (r != sel ==> r <= h && Said(b, p + h - r))
      && forall i :: 0 <= i < r && pre[i] ==> i <= h && !Said(b, p + h - i)
  {
    LastYesDecides(order, pre, b, sel);
    if g <= h {
      assert order[p + h - g] == g && Yes(order, pre, b, p + h - g);
    }
    var r := Survivor(order, pre, b, sel);
    if r != sel {
      assert order[p + h - r] == r;
    }
    forall i | 0 <= i < r && pre[i] ensures i <= h && !Said(b, p + h - i) {
      assert order[p + h - i] == i && !Yes(order, pre, b, p + h - i);
    }
  }

  /** In the final pass, which starts at question `p` with guard `h`, the selected guard
      answers ready unless enabling had selected it, and the smaller ones do not. */
  lemma PrioritySelectsLast(pre: seq<bool>, a: Answers, b: Answers, p: nat, h: int)
    requires 0 < |pre| && Consistent(pre, 0, a, b) && EnableFrom(|pre|, 0, pre, a, 0) != 0
    requires var sel := EnableFrom(|pre|, 0, pre, a, 0);
      && IsFinalPass(DisableOrder(|pre|, 0, sel), p, h) && h < |pre|
      && (h == |pre| - 1 || (p == 0 && h == sel - 1))
    ensures var r := Selection(pre, 0, a, b);
      var sel := EnableFrom(|pre|, 0, pre, a, 0);
      && 0 <= r && pre[r] && (sel != NONE ==> r <= sel) && (r != sel ==> r <= h && Said(b, p + h - r))
      && forall i :: 0 <= i < r && pre[i] ==> i <= h && !Said(b, p + h - i)
  {
    var n := |pre|;
    var sel := EnableFrom(n, 0, pre, a, 0);
    EnableFromReady(pre, 0, a, 0);
    var g :| 0 <= g < n && pre[g] && (sel != NONE ==> g == sel)
             && forall j :: 0 <= j < |DisableOrder(n, 0, sel)| && DisableOrder(n, 0, sel)[j] == g ==> Said(b, j);
    FinalPassSelects(pre, DisableOrder(n, 0, sel), b, p, h, sel, g);
  }

  /** Every guard up to `h` is asked for the last time in the final pass. */
  lemma FinalPassIsLast(order: seq<nat>, p: nat, h: int, b: Answers, i: nat)
    requires -1 <= h && |order| == p + h + 1 && i <= h
    requires forall j :: p <= j < |order| ==> order[j] == h - (j - p)
    ensures LastAskedReady(order, b, i) <==> Said(b, p + h - i)
  {
    assert order[p + h - i] == i;
  }

  /** A backward pass from guard `m` selects `r` when `r` is the least that answers ready. */
  lemma BackwardPassPicks(single: seq<nat>, m: int, pre: seq<bool>, c: Answers, sel: int, r: int)
    requires -1 <= m < |pre| && |single| == m + 1 && forall j :: 0 <= j < |single| ==> single[j] == m - j
    requires 0 <= r < |pre| && pre[r] && ((r <= m && Said(c, m - r)) || r == sel)
    requires forall i :: 0 <= i < r && i <= m && pre[i] ==> !Said(c, m - i)
    requires r == sel ==> m < r
    ensures Survivor(single, pre, c, sel) == r
  {
    LastYesDecides(single, pre, c, sel);
    if r <= m {
      assert single[m - r] == r && Yes(single, pre, c, m - r);
    }
  }

  /** The answers `c` in the order `single` are the last answers in the order `order`. */
  ghost predicate HearsLast(order: seq<nat>, b: Answers, single: seq<nat>, c: Answers) {
    forall j :: 0 <= j < |single| ==> (Said(c, j) <==> LastAskedReady(order, b, single[j]))
  }

  lemma LastHeard(order: seq<nat>, b: Answers, p: nat, h: int, single: seq<nat>, c: Answers, j: nat)
    requires -1 <= h && |order| == p + h + 1 && forall k :: p <= k < |order| ==> order[k] == h - (k - p)
    requires HearsLast(order, b, single, c) && j < |single| && single[j] <= h
    ensures Said(c, j) <==> Said(b, p + h - single[j])
  {
    FinalPassIsLast(order, p, h, b, single[j]);
  }

  lemma FinalPassAgrees(
    pre: seq<bool>, order: seq<nat>, b: Answers, p: nat, h: int, m: int, c: Answers, single: seq<nat>, sel: int, r: int)
    requires -1 <= h < |pre| && |order| == p + h + 1 && forall k :: p <= k < |order| ==> order[k] == h - (k - p)
    requires -1 <= m <= h && |single| == m + 1 && forall j :: 0 <= j < |single| ==> single[j] == m - j
    requires HearsLast(order, b, single, c)
    requires 0 <= r < |pre| && pre[r] && ((r <= m && Said(b, p + h - r)) || r == sel) && (r == sel ==> m < r)
    requires forall i :: 0 <= i < r && i <= m && pre[i] ==> !Said(b, p + h - i)
    ensures Survivor(single, pre, c, sel) == r
  {
    if r <= m {
      LastHeard(order, b, p, h, single, c, m - r);
    }
    forall i | 0 <= i < r && i <= m && pre[i] ensures !Said(c, m - i) {
      LastHeard(order, b, p, h, single, c, m - i);
    }
    BackwardPassPicks(single, m, pre, c, sel, r);
  }

  /** From `_next` = 0 the nested loops select what a single backward pass would that hears,
      from each guard, its last answer. */
  lemma PrioritySameAsSinglePass(pre: seq<bool>, a: Answers, b: Answers, c: Answers)
    requires 0 < |pre| && Consistent(pre, 0, a, b)
    requires var sel := EnableFrom(|pre|, 0, pre, a, 0);
      HearsLast(DisableOrder(|pre|, 0, sel), b, SinglePass(|pre|, 0, sel), c)
    ensures SingleSelection(pre, 0, a, c) == Selection(pre, 0, a, b)
  {
    var n, r := |pre|, Selection(pre, 0, a, b);
    var sel := EnableFrom(n, 0, pre, a, 0);
    SinglePassGoesBack(n, 0, sel);
    if sel != 0 {
      var p, h := SplitOrder(n, 0, sel);
      PrioritySelectsLast(pre, a, b, p, h);
      FinalPassAgrees(pre, DisableOrder(n, 0, sel), b, p, h, LastAttempt(n, 0, sel), c, SinglePass(n, 0, sel), sel, r);
    }
  }
}
