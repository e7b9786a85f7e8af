/** The order in which an alt asks its guards (csp/alt.h:657-927), as functions. */
module AltCore {

  const NONE := -1

  datatype Guard = OnChannel(c: nat) | OnTimer(alarm: int)

  datatype AltState = Enabling | Waiting | Ready | Inactive

  /** The earliest alarm registered so far: `_timeout`, `_time`, `_timer_index`. */
  datatype Deadline = Deadline(timeout: bool, time: int, index: int)

  /** `set_timeout` (alt.h:246-266) */
  function SetTimeout(d: Deadline, time: int, index: int): Deadline {
    if d.timeout && d.time <= time then d else Deadline(true, time, index)
  }

  /** The guard asked at attempt `k` when enabling: `_next`, ..., `n-1`, 0, ..., `_next-1`. */
  function Rot(n: nat, next: nat, k: nat): (i: nat)
    requires next <= n && k < n
    ensures i < n
  {
    if next + k < n then next + k else next + k - n
  }

  /** `_next` after `fair_select` chose `r` (alt.h:962), and with preconditions (alt.h:972). */
  function NextAfter(guarded: bool, n: nat, next: int, r: int): int {
    if next == n then 0 else if guarded then r else r + 1
  }

  /** Which attempt asks guard `i`. */
  function RotInverse(n: nat, next: nat, i: nat): (k: nat)
    requires next <= n && i < n
    ensures k < n && Rot(n, next, k) == i
  {
    if i >= next then i - next else i + n - next
  }

  /** hi, hi-1, ..., lo */
  function Down(hi: int, lo: nat): (s: seq<nat>)
    ensures |s| == if hi < lo then 0 else hi - lo + 1
    ensures forall j :: 0 <= j < |s| ==> s[j] == hi - j
  {
    seq(if hi < lo then 0 else hi - lo + 1, j requires 0 <= j <= hi - lo => hi - j)
  }

  lemma DownHas(hi: int, i: nat)
    requires i <= hi
    ensures i in Down(hi, 0)
  {
    assert Down(hi, 0)[hi - i] == i;
  }

  /** `m` times round the outer disable loop: the copied inner loop starts at `start` the
      first time and at the last guard every time after (alt.h:817-842). */
  function Passes(m: int, start: int, n: nat): seq<nat>
    decreases m
  {
    if m <= 0 then []
    else if m == 1 then Down(start, 0)
    else Passes(m - 1, start, n) + Down(n - 1, 0)
  }

  lemma OneMorePass(m: nat, start: int, n: nat)
    ensures Passes(m + 1, start, n) == Passes(m, start, n) + Down(if m == 0 then start else n - 1, 0)
  {
    if m == 0 {
      assert [] + Down(start, 0) == Down(start, 0);
    }
  }

  lemma {:induction false} PassesPrefix(m: nat, k: nat, start: int, n: nat)
    requires m <= k
    ensures Passes(m, start, n) <= Passes(k, start, n)
    decreases k
  {
    if m < k {
      OneMorePass(k - 1, start, n);
      PassesPrefix(m, k - 1, start, n);
    }
  }

  lemma OneMoreGuard(before: seq<nat>, start: int, i: nat)
    requires i <= start
    ensures before + Down(start, i) == before + Down(start, i + 1) + [i]
  {
  }

  lemma OneMorePassAfter(before: seq<nat>, m: nat, start: int, n: nat)
    ensures before + Passes(m + 1, start, n) == before + Passes(m, start, n) + Down(if m == 0 then start else n - 1, 0)
  {
    OneMorePass(m, start, n);
  }

  /** The whole sequence of guards that `disable_guards` asks. */
  function DisableOrder(n: nat, next: nat, selected: int): seq<nat> {
    if selected == next then []
    else if selected == NONE then Down(next - 1, 0) + Passes(n - next, n - 1, n)
    else if selected < next then Down(selected - 1, 0) + Passes(n - next, n - 1, n)
    else Passes(selected - next, selected - 1, n)
  }

  lemma NothingBefore(s: seq<nat>)
    ensures [] + s == s
  {
  }

  /** What the first disable loop asks, and where the nested one starts. */
  function FirstOrder(next: nat, selected: int): seq<nat> {
    if selected < next then Down(if selected == NONE then next - 1 else selected - 1, 0) else []
  }

  function NestedStart(n: nat, next: nat, selected: int): int { if selected < next then n - 1 else selected - 1 }

  lemma NestedOrder(n: nat, next: nat, selected: int)
    requires next <= n && NONE <= selected < n && selected != next
    ensures var start := NestedStart(n, next, selected);
      && next - 1 <= start < n
      && FirstOrder(next, selected) + Passes(start - next + 1, start, n) == DisableOrder(n, next, selected)
  {
    if selected > next {
      NothingBefore(Passes(selected - next, selected - 1, n));
    }
  }

  lemma {:induction false} PassesInRange(m: int, start: int, n: nat)
    requires start < n
    ensures forall j :: 0 <= j < |Passes(m, start, n)| ==> Passes(m, start, n)[j] < n
    decreases m
  {
    if m > 1 {
      PassesInRange(m - 1, start, n);
    }
  }

  lemma {:induction false} PassesCover(m: int, start: int, n: nat, i: nat)
    requires m >= 1 && i <= start < n
    ensures i in Passes(m, start, n)
    decreases m
  {
    if m == 1 {
      DownHas(start, i);
    } else {
      PassesCover(m - 1, start, n, i);
    }
  }

  lemma {:induction false} DisableOrderInRange(n: nat, next: nat, selected: int)
    requires next <= n && NONE <= selected < n
    ensures forall i :: i in DisableOrder(n, next, selected) ==> i < n
  {
    if selected > next {
      PassesInRange(selected - next, selected - 1, n);
    } else if n > 0 {
      PassesInRange(n - next, n - 1, n);
    }
  }

  /** The guards enabled before the alt stopped enabling: the first `k` attempts, where
      attempt `k` found `selected` ready, or all of them. */
  predicate Asked(n: nat, next: nat, selected: int, i: nat)
    requires next <= n && i < n && NONE <= selected < n
  {
    selected == NONE || RotInverse(n, next, i) < RotInverse(n, next, selected)
  }

  /** Every guard that may be registered is disabled: nested loops or not, nothing is left. */
  lemma DisableOrderCovers(n: nat, next: nat, selected: int, i: nat)
    requires next <= n && i < n && NONE <= selected < n
    requires Asked(n, next, selected, i)
    ensures i in DisableOrder(n, next, selected)
  {
    var later := Passes(n - next, n - 1, n);
    if selected == NONE {
      if i < next {
        DownHas(next - 1, i);
        assert i in Down(next - 1, 0) + later;
      } else {
        PassesCover(n - next, n - 1, n, i);
        assert i in Down(next - 1, 0) + later;
      }
    } else if selected < next {
      if i < selected {
        DownHas(selected - 1, i);
        assert i in Down(selected - 1, 0) + later;
      } else {
        PassesCover(n - next, n - 1, n, i);
        assert i in Down(selected - 1, 0) + later;
      }
    } else {
      PassesCover(selected - next, selected - 1, n, i);
    }
  }

  // ---------- a single backward pass ----------

  /** What the two disable loops ask when the second is not nested in a copy of itself. */
  function SinglePass(n: nat, next: nat, selected: int): seq<nat> {
    if selected == next then []
    else if selected == NONE then Down(next - 1, 0) + Down(n - 1, next)
    else if selected < next then Down(selected - 1, 0) + Down(n - 1, next)
    else Down(selected - 1, next)
  }

  /** The last attempt of enabling that found its guard not ready. */
  function LastAttempt(n: nat, next: nat, selected: int): (m: int)
    requires next <= n && NONE <= selected < n
    ensures -1 <= m < n
  {
    if selected == NONE then n - 1 else RotInverse(n, next, selected) - 1
  }

  /** It asks what enabling asked, backwards. */
  lemma SinglePassGoesBack(n: nat, next: nat, selected: int)
    requires next <= n && NONE <= selected < n
    ensures var order, m := SinglePass(n, next, selected), LastAttempt(n, next, selected);
      |order| == m + 1 && forall j :: 0 <= j < |order| ==> order[j] == Rot(n, next, m - j)
  {
  }

  /** The registrations that are left when the guards `order` have been disabled. */
  ghost function LeftRegistered(n: nat, next: nat, selected: int, order: seq<nat>): set<nat>
    requires next <= n && NONE <= selected < n
  {
    set i: nat | i < n && Asked(n, next, selected, i) && i !in order
  }

  /** Either way nothing is left registered; the single pass disables no other guards. */
  lemma BothLeaveNothing(n: nat, next: nat, selected: int)
    requires next <= n && NONE <= selected < n
    ensures LeftRegistered(n, next, selected, DisableOrder(n, next, selected)) == {}
    ensures LeftRegistered(n, next, selected, SinglePass(n, next, selected)) == {}
    ensures forall i :: i in SinglePass(n, next, selected) ==> i < n && Asked(n, next, selected, i)
  {
    var order, m := SinglePass(n, next, selected), LastAttempt(n, next, selected);
    SinglePassGoesBack(n, next, selected);
    forall i: nat | i < n && Asked(n, next, selected, i)
      ensures i in DisableOrder(n, next, selected) && i in order
    {
      DisableOrderCovers(n, next, selected, i);
      assert order[m - RotInverse(n, next, i)] == i;
    }
  }
}
