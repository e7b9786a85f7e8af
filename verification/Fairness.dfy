/** How fair `fair_select` is (csp/alt.h:929-974).

    When readiness stands still during a selection, what it chooses has a closed form, for
    the loops as written and for the single backward pass they were meant to be.  Fairness
    itself is about selections in which the guards may answer anything at any time, except
    that one of them is ready throughout. */
module Fairness {
  import opened AltCore
  import opened Alt

  ghost predicate SomeOn(on: seq<bool>) { exists i :: 0 <= i < |on| && on[i] }

  function LeastFrom(on: seq<bool>, i: nat): (r: nat)
    requires i <= |on| && exists j :: i <= j < |on| && on[j]
    ensures i <= r < |on| && on[r] && forall j :: i <= j < r ==> !on[j]
    decreases |on| - i
  {
    if on[i] then i else LeastFrom(on, i + 1)
  }

  function PickAsWritten(on: seq<bool>, next: nat): (r: nat)
    requires SomeOn(on) && next <= |on|
    ensures r < |on| && on[r]
  {
    if next < |on| && on[next] then next else LeastFrom(on, 0)
  }

  /** The first ready guard in the rotated order. */
  function PickIntended(on: seq<bool>, next: nat): (r: nat)
    requires SomeOn(on) && next <= |on|
    ensures r < |on| && on[r]
  {
    if exists j :: next <= j < |on| && on[j] then LeastFrom(on, next) else LeastFrom(on, 0)
  }

  lemma PickIntendedIsFirst(on: seq<bool>, next: nat, r: int)
    requires SomeOn(on) && next <= |on| && FirstInRotation(on, next, r)
    ensures r == PickIntended(on, next)
  {
    var i := PickIntended(on, next);
    assert RotInverse(|on|, next, r) <= RotInverse(|on|, next, i);
    assert Rot(|on|, next, RotInverse(|on|, next, r)) == r;
  }

  /** The closed forms are what the loops compute: the nested ones as written, and a single
      backward pass, which may hear other answers `c` while it disables. */
  lemma PickIsSelection(pre: seq<bool>, on: seq<bool>, next: nat, a: Answers, b: Answers, c: Answers)
    requires next <= |on| && Steady(pre, on, next, a, b) && SomeOn(on)
    requires var order := SinglePass(|on|, next, EnableFrom(|on|, next, pre, a, 0));
      forall j :: 0 <= j < |order| && order[j] < |on| ==> Yes(order, pre, c, j) == on[order[j]]
    ensures Selection(pre, next, a, b) == PickAsWritten(on, next)
    ensures SingleSelection(pre, next, a, c) == PickIntended(on, next)
  {
    SelectionAsWritten(pre, on, next, a, b);
    var sel := EnableFrom(|on|, next, pre, a, 0);
    EnableFromReady(pre, next, a, 0);
    assert sel != NONE ==> on[sel] by {
      assert sel != NONE ==> Rot(|on|, next, RotInverse(|on|, next, sel)) == sel;
    }
    SinglePassPicksFirst(pre, on, next, a, c);
    PickIntendedIsFirst(on, next, SingleSelection(pre, next, a, c));
  }

  /** Rotation survives the nested loop exactly when guard `_next` is ready, or no ready
      guard lies beyond `_next`, or none before it. */
  lemma RotationKeptExactlyWhen(on: seq<bool>, next: nat)
    requires SomeOn(on) && next <= |on|
    ensures PickAsWritten(on, next) == PickIntended(on, next)
       <==> (next < |on| && on[next])
            || (forall j :: next < j < |on| ==> !on[j])
            || (forall j :: 0 <= j < next ==> !on[j])
  {
  }

  // ---------- many selections ----------

  /** `fair_select` as written, the one with preconditions as written, and with the disable
      loops made a single pass and `_next` moved on after either. */
  datatype Way = Plain | Guarded | Repaired

  /** The preconditions of one selection, and what the guards answer in it while enabling and
      while disabling. */
  datatype Round = Round(pre: seq<bool>, a: Answers, b: Answers)

  function Sel(n: nat, next: nat, q: Round): int
    requires next <= n == |q.pre|
  {
    EnableFrom(n, next, q.pre, q.a, 0)
  }

  function Choice(w: Way, n: nat, next: nat, q: Round): (r: int)
    requires next <= n == |q.pre|
    ensures NONE <= r < n
  {
    if w.Repaired? then SingleSelection(q.pre, next, q.a, q.b) else Selection(q.pre, next, q.a, q.b)
  }

  /** `_next` after choosing `r`. */
  function Following(w: Way, n: nat, next: nat, r: int): (m: nat)
    requires NONE <= r < n
    ensures m <= n
  {
    if r == NONE then 0 else NextAfter(w.Guarded?, n, next, r)
  }

  predicate Legal(w: Way, n: nat, q: Round) { |q.pre| == n && (w.Plain? ==> forall i :: 0 <= i < n ==> q.pre[i]) }

  /** The choices in consecutive selections. */
  function Choices(w: Way, n: nat, next: nat, qs: seq<Round>): (rs: seq<int>)
    requires next <= n && forall q :: q in qs ==> Legal(w, n, q)
    ensures |rs| == |qs|
    decreases |qs|
  {
    if qs == [] then []
    else
      assert Legal(w, n, qs[0]);
      var r := Choice(w, n, next, qs[0]);
      [r] + Choices(w, n, Following(w, n, next, r), qs[1..])
  }

  /** Guard `g` is ready throughout one selection. */
  ghost predicate Ready(w: Way, n: nat, next: nat, q: Round, g: nat)
    requires next <= n == |q.pre|
  {
    var sel := Sel(n, next, q);
    var order := if w.Repaired? then SinglePass(n, next, sel) else DisableOrder(n, next, sel);
    AnswersReady(q.pre, next, q.a, q.b, sel, order, g)
  }

  /** It is ready throughout all of them. */
  ghost predicate AlwaysReady(w: Way, n: nat, next: nat, qs: seq<Round>, g: nat)
    requires next <= n
    decreases |qs|
  {
    qs == [] ||
    (Legal(w, n, qs[0]) && Ready(w, n, next, qs[0], g)
     && AlwaysReady(w, n, Following(w, n, next, Choice(w, n, next, qs[0])), qs[1..], g))
  }

  lemma {:induction false} AlwaysReadyIsLegal(w: Way, n: nat, next: nat, qs: seq<Round>, g: nat)
    requires next <= n && AlwaysReady(w, n, next, qs, g)
    ensures forall q :: q in qs ==> Legal(w, n, q)
    decreases |qs|
  {
    if qs != [] {
      AlwaysReadyIsLegal(w, n, Following(w, n, next, Choice(w, n, next, qs[0])), qs[1..], g);
    }
  }

  /** Guard `g` of `n` is chosen in one of the selections `qs` begun at `next`. */
  ghost predicate Chosen(w: Way, n: nat, next: nat, qs: seq<Round>, g: nat)
    requires next <= n && AlwaysReady(w, n, next, qs, g)
  {
    AlwaysReadyIsLegal(w, n, next, qs, g);
    g in Choices(w, n, next, qs)
  }

  lemma ChosenLater(w: Way, n: nat, next: nat, qs: seq<Round>, g: nat)
    requires next <= n && qs != [] && AlwaysReady(w, n, next, qs, g)
    ensures var r := Choice(w, n, next, qs[0]);
      Chosen(w, n, next, qs, g) <==> r == g || Chosen(w, n, Following(w, n, next, r), qs[1..], g)
  {
    AlwaysReadyIsLegal(w, n, next, qs, g);
  }

  /** From `_next` = `next`, a guard `g` that stays ready is chosen within n + 1 selections,
      whatever the other guards and the preconditions of the others do. */
  ghost predicate IsFairFrom(w: Way, n: nat, next: nat, g: nat)
    requires next <= n
  {
    forall qs: seq<Round> :: |qs| == n + 1 && AlwaysReady(w, n, next, qs, g) ==> Chosen(w, n, next, qs, g)
  }

  ghost predicate IsFairTo(w: Way, n: nat, g: nat) { forall next: nat :: next <= n ==> IsFairFrom(w, n, next, g) }

  // ---------- repaired ----------

  /** How many selections can still pass guard `g` by. */
  function Patience(n: nat, next: nat, g: nat): int {
    if next <= g then g - next else if next == n then g + 1 else n - next + 1 + g
  }

  lemma {:induction false} RepairedWithin(n: nat, next: nat, qs: seq<Round>, g: nat)
    requires g < n && next <= n && AlwaysReady(Repaired, n, next, qs, g) && |qs| > Patience(n, next, g)
    ensures Chosen(Repaired, n, next, qs, g)
    decreases |qs|
  {
    var r := Choice(Repaired, n, next, qs[0]);
    SinglePassStopsAt(qs[0].pre, next, qs[0].a, qs[0].b, g);
    ChosenLater(Repaired, n, next, qs, g);
    if r != g {
      RepairedWithin(n, Following(Repaired, n, next, r), qs[1..], g);
    }
  }

  /** With a single pass fair selection is fair to every guard, from any `_next`. */
  lemma IntendedIsFair(n: nat, g: nat)
    requires g < n
    ensures IsFairTo(Repaired, n, g)
  {
    forall next: nat, qs: seq<Round> | next <= n && |qs| == n + 1 && AlwaysReady(Repaired, n, next, qs, g)
      ensures Chosen(Repaired, n, next, qs, g)
    {
      RepairedWithin(n, next, qs, g);
    }
  }

  // ---------- as written ----------

  /** The same count for the loops as written, which serve only guards 0 and 1. */
  function PatienceAsWritten(n: nat, next: nat, g: nat): int {
    if next == g then 0
    else if next == n then (if g == 0 then 0 else 2)
    else if next < g then 1
    else if g == 0 then n - next
    else n - next + 2
  }

  lemma {:induction false} AsWrittenWithin(n: nat, next: nat, qs: seq<Round>, g: nat)
    requires g < n && g <= 1 && next <= n
    requires AlwaysReady(Plain, n, next, qs, g) && |qs| > PatienceAsWritten(n, next, g)
    ensures Chosen(Plain, n, next, qs, g)
    decreases |qs|
  {
    var r := Choice(Plain, n, next, qs[0]);
    NestedStopsAt(qs[0].pre, next, qs[0].a, qs[0].b, g);
    ChosenLater(Plain, n, next, qs, g);
    if r != g {
      AsWrittenWithin(n, Following(Plain, n, next, r), qs[1..], g);
    }
  }

  /** Guards `x` and `g` are ready, the others are not. */
  function Two(n: nat, x: nat, g: nat): seq<bool> { seq(n, i => i == x || i == g) }

  /** A selection in which readiness stands still. */
  function SteadyRound(on: seq<bool>, next: nat): Round
    requires next <= |on|
  {
    var pre := seq(|on|, _ => true);
    var a := seq(|on|, k requires 0 <= k < |on| => on[Rot(|on|, next, k)]);
    var order := DisableOrder(|on|, next, EnableFrom(|on|, next, pre, a, 0));
    Round(pre, a, seq(|order|, j requires 0 <= j < |order| => order[j] < |on| && on[order[j]]))
  }

  lemma SteadyRoundIsSteady(on: seq<bool>, next: nat)
    requires next <= |on|
    ensures var q := SteadyRound(on, next); Steady(q.pre, on, next, q.a, q.b)
  {
    var q := SteadyRound(on, next);
    var order := DisableOrder(|on|, next, EnableFrom(|on|, next, q.pre, q.a, 0));
    forall j | 0 <= j < |order| && order[j] < |on| ensures Yes(order, q.pre, q.b, j) == on[order[j]] {
      assert q.b[j] == on[order[j]] && q.pre[order[j]];
    }
    forall k | 0 <= k < |on| ensures Said(q.a, k) == on[Rot(|on|, next, k)] {
      assert q.a[k] == on[Rot(|on|, next, k)];
    }
  }

  lemma SteadyMeansReady(n: nat, next: nat, q: Round, on: seq<bool>, g: nat)
    requires next <= n == |on| == |q.pre| && g < n && on[g] && Steady(q.pre, on, next, q.a, q.b)
    ensures AnswersReady(q.pre, next, q.a, q.b, Sel(n, next, q), DisableOrder(n, next, Sel(n, next, q)), g)
  {
    assert Rot(n, next, RotInverse(n, next, g)) == g;
    var order := DisableOrder(n, next, Sel(n, next, q));
    forall j | 0 <= j < |order| && order[j] == g ensures Said(q.b, j) {
      assert Yes(order, q.pre, q.b, j) == on[order[j]];
    }
  }

  lemma SteadyRoundPicks(w: Way, on: seq<bool>, next: nat, g: nat)
    requires !w.Repaired? && next <= |on| && g < |on| && on[g]
    ensures var q := SteadyRound(on, next);
      && Legal(w, |on|, q) && Ready(w, |on|, next, q, g)
      && Choice(w, |on|, next, q) == if next < |on| && on[next] then next else LeastFrom(on, 0)
  {
    var q := SteadyRound(on, next);
    SteadyRoundIsSteady(on, next);
    SteadyMeansReady(|on|, next, q, on, g);
    SelectionAsWritten(q.pre, on, next, q.a, q.b);
  }

  /** Some `len` selections from `_next` = `next` all pass by guard `g` though it is ready. */
  ghost predicate CanStarve(w: Way, n: nat, next: nat, g: nat, len: nat)
    requires next <= n
  {
    exists qs: seq<Round> :: |qs| == len && AlwaysReady(w, n, next, qs, g) && !Chosen(w, n, next, qs, g)
  }

  /** One more selection that passes `g` by. */
  lemma StarveOnce(w: Way, n: nat, next: nat, g: nat, x: nat, qs: seq<Round>) returns (ps: seq<Round>)
    requires !w.Repaired? && next <= n && g < n && x < n && x != g && (x < g || x == next) && next != g
    requires next < n ==> next == x || (x < next && w.Plain?)
    requires AlwaysReady(w, n, Following(w, n, next, x), qs, g)
    requires !Chosen(w, n, Following(w, n, next, x), qs, g)
    ensures |ps| == |qs| + 1 && AlwaysReady(w, n, next, ps, g) && !Chosen(w, n, next, ps, g)
  {
    var on := Two(n, x, g);
    SteadyRoundPicks(w, on, next, g);
    assert on[x] && on[g];
    assert next < n && next != x ==> !on[next];
    assert Choice(w, n, next, SteadyRound(on, next)) == x;
    ps := [SteadyRound(on, next)] + qs;
    assert ps[1..] == qs;
    ChosenLater(w, n, next, ps, g);
  }

  lemma {:induction false} GuardZeroWinsForEver(n: nat, next: nat, g: nat, len: nat) returns (qs: seq<Round>)
    requires 2 <= g < n && next <= 1
    ensures |qs| == len && AlwaysReady(Plain, n, next, qs, g) && !Chosen(Plain, n, next, qs, g)
    decreases len
  {
    if len == 0 {
      qs := [];
    } else {
      qs := GuardZeroWinsForEver(n, 1, g, len - 1);
      qs := StarveOnce(Plain, n, next, g, 0, qs);
    }
  }

  /** As written, fair selection is fair exactly to the first two guards: any other can be
      ready for ever, from the very first selection, and never be selected. */
  lemma FairAsWrittenExactlyWhen(n: nat, g: nat)
    requires g < n
    ensures IsFairTo(Plain, n, g) <==> g <= 1
    ensures g >= 2 ==> forall len: nat :: CanStarve(Plain, n, 0, g, len)
  {
    if g <= 1 {
      forall next: nat, qs: seq<Round> | next <= n && |qs| == n + 1 && AlwaysReady(Plain, n, next, qs, g)
        ensures Chosen(Plain, n, next, qs, g)
      {
        AsWrittenWithin(n, next, qs, g);
      }
    } else {
      forall len: nat ensures CanStarve(Plain, n, 0, g, len) {
        var qs := GuardZeroWinsForEver(n, 0, g, len);
      }
      assert CanStarve(Plain, n, 0, g, n + 1);
      assert !IsFairFrom(Plain, n, 0, g);
    }
  }

  // ---------- with preconditions, as written ----------

  /** The guard `_next` stands at is chosen again and again as long as it is ready, whatever
      the others do. */
  lemma {:induction false} GuardedSelectRepeats(n: nat, g: nat, qs: seq<Round>)
    requires g < n && AlwaysReady(Guarded, n, g, qs, g) && forall q :: q in qs ==> Legal(Guarded, n, q)
    ensures forall j :: 0 <= j < |qs| ==> Choices(Guarded, n, g, qs)[j] == g
    decreases |qs|
  {
    if qs != [] {
      NestedStopsAt(qs[0].pre, g, qs[0].a, qs[0].b, g);
      GuardedSelectRepeats(n, g, qs[1..]);
    }
  }

  lemma {:induction false} RivalWinsForEver(n: nat, next: nat, g: nat, len: nat) returns (qs: seq<Round>)
    requires g < n && next <= n && next != g && (next == n ==> g != 0)
    ensures |qs| == len && AlwaysReady(Guarded, n, next, qs, g) && !Chosen(Guarded, n, next, qs, g)
    decreases len
  {
    if len == 0 {
      qs := [];
    } else {
      var x := if next == n then 0 else next;
      qs := RivalWinsForEver(n, x, g, len - 1);
      qs := StarveOnce(Guarded, n, next, g, x, qs);
    }
  }

  /** As written, selection with preconditions is fair from `_next` exactly to the guard
      `_next` stands at, and to guard 0 when it stands past the last guard.  Any other guard
      can be ready for ever and never be chosen. */
  lemma GuardedIsFairExactlyWhen(n: nat, next: nat, g: nat)
    requires g < n && next <= n
    ensures IsFairFrom(Guarded, n, next, g) <==> next == g || (next == n && g == 0)
    ensures !IsFairFrom(Guarded, n, next, g) ==> forall len: nat :: CanStarve(Guarded, n, next, g, len)
  {
    if next == g || (next == n && g == 0) {
      forall qs: seq<Round> | |qs| == n + 1 && AlwaysReady(Guarded, n, next, qs, g)
        ensures Chosen(Guarded, n, next, qs, g)
      {
        NestedStopsAt(qs[0].pre, next, qs[0].a, qs[0].b, g);
        ChosenLater(Guarded, n, next, qs, g);
      }
    } else {
      forall len: nat ensures CanStarve(Guarded, n, next, g, len) {
        var qs := RivalWinsForEver(n, next, g, len);
      }
      assert CanStarve(Guarded, n, next, g, n + 1);
    }
  }

  /** So from the initial `_next` it is fair to guard 0 only, and from every `_next` to no
      guard at all unless there is only one. */
  lemma GuardedIsHardlyFair(n: nat, g: nat)
    requires g < n
    ensures IsFairFrom(Guarded, n, 0, g) <==> g == 0
    ensures IsFairTo(Guarded, n, g) <==> n == 1
  {
    GuardedIsFairExactlyWhen(n, 0, g);
    forall next: nat | next <= n
      ensures IsFairFrom(Guarded, n, next, g) <==> next == g || (next == n && g == 0)
    {
      GuardedIsFairExactlyWhen(n, next, g);
    }
    if n > 1 {
      var other: nat := if g == 0 then 1 else 0;
      assert !IsFairFrom(Guarded, n, other, g);
    }
  }
}
