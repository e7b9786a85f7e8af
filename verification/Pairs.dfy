/** The pairs network (csp/plugnplay/pairs.h): delta copies the input to channels `a` and
    `b`, tail drops the first value of `b` and passes the rest on to `c`, plus adds `a` and
    `c`.  The environment offers inputs and accepts outputs. */
module Pairs {
  import opened Runs

  /** How delta writes its two outputs (delta.h:85-91); pairs uses the parallel one. */
  datatype Mode = Parallel | FirstAThenB | FirstBThenA

  datatype Delta = Awaiting | Copying(v: int, a: bool, b: bool)
  datatype Tail = Dropping | Receiving | Passing(v: int)
  datatype Plus = Reading(va: Option<int>, vc: Option<int>) | Adding(sum: int)

  /** `taken` inputs have entered, `out` has left. */
  datatype State = State(mode: Mode, input: nat -> int, taken: nat, delta: Delta, tail: Tail, plus: Plus, out: seq<int>)

  datatype Event = Input | SendA | SendB | SendC | Output

  function Init(mode: Mode, input: nat -> int): State {
    State(mode, input, 0, Awaiting, Dropping, Reading(None, None), [])
  }

  function Copied(v: int, a: bool, b: bool): Delta { if a && b then Awaiting else Copying(v, a, b) }

  /** The parallel read of plus is over when both values are there. */
  function Collected(va: Option<int>, vc: Option<int>): Plus {
    if va.Some? && vc.Some? then Adding(va.value + vc.value) else Reading(va, vc)
  }

  function Step(s: State, e: Event): Option<State> {
    match e
    case Input =>
      if s.delta.Awaiting? then Some(s.(taken := s.taken + 1, delta := Copying(s.input(s.taken), false, false)))
      else None
    case SendA =>
      if s.delta.Copying? && !s.delta.a && (s.mode.FirstBThenA? ==> s.delta.b)
         && s.plus.Reading? && s.plus.va.None? then
        Some(s.(delta := Copied(s.delta.v, true, s.delta.b), plus := Collected(Some(s.delta.v), s.plus.vc)))
      else None
    case SendB =>
      if s.delta.Copying? && !s.delta.b && (s.mode.FirstAThenB? ==> s.delta.a) && !s.tail.Passing? then
        Some(s.(delta := Copied(s.delta.v, s.delta.a, true),
                tail := if s.tail.Dropping? then Receiving else Passing(s.delta.v)))
      else None
    case SendC =>
      if s.tail.Passing? && s.plus.Reading? && s.plus.vc.None? then
        Some(s.(tail := Receiving, plus := Collected(s.plus.va, Some(s.tail.v))))
      else None
    case Output =>
      if s.plus.Adding? then Some(s.(plus := Reading(None, None), out := s.out + [s.plus.sum])) else None
  }

  // ---------- how far each channel has got ----------

  function SentA(s: State): int { if s.delta.Copying? && !s.delta.a then s.taken - 1 else s.taken }
  function SentB(s: State): int { if s.delta.Copying? && !s.delta.b then s.taken - 1 else s.taken }

  function SentC(s: State): int {
    |s.out| + if s.plus.Adding? || s.plus.vc.Some? then 1 else 0
  }

  ghost predicate Inv(s: State) {
    var n := |s.out|;
    && (s.delta.Copying? ==>
          s.taken > 0 && s.delta.v == s.input(s.taken - 1) && !(s.delta.a && s.delta.b)
          && (s.mode.FirstAThenB? && s.delta.b ==> s.delta.a) && (s.mode.FirstBThenA? && s.delta.a ==> s.delta.b))
    && SentA(s) == n + (if s.plus.Adding? || s.plus.va.Some? then 1 else 0)
    && (match s.tail
        case Dropping => SentB(s) == 0 && SentC(s) == 0
        case Receiving => SentB(s) == SentC(s) + 1
        case Passing(v) => SentB(s) == SentC(s) + 2 && v == s.input(SentC(s) + 1))
    && (match s.plus
        case Adding(sum) => sum == s.input(n) + s.input(n + 1)
        case Reading(va, vc) =>
          !(va.Some? && vc.Some?) && (va.Some? ==> va.value == s.input(n)) && (vc.Some? ==> vc.value == s.input(n + 1)))
    && (forall k :: 0 <= k < n ==> s.out[k] == s.input(k) + s.input(k + 1))
  }

  lemma StepKeepsInv(s: State, e: Event)
    requires Inv(s) && Step(s, e).Some?
    ensures Inv(Step(s, e).value)
  {
  }

  /** Communications so far. */
  function Count(s: State): int { s.taken + SentA(s) + SentB(s) + SentC(s) + |s.out| }

  lemma StepCounts(s: State, e: Event)
    requires Inv(s) && Step(s, e).Some?
    ensures var t := Step(s, e).value; t.mode == s.mode && t.input == s.input && Count(t) == Count(s) + 1
  {
  }

  ghost predicate After(s: State, mode: Mode, input: nat -> int, k: nat) {
    Inv(s) && s.mode == mode && s.input == input && Count(s) == k
  }

  lemma OneStepMore(s: State, e: Event, mode: Mode, input: nat -> int, k: nat)
    requires After(s, mode, input, k) && Step(s, e).Some?
    ensures After(Step(s, e).value, mode, input, k + 1)
  {
    StepKeepsInv(s, e);
    StepCounts(s, e);
  }

  lemma {:induction false} RunKeepsInv(mode: Mode, input: nat -> int, es: seq<Event>)
    requires Run(Step, Init(mode, input), es).Some?
    ensures After(Run(Step, Init(mode, input), es).value, mode, input, |es|)
    decreases |es|
  {
    if es != [] {
      RunKeepsInv(mode, input, es[..|es| - 1]);
      OneStepMore(Run(Step, Init(mode, input), es[..|es| - 1]).value, es[|es| - 1], mode, input, |es| - 1);
    }
  }

  /** For every input stream, every scheduling and every way of copying, output `k` is the
      sum of inputs `k` and `k + 1`, and output keeps up: at most two inputs are ahead, so of
      any 5 * m + 7 communications at least m + 1 are outputs. */
  lemma PairsAddsNeighbours(mode: Mode, input: nat -> int, es: seq<Event>)
    requires Run(Step, Init(mode, input), es).Some?
    ensures var s := Run(Step, Init(mode, input), es).value;
      && (forall k :: 0 <= k < |s.out| ==> s.out[k] == input(k) + input(k + 1))
      && |s.out| <= s.taken <= |s.out| + 2
      && |es| <= 5 * |s.out| + 6
  {
    RunKeepsInv(mode, input, es);
  }

  // ---------- deadlock ----------

  ghost predicate CanStep(s: State) { exists e :: Step(s, e).Some? }

  ghost predicate NeverSticks(mode: Mode, input: nat -> int) {
    forall es :: Run(Step, Init(mode, input), es).Some? ==> CanStep(Run(Step, Init(mode, input), es).value)
  }

  lemma StuckOnlyWhenAFirst(s: State)
    requires Inv(s) && !s.mode.FirstAThenB?
    ensures CanStep(s)
  {
    if s.delta.Awaiting? {
      assert Step(s, Input).Some?;
    } else if s.plus.Adding? {
      assert Step(s, Output).Some?;
    } else if s.tail.Passing? && s.plus.vc.None? {
      assert Step(s, SendC).Some?;
    } else if !s.delta.b && !s.tail.Passing? {
      assert Step(s, SendB).Some?;
    } else {
      assert Step(s, SendA).Some?;
    }
  }

  /** The network never sticks exactly when delta is not sequential with `a` first: then the
      second value for plus blocks the first value that tail would pass on to it. */
  lemma NeverSticksExactlyWhen(mode: Mode, input: nat -> int)
    ensures NeverSticks(mode, input) <==> mode != FirstAThenB
  {
    if mode != FirstAThenB {
      forall es | Run(Step, Init(mode, input), es).Some? ensures CanStep(Run(Step, Init(mode, input), es).value) {
        RunKeepsInv(mode, input, es);
        StuckOnlyWhenAFirst(Run(Step, Init(mode, input), es).value);
      }
    } else {
      var first := [Input, SendA, SendB];
      Few(Step, Init(mode, input), first);
      Snoc(Step, Init(mode, input), first, Input);
      var s := Run(Step, Init(mode, input), first + [Input]).value;
      forall e ensures Step(s, e).None? {}
      assert !CanStep(s);
    }
  }

  // ---------- who can go on ----------

  /** What each process is ready for. */
  predicate DeltaOffersA(s: State) { s.delta.Copying? && !s.delta.a && (s.mode.FirstBThenA? ==> s.delta.b) }
  predicate DeltaOffersB(s: State) { s.delta.Copying? && !s.delta.b && (s.mode.FirstAThenB? ==> s.delta.a) }
  predicate PlusWantsA(s: State) { s.plus.Reading? && s.plus.va.None? }
  predicate PlusWantsC(s: State) { s.plus.Reading? && s.plus.vc.None? }

  /** A channel waits for its two ends and for nothing else; the parallel copy and the parallel
      read of plus take their channels in either order. */
  lemma ChannelsWaitForTheirEnds(s: State)
    ensures Step(s, Input).Some? <==> s.delta.Awaiting?
    ensures Step(s, SendA).Some? <==> DeltaOffersA(s) && PlusWantsA(s)
    ensures Step(s, SendB).Some? <==> DeltaOffersB(s) && !s.tail.Passing?
    ensures Step(s, SendC).Some? <==> s.tail.Passing? && PlusWantsC(s)
    ensures Step(s, Output).Some? <==> s.plus.Adding?
    ensures s.mode.Parallel? && s.delta.Copying? ==>
      (DeltaOffersA(s) <==> !s.delta.a) && (DeltaOffersB(s) <==> !s.delta.b)
  {
  }
}
