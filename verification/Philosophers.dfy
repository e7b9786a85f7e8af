/** The dining philosophers of demos/diningphil.cpp, over rendezvous channels, for any
    number `n >= 2` of them; `limit` is how many the security process lets sit (n - 1 in
    the source).

    Philosopher `i` writes `left[i]`, which fork `i` reads, and `right[i]`, which the fork
    before it reads.  Reports and delays always complete and are left out. */
module Philosophers {
  import opened Runs
  import opened Sets
  import opened Sums

  /** `Picking` and `Putting` are the two parallel writes, with the ones done so far. */
  datatype Phil = Thinking | Picking(l: bool, r: bool) | Eating | Putting(l: bool, r: bool) | Leaving

  /** A fork that was read once on a channel next reads that channel again. */
  datatype Fork = OnTable | HeldByLeft | HeldByRight

  datatype State = State(n: nat, limit: nat, phils: seq<Phil>, forks: seq<Fork>, sitting: int)

  datatype Event =
    | Down(i: nat)
    | PickLeft(i: nat)
    | PickRight(i: nat)
    | StopEating(i: nat)
    | PutLeft(i: nat)
    | PutRight(i: nat)
    | Up(i: nat)

  function Before(n: nat, i: nat): (j: nat)
    requires i < n
    ensures j < n
  {
    if i == 0 then n - 1 else i - 1
  }

  function After(n: nat, i: nat): (j: nat)
    requires i < n
    ensures j < n && Before(n, j) == i
  {
    if i == n - 1 then 0 else i + 1
  }

  predicate Shape(s: State) { s.n >= 2 && |s.phils| == |s.forks| == s.n }

  function Init(n: nat, limit: nat): State {
    State(n, limit, seq(n, _ => Thinking), seq(n, _ => OnTable), 0)
  }

  /** The second pick-up starts the meal. */
  function Picked(l: bool, r: bool): Phil { if l && r then Eating else Picking(l, r) }
  function Put(l: bool, r: bool): Phil { if l && r then Leaving else Putting(l, r) }

  function Step(s: State, e: Event): Option<State> {
    if !Shape(s) || e.i >= s.n then None
    else
      var p, left, right := s.phils[e.i], e.i, Before(s.n, e.i);
      match e
      case Down(i) =>
        if p.Thinking? && s.sitting < s.limit then
          Some(s.(phils := s.phils[i := Picking(false, false)], sitting := s.sitting + 1))
        else None
      case PickLeft(i) =>
        if p.Picking? && !p.l && s.forks[left].OnTable? then
          Some(s.(phils := s.phils[i := Picked(true, p.r)], forks := s.forks[left := HeldByLeft]))
        else None
      case PickRight(i) =>
        if p.Picking? && !p.r && s.forks[right].OnTable? then
          Some(s.(phils := s.phils[i := Picked(p.l, true)], forks := s.forks[right := HeldByRight]))
        else None
      case StopEating(i) =>
        if p.Eating? then Some(s.(phils := s.phils[i := Putting(false, false)])) else None
      case PutLeft(i) =>
        if p.Putting? && !p.l && s.forks[left].HeldByLeft? then
          Some(s.(phils := s.phils[i := Put(true, p.r)], forks := s.forks[left := OnTable]))
        else None
      case PutRight(i) =>
        if p.Putting? && !p.r && s.forks[right].HeldByRight? then
          Some(s.(phils := s.phils[i := Put(p.l, true)], forks := s.forks[right := OnTable]))
        else None
      case Up(i) =>
        if p.Leaving? then Some(s.(phils := s.phils[i := Thinking], sitting := s.sitting - 1)) else None
  }

  // ---------- safety ----------

  predicate HoldsLeft(p: Phil) { p.Eating? || (p.Picking? && p.l) || (p.Putting? && !p.l) }
  predicate HoldsRight(p: Phil) { p.Eating? || (p.Picking? && p.r) || (p.Putting? && !p.r) }

  ghost function Seated(phils: seq<Phil>): set<nat> {
    set i: nat | i < |phils| && !phils[i].Thinking?
  }

  /** What philosopher `i` holds is what its two forks say. */
  ghost predicate Local(s: State, i: nat)
    requires Shape(s) && i < s.n
  {
    && (HoldsLeft(s.phils[i]) <==> s.forks[i] == HeldByLeft)
    && (HoldsRight(s.phils[i]) <==> s.forks[Before(s.n, i)] == HeldByRight)
    && s.phils[i] != Picking(true, true) && s.phils[i] != Putting(true, true)
  }

  ghost predicate Inv(s: State) {
    && Shape(s)
    && (forall i :: 0 <= i < s.n ==> Local(s, i))
    && s.sitting == |Seated(s.phils)| <= s.limit
  }

  function One(p: Phil): nat { if p.Thinking? then 0 else 1 }

  lemma SeatedAfter(phils: seq<Phil>, i: nat, p: Phil)
    requires i < |phils|
    ensures |Seated(phils[i := p])| == |Seated(phils)| - One(phils[i]) + One(p)
  {
    var before, after := Seated(phils), Seated(phils[i := p]);
    if p.Thinking? {
      assert after == before - {i};
    } else {
      assert after == before + {i};
    }
    assert i in before <==> !phils[i].Thinking?;
  }

  lemma {:induction false} NobodySeated(n: nat)
    ensures Seated(seq(n, _ => Thinking)) == {}
  {
  }

  lemma StepKeepsLocal(s: State, e: Event, j: nat)
    requires Shape(s) && Step(s, e).Some? && j < s.n && Local(s, j) && Local(s, e.i)
    ensures Local(Step(s, e).value, j)
  {
  }

  lemma StepKeepsCount(s: State, e: Event)
    requires Inv(s) && Step(s, e).Some?
    ensures var t := Step(s, e).value; Shape(t) && t.sitting == |Seated(t.phils)| <= t.limit
  {
    var t := Step(s, e).value;
    assert Local(s, e.i) && t.phils == s.phils[e.i := t.phils[e.i]];
    SeatedAfter(s.phils, e.i, t.phils[e.i]);
  }

  lemma StepKeepsInv(s: State, e: Event)
    requires Inv(s) && Step(s, e).Some?
    ensures Inv(Step(s, e).value)
  {
    StepKeepsCount(s, e);
    forall j | 0 <= j < s.n ensures Local(Step(s, e).value, j) {
      assert Local(s, j) && Local(s, e.i);
      StepKeepsLocal(s, e, j);
    }
  }

  lemma RunKeepsInv(n: nat, limit: nat, es: seq<Event>)
    requires n >= 2 && Run(Step, Init(n, limit), es).Some?
    ensures Inv(Run(Step, Init(n, limit), es).value)
  {
    NobodySeated(n);
    forall s, e | Inv(s) && Step(s, e).Some? ensures Inv(Step(s, e).value) {
      StepKeepsInv(s, e);
    }
    Invariance(Step, Inv, Init(n, limit), es);
  }

  lemma {:induction false} ConfigStays(n: nat, limit: nat, es: seq<Event>)
    requires Run(Step, Init(n, limit), es).Some?
    ensures var s := Run(Step, Init(n, limit), es).value; s.n == n && s.limit == limit
    decreases |es|
  {
    if es != [] {
      ConfigStays(n, limit, es[..|es| - 1]);
    }
  }

  /** Fork `i` is never held by both neighbours, neighbours never eat together, and the
      security process counts exactly the philosophers between `down` and `up`. */
  lemma PhilosophersAreSafe(n: nat, limit: nat, es: seq<Event>, i: nat)
    requires n >= 2 && Run(Step, Init(n, limit), es).Some? && i < n
    ensures var s := Run(Step, Init(n, limit), es).value;
      && Shape(s) && s.n == n
      && !(HoldsLeft(s.phils[i]) && HoldsRight(s.phils[After(n, i)]))
      && !(s.phils[i].Eating? && s.phils[After(n, i)].Eating?)
      && (s.forks[i].OnTable? <==> !HoldsLeft(s.phils[i]) && !HoldsRight(s.phils[After(n, i)]))
      && s.sitting == |Seated(s.phils)| <= limit
  {
    RunKeepsInv(n, limit, es);
    ConfigStays(n, limit, es);
    var s := Run(Step, Init(n, limit), es).value;
    assert Local(s, i) && Local(s, After(n, i));
  }

  // ---------- who can go on ----------

  lemma NeighboursHold(s: State, i: nat)
    requires Inv(s) && i < s.n
    ensures s.forks[i].OnTable? <==> !HoldsLeft(s.phils[i]) && !HoldsRight(s.phils[After(s.n, i)])
    ensures s.forks[Before(s.n, i)].OnTable? <==> !HoldsRight(s.phils[i]) && !HoldsLeft(s.phils[Before(s.n, i)])
  {
    assert Local(s, i) && Local(s, After(s.n, i)) && Local(s, Before(s.n, i));
    assert After(s.n, Before(s.n, i)) == i;
  }

  /** A philosopher waits for a seat or for a neighbour that has the fork, and for nothing else:
      the forks can be picked up and put down in either order. */
  lemma EverybodyGoesOn(n: nat, limit: nat, es: seq<Event>, i: nat)
    requires n >= 2 && Run(Step, Init(n, limit), es).Some? && i < n
    ensures var s := Run(Step, Init(n, limit), es).value;
      && |s.phils| == n
      && var p := s.phils[i];
      && (Step(s, Down(i)).Some? <==> p.Thinking? && |Seated(s.phils)| < limit)
      && (Step(s, PickLeft(i)).Some? <==> p.Picking? && !p.l && !HoldsRight(s.phils[After(n, i)]))
      && (Step(s, PickRight(i)).Some? <==> p.Picking? && !p.r && !HoldsLeft(s.phils[Before(n, i)]))
      && (Step(s, StopEating(i)).Some? <==> p.Eating?)
      && (Step(s, PutLeft(i)).Some? <==> p.Putting? && !p.l)
      && (Step(s, PutRight(i)).Some? <==> p.Putting? && !p.r)
      && (Step(s, Up(i)).Some? <==> p.Leaving?)
  {
    RunKeepsInv(n, limit, es);
    ConfigStays(n, limit, es);
    var s := Run(Step, Init(n, limit), es).value;
    NeighboursHold(s, i);
    assert Local(s, i);
  }

  /** A step moves one philosopher, who picks up or puts down one fork, eats with both, and
      leaves the table without any. */
  lemma OneMovesAtATime(n: nat, limit: nat, es: seq<Event>, e: Event)
    requires n >= 2 && Run(Step, Init(n, limit), es).Some? && Step(Run(Step, Init(n, limit), es).value, e).Some?
    ensures var s := Run(Step, Init(n, limit), es).value;
      var t := Step(s, e).value;
      && e.i < n == |s.phils| && t.phils == s.phils[e.i := t.phils[e.i]] && |t.phils| == n
      && var p, q := s.phils[e.i], t.phils[e.i];
      && (HoldsLeft(q) <==> (HoldsLeft(p) || e.PickLeft?) && !e.PutLeft?)
      && (HoldsRight(q) <==> (HoldsRight(p) || e.PickRight?) && !e.PutRight?)
      && (q.Eating? <==> (e.PickLeft? || e.PickRight?) && HoldsLeft(q) && HoldsRight(q))
      && (q.Thinking? <==> e.Up?) && (q.Leaving? <==> (e.PutLeft? || e.PutRight?) && !HoldsLeft(q) && !HoldsRight(q))
  {
    RunKeepsInv(n, limit, es);
    ConfigStays(n, limit, es);
    var s := Run(Step, Init(n, limit), es).value;
    assert Local(s, e.i);
    StepKeepsLocal(s, e, e.i);
  }

  // ---------- deadlock ----------

  ghost predicate CanStep(s: State) { exists e :: Step(s, e).Some? }

  ghost predicate DeadlockFree(n: nat, limit: nat) {
    forall es :: Run(Step, Init(n, limit), es).Some? ==> CanStep(Run(Step, Init(n, limit), es).value)
  }

  /** Philosopher number `d` after `i` round the table. */
  function Around(n: nat, i: nat, d: nat): (j: nat)
    requires i < n && d <= n
    ensures j < n
  {
    if i + d < n then i + d else i + d - n
  }

  lemma PickersOnly(s: State, j: nat)
    requires Inv(s) && !CanStep(s) && j < s.n && !s.phils[j].Thinking?
    ensures s.phils[j].Picking?
  {
    assert Local(s, j);
    assert !Step(s, StopEating(j)).Some? && !Step(s, Up(j)).Some?;
    assert !Step(s, PutLeft(j)).Some? && !Step(s, PutRight(j)).Some?;
  }

  /** If nothing can move, then going round the table from a philosopher who is thinking,
      whoever sits holds the right fork only. */
  lemma {:induction false} ChainOfRightForks(s: State, i: nat, d: nat)
    requires Inv(s) && !CanStep(s) && i < s.n && s.phils[i].Thinking? && d < s.n
    ensures var p := s.phils[Around(s.n, i, d)]; p.Thinking? || p == Picking(false, true)
    decreases d
  {
    if d > 0 {
      ChainOfRightForks(s, i, d - 1);
      var j := Around(s.n, i, d);
      assert Before(s.n, j) == Around(s.n, i, d - 1) && After(s.n, Before(s.n, j)) == j;
      assert Local(s, j) && Local(s, Before(s.n, j));
      if !s.phils[j].Thinking? {
        PickersOnly(s, j);
        assert !Step(s, PickRight(j)).Some?;
      }
    }
  }

  /** And each of them waits for a left fork that the next one holds, all the way round. */
  lemma {:induction false} ChainOfLeftForks(s: State, i: nat, j: nat, d: nat)
    requires Inv(s) && !CanStep(s) && i < s.n && s.phils[i].Thinking?
    requires j < s.n && !s.phils[j].Thinking? && d < s.n
    ensures !s.phils[Around(s.n, j, d)].Thinking?
    decreases d
  {
    if d > 0 {
      ChainOfLeftForks(s, i, j, d - 1);
      var k := Around(s.n, j, d - 1);
      assert After(s.n, k) == Around(s.n, j, d);
      ChainOfRightForks(s, i, if k >= i then k - i else k + s.n - i);
      assert Local(s, k) && Local(s, After(s.n, k));
      assert !Step(s, PickLeft(k)).Some?;
    }
  }

  lemma BothKinds(s: State) returns (i: nat, j: nat)
    requires Inv(s) && s.sitting == s.limit && 1 <= s.limit <= s.n - 1
    ensures i < s.n && j < s.n && s.phils[i].Thinking? && !s.phils[j].Thinking?
  {
    i := Missing(Seated(s.phils), Below(s.n));
    j := Missing({}, Seated(s.phils));
  }

  lemma RingIsBroken(s: State, i: nat, j: nat)
    requires Inv(s) && i < s.n && j < s.n && s.phils[i].Thinking? && !s.phils[j].Thinking?
    ensures CanStep(s)
  {
    if !CanStep(s) {
      var d := if i >= j then i - j else i + s.n - j;
      assert Around(s.n, j, d) == i;
      ChainOfLeftForks(s, i, j, d);
    }
  }

  /** With a place always left empty, somebody can move: were nobody able to, the forks held
      and the forks awaited would form a chain round the table, and a thinking philosopher
      breaks it. */
  lemma SecurityPreventsDeadlock(s: State)
    requires Inv(s) && 1 <= s.limit <= s.n - 1
    ensures CanStep(s)
  {
    if s.sitting < s.limit {
      var i := Missing(Seated(s.phils), Below(s.n));
      assert Step(s, Down(i)).Some?;
    } else {
      var i, j := BothKinds(s);
      RingIsBroken(s, i, j);
    }
  }

  /** The first `k` philosophers have sat down and picked up their right fork. */
  function RightsTaken(n: nat, limit: nat, k: nat): State
    requires k <= n
  {
    State(n, limit, seq(n, i => if i < k then Picking(false, true) else Thinking),
          seq(n, j requires 0 <= j < n => if After(n, j) < k then HeldByRight else OnTable), k)
  }

  /** The next philosopher sits down and picks up its right fork. */
  lemma OneMoreRight(n: nat, limit: nat, i: nat)
    requires n >= 2 && i < n && i < limit
    ensures var sat := Step(RightsTaken(n, limit, i), Down(i));
      sat.Some? && Step(sat.value, PickRight(i)) == Some(RightsTaken(n, limit, i + 1))
  {
    var s, t := RightsTaken(n, limit, i), RightsTaken(n, limit, i + 1);
    var r := Before(n, i);
    var u := Step(Step(s, Down(i)).value, PickRight(i)).value;
    assert After(n, r) == i;
    assert t.phils == u.phils;
    forall j | 0 <= j < n ensures t.forks[j] == s.forks[r := HeldByRight][j] {
      assert Before(n, After(n, j)) == j;
    }
    assert t.forks == u.forks;
  }

  lemma {:induction false} RightsCanBeTaken(n: nat, limit: nat, k: nat) returns (es: seq<Event>)
    requires n >= 2 && k <= n && k <= limit
    ensures Run(Step, Init(n, limit), es) == Some(RightsTaken(n, limit, k))
    decreases k
  {
    if k == 0 {
      es := [];
      assert RightsTaken(n, limit, 0) == Init(n, limit);
    } else {
      es := RightsCanBeTaken(n, limit, k - 1);
      OneMoreRight(n, limit, k - 1);
      Snoc(Step, Init(n, limit), es, Down(k - 1));
      Snoc(Step, Init(n, limit), es + [Down(k - 1)], PickRight(k - 1));
      es := es + [Down(k - 1)] + [PickRight(k - 1)];
    }
  }

  /** The rule `sitting < N - 1` is exact: the table is free of deadlock when the limit lets
      at least one and at most n - 1 philosophers sit, and for no other limit. */
  lemma DeadlockFreeExactlyWhen(n: nat, limit: nat)
    requires n >= 2
    ensures DeadlockFree(n, limit) <==> 1 <= limit <= n - 1
  {
    if 1 <= limit <= n - 1 {
      forall es | Run(Step, Init(n, limit), es).Some? ensures CanStep(Run(Step, Init(n, limit), es).value) {
        RunKeepsInv(n, limit, es);
        ConfigStays(n, limit, es);
        SecurityPreventsDeadlock(Run(Step, Init(n, limit), es).value);
      }
    } else {
      var k := if limit == 0 then 0 else n;
      var es := RightsCanBeTaken(n, limit, k);
      forall e ensures Step(RightsTaken(n, limit, k), e).None? {}
      assert !CanStep(RightsTaken(n, limit, k));
    }
  }

  // ---------- meals ----------

  /** A second pick-up: the event with which a philosopher starts to eat. */
  predicate StartsMeal(s: State, e: Event) {
    Shape(s) && e.i < s.n && (e.PickLeft? || e.PickRight?) &&
    var p := s.phils[e.i];
    p.Picking? && (if e.PickLeft? then p.r else p.l)
  }

  /** The philosopher's own steps up to its next meal. */
  function StepsToMeal(p: Phil): nat {
    match p
    case Thinking => 3
    case Picking(l, r) => if l || r then 1 else 2
    case Eating => 7
    case Putting(l, r) => if l || r then 5 else 6
    case Leaving => 4
  }

  function AllSteps(s: State): nat
    requires Shape(s)
  {
    Sum(seq(s.n, i requires 0 <= i < s.n => StepsToMeal(s.phils[i])))
  }

  lemma AllStepsBound(s: State)
    requires Shape(s)
    ensures AllSteps(s) <= 7 * s.n
  {
    SumBound(seq(s.n, i requires 0 <= i < s.n => StepsToMeal(s.phils[i])), 7);
  }

  lemma StepsShrink(s: State, e: Event)
    requires Inv(s) && Step(s, e).Some? && !StartsMeal(s, e)
    ensures AllSteps(Step(s, e).value) == AllSteps(s) - 1
  {
    var t := Step(s, e).value;
    var a := seq(s.n, i requires 0 <= i < s.n => StepsToMeal(s.phils[i]));
    var b := seq(t.n, i requires 0 <= i < t.n => StepsToMeal(t.phils[i]));
    assert Local(s, e.i);
    assert b == a[e.i := a[e.i] - 1];
    SumUpdate(a, e.i, a[e.i] - 1);
  }

  /** No meal starts in the run `es` from `s`. */
  ghost predicate Fasting(s: State, es: seq<Event>) {
    forall k :: 0 <= k < |es| && Run(Step, s, es[..k]).Some? ==> !StartsMeal(Run(Step, s, es[..k]).value, es[k])
  }

  lemma {:induction false} FastsAreShort(s: State, es: seq<Event>)
    requires Inv(s) && Run(Step, s, es).Some? && Fasting(s, es)
    ensures Inv(Run(Step, s, es).value) && AllSteps(Run(Step, s, es).value) + |es| == AllSteps(s)
    decreases |es|
  {
    if es != [] {
      var before := es[..|es| - 1];
      forall k | 0 <= k < |before| ensures before[..k] == es[..k] && before[k] == es[k] {}
      FastsAreShort(s, before);
      StepKeepsInv(Run(Step, s, before).value, es[|es| - 1]);
      StepsShrink(Run(Step, s, before).value, es[|es| - 1]);
    }
  }

  /** There is no livelock: in any 7n + 1 consecutive steps somebody starts to eat.  With
      `DeadlockFreeExactlyWhen`, the table as a whole eats for ever. */
  lemma SomebodyEats(n: nat, limit: nat, es: seq<Event>, fs: seq<Event>)
    requires n >= 2 && Run(Step, Init(n, limit), es).Some?
    requires Run(Step, Run(Step, Init(n, limit), es).value, fs).Some? && |fs| > 7 * n
    ensures !Fasting(Run(Step, Init(n, limit), es).value, fs)
  {
    RunKeepsInv(n, limit, es);
    ConfigStays(n, limit, es);
    var s := Run(Step, Init(n, limit), es).value;
    if Fasting(s, fs) {
      FastsAreShort(s, fs);
      AllStepsBound(s);
    }
  }
}
