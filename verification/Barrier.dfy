/** The barrier of csp/barrier.h: its critical sections. */
module Barrier {
  import opened Condvar

  /** `unsigned int`, which wraps around. */
  const WORD := 0x1_0000_0000

  function Inc(x: nat): nat { (x + 1) % WORD }
  function Dec(x: nat): nat { if x == 0 then WORD - 1 else x - 1 }

  datatype Fields = Fields(enrolled: nat, count: nat)

  /** The critical section of `sync` up to `wait`: the new fields and whether it waits;
      it notifies everybody when it does not. */
  function SyncEntry(f: Fields): (Fields, bool) {
    var c := Dec(f.count);
    if c > 0 then (f.(count := c), true) else (f.(count := f.enrolled), false)
  }

  function Enrolled(f: Fields): Fields { Fields(Inc(f.enrolled), Inc(f.count)) }

  /** `resign`: the new fields and whether it completes the round. */
  function Resigned(f: Fields): (Fields, bool) {
    var g := Fields(Dec(f.enrolled), Dec(f.count));
    if g.count == 0 then (g.(count := g.enrolled), true) else (g, false)
  }

  /** Whom `sync` and `resign` notify. */
  function Announced(completes: bool): Notify { if completes then All else Nobody }

  function ResetTo(size: nat): Fields { Fields(size, size) }

  class BarrierInternal {
    var enrolled: nat
    var countDown: nat

    function Value(): Fields reads this { Fields(enrolled, countDown) }

    constructor (size: nat)
      ensures Value() == ResetTo(size)
    {
      enrolled, countDown := size, size;
    }

    method EnterSync() returns (waits: bool, notify: Notify)
      modifies this
      ensures (Value(), waits) == SyncEntry(old(Value()))
      ensures notify == Announced(!waits)
    {
      countDown := Dec(countDown);
      if countDown > 0 {
        waits, notify := true, Nobody;
      } else {
        countDown := enrolled;
        waits, notify := false, All;
      }
    }

    method Enroll()
      modifies this
      ensures Value() == Enrolled(old(Value()))
    {
      enrolled := Inc(enrolled);
      countDown := Inc(countDown);
    }

    method Resign() returns (notify: Notify)
      modifies this
      ensures (Value(), notify) == (Resigned(old(Value())).0, Announced(Resigned(old(Value())).1))
    {
      enrolled := Dec(enrolled);
      countDown := Dec(countDown);
      notify := Nobody;
      if countDown == 0 {
        countDown := enrolled;
        notify := All;
      }
    }

    method Reset(size: nat)
      modifies this
      ensures Value() == ResetTo(size)
    {
      enrolled := size;
      countDown := size;
    }
  }
}

/** Processes synchronising on one barrier, enrolling and resigning as they go.

    Users keep the discipline the barrier relies on: only an enrolled process that is not
    already inside `sync` calls `sync` or `resign`, a process enrols once and not while it is
    inside `sync`, and fewer than 2^32 are enrolled.  Spurious wakeups are excluded. */
module BarrierSystem {
  import opened Runs
  import opened Condvar
  import opened Barrier
  import opened Sets

  /** Who was enrolled and who had arrived when a round was completed. */
  datatype Completion = Completion(members: set<nat>, arrived: set<nat>)

  /** `since` is the round in which a process inside `sync` arrived. */
  datatype State = State(f: Fields, cond: Cond, members: set<nat>, since: map<nat, nat>, log: seq<Completion>)

  datatype Event = Sync(p: nat) | Return(p: nat) | Enroll(p: nat) | Resign(p: nat)

  function Init(): State { State(ResetTo(0), IDLE, {}, map[], []) }

  predicate Inside(s: State, p: nat) { p in s.cond.waiting || p in s.cond.woken }

  predicate MayAct(s: State, p: nat) { p in s.members && !Inside(s, p) }

  function DoSync(s: State, p: nat): State {
    var (f, waits) := SyncEntry(s.f);
    if waits then s.(f := f, cond := Block(s.cond, p), since := s.since[p := |s.log|])
    else s.(f := f, cond := Signal(s.cond, Announced(true), 0),
            log := s.log + [Completion(s.members, s.cond.waiting + {p})])
  }

  function DoResign(s: State, p: nat): State {
    var (f, completes) := Resigned(s.f);
    var t := s.(f := f, members := s.members - {p});
    if completes then
      t.(cond := Signal(s.cond, Announced(true), 0), log := s.log + [Completion(t.members, s.cond.waiting)])
    else t
  }

  function Step(s: State, e: Event): Option<State> {
    match e
    case Sync(p) => if MayAct(s, p) then Some(DoSync(s, p)) else None
    case Return(p) => if p in s.cond.woken then Some(s.(cond := Resume(s.cond, p))) else None
    case Enroll(p) =>
      if p !in s.members && !Inside(s, p) && |s.members| + 1 < WORD then
        Some(s.(f := Enrolled(s.f), members := s.members + {p}))
      else None
    case Resign(p) => if MayAct(s, p) then Some(DoResign(s, p)) else None
  }

  /** `_count_down` is the number of enrolled processes that have yet to arrive. */
  ghost predicate CountOk(s: State) {
    && s.f.enrolled == |s.members| < WORD
    && s.cond.waiting !! s.cond.woken
    && s.f.count == |s.members - s.cond.waiting|
    && (s.members != {} ==> s.f.count > 0)
  }

  /** Only members are inside `sync`. */
  ghost predicate MembersOnly(s: State) { s.cond.waiting <= s.members && s.cond.woken <= s.members }

  ghost predicate LogOk(s: State) {
    && (forall k :: 0 <= k < |s.log| ==> s.log[k].members <= s.log[k].arrived)
    && (forall p :: p in s.cond.waiting ==> p in s.since && s.since[p] == |s.log|)
    && (forall p :: p in s.cond.woken ==> p in s.since && s.since[p] < |s.log| && p in s.log[s.since[p]].arrived)
  }

  ghost predicate Inv(s: State) { CountOk(s) && MembersOnly(s) && LogOk(s) }

  lemma SyncCounts(s: State, p: nat)
    requires CountOk(s) && MayAct(s, p)
    ensures CountOk(DoSync(s, p))
  {
    OneFewer(s.members, s.cond.waiting, p);
    assert s.members - {} == s.members;
  }

  lemma ResignCounts(s: State, p: nat)
    requires CountOk(s) && MayAct(s, p)
    ensures CountOk(DoResign(s, p))
  {
    OneFewer(s.members, s.cond.waiting, p);
    assert (s.members - {p}) - {} == s.members - {p};
  }

  lemma EnrollCounts(s: State, p: nat)
    requires CountOk(s) && Step(s, Enroll(p)).Some?
    ensures CountOk(Step(s, Enroll(p)).value)
  {
    OneMore(s.members, s.cond.waiting, p);
    NoneLeft(s.members, s.cond.waiting);
  }

  lemma StepCounts(s: State, e: Event)
    requires CountOk(s) && Step(s, e).Some?
    ensures CountOk(Step(s, e).value)
  {
    match e
    case Sync(p) => SyncCounts(s, p);
    case Resign(p) => ResignCounts(s, p);
    case Return(p) =>
    case Enroll(p) => EnrollCounts(s, p);
  }

  lemma LastToSync(s: State, p: nat)
    requires CountOk(s) && MayAct(s, p)
    ensures SyncEntry(s.f).1 <==> !(s.members <= s.cond.waiting + {p})
  {
    OneFewer(s.members, s.cond.waiting, p);
    NoneLeft(s.members, s.cond.waiting + {p});
  }

  lemma LastToResign(s: State, p: nat)
    requires CountOk(s) && MayAct(s, p)
    ensures Resigned(s.f).1 <==> s.members - {p} <= s.cond.waiting
  {
    OneFewer(s.members, s.cond.waiting, p);
    NoneLeft(s.members - {p}, s.cond.waiting);
  }

  lemma CompletionIsLogged(s: State, t: State, c: Completion)
    requires LogOk(s) && c.members <= c.arrived && t.log == s.log + [c] && s.cond.waiting <= c.arrived
    requires t.since == s.since && t.cond == Cond({}, s.cond.woken + s.cond.waiting)
    ensures LogOk(t)
  {
  }

  lemma SyncKeeps(s: State, p: nat)
    requires Inv(s) && MayAct(s, p)
    ensures Inv(DoSync(s, p))
  {
    SyncCounts(s, p);
    LastToSync(s, p);
    if !SyncEntry(s.f).1 {
      CompletionIsLogged(s, DoSync(s, p), Completion(s.members, s.cond.waiting + {p}));
    }
  }

  lemma ResignKeeps(s: State, p: nat)
    requires Inv(s) && MayAct(s, p)
    ensures Inv(DoResign(s, p))
  {
    ResignCounts(s, p);
    LastToResign(s, p);
    if Resigned(s.f).1 {
      CompletionIsLogged(s, DoResign(s, p), Completion(s.members - {p}, s.cond.waiting));
    }
  }

  lemma StepKeepsInv(s: State, e: Event)
    requires Inv(s) && Step(s, e).Some?
    ensures Inv(Step(s, e).value)
  {
    match e
    case Sync(p) => SyncKeeps(s, p);
    case Resign(p) => ResignKeeps(s, p);
    case Return(p) =>
    case Enroll(p) => EnrollCounts(s, p);
  }

  lemma RunKeepsInv(es: seq<Event>)
    requires Run(Step, Init(), es).Some?
    ensures Inv(Run(Step, Init(), es).value)
  {
    forall s, e | Inv(s) && Step(s, e).Some? ensures Inv(Step(s, e).value) {
      StepKeepsInv(s, e);
    }
    Invariance(Step, Inv, Init(), es);
  }

  /** The counters count: `_count_down` is the number of enrolled processes yet to arrive,
      and neither counter is zero when `sync` or `resign` decrements it. */
  lemma CountersAreExact(es: seq<Event>, p: nat)
    requires Run(Step, Init(), es).Some?
    ensures var s := Run(Step, Init(), es).value;
      && s.f.enrolled == |s.members| && s.f.count == |s.members - s.cond.waiting|
      && (MayAct(s, p) ==> s.f.enrolled > 0 && s.f.count > 0)
  {
    RunKeepsInv(es);
  }

  /** Rounds are separated: whoever leaves `sync` after waiting arrived in a round that was
      completed with all the processes then enrolled having arrived, itself among them. */
  lemma NobodyLeavesEarly(es: seq<Event>, p: nat)
    requires Run(Step, Init(), es).Some?
    requires Step(Run(Step, Init(), es).value, Return(p)).Some?
    ensures var s := Run(Step, Init(), es).value;
      && p in s.since && s.since[p] < |s.log|
      && p in s.log[s.since[p]].arrived
      && s.log[s.since[p]].members <= s.log[s.since[p]].arrived
  {
    RunKeepsInv(es);
  }

  /** A step ends the round exactly when it leaves every enrolled process arrived, and then
      it releases all who wait, and only those: the arrivals of a round are its own. */
  lemma RoundEndsExactlyWhen(es: seq<Event>, e: Event)
    requires Run(Step, Init(), es).Some? && Step(Run(Step, Init(), es).value, e).Some?
    requires e.Sync? || e.Resign?
    ensures var s := Run(Step, Init(), es).value;
      var t := Step(s, e).value;
      var arrived := s.cond.waiting + (if e.Sync? then {e.p} else {});
      && (|t.log| == |s.log| + 1 <==> t.members <= arrived)
      && (t.members <= arrived ==>
            t.cond == Cond({}, s.cond.woken + s.cond.waiting) && t.log == s.log + [Completion(t.members, arrived)])
      && (!(t.members <= arrived) ==> t.cond == Cond(arrived, s.cond.woken) && t.log == s.log)
  {
    RunKeepsInv(es);
    var s := Run(Step, Init(), es).value;
    var t := Step(s, e).value;
    var arrived := s.cond.waiting + (if e.Sync? then {e.p} else {});
    if e.Sync? {
      LastToSync(s, e.p);
    } else {
      LastToResign(s, e.p);
    }
  }

  /** Some enrolled process is always outside `sync` or about to leave it. */
  lemma NeverAllBlocked(es: seq<Event>)
    requires Run(Step, Init(), es).Some? && Run(Step, Init(), es).value.members != {}
    ensures var s := Run(Step, Init(), es).value;
      exists p :: p in s.members && (Step(s, Sync(p)).Some? || Step(s, Return(p)).Some?)
  {
    RunKeepsInv(es);
    var s := Run(Step, Init(), es).value;
    assert |s.members - s.cond.waiting| > 0;
    var p :| p in s.members - s.cond.waiting;
    assert Step(s, Sync(p)).Some? || Step(s, Return(p)).Some?;
  }

  // ---------- who can go on ----------

  /** Nobody waits for anything but the end of the round: an enrolled process outside `sync` can
      sync or resign, one that has been released can leave, and one that is neither enrolled nor
      inside can enrol. */
  lemma EverybodyGoesOn(es: seq<Event>, p: nat)
    requires Run(Step, Init(), es).Some?
    ensures var s := Run(Step, Init(), es).value;
      var inside := s.cond.waiting + s.cond.woken;
      && (Step(s, Sync(p)).Some? <==> p in s.members - inside)
      && (Step(s, Resign(p)).Some? <==> p in s.members - inside)
      && (Step(s, Return(p)).Some? <==> p in s.cond.woken)
      && (Step(s, Enroll(p)).Some? <==> p !in s.members && |s.members| + 1 < WORD)
  {
    RunKeepsInv(es);
  }

  /** What a step changes besides the rounds: a process leaves alone, and only the one that
      enrols or resigns comes or goes. */
  lemma OnlyOwnPlaceChanges(es: seq<Event>, e: Event)
    requires Run(Step, Init(), es).Some? && Step(Run(Step, Init(), es).value, e).Some?
    ensures var s := Run(Step, Init(), es).value;
      var t := Step(s, e).value;
      && (e.Return? ==> t.cond == Cond(s.cond.waiting, s.cond.woken - {e.p}) && t.log == s.log)
      && (e.Enroll? ==> t.cond == s.cond && t.log == s.log)
      && t.members == (match e
                       case Enroll(p) => s.members + {p}
                       case Resign(p) => s.members - {p}
                       case _ => s.members)
  {
    RunKeepsInv(es);
  }

  // ---------- reset ----------

  function AfterReset(s: State, members: set<nat>): State {
    s.(f := ResetTo(|members|), members := members)
  }

  /** Everybody enrolled is blocked. */
  ghost predicate AllAsleep(s: State) { s.members != {} && s.members <= s.cond.waiting }

  ghost predicate CanFallAsleep(s: State) {
    exists es :: Run(Step, s, es).Some? && AllAsleep(Run(Step, s, es).value)
  }

  /** No round will ever be completed again, and nobody released. */
  ghost predicate NoMoreRounds(s: State) {
    forall es :: Run(Step, s, es).Some? ==>
      Run(Step, s, es).value.log == s.log && s.cond.waiting <= Run(Step, s, es).value.cond.waiting
  }

  lemma {:induction false} CountStaysOk(s: State, es: seq<Event>)
    requires CountOk(s) && Run(Step, s, es).Some?
    ensures CountOk(Run(Step, s, es).value)
    decreases |es|
  {
    if es != [] {
      CountStaysOk(s, es[..|es| - 1]);
      StepCounts(Run(Step, s, es[..|es| - 1]).value, es[|es| - 1]);
    }
  }

  lemma NotAsleep(s: State)
    requires CountOk(s)
    ensures !AllAsleep(s)
  {
    assert s.members <= s.cond.waiting ==> s.members - s.cond.waiting == {};
  }

  /** The countdown exceeds the number of those who have yet to arrive. */
  ghost predicate TooHigh(s: State) {
    && s.f.enrolled == |s.members| && |s.members - s.cond.waiting| < s.f.count <= |s.members| < WORD
    && s.cond.waiting !! s.cond.woken
  }

  lemma TooHighSync(s: State, p: nat)
    requires TooHigh(s) && MayAct(s, p)
    ensures var t := DoSync(s, p); TooHigh(t) && t.log == s.log && s.cond.waiting <= t.cond.waiting
  {
    OneFewer(s.members, s.cond.waiting, p);
  }

  lemma TooHighResign(s: State, p: nat)
    requires TooHigh(s) && MayAct(s, p)
    ensures var t := DoResign(s, p); TooHigh(t) && t.log == s.log && t.cond == s.cond
  {
    OneFewer(s.members, s.cond.waiting, p);
  }

  lemma TooHighStays(s: State, e: Event)
    requires TooHigh(s) && Step(s, e).Some?
    ensures var t := Step(s, e).value; TooHigh(t) && t.log == s.log && s.cond.waiting <= t.cond.waiting
  {
    match e
    case Sync(p) => TooHighSync(s, p);
    case Resign(p) => TooHighResign(s, p);
    case Enroll(p) => OneMore(s.members, s.cond.waiting, p);
    case Return(_) =>
  }

  /** Then nobody's arrival ends the round. */
  lemma {:induction false} TooHighForEver(s: State, es: seq<Event>)
    requires TooHigh(s) && Run(Step, s, es).Some?
    ensures var t := Run(Step, s, es).value; TooHigh(t) && t.log == s.log && s.cond.waiting <= t.cond.waiting
    decreases |es|
  {
    if es != [] {
      TooHighForEver(s, es[..|es| - 1]);
      TooHighStays(Run(Step, s, es[..|es| - 1]).value, es[|es| - 1]);
    }
  }

  /** Everybody can arrive, until all are asleep or a round is completed. */
  lemma {:induction false} EverybodyArrives(s: State) returns (es: seq<Event>)
    requires s.f.enrolled == |s.members| && 0 < s.f.count <= |s.members| < WORD && s.cond.waiting !! s.cond.woken
    ensures Run(Step, s, es).Some?
    ensures AllAsleep(Run(Step, s, es).value) || Run(Step, s, es).value.log != s.log
    decreases |s.cond.woken| + |s.members - s.cond.waiting|
  {
    if s.members <= s.cond.waiting {
      es := [];
    } else {
      var p :| p in s.members && p !in s.cond.waiting;
      var e := if s.cond.woken == {} then Sync(p) else var q :| q in s.cond.woken; Return(q);
      var t := Step(s, e).value;
      Few(Step, s, [e]);
      if t.log != s.log {
        es := [e];
      } else {
        if e.Sync? {
          OneFewer(s.members, s.cond.waiting, p);
        }
        var rest := EverybodyArrives(t);
        Append(Step, s, [e], rest);
        es := [e] + rest;
      }
    }
  }

  /** The same when at first nobody is enrolled. */
  lemma SomethingHappens(s: State) returns (es: seq<Event>)
    requires s.f.enrolled == s.f.count == |s.members| < WORD && s.cond.waiting !! s.cond.woken
    ensures Run(Step, s, es).Some?
    ensures AllAsleep(Run(Step, s, es).value) || Run(Step, s, es).value.log != s.log
  {
    if s.members == {} {
      var p := NewNumber(s.cond.waiting + s.cond.woken);
      es := [Enroll(p), Sync(p)];
      Few(Step, s, es);
    } else {
      es := EverybodyArrives(s);
    }
  }

  lemma SomeAreIn(a: set<nat>, b: set<nat>)
    requires b * a != {}
    ensures |a - b| < |a|
  {
    SubsetOfSameSize(a - b, a);
    assert a - b != a;
  }

  lemma LogStep(s: State, e: Event)
    requires Step(s, e).Some?
    ensures s.log <= Step(s, e).value.log
  {
  }

  lemma {:induction false} LogGrows(s: State, es: seq<Event>)
    requires Run(Step, s, es).Some?
    ensures s.log <= Run(Step, s, es).value.log
    decreases |es|
  {
    if es != [] {
      LogGrows(s, es[..|es| - 1]);
      LogStep(Run(Step, s, es[..|es| - 1]).value, es[|es| - 1]);
    }
  }

  /** From any reachable state with members some more steps complete a round. */
  lemma RoundsCanEnd(es: seq<Event>) returns (fs: seq<Event>)
    requires Run(Step, Init(), es).Some? && Run(Step, Init(), es).value.members != {}
    ensures var s := Run(Step, Init(), es).value;
      Run(Step, s, fs).Some? && |Run(Step, s, fs).value.log| > |s.log|
  {
    RunKeepsInv(es);
    var s := Run(Step, Init(), es).value;
    NoneLeft(s.members, s.cond.waiting);
    fs := EverybodyArrives(s);
    CountStaysOk(s, fs);
    NotAsleep(Run(Step, s, fs).value);
    LogGrows(s, fs);
  }

  /** `reset` does not look at who is waiting.  When one of the new members is blocked in `sync`
      at that moment, and exactly then, no round is ever completed again and nobody released,
      and all the members can come to be blocked. */
  lemma ResetIsSafeExactlyWhen(es: seq<Event>, members: set<nat>)
    requires Run(Step, Init(), es).Some? && |members| < WORD
    ensures var s := Run(Step, Init(), es).value;
      && (CanFallAsleep(AfterReset(s, members)) <==> s.cond.waiting * members != {})
      && (NoMoreRounds(AfterReset(s, members)) <==> s.cond.waiting * members != {})
  {
    RunKeepsInv(es);
    var s := Run(Step, Init(), es).value;
    var t := AfterReset(s, members);
    var fs := SomethingHappens(t);
    if s.cond.waiting * members == {} {
      assert members - s.cond.waiting == members;
      forall gs | Run(Step, t, gs).Some? ensures !AllAsleep(Run(Step, t, gs).value) {
        CountStaysOk(t, gs);
        NotAsleep(Run(Step, t, gs).value);
      }
    } else {
      SomeAreIn(members, s.cond.waiting);
      forall gs | Run(Step, t, gs).Some?
        ensures Run(Step, t, gs).value.log == t.log && t.cond.waiting <= Run(Step, t, gs).value.cond.waiting
      {
        TooHighForEver(t, gs);
      }
    }
  }

  ghost predicate LeftOut(s: State, p: nat) { p in s.cond.waiting && p !in s.cond.woken && p !in s.members }

  lemma LeftOutStep(s: State, e: Event, p: nat)
    requires LeftOut(s, p) && Step(s, e).Some?
    ensures var t := Step(s, e).value;
      if t.log == s.log then LeftOut(t, p) else p in t.cond.woken && p !in t.members
  {
  }

  lemma {:induction false} LeftOutStays(s: State, p: nat, es: seq<Event>)
    requires LeftOut(s, p) && Run(Step, s, es).Some? && Run(Step, s, es).value.log == s.log
    ensures LeftOut(Run(Step, s, es).value, p)
    decreases |es|
  {
    if es != [] {
      var t := Run(Step, s, es[..|es| - 1]).value;
      LogGrows(s, es[..|es| - 1]);
      LogStep(t, es[|es| - 1]);
      assert t.log == s.log;
      LeftOutStays(s, p, es[..|es| - 1]);
      LeftOutStep(t, es[|es| - 1], p);
    }
  }

  /** A process blocked in `sync` that `reset` leaves out stays blocked until the new members
      complete a round of their own, and is released by it. */
  lemma LeftOutWaitsForTheirRound(es: seq<Event>, members: set<nat>, p: nat, fs: seq<Event>, e: Event)
    requires Run(Step, Init(), es).Some? && p in Run(Step, Init(), es).value.cond.waiting && p !in members
    requires Run(Step, AfterReset(Run(Step, Init(), es).value, members), fs).Some?
    requires var s := Run(Step, Init(), es).value;
      var t := Run(Step, AfterReset(s, members), fs).value; t.log == s.log && Step(t, e).Some?
    ensures var s := Run(Step, Init(), es).value;
      var t := Run(Step, AfterReset(s, members), fs).value;
      p in t.cond.waiting && (p in Step(t, e).value.cond.woken <==> Step(t, e).value.log != s.log)
  {
    RunKeepsInv(es);
    var s := Run(Step, Init(), es).value;
    LeftOutStays(AfterReset(s, members), p, fs);
    LeftOutStep(Run(Step, AfterReset(s, members), fs).value, e, p);
  }

  /** For example, with two processes and one of them waiting, both are blocked afterwards. */
  lemma ResetStrandsBoth()
    ensures var s := Run(Step, Init(), [Enroll(0), Enroll(1), Sync(0)]);
      s.Some? && s.value.members == {0, 1} &&
      var t := Step(AfterReset(s.value, {0, 1}), Sync(1));
      t.Some? && AllAsleep(t.value) && t.value.cond.woken == {}
  {
    Few(Step, Init(), [Enroll(0), Enroll(1), Sync(0)]);
  }
}
