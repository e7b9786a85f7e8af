/** What writers do for an alt and the alt for its writers (csp/alt.h:562-994).

    AltSystem shows that nothing goes wrong; here it is shown that something happens: writers
    get in, what they write wakes the alt, its selection ends, and its read takes the value. */
module AltProgress {
  import opened Runs
  import opened AltCore
  import opened AltChan
  import opened AltSystem
  import B = BasicChan

  ghost predicate Can<T>(s: State<T>, e: Event<T>) { Step(s, e).Some? }

  /** The stores that neither drop nor overwrite. */
  predicate Lossless<T>(f: Fields<T>) { f.Unbuffered? || f.kind.Plain? || f.kind.Infinite? }

  lemma WritingPuts<T>(f: Fields<T>, v: T)
    requires Sound(f) && f.strength == 0 && !Full(f)
    ensures var e := WriteEntry(f, v);
      && !e.outcome.Throws? && !e.outcome.Faults? && e.schedule == f.alting
      && Content(e.fields) != [] && (Content(f) == [] ==> Content(e.fields) == [v])
      && (Lossless(f) ==> Content(e.fields) == Content(f) + [v])
  {
  }

  /** A writer gets in whenever nobody is at its end, and is done at once, waits for a reader,
      or is about to call `schedule`; its value is last in the channel.  At a poisoned channel
      nothing changes. */
  lemma WritersGetIn<T(!new)>(s: State<T>, c: nat, v: T)
    requires Reached(s) && c < |s.chans| && s.chans[c].lock.Unlocked?
    ensures Can(s, WriterEnters(c, v)) <==> s.chans[c].writer.Outside?
    ensures s.chans[c].writer.Outside? ==>
      var t := Step(s, WriterEnters(c, v)).value;
      && t == s.(chans := s.chans[c := t.chans[c]])
      && if s.chans[c].f.strength > 0 then t == s
         else
           var f, slot := s.chans[c].f, t.chans[c];
           && Content(slot.f) != [] && (Content(f) == [] ==> Content(slot.f) == [v])
           && (Lossless(f) ==> Content(slot.f) == Content(f) + [v])
           && slot.lock == (if f.alting then WriterSchedules else Unlocked)
           && slot.writer == (if !f.alting && Full(slot.f) then Blocked else Outside)
  {
    ReachedHasInv(s);
    assert SlotOk(s.chans[c]);
    if s.chans[c].writer.Outside? && s.chans[c].f.strength == 0 {
      WritingPuts(s.chans[c].f, v);
    } else if s.chans[c].writer.Outside? {
      assert Step(s, WriterEnters(c, v)) == Some(s) && s.chans[c := s.chans[c]] == s.chans;
    }
  }

  /** The lock that asking guard `i` needs is free. */
  predicate Unblocked<T>(s: State<T>, i: nat)
    requires WellFormed(s) && i < |s.guards|
  {
    s.pre[i] && s.guards[i].OnChannel? ==> s.chans[s.guards[i].c].lock.Unlocked?
  }

  /** The other steps of those around the alt. */
  lemma OthersGoOn<T(!new)>(s: State<T>, c: nat, k: nat, byWriter: bool, d: nat)
    requires Reached(s) && c < |s.chans| && k > 0
    ensures Can(s, Schedule(c)) <==> !s.chans[c].lock.Unlocked?
    ensures s.chans[c].lock.Unlocked? ==> (Can(s, WriterLeaves(c)) <==> s.chans[c].writer.Notified?)
    ensures s.chans[c].lock.Unlocked? ==>
      (Can(s, PoisonIt(c, k, byWriter)) <==> if byWriter then s.chans[c].writer.Outside? else s.pc.Idle?)
    ensures Can(s, Tick(d)) && Step(s, Tick(d)).value == s.(now := s.now + d)
  {
    ReachedHasInv(s);
  }

  /** The selecting process waits for the lock of the channel it turns to, and asleep to be woken
      or for its time; a timer that has expired can be waited for no longer. */
  lemma SelectingWaitsForLittle<T(!new)>(s: State<T>)
    requires Reached(s)
    ensures WellFormed(s)
    ensures s.pc.EnablingAt? ==>
      (Can(s, EnableOne) <==> s.pc.k < |s.guards| ==> Unblocked(s, Rot(|s.guards|, s.next, s.pc.k)))
    ensures s.pc.DisablingAt? && s.pc.j < |s.pc.order| ==>
      s.pc.order[s.pc.j] < |s.guards| && (Can(s, DisableOne) <==> Unblocked(s, s.pc.order[s.pc.j]))
    ensures s.pc.DisablingAt? && s.pc.j == |s.pc.order| ==> Can(s, EndDisable)
    ensures (s.pc.Checking? ==> Can(s, Check)) && (s.pc.Closing? ==> Can(s, Close))
    ensures Can(s, WakeNotified) <==> s.pc == Asleep(true)
    ensures Can(s, WakeTimeout) <==> s.pc.Asleep? && s.due.timeout && s.due.time <= s.now
  {
    ReachedHasInv(s);
  }

  /** A sleeping alt with a timer among its guards can be woken by waiting long enough. */
  lemma TimeWakesTheSleeper<T(!new)>(s: State<T>, i: nat) returns (d: nat)
    requires Reached(s) && s.pc.Asleep? && i < |s.guards| == |s.pre| && s.pre[i] && s.guards[i].OnTimer?
    ensures Can(s, Tick(d)) && Can(Step(s, Tick(d)).value, WakeTimeout)
    ensures d <= if s.guards[i].alarm <= s.now then 0 else s.guards[i].alarm - s.now
  {
    ReachedHasInv(s);
    EarliestAlarm(s);
    d := if s.due.time <= s.now then 0 else s.due.time - s.now;
  }

  /** `schedule` lets go of the channel, wakes the alt if it sleeps, and leaves the writer
      waiting exactly when the channel is full. */
  lemma ScheduleWakes<T(!new)>(s: State<T>, c: nat)
    requires Reached(s) && Can(s, Schedule(c))
    ensures var t := Step(s, Schedule(c)).value;
      && c < |s.chans| && t.chans == s.chans[c := t.chans[c]] && t.chans[c].f == s.chans[c].f
      && t.chans[c].lock == Unlocked
      && t.chans[c].writer == (if s.chans[c].lock.WriterSchedules? && Full(s.chans[c].f) then Blocked
                               else s.chans[c].writer)
      && t.pc == (if s.pc.Asleep? then Asleep(true) else s.pc)
      && t.state == (if s.state == Enabling || s.state == Waiting then Ready else s.state)
  {
    ReachedHasInv(s);
  }

  /** Poison leaves the values where they are, releases a writer that waits, and is about to call
      `schedule` when a writer poisons a channel that has the alt registered.  A released writer
      leaves, and that is all it does. */
  lemma PoisonReleases<T(!new)>(s: State<T>, c: nat, k: nat, byWriter: bool)
    requires Reached(s) && c < |s.chans|
    ensures Can(s, PoisonIt(c, k, byWriter)) ==>
      var t, slot := Step(s, PoisonIt(c, k, byWriter)).value, s.chans[c];
      && t == s.(chans := s.chans[c := t.chans[c]]) && |t.chans| == |s.chans|
      && Content(t.chans[c].f) == Content(slot.f) && t.chans[c].f.strength == k
      && t.chans[c].f.alting == slot.f.alting
      && t.chans[c].writer == (if slot.writer.Blocked? then Notified else slot.writer)
      && t.chans[c].lock == if byWriter && slot.f.alting then PoisonerSchedules else Unlocked
    ensures Can(s, WriterLeaves(c)) ==>
      Step(s, WriterLeaves(c)).value == s.(chans := s.chans[c := s.chans[c].(writer := Outside)])
  {
    ReachedHasInv(s);
  }

  lemma Enabled<T>(s: State<T>, i: nat, c: nat)
    requires Inv(s) && s.pc == Asleep(false) && i < |s.guards| && s.pre[i] && s.guards[i] == OnChannel(c)
    requires s.chans[c].lock.Unlocked?
    ensures s.chans[c].f.alting && Quiet(s.chans[c].f)
  {
    assert Before(s.pre, s.next, |s.guards|, i);
    assert Calm(s.guards[i], s.chans, s.due);
  }

  /** A write to a channel that a sleeping alt has enabled wakes it, and is the value it will
      find there. */
  lemma WriteWakesTheSleeper<T(!new)>(s: State<T>, i: nat, c: nat, v: T)
    requires Reached(s) && s.pc == Asleep(false)
    requires i < |s.guards| == |s.pre| && s.pre[i] && s.guards[i] == OnChannel(c) && c < |s.chans|
    requires s.chans[c].lock.Unlocked? && s.chans[c].writer.Outside?
    ensures Can(s, WriterEnters(c, v))
    ensures var t := Step(s, WriterEnters(c, v)).value;
      Can(t, Schedule(c)) &&
      var u := Step(t, Schedule(c)).value;
      && u.pc == Asleep(true) && Can(u, WakeNotified)
      && c < |u.chans| && Content(u.chans[c].f) == [v] && u.chans[c].lock.Unlocked?
  {
    ReachedHasInv(s);
    Enabled(s, i, c);
    WritersGetIn(s, c, v);
    var t := Step(s, WriterEnters(c, v)).value;
    assert t.state == Waiting && WellFormed(t);
    assert WellFormed(Step(t, Schedule(c)).value);
  }

  /** And so does poison. */
  lemma PoisonWakesTheSleeper<T(!new)>(s: State<T>, i: nat, c: nat, k: nat)
    requires Reached(s) && s.pc == Asleep(false) && k > 0
    requires i < |s.guards| == |s.pre| && s.pre[i] && s.guards[i] == OnChannel(c) && c < |s.chans|
    requires s.chans[c].lock.Unlocked? && s.chans[c].writer.Outside?
    ensures Can(s, PoisonIt(c, k, true))
    ensures var t := Step(s, PoisonIt(c, k, true)).value;
      Can(t, Schedule(c)) &&
      var u := Step(t, Schedule(c)).value;
      u.pc == Asleep(true) && Can(u, WakeNotified) && c < |u.chans| && u.chans[c].f.strength == k
  {
    ReachedHasInv(s);
    Enabled(s, i, c);
    var t := Step(s, PoisonIt(c, k, true)).value;
    assert t.state == Waiting && WellFormed(t);
    assert WellFormed(Step(t, Schedule(c)).value);
  }

  // ---------- the read after a selection ----------

  /** The read takes the front value of the selected channel and notifies its writer if that
      waits; a poisoned channel and the others are left alone. */
  lemma TakeTakesTheFront<T(!new)>(s: State<T>, next: nat)
    requires Reached(s) && s.pc.Chosen? && next <= |s.guards|
    ensures Can(s, Take(next)) && 0 <= s.selected < |s.guards|
    ensures var t, g := Step(s, Take(next)).value, s.guards[s.selected];
      && t.pc == Idle && t.next == next && |t.chans| == |s.chans|
      && (g.OnTimer? ==> t.chans == s.chans)
      && (g.OnChannel? ==>
            && g.c < |s.chans| && t.chans == s.chans[g.c := t.chans[g.c]]
            && var slot, after := s.chans[g.c], t.chans[g.c];
               if slot.f.strength > 0 then after == slot
               else
                 && Content(slot.f) != [] && after.lock == slot.lock
                 && (Lossless(slot.f) ==> [Content(slot.f)[0]] + Content(after.f) == Content(slot.f))
                 && |Content(after.f)| == |Content(slot.f)| - 1
                 && after.writer == (if slot.writer.Blocked? then Notified else slot.writer))
  {
    ReachedHasInv(s);
    ChosenCanBeTaken(s, next);
    var t, g := Step(s, Take(next)).value, s.guards[s.selected];
    if g.OnChannel? {
      assert SlotOk(s.chans[g.c]) && !Quiet(s.chans[g.c].f);
      if s.chans[g.c].f.strength > 0 {
        assert t.chans[g.c] == s.chans[g.c];
      }
    }
  }

  // ---------- a selection ends ----------

  /** A step of the selecting process in a selection. */
  predicate Own<T>(e: Event<T>) { OwnStep(e) || e.WakeNotified? || e.WakeTimeout? }

  lemma {:induction false} PassesLength(m: int, start: int, n: nat)
    requires -1 <= start < n
    ensures |Passes(m, start, n)| <= (if m <= 0 then 0 else m * n)
    decreases m
  {
    if m > 1 {
      PassesLength(m - 1, start, n);
      assert (m - 1) * n + n == m * n;
    }
  }

  lemma Monotone(m: nat, k: nat, n: nat)
    requires m <= k
    ensures m * n <= k * n
  {
  }

  lemma DisableOrderLength(n: nat, next: nat, selected: int)
    requires next <= n && NONE <= selected < n
    ensures |DisableOrder(n, next, selected)| <= n * n + n
  {
    if selected > next {
      PassesLength(selected - next, selected - 1, n);
      Monotone(selected - next, n, n);
    } else if n > 0 {
      PassesLength(n - next, n - 1, n);
      Monotone(n - next, n, n);
    }
  }

  /** More than the disable loops ask. */
  function Questions<T>(s: State<T>): nat { |s.guards| * |s.guards| + |s.guards| }

  function StepsLeft<T>(s: State<T>): int {
    match s.pc
    case Idle => 0
    case Chosen => 1
    case Closing => 2
    case DisablingAt(order, j) => 3 + |order| - j
    case Asleep(_) => 4 + Questions(s)
    case Checking => 5 + Questions(s)
    case EnablingAt(k) => 6 + Questions(s) + |s.guards| - k
  }

  lemma EnablingCounts<T>(s: State<T>)
    requires Inv(s) && Can(s, EnableOne)
    ensures StepsLeft(Step(s, EnableOne).value) < StepsLeft(s)
  {
  }

  lemma DisablingCounts<T>(s: State<T>, e: Event<T>)
    requires Inv(s) && (e.DisableOne? || e.EndDisable?) && Can(s, e)
    ensures StepsLeft(Step(s, e).value) < StepsLeft(s)
  {
  }

  lemma StartCounts<T>(s: State<T>)
    requires WellFormed(s)
    ensures StepsLeft(StartDisabling(s)) <= 3 + Questions(s)
  {
    DisableOrderLength(|s.guards|, s.next, s.selected);
  }

  lemma OwnStepsCount<T>(s: State<T>, e: Event<T>)
    requires Inv(s) && Own(e) && Can(s, e)
    ensures StepsLeft(Step(s, e).value) < StepsLeft(s)
  {
    StartCounts(s);
    if e.EnableOne? {
      EnablingCounts(s);
    } else if e.DisableOne? || e.EndDisable? {
      DisablingCounts(s, e);
    } else if e.Take? || e.Close? {
      assert Step(s, e).value.pc == if e.Take? then Idle else Chosen;
    }
  }

  lemma OthersDoNotCount<T>(s: State<T>, e: Event<T>)
    requires Inv(s) && !Own(e) && !e.Begin? && Can(s, e)
    ensures StepsLeft(Step(s, e).value) == StepsLeft(s)
  {
    match e
    case WriterEnters(_, _) =>
    case Schedule(_) =>
    case _ =>
  }

  function CountOwn<T>(es: seq<Event<T>>): nat
    decreases |es|
  {
    if es == [] then 0 else CountOwn(es[..|es| - 1]) + if Own(es[|es| - 1]) then 1 else 0
  }

  lemma NothingLess<T>(s: State<T>)
    requires Inv(s)
    ensures 0 <= StepsLeft(s)
  {
  }

  /** From any state of a selection the selecting process takes few more steps until it is over,
      whatever the others do in between; with AltSystem.SelectingProceeds and SleeperCanBeWoken,
      it ends. */
  lemma {:induction false} SelectionTakesFewSteps<T(!new)>(s: State<T>, es: seq<Event<T>>)
    requires Inv(s) && Run(Step<T>, s, es).Some? && forall i :: 0 <= i < |es| ==> !es[i].Begin?
    ensures var t := Run(Step<T>, s, es).value;
      Inv(t) && 0 <= StepsLeft(t) <= StepsLeft(s) - CountOwn(es)
    decreases |es|
  {
    if es == [] {
      NothingLess(s);
    } else {
      var before, e := es[..|es| - 1], es[|es| - 1];
      SelectionTakesFewSteps(s, before);
      var t := Run(Step<T>, s, before).value;
      assert !e.Begin?;
      StepKeepsInv(t, e);
      NothingLess(Step(t, e).value);
      if Own(e) {
        OwnStepsCount(t, e);
      } else {
        OthersDoNotCount(t, e);
      }
    }
  }

  /** A selection can begin with any preconditions when none is under way. */
  lemma SelectionsBegin<T(!new)>(s: State<T>, pre: seq<bool>)
    requires Reached(s) && s.pc.Idle? && |pre| == |s.guards|
    ensures Can(s, Begin(pre)) && StepsLeft(Step(s, Begin(pre)).value) == 6 + Questions(s) + |s.guards|
    ensures Step(s, Begin(pre)).value == s.(pre := pre, state := AltState.Enabling, pc := EnablingAt(0))
  {
    ReachedHasInv(s);
  }

  /** And the alarms of its timers set. */
  lemma AlarmsCanBeSet<T(!new)>(s: State<T>, i: nat, alarm: int)
    requires Reached(s) && s.pc.Idle? && i < |s.guards| && s.guards[i].OnTimer?
    ensures Can(s, SetAlarm(i, alarm))
    ensures Step(s, SetAlarm(i, alarm)).value == s.(guards := s.guards[i := OnTimer(alarm)])
  {
    ReachedHasInv(s);
  }
}
