/** One alt selecting over channels and timers while writers run (csp/alt.h:562-994).

    The alt has its own mutex, each channel another.  A writer that finds the alt
    registered calls `schedule` while it holds the channel's mutex, so the model splits
    its critical section there: `lock` says that a process is between the two.  The
    unlocked assignments of `_state` are steps of their own.

    Each channel is unbuffered or buffered (AltChan).

    Assumptions: no spurious wakeups; the alting process is the only user of the reading
    ends, so only it reads from or reader-poisons these channels; poison is positive; a buffer
    that drops values has room for one. */
module AltSystem {
  import opened Runs
  import opened AltChan
  import B = BasicChan
  import opened AltCore

  datatype Lock = Unlocked | WriterSchedules | PoisonerSchedules
  datatype Phase = Outside | Blocked | Notified

  datatype Slot<T> = Slot(f: Fields<T>, lock: Lock, writer: Phase)

  datatype Pc =
    | Idle
    | EnablingAt(k: nat)
    | Checking
    | Asleep(notified: bool)
    | DisablingAt(order: seq<nat>, j: nat)
    | Closing
    | Chosen

  datatype State<T> = State(
    guards: seq<Guard>, chans: seq<Slot<T>>, now: int,
    pre: seq<bool>, next: nat, state: AltState, selected: int, due: Deadline, pc: Pc)

  datatype Event<T> =
    // the selecting process
    | SetAlarm(i: nat, alarm: int)
    | Begin(pre: seq<bool>)
    | EnableOne
    | Check
    | WakeNotified
    | WakeTimeout
    | DisableOne
    | EndDisable
    | Close
    | Take(next: nat)
    // everybody else
    | WriterEnters(c: nat, v: T)
    | Schedule(c: nat)
    | WriterLeaves(c: nat)
    | PoisonIt(c: nat, k: nat, byWriter: bool)
    | Tick(d: nat)

  ghost predicate WellFormed<T>(s: State<T>) {
    && 0 < |s.guards| == |s.pre|
    && s.next <= |s.guards|
    && NONE <= s.selected < |s.guards|
    && (forall i :: 0 <= i < |s.guards| && s.guards[i].OnChannel? ==> s.guards[i].c < |s.chans|)
  }

  ghost predicate Init<T>(s: State<T>) {
    && WellFormed(s)
    && s.pc == Idle && s.state == Inactive && !s.due.timeout
    && (forall c :: 0 <= c < |s.chans| ==> Fresh(s.chans[c].f) && s.chans[c] == Slot(s.chans[c].f, Unlocked, Outside))
  }

  /** What a guard answers, both when enabled and when disabled. */
  predicate GuardReady<T>(s: State<T>, i: int)
    requires 0 <= i < |s.guards|
    requires s.guards[i].OnChannel? ==> s.guards[i].c < |s.chans|
  {
    match s.guards[i]
    case OnChannel(c) => !Quiet(s.chans[c].f)
    case OnTimer(alarm) => alarm <= s.now
  }

  // ---------- steps of the selecting process ----------

  function DoEnableOne<T>(s: State<T>): Option<State<T>>
    requires WellFormed(s) && s.pc.EnablingAt?
  {
    var n, k := |s.guards|, s.pc.k;
    if k >= n then Some(s.(selected := NONE, pc := Checking))
    else
      var i := Rot(n, s.next, k);
      if !s.pre[i] then Some(s.(pc := EnablingAt(k + 1)))
      else
        match s.guards[i]
        case OnChannel(c) =>
          if !s.chans[c].lock.Unlocked? then None
          else
            var (f, ready) := Enabled(s.chans[c].f);
            var t := s.(chans := s.chans[c := s.chans[c].(f := f)]);
            if ready then Some(t.(selected := i, state := Ready, pc := Checking))
            else Some(t.(pc := EnablingAt(k + 1)))
        case OnTimer(alarm) =>
          if alarm <= s.now then Some(s.(selected := i, state := Ready, pc := Checking))
          else Some(s.(due := SetTimeout(s.due, alarm, i), pc := EnablingAt(k + 1)))
  }

  function StartDisabling<T>(s: State<T>): State<T>
    requires WellFormed(s)
  {
    s.(state := Ready, pc := DisablingAt(DisableOrder(|s.guards|, s.next, s.selected), 0))
  }

  function DoCheck<T>(s: State<T>): State<T>
    requires WellFormed(s) && s.pc.Checking?
  {
    if s.state == Enabling then s.(state := Waiting, pc := Asleep(false))
    else StartDisabling(s).(state := s.state)
  }

  function DoDisableOne<T>(s: State<T>): Option<State<T>>
    requires WellFormed(s) && s.pc.DisablingAt? && s.pc.j < |s.pc.order|
    requires s.pc.order[s.pc.j] < |s.guards|
  {
    var i := s.pc.order[s.pc.j];
    var t := s.(pc := DisablingAt(s.pc.order, s.pc.j + 1));
    if !s.pre[i] then Some(t)
    else
      match s.guards[i]
      case OnChannel(c) =>
        if !s.chans[c].lock.Unlocked? then None
        else
          var (f, ready) := Disabled(s.chans[c].f);
          Some(t.(chans := s.chans[c := s.chans[c].(f := f)], selected := if ready then i else s.selected))
      case OnTimer(alarm) => Some(t.(selected := if alarm <= s.now then i else s.selected))
  }

  /** The read of the chosen channel; `None` would mean that it blocks. */
  function DoTake<T>(s: State<T>, next: nat): Option<State<T>>
    requires WellFormed(s) && s.pc.Chosen? && 0 <= s.selected
  {
    var t := s.(pc := Idle, next := next);
    match s.guards[s.selected]
    case OnTimer(_) => Some(t)
    case OnChannel(c) =>
      var slot := s.chans[c];
      var e := ReadEntry(slot.f);
      if !slot.lock.Unlocked? || e.outcome.Waits? || e.outcome.Faults? then None
      else
        Some(t.(chans := s.chans[c := slot.(f := e.fields,
          writer := if e.notify.One? && slot.writer.Blocked? then Notified else slot.writer)]))
  }

  // ---------- steps of the others ----------

  function DoWriterEnters<T>(s: State<T>, c: nat, v: T): Option<State<T>>
    requires c < |s.chans|
  {
    var slot := s.chans[c];
    if !slot.lock.Unlocked? || !slot.writer.Outside? then None
    else
      var e := WriteEntry(slot.f, v);
      if e.outcome.Throws? then Some(s)
      else if e.outcome.Faults? then None
      else if e.schedule then Some(s.(chans := s.chans[c := slot.(f := e.fields, lock := WriterSchedules)]))
      else
        Some(s.(chans := s.chans[c := slot.(f := e.fields, writer := if e.outcome.Waits? then Blocked else Outside)]))
  }

  /** `schedule` (alt.h:976-994), then the rest of the caller's critical section. */
  function DoSchedule<T>(s: State<T>, c: nat): State<T>
    requires c < |s.chans|
  {
    var slot := s.chans[c];
    var t := s.(chans := s.chans[c := slot.(lock := Unlocked,
      writer := if slot.lock.WriterSchedules? && Full(slot.f) then Blocked else slot.writer)]);
    match s.state
    case Enabling => t.(state := Ready)
    case Waiting => t.(state := Ready, pc := if s.pc.Asleep? then Asleep(true) else s.pc)
    case _ => t
  }

  function DoPoison<T>(s: State<T>, c: nat, k: nat, byWriter: bool): State<T>
    requires c < |s.chans|
  {
    var slot := s.chans[c];
    var e := Poison(slot.f, k, byWriter);
    s.(chans := s.chans[c := Slot(e.fields, if e.schedule then PoisonerSchedules else slot.lock,
      if slot.writer.Blocked? then Notified else slot.writer)])
  }

  /** Whoever poisons uses an end that nobody else is using. */
  predicate MayPoison<T>(s: State<T>, c: nat, byWriter: bool)
    requires c < |s.chans|
  {
    if byWriter then s.chans[c].writer.Outside? else s.pc.Idle?
  }

  ghost function Step<T>(s: State<T>, e: Event<T>): Option<State<T>> {
    if !WellFormed(s) then None
    else
      match e
      case SetAlarm(i, alarm) =>
        if s.pc.Idle? && i < |s.guards| && s.guards[i].OnTimer? then
          Some(s.(guards := s.guards[i := OnTimer(alarm)]))
        else None
      case Begin(pre) =>
        if s.pc.Idle? && |pre| == |s.guards| then
          Some(s.(pre := pre, state := Enabling, pc := EnablingAt(0)))
        else None
      case EnableOne => if s.pc.EnablingAt? then DoEnableOne(s) else None
      case Check => if s.pc.Checking? then Some(DoCheck(s)) else None
      case WakeNotified => if s.pc == Asleep(true) then Some(StartDisabling(s)) else None
      case WakeTimeout =>
        if s.pc.Asleep? && s.due.timeout && s.due.time <= s.now then Some(StartDisabling(s)) else None
      case DisableOne =>
        if s.pc.DisablingAt? && s.pc.j < |s.pc.order| && s.pc.order[s.pc.j] < |s.guards| then
          DoDisableOne(s)
        else None
      case EndDisable =>
        if s.pc.DisablingAt? && s.pc.j >= |s.pc.order| then
          Some(s.(selected := if s.selected == NONE then s.due.index else s.selected, pc := Closing))
        else None
      case Close =>
        if s.pc.Closing? then
          Some(s.(state := Inactive, due := s.due.(timeout := false), pc := Chosen))
        else None
      case Take(next) =>
        if s.pc.Chosen? && 0 <= s.selected && next <= |s.guards| then DoTake(s, next) else None
      case WriterEnters(c, v) => if c < |s.chans| then DoWriterEnters(s, c, v) else None
      case Schedule(c) =>
        if c < |s.chans| && !s.chans[c].lock.Unlocked? then Some(DoSchedule(s, c)) else None
      case WriterLeaves(c) =>
        if c < |s.chans| && s.chans[c].lock.Unlocked? && s.chans[c].writer.Notified? then
          Some(s.(chans := s.chans[c := s.chans[c].(writer := Outside)]))
        else None
      case PoisonIt(c, k, byWriter) =>
        if c < |s.chans| && k > 0 && s.chans[c].lock.Unlocked? && MayPoison(s, c, byWriter) then
          Some(DoPoison(s, c, k, byWriter))
        else None
      case Tick(d) => Some(s.(now := s.now + d))
  }

  // ---------- the invariant ----------

  ghost predicate SlotOk<T>(slot: Slot<T>) {
    && Sound(slot.f)
    && (slot.f.strength == 0 && slot.writer.Blocked? ==> Full(slot.f))
    && (slot.f.strength == 0 && Full(slot.f) ==> slot.writer.Blocked? || slot.lock.WriterSchedules?)
    && (slot.lock.WriterSchedules? ==> slot.writer.Outside?)
    && (!slot.lock.Unlocked? ==> slot.f.alting && !Quiet(slot.f))
  }

  /** Guard `i` is among the first `k` attempts of enabling. */
  ghost predicate Before(pre: seq<bool>, next: nat, k: nat, i: int) {
    0 <= i < |pre| && next <= |pre| && pre[i] && RotInverse(|pre|, next, i) < k
  }

  /** Guard `i` is still to be disabled. */
  ghost predicate After(pre: seq<bool>, order: seq<nat>, j: nat, i: int) {
    0 <= i < |pre| && pre[i] && exists p :: j <= p < |order| && order[p] == i
  }

  /** An enabled guard that has not made itself known: its channel is registered and empty
      and unpoisoned, or somebody is on the way to call `schedule`; its alarm is accounted for. */
  ghost predicate Calm<T>(g: Guard, chans: seq<Slot<T>>, due: Deadline) {
    match g
    case OnChannel(c) =>
      c < |chans| && chans[c].f.alting && (Quiet(chans[c].f) || !chans[c].lock.Unlocked?)
    case OnTimer(alarm) => due.timeout && due.time <= alarm
  }

  ghost predicate NoneRegistered<T>(s: State<T>) {
    forall c :: 0 <= c < |s.chans| ==> !s.chans[c].f.alting
  }

  ghost predicate OnlyRegistered<T>(s: State<T>, k: nat)
    requires WellFormed(s)
  {
    forall c :: 0 <= c < |s.chans| && s.chans[c].f.alting ==>
      exists i :: Before(s.pre, s.next, k, i) && s.guards[i] == OnChannel(c)
  }

  ghost predicate AllCalm<T>(s: State<T>, k: nat)
    requires WellFormed(s)
  {
    forall i :: Before(s.pre, s.next, k, i) ==> Calm(s.guards[i], s.chans, s.due)
  }

  ghost predicate TimersDue<T>(s: State<T>, k: nat)
    requires WellFormed(s)
  {
    && (forall i :: Before(s.pre, s.next, k, i) && s.guards[i].OnTimer? ==>
          s.due.timeout && s.due.time <= s.guards[i].alarm)
    && (s.due.timeout ==>
          0 <= s.due.index && Before(s.pre, s.next, k, s.due.index) && s.guards[s.due.index] == OnTimer(s.due.time))
  }

  ghost predicate SomeReady<T>(s: State<T>, k: nat)
    requires WellFormed(s)
  {
    exists i :: Before(s.pre, s.next, k, i) && GuardReady(s, i)
  }

  ghost predicate SelectedReady<T>(s: State<T>)
    requires WellFormed(s)
  {
    0 <= s.selected && s.pre[s.selected] && GuardReady(s, s.selected)
  }

  ghost predicate OnlyAfter<T>(s: State<T>, order: seq<nat>, j: nat)
    requires WellFormed(s)
  {
    forall c :: 0 <= c < |s.chans| && s.chans[c].f.alting ==>
      exists i :: After(s.pre, order, j, i) && s.guards[i] == OnChannel(c)
  }

  ghost predicate ReadyAfter<T>(s: State<T>, order: seq<nat>, j: nat)
    requires WellFormed(s)
  {
    exists i :: After(s.pre, order, j, i) && GuardReady(s, i)
  }

  /** How many attempts were made before the one that ended enabling. */
  ghost function Registered<T>(s: State<T>): nat
    requires WellFormed(s)
  {
    if s.selected == NONE then |s.guards| else RotInverse(|s.guards|, s.next, s.selected)
  }

  ghost predicate Phased<T>(s: State<T>)
    requires WellFormed(s)
  {
    var n := |s.guards|;
    match s.pc
    case Idle => NoneRegistered(s) && s.state == Inactive && !s.due.timeout
    case EnablingAt(k) =>
      && k <= n && OnlyRegistered(s, k) && TimersDue(s, k)
      && ((s.state == Enabling && AllCalm(s, k)) || (s.state == Ready && SomeReady(s, k)))
    case Checking =>
      && OnlyRegistered(s, Registered(s)) && TimersDue(s, Registered(s))
      && (|| (s.state == Enabling && s.selected == NONE && AllCalm(s, n))
          || (s.state == Ready && (SelectedReady(s) || (s.selected == NONE && SomeReady(s, n)))))
    case Asleep(notified) =>
      && s.selected == NONE && OnlyRegistered(s, n) && TimersDue(s, n)
      && (if notified then s.state == Ready && SomeReady(s, n) else s.state == Waiting && AllCalm(s, n))
    case DisablingAt(order, j) =>
      && s.state == Ready && j <= |order| && (forall p :: 0 <= p < |order| ==> order[p] < n)
      && OnlyAfter(s, order, j) && (SelectedReady(s) || ReadyAfter(s, order, j))
    case Closing => NoneRegistered(s) && s.state == Ready && SelectedReady(s)
    case Chosen => NoneRegistered(s) && s.state == Inactive && !s.due.timeout && SelectedReady(s)
  }

  ghost predicate Inv<T>(s: State<T>) {
    && WellFormed(s)
    && (forall c :: 0 <= c < |s.chans| ==> SlotOk(s.chans[c]))
    && Phased(s)
  }

  // ---------- every step keeps it ----------

  ghost predicate EnablesMore<T>(s: State<T>, i: nat, t: State<T>) {
    && Inv(s) && s.pc.EnablingAt? && s.pc.k < |s.guards| && DoEnableOne(s) == Some(t)
    && i == Rot(|s.guards|, s.next, s.pc.k) && t.pc == EnablingAt(s.pc.k + 1)
  }

  lemma OneMore(pre: seq<bool>, next: nat, k: nat, i: nat)
    requires next <= |pre| && k < |pre| && i == Rot(|pre|, next, k)
    ensures forall j :: Before(pre, next, k + 1, j) <==> Before(pre, next, k, j) || (j == i && pre[i])
  {
    assert RotInverse(|pre|, next, i) == k;
    forall j: int
      ensures Before(pre, next, k + 1, j) <==> Before(pre, next, k, j) || (j == i && pre[i])
    {
      if 0 <= j < |pre| && j != i {
        var m := RotInverse(|pre|, next, j);
        assert m != k;
      }
    }
  }

  lemma EnabledSlots<T>(s: State<T>, i: nat, t: State<T>)
    requires EnablesMore(s, i, t)
    ensures WellFormed(t) && t.guards == s.guards && t.pre == s.pre && t.next == s.next && |t.chans| == |s.chans|
    ensures forall c :: 0 <= c < |t.chans| ==> SlotOk(t.chans[c])
    ensures forall c :: 0 <= c < |t.chans| && t.chans[c].f.alting ==>
      s.chans[c].f.alting || (s.pre[i] && s.guards[i] == OnChannel(c))
  {
  }

  lemma EnabledRegistered<T>(s: State<T>, i: nat, t: State<T>)
    requires EnablesMore(s, i, t)
    ensures WellFormed(t) && OnlyRegistered(t, t.pc.k)
    ensures forall c :: 0 <= c < |t.chans| ==> SlotOk(t.chans[c])
  {
    var k := s.pc.k;
    OneMore(s.pre, s.next, k, i);
    EnabledSlots(s, i, t);
    forall c | 0 <= c < |t.chans| && t.chans[c].f.alting
      ensures exists j :: Before(t.pre, t.next, k + 1, j) && t.guards[j] == OnChannel(c)
    {
      if s.chans[c].f.alting {
        var j :| Before(s.pre, s.next, k, j) && s.guards[j] == OnChannel(c);
        assert Before(t.pre, t.next, k + 1, j);
      } else {
        assert Before(t.pre, t.next, k + 1, i);
      }
    }
  }

  lemma EnabledTimers<T>(s: State<T>, i: nat, t: State<T>)
    requires EnablesMore(s, i, t) && WellFormed(t)
    ensures TimersDue(t, t.pc.k)
  {
    OneMore(s.pre, s.next, s.pc.k, i);
    assert t.guards == s.guards && t.pre == s.pre && t.next == s.next;
    assert s.due.timeout ==> t.due.timeout && t.due.time <= s.due.time;
  }

  lemma EnabledWatched<T>(s: State<T>, i: nat, t: State<T>)
    requires EnablesMore(s, i, t) && WellFormed(t)
    ensures t.state == s.state
    ensures s.state == Enabling ==> AllCalm(t, t.pc.k)
    ensures s.state == Ready ==> SomeReady(t, t.pc.k)
  {
    var k := s.pc.k;
    OneMore(s.pre, s.next, k, i);
    assert t.guards == s.guards && t.pre == s.pre && t.next == s.next;
    if s.state == Ready {
      var j :| Before(s.pre, s.next, k, j) && GuardReady(s, j);
      assert Before(t.pre, t.next, k + 1, j) && GuardReady(t, j);
    } else {
      forall j | Before(t.pre, t.next, k + 1, j) ensures Calm(t.guards[j], t.chans, t.due) {
        if Before(s.pre, s.next, k, j) {
          assert Calm(s.guards[j], s.chans, s.due);
        }
      }
    }
  }

  /** Enabling stops at a guard that is ready. */
  lemma EnabledReady<T>(s: State<T>)
    requires Inv(s) && s.pc.EnablingAt? && s.pc.k < |s.guards| && DoEnableOne(s).Some?
    requires DoEnableOne(s).value.pc.Checking?
    ensures Inv(DoEnableOne(s).value)
  {
    assert RotInverse(|s.guards|, s.next, Rot(|s.guards|, s.next, s.pc.k)) == s.pc.k;
  }

  lemma EnabledAll<T>(s: State<T>)
    requires Inv(s) && s.pc.EnablingAt? && s.pc.k >= |s.guards|
    ensures Inv(DoEnableOne(s).value)
  {
  }

  lemma EnableKeeps<T>(s: State<T>)
    requires Inv(s) && s.pc.EnablingAt? && DoEnableOne(s).Some?
    ensures Inv(DoEnableOne(s).value)
  {
    var t := DoEnableOne(s).value;
    if s.pc.k >= |s.guards| {
      EnabledAll(s);
    } else if t.pc.Checking? {
      EnabledReady(s);
    } else {
      var i := Rot(|s.guards|, s.next, s.pc.k);
      EnabledRegistered(s, i, t);
      EnabledTimers(s, i, t);
      EnabledWatched(s, i, t);
    }
  }

  /** Disabling starts with every registered guard still ahead. */
  lemma StartKeeps<T>(s: State<T>)
    requires WellFormed(s) && (forall c :: 0 <= c < |s.chans| ==> SlotOk(s.chans[c]))
    requires OnlyRegistered(s, Registered(s))
    requires SelectedReady(s) || (s.selected == NONE && SomeReady(s, |s.guards|))
    ensures Inv(StartDisabling(s))
  {
    var n, t := |s.guards|, StartDisabling(s);
    var order := t.pc.order;
    DisableOrderInRange(n, s.next, s.selected);
    assert forall p :: 0 <= p < |order| ==> order[p] in order;
    forall i | Before(s.pre, s.next, Registered(s), i) ensures After(t.pre, order, 0, i) {
      DisableOrderCovers(n, s.next, s.selected, i);
    }
    if s.selected == NONE {
      var i :| Before(s.pre, s.next, n, i) && GuardReady(s, i);
      assert After(t.pre, order, 0, i) && GuardReady(t, i);
    }
  }

  lemma CheckKeeps<T>(s: State<T>)
    requires Inv(s) && s.pc.Checking?
    ensures Inv(DoCheck(s))
  {
    if s.state == Ready {
      StartKeeps(s);
    }
  }

  lemma WakeKeeps<T>(s: State<T>)
    requires Inv(s) && s.pc.Asleep?
    requires s.pc.notified || (s.due.timeout && s.due.time <= s.now)
    ensures Inv(StartDisabling(s))
  {
    if !s.pc.notified {
      assert Before(s.pre, s.next, |s.guards|, s.due.index) && GuardReady(s, s.due.index);
    }
    StartKeeps(s);
  }

  /** A guard that has been disabled is not registered, and the others are still ahead. */
  lemma DisabledRegistered<T>(s: State<T>)
    requires Inv(s) && s.pc.DisablingAt? && s.pc.j < |s.pc.order| && DoDisableOne(s).Some?
    ensures var t := DoDisableOne(s).value;
      WellFormed(t) && OnlyAfter(t, s.pc.order, s.pc.j + 1) && forall c :: 0 <= c < |t.chans| ==> SlotOk(t.chans[c])
  {
    var t, order, j := DoDisableOne(s).value, s.pc.order, s.pc.j;
    var i := order[j];
    assert t.guards == s.guards && t.pre == s.pre;
    forall c | 0 <= c < |t.chans| && t.chans[c].f.alting
      ensures exists g :: After(t.pre, order, j + 1, g) && t.guards[g] == OnChannel(c)
    {
      var g :| After(s.pre, order, j, g) && s.guards[g] == OnChannel(c);
      assert g != i;
      assert After(t.pre, order, j + 1, g);
    }
  }

  lemma DisableKeepsReady<T>(s: State<T>)
    requires Inv(s) && s.pc.DisablingAt? && s.pc.j < |s.pc.order| && DoDisableOne(s).Some?
    requires WellFormed(DoDisableOne(s).value)
    ensures var t := DoDisableOne(s).value; SelectedReady(t) || ReadyAfter(t, s.pc.order, s.pc.j + 1)
  {
    var t, order, j := DoDisableOne(s).value, s.pc.order, s.pc.j;
    forall g | 0 <= g < |s.guards| ensures GuardReady(t, g) == GuardReady(s, g) {}
    if !SelectedReady(t) {
      assert !SelectedReady(s);
      var g :| After(s.pre, order, j, g) && GuardReady(s, g);
      assert After(t.pre, order, j + 1, g) && GuardReady(t, g);
    }
  }

  lemma DisableKeeps<T>(s: State<T>)
    requires Inv(s) && s.pc.DisablingAt? && s.pc.j < |s.pc.order| && DoDisableOne(s).Some?
    ensures Inv(DoDisableOne(s).value)
  {
    DisabledRegistered(s);
    DisableKeepsReady(s);
  }

  /** What the others may do: keep every registration, only make guards ready, and hold a
      registered channel's lock from the moment it becomes ready until `schedule` is called. */
  ghost predicate OthersMay<T>(s: State<T>, t: State<T>) {
    && t == s.(chans := t.chans, now := t.now) && |t.chans| == |s.chans| && s.now <= t.now
    && (forall c {:trigger t.chans[c]} :: 0 <= c < |s.chans| ==>
          && SlotOk(t.chans[c])
          && t.chans[c].f.alting == s.chans[c].f.alting
          && (!Quiet(s.chans[c].f) ==> !Quiet(t.chans[c].f))
          && (!s.chans[c].lock.Unlocked? ==> !t.chans[c].lock.Unlocked?)
          && (s.chans[c].f.alting && Quiet(s.chans[c].f) && !Quiet(t.chans[c].f) ==> !t.chans[c].lock.Unlocked?))
  }

  lemma OthersKeepRegistered<T>(s: State<T>, t: State<T>, k: nat)
    requires WellFormed(s) && WellFormed(t) && OthersMay(s, t)
    ensures OnlyRegistered(s, k) ==> OnlyRegistered(t, k)
    ensures TimersDue(s, k) ==> TimersDue(t, k)
    ensures AllCalm(s, k) ==> AllCalm(t, k)
    ensures SomeReady(s, k) ==> SomeReady(t, k)
  {
    assert forall g: Guard :: Calm(g, s.chans, s.due) ==> Calm(g, t.chans, t.due);
    if OnlyRegistered(s, k) {
      forall c | 0 <= c < |t.chans| && t.chans[c].f.alting
        ensures exists i :: Before(t.pre, t.next, k, i) && t.guards[i] == OnChannel(c)
      {
        assert s.chans[c].f.alting;
      }
    }
    if AllCalm(s, k) {
      forall i | Before(t.pre, t.next, k, i) ensures Calm(t.guards[i], t.chans, t.due) {
        assert Calm(s.guards[i], s.chans, s.due);
      }
    }
    if SomeReady(s, k) {
      var i :| Before(s.pre, s.next, k, i) && GuardReady(s, i);
      assert Before(t.pre, t.next, k, i) && GuardReady(t, i);
    }
  }

  /** What has still to be disabled, when only readiness has grown. */
  lemma RestKeeps<T>(s: State<T>, t: State<T>, order: seq<nat>, j: nat)
    requires WellFormed(s) && WellFormed(t) && t.guards == s.guards && t.pre == s.pre && |t.chans| == |s.chans|
    requires forall c :: 0 <= c < |s.chans| ==> t.chans[c].f.alting == s.chans[c].f.alting
    requires forall i :: 0 <= i < |s.guards| && GuardReady(s, i) ==> GuardReady(t, i)
    ensures OnlyAfter(s, order, j) ==> OnlyAfter(t, order, j)
    ensures ReadyAfter(s, order, j) ==> ReadyAfter(t, order, j)
  {
    if OnlyAfter(s, order, j) {
      forall c | 0 <= c < |t.chans| && t.chans[c].f.alting
        ensures exists i :: After(t.pre, order, j, i) && t.guards[i] == OnChannel(c)
      {
        assert s.chans[c].f.alting;
      }
    }
    if ReadyAfter(s, order, j) {
      var i :| After(s.pre, order, j, i) && GuardReady(s, i);
      assert After(t.pre, order, j, i) && GuardReady(t, i);
    }
  }

  lemma OthersKeep<T>(s: State<T>, t: State<T>)
    requires Inv(s) && OthersMay(s, t)
    ensures Inv(t)
  {
    assert forall i :: 0 <= i < |s.guards| && GuardReady(s, i) ==> GuardReady(t, i);
    assert WellFormed(t);
    match s.pc
    case EnablingAt(k) => OthersKeepRegistered(s, t, k);
    case Checking => OthersKeepRegistered(s, t, Registered(s)); OthersKeepRegistered(s, t, |s.guards|);
    case Asleep(_) => OthersKeepRegistered(s, t, |s.guards|);
    case DisablingAt(order, j) => RestKeeps(s, t, order, j);
    case _ =>
  }

  lemma WriterEntersKeeps<T>(s: State<T>, c: nat, v: T)
    requires Inv(s) && c < |s.chans| && DoWriterEnters(s, c, v).Some?
    ensures Inv(DoWriterEnters(s, c, v).value)
  {
    OthersKeep(s, DoWriterEnters(s, c, v).value);
  }

  lemma ScheduleKeepsRegistered<T>(s: State<T>, t: State<T>, c: nat, k: nat)
    requires WellFormed(s) && c < |s.chans| && t == DoSchedule(s, c) && WellFormed(t)
    requires s.chans[c].f.alting && !Quiet(s.chans[c].f) && OnlyRegistered(s, k) && TimersDue(s, k)
    ensures OnlyRegistered(t, k) && TimersDue(t, k) && SomeReady(t, k)
  {
    forall d | 0 <= d < |t.chans| && t.chans[d].f.alting
      ensures exists i :: Before(t.pre, t.next, k, i) && t.guards[i] == OnChannel(d)
    {
      assert s.chans[d].f.alting;
    }
    var i :| Before(s.pre, s.next, k, i) && s.guards[i] == OnChannel(c);
    assert Before(t.pre, t.next, k, i) && GuardReady(t, i);
  }

  /** `schedule` changes nothing about the channels but the lock it was called under. */
  lemma ScheduleTouchesLittle<T>(s: State<T>, c: nat)
    requires WellFormed(s) && (forall d :: 0 <= d < |s.chans| ==> SlotOk(s.chans[d]))
    requires c < |s.chans| && !s.chans[c].lock.Unlocked?
    ensures var t := DoSchedule(s, c);
      && WellFormed(t) && |t.chans| == |s.chans| && t.now == s.now
      && t.guards == s.guards && t.pre == s.pre && t.next == s.next && t.due == s.due && t.selected == s.selected
      && (forall d :: 0 <= d < |s.chans| ==> t.chans[d].f == s.chans[d].f && SlotOk(t.chans[d]))
      && (t.pc == s.pc || (s.pc.Asleep? && t.pc == Asleep(true)))
  {
    assert s.chans[c].f.alting && !Quiet(s.chans[c].f);
  }

  /** After `schedule` the alt is `Ready`, and the guard that called it is one it enabled. */
  lemma ScheduleKeeps<T>(s: State<T>, c: nat)
    requires Inv(s) && c < |s.chans| && !s.chans[c].lock.Unlocked?
    ensures Inv(DoSchedule(s, c))
  {
    var t := DoSchedule(s, c);
    ScheduleTouchesLittle(s, c);
    assert s.chans[c].f.alting && !Quiet(s.chans[c].f);
    assert forall i :: 0 <= i < |s.guards| ==> GuardReady(t, i) == GuardReady(s, i);
    match s.pc
    case EnablingAt(k) => ScheduleKeepsRegistered(s, t, c, k);
    case Checking => ScheduleKeepsRegistered(s, t, c, Registered(s));
    case Asleep(_) => ScheduleKeepsRegistered(s, t, c, |s.guards|);
    case DisablingAt(order, j) => RestKeeps(s, t, order, j);
    case _ =>
  }

  lemma PoisonKeeps<T>(s: State<T>, c: nat, k: nat, byWriter: bool)
    requires Inv(s) && c < |s.chans| && k > 0 && s.chans[c].lock.Unlocked? && MayPoison(s, c, byWriter)
    ensures Inv(DoPoison(s, c, k, byWriter))
  {
    OthersKeep(s, DoPoison(s, c, k, byWriter));
  }

  lemma TakeKeeps<T>(s: State<T>, next: nat)
    requires Inv(s) && s.pc.Chosen? && 0 <= s.selected && next <= |s.guards| && DoTake(s, next).Some?
    ensures Inv(DoTake(s, next).value)
  {
  }

  lemma BeginKeeps<T>(s: State<T>, pre: seq<bool>)
    requires Inv(s) && Step(s, Begin(pre)).Some?
    ensures Inv(Step(s, Begin(pre)).value)
  {
    var e: Event<T> := Begin(pre);
    var t := Step(s, e).value;
    assert forall i :: !Before(t.pre, t.next, 0, i);
  }

  lemma EndDisableKeeps<T>(s: State<T>)
    requires Inv(s) && Step(s, EndDisable).Some?
    ensures Inv(Step(s, EndDisable).value) && Step(s, EndDisable).value.selected == s.selected
  {
    assert forall i :: !After(s.pre, s.pc.order, s.pc.j, i);
  }

  lemma StepKeepsInv<T>(s: State<T>, e: Event<T>)
    requires Inv(s) && Step(s, e).Some?
    ensures Inv(Step(s, e).value)
  {
    match e
    case EnableOne => EnableKeeps(s);
    case Check => CheckKeeps(s);
    case WakeNotified => WakeKeeps(s);
    case WakeTimeout => WakeKeeps(s);
    case DisableOne => DisableKeeps(s);
    case Take(next) => TakeKeeps(s, next);
    case WriterEnters(c, v) => WriterEntersKeeps(s, c, v);
    case Schedule(c) => ScheduleKeeps(s, c);
    case WriterLeaves(c) => OthersKeep(s, Step(s, e).value);
    case PoisonIt(c, k, byWriter) => PoisonKeeps(s, c, k, byWriter);
    case Tick(d) => OthersKeep(s, Step(s, e).value);
    case EndDisable => EndDisableKeeps(s);
    case Begin(pre) => BeginKeeps(s, pre);
    case Close =>
    case SetAlarm(_, _) =>
  }

  lemma RunKeepsInv<T(!new)>(s: State<T>, es: seq<Event<T>>)
    requires Init(s) && Run(Step<T>, s, es).Some?
    ensures Inv(Run(Step<T>, s, es).value)
  {
    forall t: State<T>, e: Event<T> | Inv(t) && Step(t, e).Some? ensures Inv(Step(t, e).value) {
      StepKeepsInv(t, e);
    }
    Invariance(Step<T>, Inv<T>, s, es);
  }

  // ---------- what selection promises ----------

  /** The state after some run. */
  ghost predicate Reached<T(!new)>(s: State<T>) { exists s0: State<T> :: Init(s0) && Reachable(Step<T>, s0, s) }

  lemma ReachedHasInv<T(!new)>(s: State<T>)
    requires Reached(s)
    ensures Inv(s)
  {
    var s0: State<T> :| Init(s0) && Reachable(Step<T>, s0, s);
    var es: seq<Event<T>> :| Run(Step<T>, s0, es) == Some(s);
    RunKeepsInv(s0, es);
  }

  /** No lost wakeup.  While the alt sleeps and nobody has notified it, each channel it
      enabled is still registered to it and is empty and unpoisoned, unless a process that
      made it ready is about to call `schedule`. */
  lemma NoLostWakeup<T(!new)>(s: State<T>, i: nat, c: nat)
    requires Reached(s) && s.pc == Asleep(false)
    requires i < |s.guards| == |s.pre| && s.pre[i] && s.guards[i] == OnChannel(c)
    ensures c < |s.chans| && s.chans[c].f.alting
    ensures s.chans[c].lock.Unlocked? ==> Content(s.chans[c].f) == [] && s.chans[c].f.strength == 0
    ensures !s.chans[c].lock.Unlocked? ==>
      Step(s, Schedule(c)).Some? && Step(s, Schedule(c)).value.pc == Asleep(true)
  {
    ReachedHasInv(s);
    assert Before(s.pre, s.next, |s.guards|, i);
    assert Calm(s.guards[i], s.chans, s.due);
  }

  /** A sleeping alt with an enabled guard that is ready can be woken at once, by a pending
      `schedule`, by the notification it already has, or by its timeout. */
  lemma SleeperCanBeWoken<T(!new)>(s: State<T>, i: nat)
    requires Reached(s) && s.pc.Asleep?
    requires WellFormed(s) && i < |s.guards| && s.pre[i] && GuardReady(s, i)
    ensures Step(s, WakeNotified).Some? || Step(s, WakeTimeout).Some? || exists c :: Step(s, Schedule(c)).Some?
  {
    ReachedHasInv(s);
    assert Before(s.pre, s.next, |s.guards|, i);
    if !s.pc.notified && s.guards[i].OnChannel? {
      assert Calm(s.guards[i], s.chans, s.due);
      assert Step(s, Schedule(s.guards[i].c)).Some?;
    }
  }

  lemma ChosenCanBeTaken<T>(s: State<T>, next: nat)
    requires Inv(s) && s.pc.Chosen? && next <= |s.guards|
    ensures Step(s, Take(next)).Some?
  {
  }

  /** A step of the selecting process itself. */
  predicate OwnStep<T>(e: Event<T>) {
    e.EnableOne? || e.Check? || e.DisableOne? || e.EndDisable? || e.Close? || e.Take?
  }

  ghost predicate Proceeds<T(!new)>(s: State<T>) {
    (exists e: Event<T> :: OwnStep(e) && Step(s, e).Some?) || (exists c :: Step(s, Schedule(c)).Some?)
  }

  lemma EnablingProceeds<T(!new)>(s: State<T>)
    requires Inv(s) && s.pc.EnablingAt?
    ensures Proceeds(s)
  {
    var e: Event<T> := EnableOne;
    if !Step(s, e).Some? {
      assert Step(s, Schedule(s.guards[Rot(|s.guards|, s.next, s.pc.k)].c)).Some?;
    }
  }

  lemma DisablingProceeds<T(!new)>(s: State<T>)
    requires Inv(s) && s.pc.DisablingAt?
    ensures Proceeds(s)
  {
    var one: Event<T>, end: Event<T> := DisableOne, EndDisable;
    if s.pc.j == |s.pc.order| {
      assert Step(s, end).Some?;
    } else if !Step(s, one).Some? {
      assert Step(s, Schedule(s.guards[s.pc.order[s.pc.j]].c)).Some?;
    }
  }

  /** Selecting never gets stuck elsewhere: awake, the alt can step, or the channel it
      waits for is held by a process that is about to call `schedule`. */
  lemma SelectingProceeds<T(!new)>(s: State<T>)
    requires Reached(s) && !s.pc.Idle? && !s.pc.Asleep?
    ensures Proceeds(s)
  {
    ReachedHasInv(s);
    var check: Event<T>, close: Event<T>, take: Event<T> := Check, Close, Take(0);
    match s.pc
    case EnablingAt(_) => EnablingProceeds(s);
    case DisablingAt(_, _) => DisablingProceeds(s);
    case Checking => assert Step(s, check).Some?;
    case Closing => assert Step(s, close).Some?;
    case Chosen =>
      ChosenCanBeTaken(s, 0);
      assert Step(s, take).Some?;
    case _ =>
  }

  /** Where `_state` is assigned without the lock, to `ENABLING` and to `INACTIVE`, no channel
      has this alt registered, so no call of `schedule` is under way. */
  lemma UnlockedResetIsSafe<T(!new)>(s: State<T>)
    requires Reached(s) && (s.pc.Idle? || s.pc.Closing?)
    ensures forall c :: 0 <= c < |s.chans| ==> !s.chans[c].f.alting && s.chans[c].lock.Unlocked?
  {
    ReachedHasInv(s);
    assert forall c :: 0 <= c < |s.chans| ==> SlotOk(s.chans[c]);
  }

  /** Finding guard `_next + k` ready changes nothing that is shared. */
  lemma FindsReady<T>(s: State<T>)
    requires WellFormed(s) && s.pc.EnablingAt? && s.pc.k < |s.guards| && s.pre[Rot(|s.guards|, s.next, s.pc.k)]
    requires var i := Rot(|s.guards|, s.next, s.pc.k);
      GuardReady(s, i) && (s.guards[i].OnChannel? ==> s.chans[s.guards[i].c].lock.Unlocked?)
    ensures Step(s, EnableOne)
         == Some(s.(selected := Rot(|s.guards|, s.next, s.pc.k), state := Ready, pc := Checking))
  {
    var i := Rot(|s.guards|, s.next, s.pc.k);
    if s.guards[i].OnChannel? {
      var c := s.guards[i].c;
      assert s.chans[c := s.chans[c].(f := s.chans[c].f)] == s.chans;
    }
  }

  lemma FoundReady<T>(s: State<T>)
    requires WellFormed(s) && s.pc.EnablingAt? && s.pc.k < |s.guards|
    requires Step(s, EnableOne).Some? && Step(s, EnableOne).value.pc.Checking?
    ensures var i := Rot(|s.guards|, s.next, s.pc.k);
      s.pre[i] && GuardReady(s, i) && (s.guards[i].OnChannel? ==> s.chans[s.guards[i].c].lock.Unlocked?)
  {
  }

  /** The third unlocked assignment, of `READY` when a guard is found ready, happens with other
      guards registered.  It commutes with a `schedule` that is under way. */
  lemma UnlockedReadyIsHarmless<T>(s: State<T>, c: nat)
    requires Inv(s) && s.pc.EnablingAt? && s.pc.k < |s.guards| && Step(s, Schedule(c)).Some?
    requires Step(s, EnableOne).Some? && Step(s, EnableOne).value.pc.Checking?
    ensures Step(Step(s, EnableOne).value, Schedule(c)) == Step(Step(s, Schedule(c)).value, EnableOne)
    ensures Step(Step(s, EnableOne).value, Schedule(c)).Some?
  {
    FoundReady(s);
    FindsReady(s);
    ScheduleTouchesLittle(s, c);
    FindsReady(DoSchedule(s, c));
  }

  /** Selection is sound: the index is in range, enabled, ready, no registration is left
      behind, and the read that follows does not block. */
  lemma SelectionIsSound<T(!new)>(s: State<T>, next: nat)
    requires Reached(s) && s.pc.Chosen? && next <= |s.guards|
    ensures WellFormed(s) && 0 <= s.selected && s.pre[s.selected] && GuardReady(s, s.selected)
    ensures forall c :: 0 <= c < |s.chans| ==> !s.chans[c].f.alting
    ensures Step(s, Take(next)).Some?
    ensures s.guards[s.selected].OnChannel? ==>
      var f := s.chans[s.guards[s.selected].c].f;
      var e := ReadEntry(f);
      if f.strength > 0 then e.outcome.Throws?
      else Content(f) != [] && e.outcome == B.Got(Content(f)[0]) && |Content(e.fields)| == |Content(f)| - 1
  {
    ReachedHasInv(s);
    ChosenCanBeTaken(s, next);
  }

  lemma WritersMakeReady<T>(s: State<T>, c: nat, v: T, i: nat)
    requires WellFormed(s) && c < |s.chans| && SlotOk(s.chans[c]) && DoWriterEnters(s, c, v).Some?
    requires i < |s.guards| && GuardReady(s, i)
    ensures var t := DoWriterEnters(s, c, v).value;
      t.guards == s.guards && |t.chans| == |s.chans| && GuardReady(t, i)
  {
  }

  lemma SelectingMakesNothingUnready<T>(s: State<T>, e: Event<T>, i: nat)
    requires Inv(s) && (e.EnableOne? || e.DisableOne?) && Step(s, e).Some? && i < |s.guards| && GuardReady(s, i)
    ensures var t := Step(s, e).value;
      && t.guards == s.guards && |t.chans| == |s.chans|
      && (s.guards[i].OnChannel? ==> s.guards[i].c < |t.chans|) && GuardReady(t, i)
  {
  }

  lemma ReadyStaysReady<T>(s: State<T>, e: Event<T>, i: nat)
    requires Inv(s) && !s.pc.Idle? && !s.pc.Chosen? && Step(s, e).Some? && i < |s.guards| && GuardReady(s, i)
    ensures var t := Step(s, e).value;
      && t.guards == s.guards && |t.chans| == |s.chans|
      && (s.guards[i].OnChannel? ==> s.guards[i].c < |t.chans|) && GuardReady(t, i)
  {
    assert forall c :: 0 <= c < |s.chans| ==> SlotOk(s.chans[c]);
    match e
    case EnableOne => SelectingMakesNothingUnready(s, e, i);
    case DisableOne => SelectingMakesNothingUnready(s, e, i);
    case WriterEnters(c, v) => WritersMakeReady(s, c, v, i);
    case Schedule(_) =>
    case PoisonIt(_, _, _) =>
    case _ =>
  }

  /** From the start of a selection to its end a guard that is ready stays ready: nobody but
      the selecting process takes values away. */
  lemma ReadinessGrows<T(!new)>(s: State<T>, e: Event<T>, i: nat)
    requires Reached(s) && !s.pc.Idle? && !s.pc.Chosen? && Step(s, e).Some? && i < |s.guards|
    requires (s.guards[i].OnChannel? ==> s.guards[i].c < |s.chans|) && GuardReady(s, i)
    ensures var t := Step(s, e).value;
      && t.guards == s.guards && |t.chans| == |s.chans|
      && (s.guards[i].OnChannel? ==> s.guards[i].c < |t.chans|) && GuardReady(t, i)
  {
    ReachedHasInv(s);
    ReadyStaysReady(s, e, i);
  }

  /** The alt never selects the timer it fell back on: some guard always answered ready. */
  lemma FallbackIsNeverUsed<T(!new)>(s: State<T>)
    requires Reached(s) && Step(s, EndDisable).Some?
    ensures s.selected != NONE
  {
    ReachedHasInv(s);
    EndDisableKeeps(s);
    StepKeepsInv(s, EndDisable);
  }

  /** A sleeping alt waits for the earliest alarm among its enabled timers, if it has any. */
  lemma EarliestAlarm<T(!new)>(s: State<T>)
    requires Reached(s) && s.pc.Asleep?
    ensures |s.pre| == |s.guards|
    ensures forall i :: 0 <= i < |s.guards| && s.pre[i] && s.guards[i].OnTimer? ==>
      s.due.timeout && s.due.time <= s.guards[i].alarm
    ensures s.due.timeout ==>
      0 <= s.due.index < |s.guards| && s.pre[s.due.index] && s.guards[s.due.index] == OnTimer(s.due.time)
  {
    ReachedHasInv(s);
    assert forall i :: 0 <= i < |s.guards| && s.pre[i] ==> Before(s.pre, s.next, |s.guards|, i);
  }
}
