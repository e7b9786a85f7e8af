/** The buffered channel of csp/chan.h: its critical sections. */
module BufferedChan {
  import opened Condvar
  import D = DataStore

  /** `buf` is the content of the data store the channel was given. */
  datatype Fields<T> = Fields(kind: D.Kind, size: nat, buf: seq<T>, alting: bool, strength: nat)

  /** `Faults` takes a value out of an empty store, or puts one into a store that has to
      overwrite and holds nothing. */
  datatype Outcome<T> = Waits | Returns | Got(value: T) | Throws(strength: nat) | Faults

  datatype Section<T> = Section(fields: Fields<T>, notify: Notify, schedule: bool, outcome: Outcome<T>)

  predicate IsFull<T>(f: Fields<T>) { D.State(f.kind, f.size, f.buf).Full? }

  /** `write` puts first and then waits if that filled the store. */
  function WriteEntry<T>(f: Fields<T>, v: T): Section<T> {
    if f.strength > 0 then Section(f, Nobody, false, Throws(f.strength))
    else if !D.PutOk(f.kind, f.size, f.buf) then Section(f, Nobody, false, Faults)
    else
      var g := f.(buf := D.Put(f.kind, f.size, f.buf, v));
      Section(g, if f.alting then Nobody else One, f.alting, if IsFull(g) then Waits else Returns)
  }

  function WriteResume<T>(f: Fields<T>): Section<T> {
    Section(f, Nobody, false, if f.strength > 0 then Throws(f.strength) else Returns)
  }

  /** `read` once the store is known to hold a value: notify, then look for poison, then take. */
  function TakeValue<T>(f: Fields<T>): Section<T> {
    if f.strength > 0 then Section(f, One, false, Throws(f.strength))
    else if f.buf == [] then Section(f, One, false, Faults)
    else Section(f.(buf := D.Rest(f.kind, f.buf)), One, false, Got(f.buf[0]))
  }

  function ReadEntry<T>(f: Fields<T>): Section<T> {
    if f.strength > 0 then Section(f, Nobody, false, Throws(f.strength))
    else if D.State(f.kind, f.size, f.buf).Empty? then Section(f, Nobody, false, Waits)
    else TakeValue(f)
  }

  predicate Quiet<T>(f: Fields<T>) { f.buf == [] && f.strength == 0 }

  function Enabled<T>(f: Fields<T>): (Fields<T>, bool) {
    if Quiet(f) then (f.(alting := true), false) else (f, true)
  }

  function Disabled<T>(f: Fields<T>): (Fields<T>, bool) { (f.(alting := false), !Quiet(f)) }

  /** `poison` of either end; a writer also schedules a registered alt. */
  function Poison<T>(f: Fields<T>, k: nat, byWriter: bool): Section<T> {
    Section(f.(strength := k), All, byWriter && f.alting, Returns)
  }

  class BufferedChannel<T> {
    const store: D.Store<T>
    var alting: bool
    var strength: nat

    function Value(): Fields<T> reads this, store { Fields(store.kind, store.size, store.buf, alting, strength) }

    constructor (store: D.Store<T>)
      ensures this.store == store && Value() == Fields(store.kind, store.size, store.buf, false, 0)
    {
      this.store := store;
      alting, strength := false, 0;
    }

    method EnterWrite(v: T) returns (notify: Notify, schedule: bool, outcome: Outcome<T>)
      modifies store
      ensures Section(Value(), notify, schedule, outcome) == WriteEntry(old(Value()), v)
    {
      notify, schedule, outcome := Nobody, false, Returns;
      if strength > 0 {
        outcome := Throws(strength);
        return;
      }
      var ok := store.Add(v);
      if !ok {
        outcome := Faults;
        return;
      }
      if alting {
        schedule := true;
      } else {
        notify := One;
      }
      var state := store.GetState();
      if state == D.Full {
        outcome := Waits;
      }
    }

    method ResumeWrite() returns (outcome: Outcome<T>)
      ensures Section(Value(), Nobody, false, outcome) == WriteResume(Value())
    {
      if strength > 0 {
        outcome := Throws(strength);
      } else {
        outcome := Returns;
      }
    }

    method EnterRead() returns (notify: Notify, outcome: Outcome<T>)
      modifies store
      ensures Section(Value(), notify, false, outcome) == ReadEntry(old(Value()))
    {
      notify, outcome := Nobody, Waits;
      if strength > 0 {
        outcome := Throws(strength);
        return;
      }
      var state := store.GetState();
      if state == D.Empty {
        return;
      }
      notify, outcome := ResumeRead();
    }

    method ResumeRead() returns (notify: Notify, outcome: Outcome<T>)
      modifies store
      ensures Section(Value(), notify, false, outcome) == TakeValue(old(Value()))
    {
      notify := One;
      if strength > 0 {
        return notify, Throws(strength);
      }
      if |store.buf| == 0 {
        return notify, Faults;
      }
      var value := store.Get();
      outcome := Got(value);
    }

    method Enable() returns (ready: bool)
      modifies this`alting
      ensures (Value(), ready) == Enabled(old(Value()))
    {
      if strength > 0 {
        return true;
      }
      var state := store.GetState();
      if state == D.Empty {
        alting := true;
        return false;
      } else {
        return true;
      }
    }

    method Disable() returns (ready: bool)
      modifies this`alting
      ensures (Value(), ready) == Disabled(old(Value()))
    {
      alting := false;
      var state := store.GetState();
      ready := state != D.Empty || strength > 0;
    }

    method BePoisoned(k: nat, byWriter: bool) returns (notify: Notify, schedule: bool)
      modifies this`strength
      ensures Section(Value(), notify, schedule, Returns) == Poison(old(Value()), k, byWriter)
    {
      strength := k;
      notify, schedule := All, byWriter && alting;
    }
  }
}

/** Any number of writers and readers on one buffered channel (csp/chan.h:1393-1566), behind
    the end mutexes as in ChannelSystem.  A selecting reader has disabled the channel before it
    reads: a selection leaves no channel registered (AltSystem.SelectionIsSound). */
module BufferedSystem {
  import opened Runs
  import opened Condvar
  import D = DataStore
  import opened BufferedChan

  datatype Writer<T> = NoWriter | HoldsOut(p: nat, v: T) | InWrite(p: nat)
  datatype Reader = NoReader | HoldsIn(q: nat) | InRead(q: nat)

  datatype State<T> = State(
    f: Fields<T>, cond: Cond, w: Writer<T>, r: Reader, written: seq<T>, read: seq<T>, faulted: bool)

  datatype Event<T> =
    | LockOut(p: nat, v: T)
    | Write(pick: nat)
    | WriteReturn
    | LockIn(q: nat)
    | Read(pick: nat)
    | ReadReturn(pick: nat)
    | PoisonIt(k: nat, byWriter: bool)
    | Enable
    | Disable

  function Init<T>(kind: D.Kind, size: nat): State<T> {
    State(Fields(kind, size, [], false, 0), IDLE, NoWriter, NoReader, [], [], false)
  }

  function DoWrite<T>(s: State<T>, pick: nat): Option<State<T>>
    requires s.w.HoldsOut?
  {
    var e := WriteEntry(s.f, s.w.v);
    if e.outcome.Throws? then Some(s.(w := NoWriter))
    else if e.outcome.Faults? then Some(s.(faulted := true))
    else if !MayPick(s.cond, e.notify, pick) then None
    else
      var c := Signal(s.cond, e.notify, pick);
      var t := s.(f := e.fields, written := s.written + [s.w.v]);
      if e.outcome.Waits? then Some(t.(cond := Block(c, s.w.p), w := InWrite(s.w.p)))
      else Some(t.(cond := c, w := NoWriter))
  }

  function LeaveRead<T>(s: State<T>, c: Cond, e: Section<T>, pick: nat): Option<State<T>> {
    if e.outcome.Faults? then Some(s.(faulted := true))
    else if !MayPick(c, e.notify, pick) then None
    else Some(s.(f := e.fields, cond := Signal(c, e.notify, pick), r := NoReader,
                 read := if e.outcome.Got? then s.read + [e.outcome.value] else s.read))
  }

  function DoRead<T>(s: State<T>, pick: nat): Option<State<T>>
    requires s.r.HoldsIn?
  {
    var e := ReadEntry(s.f);
    if e.outcome.Waits? then Some(s.(cond := Block(s.cond, s.r.q), r := InRead(s.r.q)))
    else LeaveRead(s, s.cond, e, pick)
  }

  function DoPoison<T>(s: State<T>, k: nat): State<T> {
    var e := Poison(s.f, k, false);
    s.(f := e.fields, cond := Signal(s.cond, e.notify, 0))
  }

  /** As in ChannelSystem, whoever poisons uses an end that nobody else is using. */
  predicate MayPoison<T>(s: State<T>, byWriter: bool) { if byWriter then s.w.NoWriter? else s.r.NoReader? }

  function Step<T>(s: State<T>, e: Event<T>): Option<State<T>> {
    if s.faulted then None
    else
      match e
      case LockOut(p, v) =>
        if s.w.NoWriter? && (s.r.NoReader? || s.r.q != p) then Some(s.(w := HoldsOut(p, v))) else None
      case Write(pick) => if s.w.HoldsOut? then DoWrite(s, pick) else None
      case WriteReturn =>
        if s.w.InWrite? && s.w.p in s.cond.woken then Some(s.(w := NoWriter, cond := Resume(s.cond, s.w.p)))
        else None
      case LockIn(q) =>
        if s.r.NoReader? && !s.f.alting && (s.w.NoWriter? || s.w.p != q) then Some(s.(r := HoldsIn(q))) else None
      case Read(pick) => if s.r.HoldsIn? then DoRead(s, pick) else None
      case ReadReturn(pick) =>
        if s.r.InRead? && s.r.q in s.cond.woken then
          LeaveRead(s, Resume(s.cond, s.r.q), TakeValue(s.f), pick)
        else None
      case PoisonIt(k, byWriter) => if k > 0 && MayPoison(s, byWriter) then Some(DoPoison(s, k)) else None
      case Enable => if s.r.NoReader? then Some(s.(f := Enabled(s.f).0)) else None
      case Disable => if s.r.NoReader? then Some(s.(f := Disabled(s.f).0)) else None
  }

  // ---------- the invariant ----------

  predicate WriterIn<T>(s: State<T>, c: set<nat>) { s.w.InWrite? && s.w.p in c }
  predicate ReaderIn<T>(s: State<T>, c: set<nat>) { s.r.InRead? && s.r.q in c }

  /** Who is inside, and why. */
  ghost predicate Waiters<T>(s: State<T>) {
    && (s.w.NoWriter? || s.r.NoReader? || s.w.p != s.r.q)
    && s.cond.waiting !! s.cond.woken
    && (forall p :: p in s.cond.waiting || p in s.cond.woken ==>
          (s.w.InWrite? && p == s.w.p) || (s.r.InRead? && p == s.r.q))
    && (s.w.InWrite? ==> s.w.p in s.cond.waiting || s.w.p in s.cond.woken)
    && (s.r.InRead? ==> s.r.q in s.cond.waiting || s.r.q in s.cond.woken)
    && (s.f.alting ==> s.r.NoReader?)
    && (s.f.strength > 0 ==> s.cond.waiting == {})
  }

  ghost predicate Level<T>(s: State<T>) {
    && (ReaderIn(s, s.cond.waiting) ==> s.f.buf == [])
    && (ReaderIn(s, s.cond.woken) && s.f.strength == 0 ==> s.f.buf != [])
    && (WriterIn(s, s.cond.waiting) ==> IsFull(s.f))
    && (IsFull(s.f) && s.f.strength == 0 ==> WriterIn(s, s.cond.waiting))
    && (s.f.kind.Plain? && s.f.size > 0 ==> |s.f.buf| <= s.f.size)
  }

  /** Stores that drop values have room for one. */
  predicate Usable(kind: D.Kind, size: nat) { kind.Plain? || kind.Infinite? || size > 0 }

  ghost predicate Fifo<T>(s: State<T>) {
    && Usable(s.f.kind, s.f.size)
    && (s.f.kind.Plain? || s.f.kind.Infinite? ==> s.written == s.read + s.f.buf)
  }

  ghost predicate Inv<T>(s: State<T>) { Waiters(s) && Level(s) && Fifo(s) && !s.faulted }

  lemma WriteKeeps<T>(s: State<T>, pick: nat)
    requires Inv(s) && s.w.HoldsOut? && DoWrite(s, pick).Some?
    ensures Inv(DoWrite(s, pick).value)
  {
    var t := DoWrite(s, pick).value;
    if s.f.strength == 0 {
      assert s.f.kind.Plain? || s.f.kind.Infinite? ==> t.read + t.f.buf == s.read + s.f.buf + [s.w.v];
      assert !IsFull(s.f);
    }
  }

  lemma TakeKeeps<T>(s: State<T>, c: Cond, pick: nat)
    requires Inv(s) && s.f.strength == 0 && s.f.buf != [] && !s.r.NoReader? && !s.f.alting
    requires c == s.cond.(woken := s.cond.woken - {s.r.q}) && s.r.q !in s.cond.waiting
    requires LeaveRead(s, c, TakeValue(s.f), pick).Some?
    ensures Inv(LeaveRead(s, c, TakeValue(s.f), pick).value)
  {
    var t := LeaveRead(s, c, TakeValue(s.f), pick).value;
    assert s.f.kind.Plain? || s.f.kind.Infinite? ==> t.read + t.f.buf == s.read + s.f.buf;
    assert c.waiting <= (if s.w.InWrite? then {s.w.p} else {});
  }

  lemma PoisonKeeps<T>(s: State<T>, k: nat)
    requires Inv(s) && k > 0
    ensures Inv(DoPoison(s, k))
  {
  }

  lemma StepKeepsInv<T>(s: State<T>, e: Event<T>)
    requires Inv(s) && Step(s, e).Some?
    ensures Inv(Step(s, e).value)
  {
    match e
    case Write(pick) => WriteKeeps(s, pick);
    case Read(pick) =>
      if s.f.strength == 0 && s.f.buf != [] {
        assert s.r.q !in s.cond.woken && s.cond.woken - {s.r.q} == s.cond.woken;
        TakeKeeps(s, s.cond, pick);
      }
    case ReadReturn(pick) =>
      if s.f.strength == 0 {
        TakeKeeps(s, Resume(s.cond, s.r.q), pick);
      }
    case PoisonIt(k, _) => PoisonKeeps(s, k);
    case _ =>
  }

  lemma {:induction false} RunKeepsInv<T>(kind: D.Kind, size: nat, es: seq<Event<T>>)
    requires Usable(kind, size) && Run(Step<T>, Init(kind, size), es).Some?
    ensures var s := Run(Step<T>, Init(kind, size), es).value;
      Inv(s) && s.f.kind == kind && s.f.size == size
    decreases |es|
  {
    if es != [] {
      RunKeepsInv(kind, size, es[..|es| - 1]);
      StepKeepsInv(Run(Step<T>, Init(kind, size), es[..|es| - 1]).value, es[|es| - 1]);
    }
  }

  // ---------- what the users of the channel get ----------

  /** A channel with a plain or an infinite buffer is a queue: the values read are the first
      ones written and the rest are in the buffer in order.  A plain buffer never exceeds its
      size, and a value is put only when there is room for it. */
  lemma QueueOfItsSize<T>(kind: D.Kind, size: nat, es: seq<Event<T>>, pick: nat)
    requires kind.Plain? || kind.Infinite?
    requires Run(Step<T>, Init(kind, size), es).Some?
    ensures var s := Run(Step<T>, Init(kind, size), es).value;
      && s.written == s.read + s.f.buf
      && (kind.Plain? && size > 0 ==>
            && |s.f.buf| <= size
            && (Step(s, Write(pick)).Some? && Step(s, Write(pick)).value.written != s.written ==> |s.f.buf| < size))
  {
    RunKeepsInv(kind, size, es);
  }

  /** Nobody waits for something that is already there: a blocked reader means an empty
      buffer, a blocked writer a full one, so they are never blocked together, and at most
      one process is. */
  lemma WaitersHaveCause<T>(kind: D.Kind, size: nat, es: seq<Event<T>>)
    requires Usable(kind, size) && Run(Step<T>, Init(kind, size), es).Some?
    ensures var s := Run(Step<T>, Init(kind, size), es).value;
      && (s.r.InRead? && s.r.q in s.cond.waiting ==> s.f.buf == [] && s.f.strength == 0)
      && (s.w.InWrite? && s.w.p in s.cond.waiting ==> kind.Plain? && |s.f.buf| == size && s.f.strength == 0)
      && |s.cond.waiting| <= 1
      && (s.w.InWrite? && s.w.p in s.cond.woken && s.f.strength == 0 && size > 0 ==> |s.f.buf| < size || !kind.Plain?)
      && !s.faulted
  {
    RunKeepsInv(kind, size, es);
    var s := Run(Step<T>, Init(kind, size), es).value;
    if s.w.InWrite? && s.w.p in s.cond.waiting {
      assert s.cond.waiting == {s.w.p};
    } else if s.r.InRead? && s.r.q in s.cond.waiting {
      assert s.cond.waiting == {s.r.q};
    } else {
      assert s.cond.waiting == {};
    }
  }

  ghost predicate CapacityHolds<T(!new)>(size: nat) {
    forall es: seq<Event<T>> :: Run(Step<T>, Init(D.Plain, size), es).Some? ==>
      |Run(Step<T>, Init(D.Plain, size), es).value.f.buf| <= size
  }

  /** A buffer of size 0 is never full, so it takes everything: the size bounds the content
      exactly when it is positive. */
  lemma CapacityHoldsExactlyWhen<T(!new)>(size: nat, v: T)
    ensures CapacityHolds<T>(size) <==> size > 0
  {
    if size > 0 {
      forall es: seq<Event<T>> | Run(Step<T>, Init(D.Plain, size), es).Some?
        ensures |Run(Step<T>, Init(D.Plain, size), es).value.f.buf| <= size
      {
        RunKeepsInv(D.Plain, size, es);
      }
    } else {
      var es: seq<Event<T>> := [LockOut(0, v), Write(0)];
      Few(Step<T>, Init(D.Plain, 0), es);
      assert |Run(Step<T>, Init(D.Plain, 0), es).value.f.buf| == 1;
    }
  }

  ghost predicate CanFault<T(!new)>(kind: D.Kind, size: nat) {
    exists es: seq<Event<T>> ::
      Run(Step<T>, Init(kind, size), es).Some? && Run(Step<T>, Init(kind, size), es).value.faulted
  }

  lemma DroppedValueFaults<T(!new)>(v: T)
    ensures CanFault<T>(D.Overflowing, 0)
  {
    var s: State<T> := Init(D.Overflowing, 0);
    var arrive: seq<Event<T>> := [LockIn(1), Read(0), LockOut(2, v)];
    Few(Step<T>, s, arrive);
    var t := Run(Step<T>, s, arrive).value;
    assert t == s.(w := HoldsOut(2, v), r := InRead(1), cond := Block(s.cond, 1));
    Snoc(Step<T>, s, arrive, Write(1));
    assert Step(t, Write(1)).value.cond.woken == {1};
    Snoc(Step<T>, s, arrive + [Write(1)], ReadReturn(0));
    assert Run(Step<T>, s, arrive + [Write(1)] + [ReadReturn(0)]).value.faulted;
  }

  lemma NothingToOverwriteFaults<T(!new)>(kind: D.Kind, v: T)
    requires kind.OverwriteOldest? || kind.Overwriting?
    ensures CanFault<T>(kind, 0)
  {
    var es: seq<Event<T>> := [LockOut(2, v), Write(0)];
    Few(Step<T>, Init(kind, 0), es);
    assert Run(Step<T>, Init(kind, 0), es).value.faulted;
  }

  /** A process reaches into an empty store exactly when the store drops values and has size 0:
      the overflowing one drops the value and the reader is notified all the same, and those
      that overwrite have nothing to overwrite. */
  lemma FaultsExactlyWhen<T(!new)>(kind: D.Kind, size: nat, v: T)
    ensures CanFault<T>(kind, size) <==> size == 0 && !kind.Plain? && !kind.Infinite?
  {
    if Usable(kind, size) {
      forall es: seq<Event<T>> | Run(Step<T>, Init(kind, size), es).Some?
        ensures !Run(Step<T>, Init(kind, size), es).value.faulted
      {
        RunKeepsInv(kind, size, es);
      }
    } else if kind.Overflowing? {
      DroppedValueFaults(v);
    } else {
      NothingToOverwriteFaults(kind, v);
    }
  }

  /** Poison is final in the monitor: everybody inside is released and nothing moves afterwards. */
  lemma {:induction false} PoisonIsFinal<T>(s: State<T>, es: seq<Event<T>>)
    requires Inv(s) && s.f.strength > 0 && Run(Step<T>, s, es).Some?
    ensures var t := Run(Step<T>, s, es).value;
      && Inv(t) && t.f.strength > 0 && t.cond.waiting == {}
      && t.read == s.read && t.written == s.written && t.f.buf == s.f.buf
      && (t.w.InWrite? ==> Step(t, WriteReturn).Some?) && (t.r.InRead? ==> Step(t, ReadReturn(0)).Some?)
    decreases |es|
  {
    if es != [] {
      PoisonIsFinal(s, es[..|es| - 1]);
      StepKeepsInv(Run(Step<T>, s, es[..|es| - 1]).value, es[|es| - 1]);
    }
  }

  /** A process reached into an empty store, or the buffer holds more than its size. */
  predicate Harmed<T>(s: State<T>) { s.faulted || (s.f.kind.Plain? && |s.f.buf| > s.f.size) }

  ghost predicate CanBeHarmed<T(!new)>(s: State<T>) {
    exists es: seq<Event<T>> :: Run(Step<T>, s, es).Some? && Harmed(Run(Step<T>, s, es).value)
  }

  lemma WokenReaderFaults<T(!new)>(s: State<T>)
    requires Inv(s) && s.f.strength == 0 && ReaderIn(s, s.cond.waiting)
    ensures CanBeHarmed(DoPoison(s, 0))
  {
    var es: seq<Event<T>> := [ReadReturn(0)];
    Few(Step<T>, DoPoison(s, 0), es);
    assert Harmed(Run(Step<T>, DoPoison(s, 0), es).value);
  }

  lemma WokenWriterMakesRoomForOneTooMany<T(!new)>(s: State<T>, v: T)
    requires Inv(s) && s.f.strength == 0 && WriterIn(s, s.cond.waiting)
    ensures CanBeHarmed(DoPoison(s, 0))
  {
    var es: seq<Event<T>> := [WriteReturn, LockOut(s.w.p, v), Write(0)];
    Few(Step<T>, DoPoison(s, 0), es);
    assert Harmed(Run(Step<T>, DoPoison(s, 0), es).value);
  }

  /** `poison(0)` notifies everybody without poisoning.  Afterwards a reader can take from the
      empty store, or the buffer can exceed its size, exactly when somebody is blocked. */
  lemma ZeroPoisonIsSafeExactlyWhen<T(!new)>(kind: D.Kind, size: nat, es: seq<Event<T>>, v: T)
    requires Usable(kind, size) && (kind.Plain? ==> size > 0)
    requires Run(Step<T>, Init(kind, size), es).Some? && Run(Step<T>, Init(kind, size), es).value.f.strength == 0
    ensures var s := Run(Step<T>, Init(kind, size), es).value;
      CanBeHarmed(DoPoison(s, 0)) <==> s.cond.waiting != {}
  {
    RunKeepsInv(kind, size, es);
    var s := Run(Step<T>, Init(kind, size), es).value;
    if s.cond.waiting == {} {
      assert DoPoison(s, 0) == s;
      forall fs: seq<Event<T>> | Run(Step<T>, s, fs).Some? ensures !Harmed(Run(Step<T>, s, fs).value) {
        Append(Step<T>, Init(kind, size), es, fs);
        RunKeepsInv(kind, size, es + fs);
      }
    } else if ReaderIn(s, s.cond.waiting) {
      WokenReaderFaults(s);
    } else {
      WokenWriterMakesRoomForOneTooMany(s, v);
    }
  }
}
