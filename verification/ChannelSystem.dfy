/** Any number of writers and readers sharing one unbuffered channel (csp/chan.h:1091-1152).

    A shared end has a mutex that its user holds for the whole operation
    (chan.h:431-437, 887-893), so at most one process is inside `write` and one inside
    `read`; an unshared end is the case of a single user.  Which process takes the end
    next is left open. */
module ChannelSystem {
  import opened Runs
  import opened Condvar
  import opened BasicChan
  import Rendezvous

  datatype Writer<T> = NoWriter | HoldsOut(p: nat, v: T) | InWrite(p: nat, v: T)
  datatype Reader = NoReader | HoldsIn(q: nat) | InRead(q: nat)

  /** `written` logs the values put in the hold, `read` those that `read` returned,
      `acked` counts the writes that returned normally. */
  datatype State<T> = State(
    order: ReadOrder, f: Fields<T>, cond: Cond, w: Writer<T>, r: Reader,
    written: seq<T>, read: seq<T>, acked: nat, faulted: bool)

  datatype Event<T> =
    | LockOut(p: nat, v: T)
    | Write(pick: nat)
    | WriteReturn
    | LockIn(q: nat)
    | Read(pick: nat)
    | ReadReturn(pick: nat)
    | PoisonIt(k: nat, byWriter: bool)
    | Enable
    | Disable

  function Init<T>(order: ReadOrder): State<T> {
    State(order, Fresh(), IDLE, NoWriter, NoReader, [], [], 0, false)
  }

  function DoWrite<T>(s: State<T>, pick: nat): Option<State<T>>
    requires s.w.HoldsOut?
  {
    var e := WriteEntry(s.f, s.w.v);
    if e.outcome.Throws? then Some(s.(w := NoWriter))
    else if !MayPick(s.cond, e.notify, pick) then None
    else Some(s.(f := e.fields, cond := Block(Signal(s.cond, e.notify, pick), s.w.p),
                 w := InWrite(s.w.p, s.w.v), written := s.written + [s.w.v]))
  }

  function DoWriteReturn<T>(s: State<T>): Option<State<T>>
    requires s.w.InWrite? && s.w.p in s.cond.woken
  {
    Some(s.(w := NoWriter, cond := Resume(s.cond, s.w.p),
            acked := if WriteResume(s.f).outcome.Returns? then s.acked + 1 else s.acked))
  }

  /** The reader leaves `read` with section `e`. */
  function LeaveRead<T>(s: State<T>, c: Cond, e: Section<T>, pick: nat): Option<State<T>> {
    if e.outcome.Faults? then Some(s.(faulted := true))
    else if !MayPick(c, e.notify, pick) then None
    else Some(s.(f := e.fields, cond := Signal(c, e.notify, pick), r := NoReader,
                 read := if e.outcome.Got? then s.read + [e.outcome.value] else s.read))
  }

  function DoRead<T>(s: State<T>, pick: nat): Option<State<T>>
    requires s.r.HoldsIn?
  {
    var e := ReadEntry(s.order, s.f);
    if e.outcome.Waits? then
      Some(s.(f := e.fields, cond := Block(s.cond, s.r.q), r := InRead(s.r.q)))
    else LeaveRead(s, s.cond, e, pick)
  }

  function DoReadReturn<T>(s: State<T>, pick: nat): Option<State<T>>
    requires s.r.InRead? && s.r.q in s.cond.woken
  {
    LeaveRead(s, Resume(s.cond, s.r.q), TakeHeld(s.order, s.f), pick)
  }

  function DoPoison<T>(s: State<T>, k: nat, byWriter: bool): State<T> {
    var e := Poison(s.f, k, byWriter);
    s.(f := e.fields, cond := Signal(s.cond, e.notify, 0))
  }

  /** Whoever poisons uses an end: the user of an unshared end is not inside an operation, and
      a shared one takes the end's mutex first (chan.h:468-473 and 900-905). */
  predicate MayPoison<T>(s: State<T>, byWriter: bool) { if byWriter then s.w.NoWriter? else s.r.NoReader? }

  /** Poison has a positive strength here; what `poison(0)` does is `ZeroPoison` below. */
  function Step<T>(s: State<T>, e: Event<T>): Option<State<T>> {
    if s.faulted then None
    else
      match e
      case LockOut(p, v) =>
        if s.w.NoWriter? && (s.r.NoReader? || s.r.q != p) then Some(s.(w := HoldsOut(p, v))) else None
      case Write(pick) => if s.w.HoldsOut? then DoWrite(s, pick) else None
      case WriteReturn => if s.w.InWrite? && s.w.p in s.cond.woken then DoWriteReturn(s) else None
      case LockIn(q) =>
        if s.r.NoReader? && (s.w.NoWriter? || s.w.p != q) then Some(s.(r := HoldsIn(q))) else None
      case Read(pick) => if s.r.HoldsIn? then DoRead(s, pick) else None
      case ReadReturn(pick) => if s.r.InRead? && s.r.q in s.cond.woken then DoReadReturn(s, pick) else None
      case PoisonIt(k, byWriter) =>
        if k > 0 && MayPoison(s, byWriter) then Some(DoPoison(s, k, byWriter)) else None
      case Enable => if s.r.NoReader? then Some(s.(f := Enabled(s.f).0)) else None
      case Disable => if s.r.NoReader? then Some(s.(f := Disabled(s.f).0)) else None
  }

  // ---------- the invariant ----------

  function WriterSet<T>(w: Writer<T>): set<nat> { if w.InWrite? then {w.p} else {} }
  function ReaderSet(r: Reader): set<nat> { if r.InRead? then {r.q} else {} }

  ghost predicate Apart<T>(s: State<T>) {
    s.w.NoWriter? || s.r.NoReader? || s.w.p != s.r.q
  }

  /** Nobody blocked: at most a writer whose value was taken and who has yet to resume. */
  ghost predicate Free<T>(s: State<T>) {
    && s.f.hold == [] && s.f.empty && !s.r.InRead?
    && s.cond == Cond({}, WriterSet(s.w))
    && s.written == s.read
    && (s.w.InWrite? ==> s.written != [] && s.written[|s.written| - 1] == s.w.v)
  }

  ghost predicate WriterWaits<T>(s: State<T>) {
    && s.w.InWrite? && !s.r.InRead?
    && s.f.hold == [s.w.v] && !s.f.empty
    && s.cond == Cond({s.w.p}, {})
    && s.written == s.read + [s.w.v]
  }

  ghost predicate ReaderWaits<T>(s: State<T>) {
    && s.f.hold == [] && !s.f.empty && s.r.InRead?
    && s.cond == Cond({s.r.q}, WriterSet(s.w))
    && s.written == s.read
    && (s.w.InWrite? ==> s.written != [] && s.written[|s.written| - 1] == s.w.v)
  }

  /** The writer found a blocked reader: the value is in the hold, the reader notified. */
  ghost predicate HandedOver<T>(s: State<T>) {
    && s.w.InWrite? && s.r.InRead?
    && s.f.hold == [s.w.v] && s.f.empty
    && s.cond == Cond({s.w.p}, {s.r.q})
    && s.written == s.read + [s.w.v]
  }

  /** After poison everybody inside has been notified. */
  ghost predicate Dying<T>(s: State<T>) {
    && s.f.strength > 0
    && s.cond == Cond({}, WriterSet(s.w) + ReaderSet(s.r))
    && |s.f.hold| <= 1
    && s.read <= s.written && |s.written| <= |s.read| + 1
    && (s.f.hold != [] ==> |s.written| == |s.read| + 1 && s.f.hold == [s.written[|s.written| - 1]])
    && (s.r.InRead? && s.f.hold != [] ==> s.f.empty)
    && (s.w.InWrite? && !s.f.empty && s.f.hold != [] ==> s.f.hold == [s.w.v])
  }

  ghost predicate Alive<T>(s: State<T>) {
    && s.f.strength == 0
    && s.acked + |WriterSet(s.w)| == |s.written|
    && (Free(s) || WriterWaits(s) || ReaderWaits(s) || HandedOver(s))
  }

  ghost predicate Inv<T>(s: State<T>) {
    && Apart(s)
    && s.acked <= |s.read|
    && (Alive(s) || Dying(s))
  }

  lemma EarlyWriteKeeps<T>(s: State<T>, pick: nat)
    requires Apart(s) && s.acked <= |s.read| && Alive(s) && Free(s) && s.w.HoldsOut? && DoWrite(s, pick).Some?
    ensures Inv(DoWrite(s, pick).value)
  {
    assert WriterWaits(DoWrite(s, pick).value);
  }

  lemma LateWriteKeeps<T>(s: State<T>, pick: nat)
    requires Apart(s) && s.acked <= |s.read| && Alive(s) && ReaderWaits(s) && s.w.HoldsOut? && DoWrite(s, pick).Some?
    ensures Inv(DoWrite(s, pick).value)
  {
    assert HandedOver(DoWrite(s, pick).value);
  }

  lemma WriteKeeps<T>(s: State<T>, pick: nat)
    requires Inv(s) && s.w.HoldsOut? && DoWrite(s, pick).Some?
    ensures Inv(DoWrite(s, pick).value)
  {
    if s.f.strength > 0 {
      assert Dying(DoWrite(s, pick).value);
    } else if s.f.empty {
      EarlyWriteKeeps(s, pick);
    } else {
      LateWriteKeeps(s, pick);
    }
  }

  lemma WriteReturnKeeps<T>(s: State<T>)
    requires Inv(s) && s.w.InWrite? && s.w.p in s.cond.woken
    ensures Inv(DoWriteReturn(s).value)
  {
    var t := DoWriteReturn(s).value;
    if s.f.strength == 0 {
      assert Free(t) || ReaderWaits(t);
    } else {
      assert Dying(t);
    }
  }

  lemma EarlyReadKeeps<T>(s: State<T>, pick: nat)
    requires Apart(s) && s.acked <= |s.read| && Alive(s) && Free(s) && s.r.HoldsIn? && DoRead(s, pick).Some?
    ensures Inv(DoRead(s, pick).value)
  {
    assert ReaderWaits(DoRead(s, pick).value);
  }

  lemma LateReadKeeps<T>(s: State<T>, pick: nat)
    requires Apart(s) && s.acked <= |s.read| && Alive(s) && WriterWaits(s) && s.r.HoldsIn? && DoRead(s, pick).Some?
    ensures Inv(DoRead(s, pick).value)
  {
    assert Free(DoRead(s, pick).value);
  }

  lemma ReadKeeps<T>(s: State<T>, pick: nat)
    requires Inv(s) && s.r.HoldsIn? && DoRead(s, pick).Some?
    ensures Inv(DoRead(s, pick).value)
  {
    if s.f.strength > 0 {
      assert Dying(DoRead(s, pick).value);
    } else if s.f.empty {
      EarlyReadKeeps(s, pick);
    } else {
      LateReadKeeps(s, pick);
    }
  }

  lemma HandOverEnds<T>(s: State<T>, pick: nat)
    requires Apart(s) && s.acked <= |s.read| && Alive(s) && HandedOver(s) && DoReadReturn(s, pick).Some?
    ensures Inv(DoReadReturn(s, pick).value)
  {
    assert Free(DoReadReturn(s, pick).value);
  }

  lemma DyingReaderLeaves<T>(s: State<T>, pick: nat)
    requires Dying(s) && Apart(s) && s.acked <= |s.read| && s.r.InRead? && DoReadReturn(s, pick).Some?
    ensures Inv(DoReadReturn(s, pick).value)
  {
    var t := DoReadReturn(s, pick).value;
    if !t.faulted {
      assert t.cond.woken == WriterSet(t.w);
      assert Dying(t);
    }
  }

  lemma ReadReturnKeeps<T>(s: State<T>, pick: nat)
    requires Inv(s) && s.r.InRead? && s.r.q in s.cond.woken && DoReadReturn(s, pick).Some?
    ensures Inv(DoReadReturn(s, pick).value)
  {
    if s.f.strength == 0 {
      HandOverEnds(s, pick);
    } else {
      DyingReaderLeaves(s, pick);
    }
  }

  lemma PoisonKeeps<T>(s: State<T>, k: nat, byWriter: bool)
    requires Inv(s) && k > 0
    ensures Inv(DoPoison(s, k, byWriter)) && DoPoison(s, k, byWriter).f.strength > 0
  {
    var t := DoPoison(s, k, byWriter);
    assert t.cond.woken == WriterSet(t.w) + ReaderSet(t.r);
    assert Dying(t);
  }

  lemma StepKeepsInv<T>(s: State<T>, e: Event<T>)
    requires Inv(s) && Step(s, e).Some?
    ensures Inv(Step(s, e).value)
  {
    match e
    case Write(pick) => WriteKeeps(s, pick);
    case WriteReturn => WriteReturnKeeps(s);
    case Read(pick) => ReadKeeps(s, pick);
    case ReadReturn(pick) => ReadReturnKeeps(s, pick);
    case PoisonIt(k, byWriter) => PoisonKeeps(s, k, byWriter);
    case _ =>
  }

  lemma RunKeepsInv<T(!new)>(order: ReadOrder, es: seq<Event<T>>)
    requires Run(Step<T>, Init(order), es).Some?
    ensures Inv(Run(Step<T>, Init(order), es).value)
  {
    forall s: State<T>, e: Event<T> | Inv(s) && Step(s, e).Some? ensures Inv(Step(s, e).value) {
      StepKeepsInv(s, e);
    }
    Invariance(Step<T>, Inv<T>, Init(order), es);
  }

  // ---------- what the users of the channel get ----------

  /** Values arrive in the order written with at most one in flight, one process at most
      is blocked (so `notify_one` cannot hit the wrong one), and a writer and a reader
      that are both inside are never both asleep. */
  lemma Delivery<T(!new)>(order: ReadOrder, es: seq<Event<T>>)
    requires Run(Step<T>, Init(order), es).Some?
    ensures var s := Run(Step<T>, Init(order), es).value;
      && |s.f.hold| <= 1
      && |s.cond.waiting| <= 1
      && s.read <= s.written && |s.written| <= |s.read| + 1
      && (s.f.strength == 0 ==> s.written == s.read + s.f.hold)
      && s.acked <= |s.read|
      && (s.w.InWrite? && s.r.InRead? ==> s.cond.woken != {})
  {
    RunKeepsInv(order, es);
    var s := Run(Step<T>, Init(order), es).value;
    if s.f.strength > 0 && s.w.InWrite? {
      assert s.w.p in s.cond.woken;
    }
  }

  lemma WokenWriterWasRead<T>(s: State<T>)
    requires Inv(s) && s.w.InWrite? && s.w.p in s.cond.woken && s.f.strength == 0
    ensures s.read == s.written && s.read != [] && s.read[|s.read| - 1] == s.w.v && s.acked + 1 == |s.read|
  {
    assert Free(s) || ReaderWaits(s);
  }

  /** A `write` that returns normally is returning after its own value, the last one
      written, was read. */
  lemma WriteReturnsAfterRead<T(!new)>(order: ReadOrder, es: seq<Event<T>>)
    requires var o := Run(Step<T>, Init(order), es);
      o.Some? && o.value.w.InWrite? && o.value.w.p in o.value.cond.woken && o.value.f.strength == 0
    ensures var s := Run(Step<T>, Init(order), es).value;
      && s.read == s.written && s.read != [] && s.read[|s.read| - 1] == s.w.v
      && Step(s, WriteReturn).Some? && Step(s, WriteReturn).value.acked == |s.read|
  {
    RunKeepsInv(order, es);
    WokenWriterWasRead(Run(Step<T>, Init(order), es).value);
  }

  // ---------- refinement of the rendezvous ----------

  /** The value in the hold is still on offer: a writer put it there and no reader has
      arrived.  When a blocked reader was notified instead, `_empty` is true again. */
  predicate OnOffer<T>(s: State<T>) { s.f.hold != [] && !s.f.empty }

  function Abstract<T>(s: State<T>): Rendezvous.State<T>
    requires |s.written| > 0 || s.f.hold == []
  {
    Rendezvous.State(
      if !s.w.InWrite? then Rendezvous.WriterOut
      else if OnOffer(s) then Rendezvous.Offering(s.w.p, s.w.v)
      else Rendezvous.Delivered(s.w.p, s.w.v),
      if !s.r.InRead? then Rendezvous.ReaderOut
      else if s.f.hold != [] then Rendezvous.Given(s.r.q, s.f.hold[0])
      else Rendezvous.Wanting(s.r.q),
      if OnOffer(s) then s.written[..|s.written| - 1] else s.written,
      s.read,
      s.f.strength > 0)
  }

  /** The meeting steps that one critical section performs. */
  function Meaning<T>(s: State<T>, e: Event<T>): seq<Rendezvous.Event<T>> {
    match e
    case Write(_) =>
      if !s.w.HoldsOut? || s.f.strength > 0 then []
      else [Rendezvous.Offer(s.w.p, s.w.v)] + if s.f.empty then [] else [Rendezvous.Communicate]
    case Read(_) =>
      if !s.r.HoldsIn? || s.f.strength > 0 then []
      else [Rendezvous.Want(s.r.q)] +
           if s.f.empty then [] else [Rendezvous.Communicate, Rendezvous.ReaderLeaves]
    case WriteReturn => [if s.f.strength > 0 then Rendezvous.WriterAborts else Rendezvous.WriterLeaves]
    case ReadReturn(_) => [if s.f.strength > 0 then Rendezvous.ReaderAborts else Rendezvous.ReaderLeaves]
    case PoisonIt(_, _) => if s.f.strength > 0 then [] else [Rendezvous.BecomePoisoned]
    case _ => []
  }

  function Then<T>(s: Rendezvous.State<T>, es: seq<Rendezvous.Event<T>>): Option<Rendezvous.State<T>> {
    Run(Rendezvous.Step<T>, s, es)
  }

  lemma SimulatesEarlyWrite<T>(s: State<T>, pick: nat)
    requires Inv(s) && Step(s, Write(pick)).Some? && s.f.strength == 0 && s.f.empty
    ensures Then(Abstract(s), Meaning(s, Write(pick))) == Some(Abstract(Step(s, Write(pick)).value))
  {
    var t := Step(s, Write(pick)).value;
    assert Free(s) && WriterWaits(t);
    assert Abstract(t).sent == Abstract(s).sent;
    Few(Rendezvous.Step<T>, Abstract(s), Meaning(s, Write(pick)));
  }

  lemma SimulatesLateWrite<T>(s: State<T>, pick: nat)
    requires Inv(s) && Step(s, Write(pick)).Some? && s.f.strength == 0 && !s.f.empty
    ensures Then(Abstract(s), Meaning(s, Write(pick))) == Some(Abstract(Step(s, Write(pick)).value))
  {
    var t := Step(s, Write(pick)).value;
    assert ReaderWaits(s) && HandedOver(t);
    assert Abstract(t).w == Rendezvous.Delivered(s.w.p, s.w.v) && Abstract(t).r == Rendezvous.Given(s.r.q, s.w.v);
    Few(Rendezvous.Step<T>, Abstract(s), Meaning(s, Write(pick)));
  }

  lemma SimulatesWrite<T>(s: State<T>, pick: nat)
    requires Inv(s) && Step(s, Write(pick)).Some?
    ensures Then(Abstract(s), Meaning(s, Write(pick))) == Some(Abstract(Step(s, Write(pick)).value))
  {
    if s.f.strength == 0 {
      if s.f.empty {
        SimulatesEarlyWrite(s, pick);
      } else {
        SimulatesLateWrite(s, pick);
      }
    }
  }

  lemma SimulatesEarlyRead<T>(s: State<T>, pick: nat)
    requires Inv(s) && Step(s, Read(pick)).Some? && s.f.strength == 0 && s.f.empty
    ensures Then(Abstract(s), Meaning(s, Read(pick))) == Some(Abstract(Step(s, Read(pick)).value))
  {
    Few(Rendezvous.Step<T>, Abstract(s), Meaning(s, Read(pick)));
    assert Free(s) && ReaderWaits(Step(s, Read(pick)).value);
  }

  lemma SimulatesLateRead<T>(s: State<T>, pick: nat)
    requires Inv(s) && Step(s, Read(pick)).Some? && s.f.strength == 0 && !s.f.empty
    ensures Then(Abstract(s), Meaning(s, Read(pick))) == Some(Abstract(Step(s, Read(pick)).value))
  {
    var t := Step(s, Read(pick)).value;
    assert WriterWaits(s) && Free(t);
    assert Abstract(s).sent == s.read && t.read == s.read + [s.w.v];
    Few(Rendezvous.Step<T>, Abstract(s), Meaning(s, Read(pick)));
  }

  lemma SimulatesRead<T>(s: State<T>, pick: nat)
    requires Inv(s) && Step(s, Read(pick)).Some? && !Step(s, Read(pick)).value.faulted
    ensures Then(Abstract(s), Meaning(s, Read(pick))) == Some(Abstract(Step(s, Read(pick)).value))
  {
    if s.f.strength == 0 {
      if s.f.empty {
        SimulatesEarlyRead(s, pick);
      } else {
        SimulatesLateRead(s, pick);
      }
    }
  }

  lemma SimulatesWriteReturn<T>(s: State<T>)
    requires Inv(s) && Step(s, WriteReturn).Some?
    ensures Then(Abstract(s), Meaning(s, WriteReturn)) == Some(Abstract(Step(s, WriteReturn).value))
  {
    Few(Rendezvous.Step<T>, Abstract(s), Meaning(s, WriteReturn));
    if s.f.strength == 0 {
      assert Free(s) || ReaderWaits(s);
    }
  }

  lemma SimulatesHandOver<T>(s: State<T>, pick: nat)
    requires Inv(s) && Step(s, ReadReturn(pick)).Some? && s.f.strength == 0
    ensures Then(Abstract(s), Meaning(s, ReadReturn(pick))) == Some(Abstract(Step(s, ReadReturn(pick)).value))
  {
    assert HandedOver(s) && Free(Step(s, ReadReturn(pick)).value);
    Few(Rendezvous.Step<T>, Abstract(s), Meaning(s, ReadReturn(pick)));
  }

  lemma SimulatesReadReturn<T>(s: State<T>, pick: nat)
    requires Inv(s) && Step(s, ReadReturn(pick)).Some? && !Step(s, ReadReturn(pick)).value.faulted
    ensures Then(Abstract(s), Meaning(s, ReadReturn(pick))) == Some(Abstract(Step(s, ReadReturn(pick)).value))
  {
    if s.f.strength == 0 {
      SimulatesHandOver(s, pick);
    } else {
      Few(Rendezvous.Step<T>, Abstract(s), Meaning(s, ReadReturn(pick)));
    }
  }

  lemma PoisonedMeans<T>(s: State<T>, k: nat, byWriter: bool)
    requires Inv(s) && k > 0
    ensures Abstract(DoPoison(s, k, byWriter)) == Abstract(s).(poisoned := true)
  {
  }

  lemma SimulatesPoison<T>(s: State<T>, k: nat, byWriter: bool)
    requires Inv(s) && k > 0
    ensures Then(Abstract(s), Meaning(s, PoisonIt(k, byWriter))) == Some(Abstract(DoPoison(s, k, byWriter)))
  {
    PoisonedMeans(s, k, byWriter);
    if s.f.strength == 0 {
      Few(Rendezvous.Step<T>, Abstract(s), [Rendezvous.BecomePoisoned]);
    }
  }

  /** One critical section is that much of a rendezvous and nothing else. */
  lemma Simulation<T>(s: State<T>, e: Event<T>)
    requires Inv(s) && Step(s, e).Some? && !Step(s, e).value.faulted
    ensures Inv(Step(s, e).value)
    ensures Then(Abstract(s), Meaning(s, e)) == Some(Abstract(Step(s, e).value))
  {
    StepKeepsInv(s, e);
    match e
    case Write(pick) => SimulatesWrite(s, pick);
    case Read(pick) => SimulatesRead(s, pick);
    case LockOut(_, _) =>
    case LockIn(_) =>
    case Enable =>
    case Disable =>
    case WriteReturn => SimulatesWriteReturn(s);
    case ReadReturn(pick) => SimulatesReadReturn(s, pick);
    case PoisonIt(k, byWriter) => SimulatesPoison(s, k, byWriter);
  }

  function Meanings<T>(s: State<T>, es: seq<Event<T>>): seq<Rendezvous.Event<T>>
    decreases |es|
  {
    if es == [] then []
    else
      var before := es[..|es| - 1];
      Meanings(s, before) +
      match Run(Step<T>, s, before)
      case None => []
      case Some(t) => Meaning(t, es[|es| - 1])
  }

  /** Every run of the implementation that does not fault is a run of the rendezvous. */
  lemma {:induction false} Refines<T(!new)>(order: ReadOrder, es: seq<Event<T>>)
    requires var o := Run(Step<T>, Init(order), es); o.Some? && !o.value.faulted
    ensures Inv(Run(Step<T>, Init(order), es).value)
    ensures Then(Rendezvous.Init(), Meanings(Init(order), es))
         == Some(Abstract(Run(Step<T>, Init(order), es).value))
    decreases |es|
  {
    RunKeepsInv(order, es);
    if es != [] {
      var before, last := es[..|es| - 1], es[|es| - 1];
      Refines(order, before);
      var t := Run(Step<T>, Init(order), before).value;
      Simulation(t, last);
      Append(Rendezvous.Step<T>, Rendezvous.Init(), Meanings(Init(order), before), Meaning(t, last));
    }
  }

  // ---------- poison ----------

  /** Poison is final: everybody inside is released and nothing is transferred afterwards.  This
      is about the monitor; what the channel ends make of its exception is in ChannelEnds. */
  lemma PoisonIsFinal<T>(s: State<T>, e: Event<T>)
    requires Inv(s) && s.f.strength > 0
    ensures s.cond.waiting == {}
    ensures s.w.InWrite? && !s.faulted ==> Step(s, WriteReturn).Some?
    ensures s.r.InRead? && !s.faulted ==> Step(s, ReadReturn(0)).Some?
    ensures Step(s, e).Some? ==>
      var t := Step(s, e).value;
      t.f.strength > 0 && t.read == s.read && t.written == s.written && t.acked == s.acked
  {
  }

  lemma {:induction false} PoisonIsFinalForRuns<T(!new)>(s: State<T>, es: seq<Event<T>>)
    requires Inv(s) && s.f.strength > 0 && Run(Step<T>, s, es).Some?
    ensures var t := Run(Step<T>, s, es).value;
      Inv(t) && t.f.strength > 0 && t.read == s.read && t.written == s.written && t.acked == s.acked
    decreases |es|
  {
    if es != [] {
      PoisonIsFinalForRuns(s, es[..|es| - 1]);
      var t := Run(Step<T>, s, es[..|es| - 1]).value;
      PoisonIsFinal(t, es[|es| - 1]);
      StepKeepsInv(t, es[|es| - 1]);
    }
  }

  ghost predicate CanFault<T(!new)>(s: State<T>) {
    exists es: seq<Event<T>> :: Run(Step<T>, s, es).Some? && Run(Step<T>, s, es).value.faulted
  }

  /** A reader inside `read` will find a value. */
  ghost predicate ReaderIsServed<T>(s: State<T>) { s.r.InRead? ==> s.f.hold != [] }

  lemma ServedReaderDoesNotFault<T>(s: State<T>, e: Event<T>)
    requires Inv(s) && s.f.strength > 0 && !s.faulted && (ReaderIsServed(s) || s.order.PoisonFirst?) && Step(s, e).Some?
    ensures var t := Step(s, e).value; !t.faulted && t.order == s.order && (ReaderIsServed(t) || t.order.PoisonFirst?)
  {
  }

  lemma {:induction false} ServedReadersDoNotFault<T(!new)>(s: State<T>, es: seq<Event<T>>)
    requires Inv(s) && s.f.strength > 0 && !s.faulted && Run(Step<T>, s, es).Some?
    requires ReaderIsServed(s) || s.order.PoisonFirst?
    ensures var t := Run(Step<T>, s, es).value;
      !t.faulted && t.order == s.order && (ReaderIsServed(t) || t.order.PoisonFirst?)
    decreases |es|
  {
    if es != [] {
      ServedReadersDoNotFault(s, es[..|es| - 1]);
      PoisonIsFinalForRuns(s, es[..|es| - 1]);
      ServedReaderDoesNotFault(Run(Step<T>, s, es[..|es| - 1]).value, es[|es| - 1]);
    }
  }

  /** Poisoning a live channel can lead to `_hold[0]` of an empty vector exactly when, in
      the order the code has, a reader is blocked in `read` at that moment.  It is then the
      writing end that poisons: a reader's poison never does that. */
  lemma PoisonFaultsExactlyWhen<T(!new)>(s: State<T>, k: nat, byWriter: bool)
    requires Inv(s) && s.f.strength == 0 && !s.faulted && k > 0 && MayPoison(s, byWriter)
    ensures CanFault(DoPoison(s, k, byWriter))
       <==> byWriter && s.order.AsWritten? && s.r.InRead? && s.r.q in s.cond.waiting
  {
    PoisonKeeps(s, k, byWriter);
    var d := DoPoison(s, k, byWriter);
    if s.order.AsWritten? && s.r.InRead? && s.r.q in s.cond.waiting {
      assert ReaderWaits(s);
      var es: seq<Event<T>> := [ReadReturn(0)];
      assert es[..0] == [];
      assert Run(Step<T>, d, es) == Step(d, ReadReturn(0));
    } else {
      forall es: seq<Event<T>> | Run(Step<T>, d, es).Some? ensures !Run(Step<T>, d, es).value.faulted {
        ServedReadersDoNotFault(d, es);
      }
    }
  }

  /** Without poison nothing ever faults. */
  lemma LiveChannelsDoNotFault<T>(s: State<T>, e: Event<T>)
    requires Inv(s) && s.f.strength == 0 && !s.faulted && Step(s, e).Some?
    ensures !Step(s, e).value.faulted
  {
  }

  /** A write was acknowledged whose value nobody read, or a reader faulted without poison. */
  predicate Broken<T>(s: State<T>) { s.acked > |s.read| || (s.faulted && s.f.strength == 0) }

  ghost predicate CanBreak<T(!new)>(s: State<T>) {
    exists es: seq<Event<T>> :: Run(Step<T>, s, es).Some? && Broken(Run(Step<T>, s, es).value)
  }

  lemma {:induction false} IntactStaysIntact<T(!new)>(s: State<T>, es: seq<Event<T>>)
    requires Inv(s) && !Broken(s) && !s.faulted && Run(Step<T>, s, es).Some?
    ensures Inv(Run(Step<T>, s, es).value) && !Broken(Run(Step<T>, s, es).value)
    decreases |es|
  {
    if es != [] {
      var before, last := es[..|es| - 1], es[|es| - 1];
      IntactStaysIntact(s, before);
      var t := Run(Step<T>, s, before).value;
      StepKeepsInv(t, last);
      if t.f.strength == 0 {
        LiveChannelsDoNotFault(t, last);
      } else {
        PoisonIsFinal(t, last);
      }
    }
  }

  lemma ZeroPoisonFreesAWriter<T(!new)>(s: State<T>, byWriter: bool)
    requires Inv(s) && s.f.strength == 0 && !s.faulted && s.w.InWrite? && s.w.p in s.cond.waiting
    ensures var d := DoPoison(s, 0, byWriter);
      Step(d, WriteReturn).Some? && Step(d, WriteReturn).value.acked > |Step(d, WriteReturn).value.read|
    ensures CanBreak(DoPoison(s, 0, byWriter))
  {
    assert WriterWaits(s) || HandedOver(s);
    var d, es: seq<Event<T>> := DoPoison(s, 0, byWriter), [WriteReturn];
    Few(Step<T>, d, es);
    assert Broken(Run(Step<T>, d, es).value);
  }

  lemma ZeroPoisonFreesAReader<T(!new)>(s: State<T>, byWriter: bool)
    requires Inv(s) && s.f.strength == 0 && !s.faulted && s.r.InRead? && s.r.q in s.cond.waiting
    ensures var d := DoPoison(s, 0, byWriter);
      Step(d, ReadReturn(0)).Some? && Step(d, ReadReturn(0)).value.faulted
    ensures CanBreak(DoPoison(s, 0, byWriter))
  {
    assert ReaderWaits(s);
    var d, es: seq<Event<T>> := DoPoison(s, 0, byWriter), [ReadReturn(0)];
    Few(Step<T>, d, es);
    assert Broken(Run(Step<T>, d, es).value);
  }

  /** `poison(0)` does not poison but still notifies everybody.  Some continuation then
      acknowledges more writes than were read, or faults without poison, exactly when somebody
      is blocked: a blocked writer returns as if its value had been read, a blocked reader
      faults in either order. */
  lemma ZeroPoison<T(!new)>(s: State<T>, byWriter: bool)
    requires Inv(s) && s.f.strength == 0 && !s.faulted
    ensures var d := DoPoison(s, 0, byWriter);
      && (CanBreak(d) <==> s.cond.waiting != {})
      && (s.w.InWrite? && s.w.p in s.cond.waiting ==>
            Step(d, WriteReturn).Some? && Step(d, WriteReturn).value.acked > |Step(d, WriteReturn).value.read|)
      && (s.r.InRead? && s.r.q in s.cond.waiting ==>
            Step(d, ReadReturn(0)).Some? && Step(d, ReadReturn(0)).value.faulted)
  {
    if s.w.InWrite? && s.w.p in s.cond.waiting {
      ZeroPoisonFreesAWriter(s, byWriter);
    } else if s.r.InRead? && s.r.q in s.cond.waiting {
      ZeroPoisonFreesAReader(s, byWriter);
    } else {
      assert Free(s) && DoPoison(s, 0, byWriter) == s;
      forall es: seq<Event<T>> | Run(Step<T>, s, es).Some? ensures !Broken(Run(Step<T>, s, es).value) {
        IntactStaysIntact(s, es);
      }
    }
  }

  /** From the start: a reader blocked when the writing end poisons the channel faults. */
  lemma PoisonedReaderFaults<T(!new)>()
    ensures var s := Run(Step<T>, Init(AsWritten), [LockIn(0), Read(0), PoisonIt(1, true)]);
      s.Some? && Step(s.value, ReadReturn(0)).Some? && Step(s.value, ReadReturn(0)).value.faulted
  {
    Few(Step<T>, Init(AsWritten), [LockIn(0), Read(0), PoisonIt(1, true)]);
  }

  /** And with poison of strength 0 in either order. */
  lemma ZeroPoisonedReaderFaults<T(!new)>(order: ReadOrder)
    ensures var s := Run(Step<T>, Init(order), [LockIn(0), Read(0)]);
      s.Some? && MayPoison(s.value, true) && var d := DoPoison(s.value, 0, true);
      Step(d, ReadReturn(0)).Some? && Step(d, ReadReturn(0)).value.faulted
  {
    Few(Step<T>, Init(order), [LockIn(0), Read(0)]);
  }

  /** A writer blocked when the reading end does that returns although nobody has read its
      value. */
  lemma ZeroPoisonedWriterReturns<T(!new)>(order: ReadOrder, v: T)
    ensures var s := Run(Step<T>, Init(order), [LockOut(0, v), Write(0)]);
      s.Some? && MayPoison(s.value, false) && var d := DoPoison(s.value, 0, false);
      Step(d, WriteReturn).Some? && Step(d, WriteReturn).value.acked == 1 && Step(d, WriteReturn).value.read == []
  {
    Few(Step<T>, Init(order), [LockOut(0, v), Write(0)]);
  }
}
