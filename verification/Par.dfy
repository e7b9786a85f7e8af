/** Running processes in parallel on reused threads (csp/par.h).

    `n` processes run on `n - 1` worker threads and the thread that calls `run`.  A
    completion barrier of all `n` ends a run; a two-party park barrier per worker holds it
    between runs.  The processes themselves are taken to terminate, and `run` and the
    destructor to be serialised by `_mut`. */
module Par {
  import opened Runs
  import opened Condvar
  import Barrier
  import opened Sets
  import opened Sums

  datatype Monitor = Monitor(f: Barrier.Fields, cond: Cond)

  datatype Worker = NotStarted | AtLoop | Running | AtBar | InBar | AtPark | InPark | Ended

  datatype Main =
    | Idle
    | Starting(i: nat)
    | Releasing(i: nat)
    | InRelease(i: nat)
    | OwnProcess
    | MainAtBar
    | MainInBar
    | Terminating(i: nat)
    | InTerminate(i: nat)
    | Joining(i: nat)
    | Gone

  /** `begun` and `returned` count the calls of `run`, `done[p]` the completions of process
      `p`; the last process belongs to the main thread. */
  datatype State = State(
    n: nat, main: Main, workers: seq<Worker>, running: seq<bool>,
    bar: Monitor, parks: seq<Monitor>, changed: bool,
    begun: nat, returned: nat, done: seq<nat>)

  datatype Event =
    | RunBegin
    | Destroy
    | MainStep
    | MainReturn
    | WorkerStep(i: nat)
    | WorkerReturn(i: nat)

  predicate Shape(s: State) {
    && 1 <= s.n < Barrier.WORD
    && |s.workers| == |s.running| == |s.parks| == s.n - 1 && |s.done| == s.n
  }

  function Init(n: nat): State
    requires n >= 1
  {
    State(n, Idle, seq(n - 1, _ => NotStarted), seq(n - 1, _ => true),
          Monitor(Barrier.ResetTo(0), IDLE), seq(n - 1, _ => Monitor(Barrier.ResetTo(2), IDLE)),
          true, 0, 0, seq(n, _ => 0))
  }

  /** Process `p` calls `sync`; the flag says whether it blocks. */
  function Sync(m: Monitor, p: nat): (Monitor, bool) {
    var (f, waits) := Barrier.SyncEntry(m.f);
    if waits then (Monitor(f, Block(m.cond, p)), true)
    else (Monitor(f, Signal(m.cond, Barrier.Announced(true), 0)), false)
  }

  function Leave(m: Monitor, p: nat): Monitor { m.(cond := Resume(m.cond, p)) }

  /** The start of `run` (par.h:225-270).  The first call finds no threads and creates
      them but leaves `_process_changed` set, so the second resets everything again. */
  function DoRunBegin(s: State): State
    requires Shape(s)
  {
    var t := s.(begun := s.begun + 1);
    if s.changed then
      var u := t.(bar := s.bar.(f := Barrier.ResetTo(s.n)));
      if s.begun == 0 && s.n > 1 then u.(main := Starting(0))
      else u.(main := Releasing(0), running := seq(s.n - 1, _ => true))
    else t.(main := Releasing(0))
  }

  function DoMainStep(s: State): Option<State>
    requires Shape(s)
  {
    var me := s.n - 1;
    match s.main
    case Starting(i) =>
      if i >= s.n - 1 then Some(s.(main := OwnProcess))
      else Some(s.(main := Starting(i + 1), workers := s.workers[i := AtLoop]))
    case Releasing(i) =>
      if i >= s.n - 1 then Some(s.(main := OwnProcess, changed := false))
      else
        var (m, waits) := Sync(s.parks[i], me);
        Some(s.(parks := s.parks[i := m], main := if waits then InRelease(i) else Releasing(i + 1)))
    case OwnProcess => Some(s.(main := MainAtBar, done := s.done[me := s.done[me] + 1]))
    case MainAtBar =>
      var (m, waits) := Sync(s.bar, me);
      if waits then Some(s.(bar := m, main := MainInBar))
      else Some(s.(bar := m, main := Idle, returned := s.returned + 1))
    case Terminating(i) =>
      if i >= s.n - 1 || s.begun == 0 then Some(s.(main := Gone))
      else
        var (m, waits) := Sync(s.parks[i], me);
        Some(s.(running := s.running[i := false], parks := s.parks[i := m],
                main := if waits then InTerminate(i) else Joining(i)))
    case Joining(i) =>
      if i < s.n - 1 && s.workers[i].Ended? then Some(s.(main := Terminating(i + 1))) else None
    case _ => None
  }

  function DoMainReturn(s: State): Option<State>
    requires Shape(s)
  {
    var me := s.n - 1;
    match s.main
    case InRelease(i) =>
      if i < s.n - 1 && me in s.parks[i].cond.woken then
        Some(s.(parks := s.parks[i := Leave(s.parks[i], me)], main := Releasing(i + 1)))
      else None
    case MainInBar =>
      if me in s.bar.cond.woken then
        Some(s.(bar := Leave(s.bar, me), main := Idle, returned := s.returned + 1))
      else None
    case InTerminate(i) =>
      if i < s.n - 1 && me in s.parks[i].cond.woken then
        Some(s.(parks := s.parks[i := Leave(s.parks[i], me)], main := Joining(i)))
      else None
    case _ => None
  }

  function DoWorkerStep(s: State, i: nat): Option<State>
    requires Shape(s) && i < s.n - 1
  {
    match s.workers[i]
    case AtLoop => Some(s.(workers := s.workers[i := if s.running[i] then Running else Ended]))
    case Running => Some(s.(workers := s.workers[i := AtBar], done := s.done[i := s.done[i] + 1]))
    case AtBar =>
      var (m, waits) := Sync(s.bar, i);
      Some(s.(bar := m, workers := s.workers[i := if waits then InBar else AtPark]))
    case AtPark =>
      var (m, waits) := Sync(s.parks[i], i);
      Some(s.(parks := s.parks[i := m], workers := s.workers[i := if waits then InPark else AtLoop]))
    case _ => None
  }

  function DoWorkerReturn(s: State, i: nat): Option<State>
    requires Shape(s) && i < s.n - 1
  {
    if s.workers[i].InBar? && i in s.bar.cond.woken then
      Some(s.(bar := Leave(s.bar, i), workers := s.workers[i := AtPark]))
    else if s.workers[i].InPark? && i in s.parks[i].cond.woken then
      Some(s.(parks := s.parks[i := Leave(s.parks[i], i)], workers := s.workers[i := AtLoop]))
    else None
  }

  function Step(s: State, e: Event): Option<State> {
    if !Shape(s) then None
    else
      match e
      case RunBegin => if s.main.Idle? then Some(DoRunBegin(s)) else None
      case Destroy => if s.main.Idle? then Some(s.(main := Terminating(0))) else None
      case MainStep => DoMainStep(s)
      case MainReturn => DoMainReturn(s)
      case WorkerStep(i) => if i < s.n - 1 then DoWorkerStep(s, i) else None
      case WorkerReturn(i) => if i < s.n - 1 then DoWorkerReturn(s, i) else None
  }

  // ---------- the invariant ----------

  predicate InRun(m: Main) {
    m.Starting? || m.Releasing? || m.InRelease? || m.OwnProcess? || m.MainAtBar? || m.MainInBar?
  }

  /** Every process has passed the completion barrier of the current run. */
  predicate Complete(s: State) { s.main.MainInBar? && s.n - 1 in s.bar.cond.woken }

  /** How many workers the main thread has let go in the current run. */
  function Front(s: State): nat
    requires Shape(s)
  {
    match s.main
    case Starting(i) => i
    case Releasing(i) => i
    case InRelease(i) => if i < s.n - 1 && s.n - 1 in s.parks[i].cond.woken then i + 1 else i
    case _ => s.n - 1
  }

  /** Worker `i` has finished `d` rounds and is on its way to the park barrier. */
  ghost predicate Finished(s: State, i: nat, d: nat)
    requires Shape(s) && i < s.n - 1
  {
    && s.done[i] == d
    && (|| (s.workers[i].InBar? && i in s.bar.cond.woken)
        || s.workers[i].AtPark?
        || (s.workers[i].InPark? && i in s.parks[i].cond.waiting))
  }

  /** Worker `i` has been let go and has not passed the completion barrier. */
  ghost predicate Working(s: State, i: nat)
    requires Shape(s) && i < s.n - 1
  {
    && s.running[i]
    && (|| (s.begun == s.done[i] + 1
            && (s.workers[i].AtLoop? || s.workers[i].Running? || (s.workers[i].InPark? && i in s.parks[i].cond.woken)))
        || (s.begun == s.done[i]
            && (s.workers[i].AtBar? || (s.workers[i].InBar? && i in s.bar.cond.waiting))))
  }

  /** Worker `i` has been told to stop. */
  ghost predicate Expiring(s: State, i: nat)
    requires Shape(s) && i < s.n - 1
  {
    && !s.running[i] && s.done[i] == s.begun
    && (s.workers[i].AtLoop? || s.workers[i].Ended? || (s.workers[i].InPark? && i in s.parks[i].cond.woken))
  }

  /** While the destructor runs: the workers before `j` have ended. */
  ghost predicate Retiring(s: State, i: nat)
    requires Shape(s) && i < s.n - 1
  {
    var j := if s.main.Terminating? || s.main.InTerminate? || s.main.Joining? then s.main.i else s.n - 1;
    if i < j then s.workers[i].Ended? && s.done[i] == s.begun
    else if i == j && (s.main.Joining? || (s.main.InTerminate? && s.n - 1 in s.parks[i].cond.woken)) then Expiring(s, i)
    else Finished(s, i, s.begun) && (i == j && s.main.InTerminate? ==> !s.running[i])
  }

  ghost predicate WorkerOk(s: State, i: nat)
    requires Shape(s) && i < s.n - 1
  {
    if s.begun == 0 || (s.main.Starting? && i >= s.main.i) then
      s.workers[i].NotStarted? && s.done[i] == 0 && s.running[i]
    else if s.main.Idle? || Complete(s) then Finished(s, i, s.begun) && s.running[i]
    else if !InRun(s.main) then Retiring(s, i)
    else if i < Front(s) then Working(s, i)
    else Finished(s, i, s.begun - 1) && s.running[i]
  }

  /** The two parties of park barrier `i`. */
  ghost predicate ParkOk(s: State, i: nat)
    requires Shape(s) && i < s.n - 1
  {
    var m, me := s.parks[i], s.n - 1;
    && m.f == Barrier.Fields(2, if m.cond.waiting == {} then 2 else 1)
    && (m.cond.waiting == {} || m.cond.waiting == {i} || m.cond.waiting == {me})
    && m.cond.woken <= {i, me} && m.cond.waiting !! m.cond.woken
    && (i in m.cond.waiting || i in m.cond.woken <==> s.workers[i].InPark?)
    && (me in m.cond.waiting || me in m.cond.woken <==> s.main == InRelease(i) || s.main == InTerminate(i))
  }

  ghost predicate BarOk(s: State)
    requires Shape(s)
  {
    var c := s.bar.cond;
    && c.waiting <= Below(s.n) && c.woken <= Below(s.n) && c.waiting !! c.woken
    && (s.begun > 0 ==> s.bar.f.enrolled == s.n && s.bar.f.count == s.n - |c.waiting| && s.bar.f.count > 0)
    && (forall i :: 0 <= i < s.n - 1 ==> (i in c.waiting || i in c.woken <==> s.workers[i].InBar?))
    && (s.n - 1 in c.waiting || s.n - 1 in c.woken <==> s.main.MainInBar?)
    && (Complete(s) ==> c.waiting == {})
  }

  ghost predicate MainOk(s: State)
    requires Shape(s)
  {
    && s.returned == (if InRun(s.main) then s.begun - 1 else s.begun)
    && (InRun(s.main) ==> s.begun > 0)
    && s.done[s.n - 1] == (if InRun(s.main) && !s.main.MainAtBar? && !s.main.MainInBar? then s.begun - 1 else s.begun)
    && (s.begun == 0 ==> s.changed)
    && (s.main.Starting? ==> s.begun == 1)
    && (!s.main.MainInBar? && (s.main.Idle? || !InRun(s.main)) ==> s.bar.cond.waiting == {})
    && match s.main
       case Starting(i) => i <= s.n - 1
       case Releasing(i) => i <= s.n - 1
       case InRelease(i) => i < s.n - 1
       case Terminating(i) => i <= s.n - 1
       case InTerminate(i) => i < s.n - 1 && s.begun > 0
       case Joining(i) => i < s.n - 1 && s.begun > 0
       case _ => true
  }

  ghost predicate Base(s: State) { Shape(s) && MainOk(s) && BarOk(s) }

  ghost predicate Each(s: State, i: nat)
    requires Shape(s) && i < s.n - 1
  {
    WorkerOk(s, i) && ParkOk(s, i)
  }

  ghost predicate Inv(s: State) {
    Base(s) && (forall i :: 0 <= i < s.n - 1 ==> Each(s, i))
  }

  lemma InitOk(n: nat)
    requires 1 <= n < Barrier.WORD
    ensures Inv(Init(n))
  {
  }

  // ---------- arriving at the completion barrier ----------

  /** The last process to arrive finds all the others blocked. */
  lemma LastArrival(s: State, p: nat)
    requires Shape(s) && BarOk(s) && s.begun > 0 && p < s.n && p !in s.bar.cond.waiting && s.bar.f.count == 1
    ensures forall q: nat :: q < s.n && q != p ==> q in s.bar.cond.waiting
    ensures Sync(s.bar, p)
         == (Monitor(Barrier.Fields(s.n, s.n), Cond({}, s.bar.cond.woken + s.bar.cond.waiting)), false)
  {
    var here := s.bar.cond.waiting + {p};
    assert here <= Below(s.n) && |here| == s.n;
    SubsetOfSameSize(here, Below(s.n));
    forall q: nat | q < s.n && q != p ensures q in s.bar.cond.waiting {
      assert q in here;
    }
  }

  /** Arriving before the last blocks. */
  lemma EarlyArrival(s: State, p: nat)
    requires Shape(s) && BarOk(s) && s.begun > 0 && p < s.n && p !in s.bar.cond.waiting && s.bar.f.count != 1
    ensures Sync(s.bar, p) == (Monitor(Barrier.Fields(s.n, s.bar.f.count - 1), Block(s.bar.cond, p)), true)
    ensures |Block(s.bar.cond, p).waiting| == |s.bar.cond.waiting| + 1
  {
  }

  // ---------- steps of the main thread: the shared part, then any worker ----------

  lemma RunBeginBase(s: State)
    requires Base(s) && s.main.Idle?
    ensures Base(DoRunBegin(s))
  {
  }

  lemma RunBeginEach(s: State, i: nat)
    requires Base(s) && s.main.Idle? && i < s.n - 1 && Each(s, i)
    ensures Each(DoRunBegin(s), i)
  {
  }

  lemma DestroyBase(s: State)
    requires Base(s) && s.main.Idle?
    ensures Base(s.(main := Terminating(0)))
  {
  }

  lemma DestroyEach(s: State, i: nat)
    requires Base(s) && s.main.Idle? && i < s.n - 1 && Each(s, i)
    ensures Each(s.(main := Terminating(0)), i)
  {
  }

  lemma StartBase(s: State)
    requires Base(s) && s.main.Starting? && (s.main.i < s.n - 1 ==> Each(s, s.main.i))
    ensures Base(DoMainStep(s).value)
  {
  }

  lemma StartEach(s: State, i: nat)
    requires Base(s) && s.main.Starting? && (s.main.i < s.n - 1 ==> Each(s, s.main.i)) && i < s.n - 1 && Each(s, i)
    ensures Each(DoMainStep(s).value, i)
  {
  }

  lemma ReleaseBase(s: State)
    requires Base(s) && s.main.Releasing?
    ensures Base(DoMainStep(s).value)
  {
  }

  /** The first party to arrive at a park barrier blocks, the second wakes the first. */
  lemma ParkSync(m: Monitor, p: nat)
    requires m.f == Barrier.Fields(2, if m.cond.waiting == {} then 2 else 1)
    ensures Sync(m, p) == if m.cond.waiting == {} then (Monitor(Barrier.Fields(2, 1), Cond({p}, m.cond.woken)), true)
                          else (Monitor(Barrier.Fields(2, 2), Cond({}, m.cond.woken + m.cond.waiting)), false)
  {
    assert m.cond.waiting == {} ==> m.cond.waiting + {p} == {p};
  }

  lemma ReleaseFirst(s: State)
    requires Base(s) && s.main.Releasing? && s.main.i < s.n - 1 && Each(s, s.main.i)
    requires s.parks[s.main.i].cond.waiting == {}
    ensures Each(DoMainStep(s).value, s.main.i)
  {
    ParkSync(s.parks[s.main.i], s.n - 1);
  }

  lemma ReleaseSecond(s: State)
    requires Base(s) && s.main.Releasing? && s.main.i < s.n - 1 && Each(s, s.main.i)
    requires s.parks[s.main.i].cond.waiting != {}
    ensures Each(DoMainStep(s).value, s.main.i)
  {
    ParkSync(s.parks[s.main.i], s.n - 1);
  }

  lemma ReleaseOther(s: State, i: nat)
    requires Base(s) && s.main.Releasing? && i < s.n - 1 && Each(s, i) && i != s.main.i
    ensures Each(DoMainStep(s).value, i)
  {
  }

  lemma ReleaseEach(s: State, i: nat)
    requires Base(s) && s.main.Releasing? && i < s.n - 1 && Each(s, i)
    ensures Each(DoMainStep(s).value, i)
  {
    if i != s.main.i {
      ReleaseOther(s, i);
    } else if s.parks[i].cond.waiting == {} {
      ReleaseFirst(s);
    } else {
      ReleaseSecond(s);
    }
  }

  lemma OwnBase(s: State)
    requires Base(s) && s.main.OwnProcess?
    ensures Base(DoMainStep(s).value)
  {
  }

  lemma OwnEach(s: State, i: nat)
    requires Base(s) && s.main.OwnProcess? && i < s.n - 1 && Each(s, i)
    ensures Each(DoMainStep(s).value, i)
  {
  }

  lemma MainWaitsBase(s: State)
    requires Base(s) && s.main.MainAtBar? && s.bar.f.count != 1
    ensures Base(DoMainStep(s).value)
  {
    EarlyArrival(s, s.n - 1);
  }

  lemma MainWaitsEach(s: State, i: nat)
    requires Base(s) && s.main.MainAtBar? && s.bar.f.count != 1 && i < s.n - 1 && Each(s, i)
    ensures Each(DoMainStep(s).value, i)
  {
    EarlyArrival(s, s.n - 1);
  }

  lemma MainCompletesBase(s: State)
    requires Base(s) && s.main.MainAtBar? && s.bar.f.count == 1
    ensures Base(DoMainStep(s).value)
  {
    LastArrival(s, s.n - 1);
  }

  lemma MainCompletesEach(s: State, i: nat)
    requires Base(s) && s.main.MainAtBar? && s.bar.f.count == 1 && i < s.n - 1 && Each(s, i)
    ensures Each(DoMainStep(s).value, i)
  {
    LastArrival(s, s.n - 1);
  }

  lemma TerminateBase(s: State)
    requires Base(s) && s.main.Terminating?
    ensures Base(DoMainStep(s).value)
  {
  }

  lemma TerminateFirst(s: State)
    requires Base(s) && s.main.Terminating? && s.begun > 0 && s.main.i < s.n - 1 && Each(s, s.main.i)
    requires s.parks[s.main.i].cond.waiting == {}
    ensures Each(DoMainStep(s).value, s.main.i)
  {
    assert Finished(s, s.main.i, s.begun);
    ParkSync(s.parks[s.main.i], s.n - 1);
  }

  lemma TerminateSecond(s: State)
    requires Base(s) && s.main.Terminating? && s.begun > 0 && s.main.i < s.n - 1 && Each(s, s.main.i)
    requires s.parks[s.main.i].cond.waiting != {}
    ensures Each(DoMainStep(s).value, s.main.i)
  {
    assert Finished(s, s.main.i, s.begun);
    ParkSync(s.parks[s.main.i], s.n - 1);
  }

  lemma TerminateOne(s: State)
    requires Base(s) && s.main.Terminating? && s.begun > 0 && s.main.i < s.n - 1 && Each(s, s.main.i)
    ensures Each(DoMainStep(s).value, s.main.i)
  {
    if s.parks[s.main.i].cond.waiting == {} {
      TerminateFirst(s);
    } else {
      TerminateSecond(s);
    }
  }

  lemma TerminateOther(s: State, i: nat)
    requires Base(s) && s.main.Terminating? && i < s.n - 1 && Each(s, i) && (i != s.main.i || s.begun == 0)
    ensures Each(DoMainStep(s).value, i)
  {
  }

  lemma TerminateEach(s: State, i: nat)
    requires Base(s) && s.main.Terminating? && i < s.n - 1 && Each(s, i)
    ensures Each(DoMainStep(s).value, i)
  {
    if i == s.main.i && s.begun > 0 {
      TerminateOne(s);
    } else {
      TerminateOther(s, i);
    }
  }

  lemma JoinBase(s: State)
    requires Base(s) && s.main.Joining? && DoMainStep(s).Some?
    ensures Base(DoMainStep(s).value)
  {
  }

  lemma JoinEach(s: State, i: nat)
    requires Base(s) && s.main.Joining? && DoMainStep(s).Some? && i < s.n - 1 && Each(s, i)
    ensures Each(DoMainStep(s).value, i)
  {
  }

  lemma ReleasedBase(s: State)
    requires Base(s) && s.main.InRelease? && DoMainReturn(s).Some?
    ensures Base(DoMainReturn(s).value)
  {
  }

  lemma ReleasedEach(s: State, i: nat)
    requires Base(s) && s.main.InRelease? && DoMainReturn(s).Some? && i < s.n - 1 && Each(s, i)
    ensures Each(DoMainReturn(s).value, i)
  {
  }

  lemma TerminatedBase(s: State)
    requires Base(s) && s.main.InTerminate? && DoMainReturn(s).Some?
    ensures Base(DoMainReturn(s).value)
  {
  }

  lemma TerminatedEach(s: State, i: nat)
    requires Base(s) && s.main.InTerminate? && DoMainReturn(s).Some? && i < s.n - 1 && Each(s, i)
    ensures Each(DoMainReturn(s).value, i)
  {
  }

  lemma RunReturnBase(s: State)
    requires Base(s) && s.main.MainInBar? && DoMainReturn(s).Some?
    ensures Base(DoMainReturn(s).value)
  {
  }

  lemma RunReturnEach(s: State, i: nat)
    requires Base(s) && s.main.MainInBar? && DoMainReturn(s).Some? && i < s.n - 1 && Each(s, i)
    ensures Each(DoMainReturn(s).value, i)
  {
  }

  // ---------- steps of worker `w`: the shared part, `w` itself, the others ----------

  /** What concerns worker `i` is the same in `s` and `t`. */
  ghost predicate SameFor(s: State, t: State, i: nat)
    requires Shape(s) && i < s.n - 1
  {
    var me := s.n - 1;
    && Shape(t) && t.n == s.n && t.main == s.main && t.begun == s.begun
    && t.workers[i] == s.workers[i] && t.done[i] == s.done[i] && t.running[i] == s.running[i]
    && t.parks[i] == s.parks[i]
    && (i in t.bar.cond.waiting <==> i in s.bar.cond.waiting)
    && (i in t.bar.cond.woken <==> i in s.bar.cond.woken)
    && (me in t.bar.cond.woken <==> me in s.bar.cond.woken)
  }

  /** The shared part is the same, and nobody enters or leaves the completion barrier. */
  lemma BaseFrame(s: State, t: State)
    requires Base(s) && Shape(t) && t.n == s.n && t.main == s.main && t.begun == s.begun && t.returned == s.returned
    requires t.changed == s.changed && t.bar == s.bar && t.done[s.n - 1] == s.done[s.n - 1]
    requires forall i :: 0 <= i < s.n - 1 ==> (t.workers[i].InBar? <==> s.workers[i].InBar?)
    ensures Base(t)
  {
  }

  lemma Frame(s: State, t: State, i: nat)
    requires Shape(s) && i < s.n - 1 && Each(s, i) && SameFor(s, t, i)
    ensures Each(t, i)
  {
  }

  lemma Assemble(s: State, t: State, w: nat)
    requires Inv(s) && w < s.n - 1 && Base(t) && t.n == s.n && Each(t, w)
    requires forall i :: 0 <= i < s.n - 1 && i != w ==> SameFor(s, t, i)
    ensures Inv(t)
  {
    forall i | 0 <= i < t.n - 1 ensures Each(t, i) {
      if i != w {
        assert Each(s, i) && SameFor(s, t, i);
        Frame(s, t, i);
      }
    }
  }

  lemma AtBarIsWorking(s: State, w: nat)
    requires Base(s) && w < s.n - 1 && WorkerOk(s, w) && s.workers[w].AtBar?
    ensures s.begun > 0 && !Complete(s) && !s.main.Idle? && InRun(s.main) && w !in s.bar.cond.waiting
    ensures Working(s, w) && (s.main.Starting? ==> w < s.main.i) && w < Front(s)
  {
  }

  lemma LoopBase(s: State, w: nat)
    requires Base(s) && w < s.n - 1 && (s.workers[w].AtLoop? || s.workers[w].Running?)
    ensures Base(DoWorkerStep(s, w).value)
  {
    BaseFrame(s, DoWorkerStep(s, w).value);
  }

  lemma LoopSelf(s: State, w: nat)
    requires Base(s) && w < s.n - 1 && Each(s, w) && (s.workers[w].AtLoop? || s.workers[w].Running?)
    ensures Each(DoWorkerStep(s, w).value, w)
  {
  }

  lemma LoopKeeps(s: State, w: nat)
    requires Inv(s) && w < s.n - 1 && (s.workers[w].AtLoop? || s.workers[w].Running?)
    ensures Inv(DoWorkerStep(s, w).value)
  {
    assert Each(s, w);
    LoopBase(s, w);
    LoopSelf(s, w);
    Assemble(s, DoWorkerStep(s, w).value, w);
  }

  lemma ParkBase(s: State, w: nat)
    requires Base(s) && w < s.n - 1 && s.workers[w].AtPark?
    ensures Base(DoWorkerStep(s, w).value)
  {
    BaseFrame(s, DoWorkerStep(s, w).value);
  }

  lemma ParkFirst(s: State, w: nat)
    requires Base(s) && w < s.n - 1 && Each(s, w) && s.workers[w].AtPark? && s.parks[w].cond.waiting == {}
    ensures Each(DoWorkerStep(s, w).value, w)
  {
    ParkSync(s.parks[w], w);
  }

  lemma ParkSecond(s: State, w: nat)
    requires Base(s) && w < s.n - 1 && Each(s, w) && s.workers[w].AtPark? && s.parks[w].cond.waiting != {}
    ensures Each(DoWorkerStep(s, w).value, w)
  {
    ParkSync(s.parks[w], w);
    assert s.parks[w].cond.waiting == {s.n - 1};
  }

  lemma ParkSelf(s: State, w: nat)
    requires Base(s) && w < s.n - 1 && Each(s, w) && s.workers[w].AtPark?
    ensures Each(DoWorkerStep(s, w).value, w)
  {
    if s.parks[w].cond.waiting == {} {
      ParkFirst(s, w);
    } else {
      ParkSecond(s, w);
    }
  }

  lemma ParkTouches(s: State, w: nat, i: nat)
    requires Base(s) && w < s.n - 1 && i < s.n - 1 && i != w && s.workers[w].AtPark?
    ensures SameFor(s, DoWorkerStep(s, w).value, i)
  {
  }

  lemma ParkKeeps(s: State, w: nat)
    requires Inv(s) && w < s.n - 1 && s.workers[w].AtPark?
    ensures Inv(DoWorkerStep(s, w).value)
  {
    assert Each(s, w);
    ParkBase(s, w);
    ParkSelf(s, w);
    forall i | 0 <= i < s.n - 1 && i != w ensures SameFor(s, DoWorkerStep(s, w).value, i) {
      ParkTouches(s, w, i);
    }
    Assemble(s, DoWorkerStep(s, w).value, w);
  }

  lemma LeaveBarBase(s: State, w: nat)
    requires Base(s) && w < s.n - 1 && Each(s, w) && s.workers[w].InBar? && DoWorkerReturn(s, w).Some?
    ensures Base(DoWorkerReturn(s, w).value)
  {
  }

  lemma LeaveBarSelf(s: State, w: nat)
    requires Base(s) && w < s.n - 1 && Each(s, w) && s.workers[w].InBar? && DoWorkerReturn(s, w).Some?
    ensures Each(DoWorkerReturn(s, w).value, w)
  {
  }

  lemma LeaveBarKeeps(s: State, w: nat)
    requires Inv(s) && w < s.n - 1 && s.workers[w].InBar? && DoWorkerReturn(s, w).Some?
    ensures Inv(DoWorkerReturn(s, w).value)
  {
    assert Each(s, w);
    LeaveBarBase(s, w);
    LeaveBarSelf(s, w);
    Assemble(s, DoWorkerReturn(s, w).value, w);
  }

  lemma LeaveParkBase(s: State, w: nat)
    requires Base(s) && w < s.n - 1 && s.workers[w].InPark? && DoWorkerReturn(s, w).Some?
    ensures Base(DoWorkerReturn(s, w).value)
  {
    BaseFrame(s, DoWorkerReturn(s, w).value);
  }

  lemma LeaveParkSelf(s: State, w: nat)
    requires Base(s) && w < s.n - 1 && Each(s, w) && s.workers[w].InPark? && DoWorkerReturn(s, w).Some?
    ensures Each(DoWorkerReturn(s, w).value, w)
  {
  }

  lemma LeaveParkKeeps(s: State, w: nat)
    requires Inv(s) && w < s.n - 1 && s.workers[w].InPark? && DoWorkerReturn(s, w).Some?
    ensures Inv(DoWorkerReturn(s, w).value)
  {
    assert Each(s, w);
    LeaveParkBase(s, w);
    LeaveParkSelf(s, w);
    Assemble(s, DoWorkerReturn(s, w).value, w);
  }

  /** Worker `w` arrives at the completion barrier and blocks there. */
  function Arrived(s: State, w: nat): State
    requires Shape(s) && w < s.n - 1
  {
    s.(bar := Monitor(s.bar.f.(count := Barrier.Dec(s.bar.f.count)), Block(s.bar.cond, w)),
       workers := s.workers[w := InBar])
  }

  lemma ArrivedIsStep(s: State, w: nat)
    requires Base(s) && w < s.n - 1 && WorkerOk(s, w) && s.workers[w].AtBar? && s.bar.f.count != 1
    ensures DoWorkerStep(s, w) == Some(Arrived(s, w))
  {
    AtBarIsWorking(s, w);
  }

  lemma ArrivedBar(s: State, w: nat)
    requires Base(s) && w < s.n - 1 && WorkerOk(s, w) && s.workers[w].AtBar? && s.bar.f.count != 1
    ensures Base(Arrived(s, w))
  {
    AtBarIsWorking(s, w);
    EarlyArrival(s, w);
  }

  lemma ArrivedSelf(s: State, w: nat)
    requires Base(s) && w < s.n - 1 && Each(s, w) && s.workers[w].AtBar? && s.bar.f.count != 1
    ensures Each(Arrived(s, w), w)
  {
    AtBarIsWorking(s, w);
    assert !Complete(Arrived(s, w)) && Working(Arrived(s, w), w);
  }

  lemma WorkerWaitsKeeps(s: State, w: nat)
    requires Inv(s) && w < s.n - 1 && s.workers[w].AtBar? && s.bar.f.count != 1
    ensures Inv(DoWorkerStep(s, w).value)
  {
    assert Each(s, w);
    ArrivedIsStep(s, w);
    ArrivedBar(s, w);
    ArrivedSelf(s, w);
    Assemble(s, Arrived(s, w), w);
  }

  lemma WorkerCompletesBase(s: State, w: nat)
    requires Base(s) && w < s.n - 1 && Each(s, w) && s.workers[w].AtBar? && s.bar.f.count == 1
    ensures Base(DoWorkerStep(s, w).value)
  {
    AtBarIsWorking(s, w);
    LastArrival(s, w);
  }

  lemma WorkerCompletesEach(s: State, w: nat, i: nat)
    requires Base(s) && w < s.n - 1 && Each(s, w) && s.workers[w].AtBar? && s.bar.f.count == 1
    requires i < s.n - 1 && Each(s, i)
    ensures Each(DoWorkerStep(s, w).value, i)
  {
    AtBarIsWorking(s, w);
    LastArrival(s, w);
  }

  lemma WorkerCompletesKeeps(s: State, w: nat)
    requires Inv(s) && w < s.n - 1 && s.workers[w].AtBar? && s.bar.f.count == 1
    ensures Inv(DoWorkerStep(s, w).value)
  {
    assert Each(s, w);
    WorkerCompletesBase(s, w);
    forall i | 0 <= i < s.n - 1 ensures Each(DoWorkerStep(s, w).value, i) {
      WorkerCompletesEach(s, w, i);
    }
  }

  lemma MainKeeps(s: State, e: Event, i: nat)
    requires Base(s) && (e.RunBegin? || e.Destroy? || e.MainStep? || e.MainReturn?) && Step(s, e).Some?
    requires s.main.Starting? && s.main.i < s.n - 1 ==> Each(s, s.main.i)
    ensures Base(Step(s, e).value)
    ensures i < s.n - 1 && Each(s, i) ==> Each(Step(s, e).value, i)
  {
    var worker := i < s.n - 1 && Each(s, i);
    match e
    case RunBegin => RunBeginBase(s); if worker { RunBeginEach(s, i); }
    case Destroy => DestroyBase(s); if worker { DestroyEach(s, i); }
    case MainReturn =>
      if s.main.InRelease? { ReleasedBase(s); if worker { ReleasedEach(s, i); } }
      else if s.main.InTerminate? { TerminatedBase(s); if worker { TerminatedEach(s, i); } }
      else { RunReturnBase(s); if worker { RunReturnEach(s, i); } }
    case MainStep =>
      if s.main.Starting? { StartBase(s); if worker { StartEach(s, i); } }
      else if s.main.Releasing? { ReleaseBase(s); if worker { ReleaseEach(s, i); } }
      else if s.main.OwnProcess? { OwnBase(s); if worker { OwnEach(s, i); } }
      else if s.main.Terminating? { TerminateBase(s); if worker { TerminateEach(s, i); } }
      else if s.main.Joining? { JoinBase(s); if worker { JoinEach(s, i); } }
      else if s.bar.f.count == 1 { MainCompletesBase(s); if worker { MainCompletesEach(s, i); } }
      else { MainWaitsBase(s); if worker { MainWaitsEach(s, i); } }
  }

  lemma StepKeepsInv(s: State, e: Event)
    requires Inv(s) && Step(s, e).Some?
    ensures Inv(Step(s, e).value)
  {
    match e
    case WorkerReturn(w) =>
      if s.workers[w].InBar? { LeaveBarKeeps(s, w); } else { LeaveParkKeeps(s, w); }
    case WorkerStep(w) =>
      if s.workers[w].AtPark? { ParkKeeps(s, w); }
      else if !s.workers[w].AtBar? { LoopKeeps(s, w); }
      else if s.bar.f.count == 1 { WorkerCompletesKeeps(s, w); }
      else { WorkerWaitsKeeps(s, w); }
    case _ =>
      MainKeeps(s, e, s.n);
      forall i | 0 <= i < s.n - 1 ensures Each(Step(s, e).value, i) {
        MainKeeps(s, e, i);
      }
  }

  lemma RunKeepsInv(n: nat, es: seq<Event>)
    requires 1 <= n < Barrier.WORD && Run(Step, Init(n), es).Some?
    ensures Inv(Run(Step, Init(n), es).value)
  {
    InitOk(n);
    forall s, e | Inv(s) && Step(s, e).Some? ensures Inv(Step(s, e).value) {
      StepKeepsInv(s, e);
    }
    Invariance(Step, Inv, Init(n), es);
  }

  // ---------- what `par` promises ----------

  lemma DoneIsBetween(s: State, p: nat)
    requires Inv(s) && p < s.n
    ensures s.returned <= s.done[p] <= s.begun <= s.returned + 1
    ensures s.main.Idle? ==> s.begun == s.returned
  {
    if p < s.n - 1 {
      assert Each(s, p);
    }
  }

  lemma {:induction false} SizeStays(n: nat, es: seq<Event>)
    requires n >= 1 && Run(Step, Init(n), es).Some?
    ensures Run(Step, Init(n), es).value.n == n
    decreases |es|
  {
    if es != [] {
      SizeStays(n, es[..|es| - 1]);
    }
  }

  /** Each process runs exactly once per run: when the k-th `run` has returned every
      process has completed exactly k times, and inside a run at most once more. */
  lemma OncePerRun(n: nat, es: seq<Event>, p: nat)
    requires 1 <= n < Barrier.WORD && Run(Step, Init(n), es).Some? && p < n
    ensures var s := Run(Step, Init(n), es).value;
      && |s.done| == n
      && s.returned <= s.done[p] <= s.begun <= s.returned + 1
      && (s.main.Idle? ==> s.begun == s.returned && s.done[p] == s.returned)
  {
    RunKeepsInv(n, es);
    SizeStays(n, es);
    DoneIsBetween(Run(Step, Init(n), es).value, p);
  }

  /** No worker runs ahead: a worker inside its process is in the run that has begun and has
      not returned, whichever order the threads are scheduled in. */
  lemma NoEarlyStart(n: nat, es: seq<Event>, i: nat)
    requires 1 <= n < Barrier.WORD && Run(Step, Init(n), es).Some?
    requires var s := Run(Step, Init(n), es).value; i < |s.workers| && s.workers[i].Running?
    ensures var s := Run(Step, Init(n), es).value;
      i < |s.done| && s.begun == s.done[i] + 1 == s.returned + 1 && InRun(s.main)
  {
    RunKeepsInv(n, es);
    assert Each(Run(Step, Init(n), es).value, i);
  }

  /** When the destructor is done every worker loop has ended, all runs complete. */
  lemma ReleaseEndsWorkers(n: nat, es: seq<Event>, i: nat)
    requires 1 <= n < Barrier.WORD && Run(Step, Init(n), es).Some?
    requires var s := Run(Step, Init(n), es).value; s.main.Gone? && i < |s.workers|
    ensures var s := Run(Step, Init(n), es).value;
      && i < |s.done| && s.done[i] == s.begun == s.returned
      && s.workers[i] == (if s.begun == 0 then NotStarted else Ended)
  {
    RunKeepsInv(n, es);
    assert Each(Run(Step, Init(n), es).value, i);
  }

  predicate Internal(e: Event) { !e.RunBegin? && !e.Destroy? }

  lemma JoiningProceeds(s: State)
    requires Base(s) && s.main.Joining? && Each(s, s.main.i)
    ensures exists e :: Internal(e) && Step(s, e).Some?
  {
    var i := s.main.i;
    assert Expiring(s, i);
    if s.workers[i].Ended? {
      assert Step(s, MainStep).Some?;
    } else if s.workers[i].InPark? {
      assert Step(s, WorkerReturn(i)).Some?;
    } else {
      assert Step(s, WorkerStep(i)).Some?;
    }
  }

  lemma ParkedProceeds(s: State)
    requires Base(s) && (s.main.InRelease? || s.main.InTerminate?) && Each(s, s.main.i)
    requires s.n - 1 !in s.parks[s.main.i].cond.woken
    ensures exists e :: Internal(e) && Step(s, e).Some?
  {
    var i := s.main.i;
    assert Finished(s, i, if s.main.InRelease? then s.begun - 1 else s.begun);
    if s.workers[i].InBar? {
      assert Step(s, WorkerReturn(i)).Some?;
    } else {
      assert Step(s, WorkerStep(i)).Some?;
    }
  }

  lemma ParkingProceeds(s: State)
    requires Inv(s) && (s.main.InRelease? || s.main.InTerminate? || s.main.Joining?)
    ensures exists e :: Internal(e) && Step(s, e).Some?
  {
    assert Each(s, s.main.i);
    if s.main.Joining? {
      JoiningProceeds(s);
    } else if s.n - 1 in s.parks[s.main.i].cond.woken {
      assert Step(s, MainReturn).Some?;
    } else {
      ParkedProceeds(s);
    }
  }

  /** While the main thread waits at the completion barrier somebody has yet to arrive. */
  lemma SomebodyIsMissing(s: State) returns (i: nat)
    requires Base(s) && s.main.MainInBar? && !Complete(s)
    ensures i < s.n - 1 && i !in s.bar.cond.waiting
  {
    i := Missing(s.bar.cond.waiting, Below(s.n));
    assert i in Below(s.n);
  }

  lemma MissingWorkerProceeds(s: State, i: nat)
    requires Base(s) && s.main.MainInBar? && !Complete(s) && i < s.n - 1 && Each(s, i) && i !in s.bar.cond.waiting
    ensures Step(s, WorkerReturn(i)).Some? || Step(s, WorkerStep(i)).Some?
  {
    assert Working(s, i);
  }

  lemma BarrierProceeds(s: State)
    requires Inv(s) && s.main.MainInBar?
    ensures exists e :: Internal(e) && Step(s, e).Some?
  {
    if Complete(s) {
      assert Step(s, MainReturn).Some?;
    } else {
      var i := SomebodyIsMissing(s);
      assert Each(s, i);
      MissingWorkerProceeds(s, i);
    }
  }

  lemma SomethingProceeds(s: State)
    requires Inv(s) && !s.main.Idle? && !s.main.Gone?
    ensures exists e :: Internal(e) && Step(s, e).Some?
  {
    if s.main.InRelease? || s.main.InTerminate? || s.main.Joining? {
      ParkingProceeds(s);
    } else if s.main.MainInBar? {
      BarrierProceeds(s);
    } else {
      assert Step(s, MainStep).Some?;
    }
  }

  /** Neither `run` nor the destructor can get stuck. */
  lemma NeverStuck(n: nat, es: seq<Event>)
    requires 1 <= n < Barrier.WORD && Run(Step, Init(n), es).Some?
    requires var s := Run(Step, Init(n), es).value; !s.main.Idle? && !s.main.Gone?
    ensures exists e :: Internal(e) && Step(Run(Step, Init(n), es).value, e).Some?
  {
    RunKeepsInv(n, es);
    SomethingProceeds(Run(Step, Init(n), es).value);
  }

  // ---------- every run ends ----------

  function Weight(s: State, i: nat): nat
    requires Shape(s) && i < s.n - 1
  {
    match s.workers[i]
    case AtLoop => 6
    case Running => 5
    case AtBar => 4
    case InBar => 3
    case AtPark => 2
    case InPark => if i in s.parks[i].cond.woken then 7 else 1
    case _ => 0
  }

  /** What is left when the main thread turns to worker `i`. */
  function Ahead(s: State, i: nat): nat
    requires Shape(s)
  {
    if i < s.n - 1 then 20 * (s.n - 1 - i) + 10 else 10
  }

  predicate MainNotified(s: State, i: nat)
    requires Shape(s)
  {
    i < s.n - 1 && s.n - 1 in s.parks[i].cond.woken
  }

  function MainWeight(s: State): nat
    requires Shape(s)
  {
    match s.main
    case Starting(i) => Ahead(s, i)
    case Releasing(i) => Ahead(s, i)
    case InRelease(i) => Ahead(s, i + 1) + if MainNotified(s, i) then 1 else 19
    case OwnProcess => 9
    case MainAtBar => 8
    case MainInBar => 7
    case Terminating(i) => Ahead(s, i)
    case InTerminate(i) => Ahead(s, i + 1) + if MainNotified(s, i) then 2 else 19
    case Joining(i) => Ahead(s, i + 1) + 1
    case _ => 0
  }

  function Measure(s: State): nat
    requires Shape(s)
  {
    Sum(seq(s.n - 1, i requires 0 <= i < s.n - 1 => Weight(s, i))) + MainWeight(s)
  }

  /** From `s` to `t` only the main thread and worker `k` move, and together they get lighter. */
  ghost predicate Lighter(s: State, t: State, k: nat) {
    && Shape(s) && Shape(t) && s.n == t.n
    && (forall i :: 0 <= i < s.n - 1 && i != k ==> Weight(t, i) == Weight(s, i))
    && (if k < s.n - 1 then Weight(t, k) + MainWeight(t) < Weight(s, k) + MainWeight(s)
        else MainWeight(t) < MainWeight(s))
  }

  lemma LighterMeasure(s: State, t: State, k: nat)
    requires Lighter(s, t, k)
    ensures Measure(t) < Measure(s)
  {
    var a := seq(s.n - 1, i requires 0 <= i < s.n - 1 => Weight(s, i));
    var b := seq(t.n - 1, i requires 0 <= i < t.n - 1 => Weight(t, i));
    if k < s.n - 1 {
      assert b == a[k := Weight(t, k)];
      SumUpdate(a, k, Weight(t, k));
    } else {
      assert a == b;
    }
  }

  lemma StartLighter(s: State)
    requires Base(s) && s.main.Starting? && (s.main.i < s.n - 1 ==> WorkerOk(s, s.main.i))
    ensures Lighter(s, DoMainStep(s).value, s.main.i)
  {
  }

  lemma ReleaseLighter(s: State)
    requires Shape(s) && s.main.Releasing? && (s.main.i < s.n - 1 ==> ParkOk(s, s.main.i))
    ensures Lighter(s, DoMainStep(s).value, s.main.i)
  {
  }

  lemma BarLighter(s: State)
    requires Shape(s) && (s.main.OwnProcess? || s.main.MainAtBar?)
    ensures Lighter(s, DoMainStep(s).value, s.n)
  {
  }

  lemma TerminateLighter(s: State)
    requires Shape(s) && s.main.Terminating? && (s.main.i < s.n - 1 ==> ParkOk(s, s.main.i))
    ensures Lighter(s, DoMainStep(s).value, s.main.i)
  {
  }

  lemma JoinLighter(s: State)
    requires Shape(s) && s.main.Joining? && DoMainStep(s).Some?
    ensures Lighter(s, DoMainStep(s).value, s.n)
  {
  }

  lemma MainReturnLighter(s: State)
    requires Shape(s) && DoMainReturn(s).Some?
    ensures Lighter(s, DoMainReturn(s).value, s.n)
  {
  }

  lemma WorkerStepLighter(s: State, w: nat)
    requires Shape(s) && w < s.n - 1 && (s.workers[w].AtLoop? || s.workers[w].Running?)
    ensures Lighter(s, DoWorkerStep(s, w).value, w)
  {
  }

  lemma ArriveLighter(s: State, w: nat)
    requires Shape(s) && w < s.n - 1 && s.workers[w].AtBar?
    ensures Lighter(s, DoWorkerStep(s, w).value, w)
  {
  }

  lemma ParkLighter(s: State, w: nat)
    requires Shape(s) && w < s.n - 1 && ParkOk(s, w) && s.workers[w].AtPark?
    ensures Lighter(s, DoWorkerStep(s, w).value, w)
  {
  }

  lemma LeavesBarLighter(s: State, w: nat)
    requires Shape(s) && w < s.n - 1 && s.workers[w].InBar? && DoWorkerReturn(s, w).Some?
    ensures Lighter(s, DoWorkerReturn(s, w).value, w)
  {
  }

  lemma LeavesParkLighter(s: State, w: nat)
    requires Shape(s) && w < s.n - 1 && s.workers[w].InPark? && DoWorkerReturn(s, w).Some?
    ensures Lighter(s, DoWorkerReturn(s, w).value, w)
  {
  }

  /** Every step but the start of a new `run` or of the destructor decreases the measure. */
  lemma InternalStepsDecrease(s: State, e: Event)
    requires Inv(s) && Internal(e) && Step(s, e).Some?
    ensures Shape(Step(s, e).value) && Measure(Step(s, e).value) < Measure(s)
  {
    var t := Step(s, e).value;
    match e
    case MainReturn => MainReturnLighter(s); LighterMeasure(s, t, s.n);
    case WorkerReturn(w) =>
      if s.workers[w].InBar? { LeavesBarLighter(s, w); } else { LeavesParkLighter(s, w); }
      LighterMeasure(s, t, w);
    case WorkerStep(w) =>
      assert Each(s, w);
      if s.workers[w].AtPark? { ParkLighter(s, w); }
      else if s.workers[w].AtBar? { ArriveLighter(s, w); }
      else { WorkerStepLighter(s, w); }
      LighterMeasure(s, t, w);
    case MainStep =>
      if s.main.OwnProcess? || s.main.MainAtBar? { BarLighter(s); LighterMeasure(s, t, s.n); }
      else if s.main.Joining? { JoinLighter(s); LighterMeasure(s, t, s.n); }
      else {
        assert s.main.i < s.n - 1 ==> Each(s, s.main.i);
        if s.main.Starting? { StartLighter(s); }
        else if s.main.Releasing? { ReleaseLighter(s); }
        else { TerminateLighter(s); }
        LighterMeasure(s, t, s.main.i);
      }
  }

  lemma {:induction false} InternalRunsAreShort(s: State, es: seq<Event>)
    requires Inv(s) && Run(Step, s, es).Some? && forall e :: e in es ==> Internal(e)
    ensures Inv(Run(Step, s, es).value) && Measure(Run(Step, s, es).value) + |es| <= Measure(s)
    decreases |es|
  {
    if es != [] {
      var before, e := es[..|es| - 1], es[|es| - 1];
      InternalRunsAreShort(s, before);
      StepKeepsInv(Run(Step, s, before).value, e);
      InternalStepsDecrease(Run(Step, s, before).value, e);
    }
  }

  lemma MeasureBound(s: State)
    requires Inv(s)
    ensures Measure(s) <= 27 * s.n + 10
  {
    SumBound(seq(s.n - 1, i requires 0 <= i < s.n - 1 => Weight(s, i)), 7);
  }

  /** Going on with any steps at all ends a `run` or the destructor. */
  lemma {:induction false} Finishes(s: State) returns (gs: seq<Event>)
    requires Inv(s)
    ensures Run(Step, s, gs).Some? && forall e :: e in gs ==> Internal(e)
    ensures var t := Run(Step, s, gs).value; t.main.Idle? || t.main.Gone?
    decreases Measure(s)
  {
    if s.main.Idle? || s.main.Gone? {
      gs := [];
    } else {
      SomethingProceeds(s);
      var e :| Internal(e) && Step(s, e).Some?;
      StepKeepsInv(s, e);
      InternalStepsDecrease(s, e);
      var rest := Finishes(Step(s, e).value);
      Few(Step, s, [e]);
      Append(Step, s, [e], rest);
      gs := [e] + rest;
    }
  }

  /** `run` returns and the destructor finishes, whatever the scheduler does: any steps `fs` of
      the threads can be continued until the main thread is `Idle` or `Gone`, and there are
      never more than 27 * n + 10 of them. */
  lemma RunTerminates(n: nat, es: seq<Event>, fs: seq<Event>) returns (gs: seq<Event>)
    requires 1 <= n < Barrier.WORD && Run(Step, Init(n), es).Some?
    requires Run(Step, Run(Step, Init(n), es).value, fs).Some? && forall e :: e in fs ==> Internal(e)
    ensures |fs + gs| <= 27 * n + 10 && forall e :: e in gs ==> Internal(e)
    ensures var o := Run(Step, Run(Step, Init(n), es).value, fs + gs);
      o.Some? && (o.value.main.Idle? || o.value.main.Gone?)
  {
    RunKeepsInv(n, es);
    SizeStays(n, es);
    var s := Run(Step, Init(n), es).value;
    InternalRunsAreShort(s, fs);
    gs := Finishes(Run(Step, s, fs).value);
    Append(Step, s, fs, gs);
    InternalRunsAreShort(s, fs + gs);
    MeasureBound(s);
  }
}
