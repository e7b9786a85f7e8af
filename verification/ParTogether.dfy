/** The processes of one `run` do run in parallel (csp/par.h:209-280). */
module ParTogether {
  import opened Runs
  import opened Par
  import Barrier

  ghost predicate Reached(n: nat, s: State) { 1 <= n < Barrier.WORD && Reachable(Step, Init(n), s) }

  lemma ReachedHasInv(n: nat, s: State)
    requires Reached(n, s)
    ensures Inv(s) && s.n == n
  {
    var es: seq<Event> :| Run(Step, Init(n), es) == Some(s);
    RunKeepsInv(n, es);
    SizeStays(n, es);
  }

  ghost predicate Can(s: State, e: Event) { Step(s, e).Some? }

  /** Everybody goes on alone: a worker in its loop or its process, or the main thread where it
      does not wait, waits for nobody, and whoever is inside a barrier goes on exactly when it
      has been notified. */
  lemma EverybodyGoesOn(n: nat, s: State, i: nat)
    requires Reached(n, s) && i < n - 1
    ensures |s.workers| == |s.parks| == n - 1
    ensures s.workers[i].AtLoop? || s.workers[i].Running? || s.workers[i].AtBar? || s.workers[i].AtPark? ==>
      Can(s, WorkerStep(i))
    ensures s.workers[i].InBar? ==> (Can(s, WorkerReturn(i)) <==> i in s.bar.cond.woken)
    ensures s.workers[i].InPark? ==> (Can(s, WorkerReturn(i)) <==> i in s.parks[i].cond.woken)
  {
    ReachedHasInv(n, s);
  }

  lemma MainGoesOn(n: nat, s: State)
    requires Reached(n, s)
    ensures s.main.Idle? <==> Can(s, RunBegin)
    ensures s.main.Idle? <==> Can(s, Destroy)
    ensures s.main.Starting? || s.main.Releasing? || s.main.OwnProcess? || s.main.MainAtBar? || s.main.Terminating? ==>
      Can(s, MainStep)
    ensures s.main.MainInBar? ==> (Can(s, MainReturn) <==> n - 1 in s.bar.cond.woken)
  {
    ReachedHasInv(n, s);
  }

  /** A process is completed by nobody but the thread that runs it, from inside the process. */
  lemma OwnThreadCompletes(n: nat, s: State, e: Event, p: nat)
    requires Reached(n, s) && Can(s, e) && p < n
    ensures |s.done| == |Step(s, e).value.done| == n && |s.workers| == n - 1
    ensures Step(s, e).value.done[p] != s.done[p] ==>
      && Step(s, e).value.done[p] == s.done[p] + 1
      && if p == n - 1 then e == MainStep && s.main.OwnProcess? else e == WorkerStep(p) && s.workers[p].Running?
  {
    ReachedHasInv(n, s);
  }

  /** Worker `i` is on its way through the current run: let go, and perhaps past its process. */
  ghost predicate LetGo(s: State, i: nat)
    requires i < |s.workers| && i < |s.parks| && i < |s.done|
  {
    || s.done[i] == s.begun || s.workers[i].AtLoop? || s.workers[i].Running?
    || (s.workers[i].InPark? && i in s.parks[i].cond.woken)
  }

  /** The main thread does not run its own process before every worker has been let go, so they
      run with it and not after it. */
  lemma ReleasedBeforeOwnProcess(n: nat, s: State, i: nat)
    requires Reached(n, s) && i < n - 1
    requires InRun(s.main) && (s.main.OwnProcess? || (|s.done| == n && s.done[n - 1] == s.begun))
    ensures |s.workers| == |s.parks| == n - 1 && |s.done| == n && LetGo(s, i)
  {
    ReachedHasInv(n, s);
    assert Each(s, i);
  }

  // ---------- all of them at once ----------

  /** The current run has let nobody complete. */
  ghost predicate NobodyDone(s: State) {
    && Inv(s) && InRun(s.main) && !s.main.MainAtBar? && !s.main.MainInBar?
    && forall p :: 0 <= p < s.n ==> s.done[p] == s.begun - 1
  }

  ghost predicate AllInside(s: State) {
    Shape(s) && s.main.OwnProcess? && forall i :: 0 <= i < s.n - 1 ==> s.workers[i].Running?
  }

  /** A step that completes nothing. */
  ghost predicate Quiet(s: State, e: Event) {
    && Internal(e) && Can(s, e)
    && (e.MainStep? ==> !s.main.OwnProcess?) && (e.WorkerStep? ==> e.i < |s.workers| && !s.workers[e.i].Running?)
  }

  lemma ReleasingGoesOn(s: State) returns (e: Event)
    requires NobodyDone(s) && s.main.InRelease?
    ensures Quiet(s, e)
  {
    var i := s.main.i;
    assert Each(s, i);
    if s.n - 1 in s.parks[i].cond.woken {
      e := MainReturn;
    } else {
      assert Finished(s, i, s.begun - 1);
      e := if s.workers[i].InBar? then WorkerReturn(i) else WorkerStep(i);
    }
  }

  lemma WorkerGoesIn(s: State, i: nat) returns (e: Event)
    requires NobodyDone(s) && s.main.OwnProcess? && i < s.n - 1 && !s.workers[i].Running?
    ensures Quiet(s, e)
  {
    assert Each(s, i);
    assert Working(s, i);
    e := if s.workers[i].AtLoop? then WorkerStep(i) else WorkerReturn(i);
  }

  lemma SomebodyGoesIn(s: State) returns (e: Event)
    requires NobodyDone(s) && !AllInside(s)
    ensures Quiet(s, e)
  {
    if s.main.OwnProcess? {
      var i :| 0 <= i < s.n - 1 && !s.workers[i].Running?;
      e := WorkerGoesIn(s, i);
    } else if s.main.InRelease? {
      e := ReleasingGoesOn(s);
    } else {
      e := MainStep;
    }
  }

  lemma QuietSteps(s: State, e: Event)
    requires NobodyDone(s) && Quiet(s, e)
    ensures var t := Step(s, e).value; NobodyDone(t) && t.begun == s.begun && t.n == s.n
  {
    StepKeepsInv(s, e);
    var t := Step(s, e).value;
    match e
    case MainStep =>
    case MainReturn =>
    case WorkerStep(_) =>
    case WorkerReturn(_) =>
  }

  lemma {:induction false} AllGoIn(s: State) returns (es: seq<Event>)
    requires NobodyDone(s)
    ensures Run(Step, s, es).Some?
    ensures var t := Run(Step, s, es).value; AllInside(t) && NobodyDone(t) && t.begun == s.begun && t.n == s.n
    decreases Measure(s)
  {
    es := [];
    if !AllInside(s) {
      var e := SomebodyGoesIn(s);
      QuietSteps(s, e);
      InternalStepsDecrease(s, e);
      var rest := AllGoIn(Step(s, e).value);
      Few(Step, s, [e]);
      Append(Step, s, [e], rest);
      es := [e] + rest;
    }
  }

  /** Every run can come to a point where all `n` processes have started and none has ended. */
  lemma AllRunAtOnce(n: nat, s: State) returns (es: seq<Event>)
    requires Reached(n, s) && s.main.Idle?
    ensures Can(s, RunBegin) && Run(Step, Step(s, RunBegin).value, es).Some?
    ensures var t := Run(Step, Step(s, RunBegin).value, es).value;
      && t.begun == s.begun + 1 && t.main.OwnProcess? && |t.workers| == n - 1 && |t.done| == n
      && (forall i :: 0 <= i < n - 1 ==> t.workers[i].Running?)
      && (forall p :: 0 <= p < n ==> t.done[p] == t.begun - 1)
  {
    ReachedHasInv(n, s);
    StepKeepsInv(s, RunBegin);
    forall p | 0 <= p < n ensures s.done[p] == s.begun {
      assert p < n - 1 ==> Each(s, p);
    }
    es := AllGoIn(Step(s, RunBegin).value);
  }
}
