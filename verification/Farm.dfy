/** The work farm of demos/mandelbrot1.cpp:37-88 over rendezvous channels: a producer that
    sends the line numbers and then one -1 per worker, workers that share the producer's
    channel, and a consumer that stores each row at its line.  What a row holds is the
    function `row`. */
module Farm {
  import opened Runs
  import opened Sets

  datatype Worker = Asking | Holding(line: nat) | Ended

  /** `sent` items have left the producer, `got` packets have reached the consumer;
      `computed` logs every line a worker took. */
  datatype State<R> = State(
    lines: nat, row: nat -> R, workers: seq<Worker>,
    sent: nat, got: nat, results: seq<Option<R>>, computed: seq<nat>)

  /** Worker `w` receives from the producer, or delivers to the consumer. */
  datatype Event = Take(w: nat) | Deliver(w: nat)

  function Init<R>(lines: nat, workers: nat, row: nat -> R): State<R> {
    State(lines, row, seq(workers, _ => Asking), 0, 0, seq(lines, _ => None), [])
  }

  /** The `k`-th item the producer sends. */
  function Item(lines: nat, k: nat): int { if k < lines then k else -1 }

  function Step<R>(s: State<R>, e: Event): Option<State<R>> {
    if e.w >= |s.workers| then None
    else
      match e
      case Take(w) =>
        if !s.workers[w].Asking? || s.sent >= s.lines + |s.workers| then None
        else
          var item := Item(s.lines, s.sent);
          if item == -1 then Some(s.(workers := s.workers[w := Ended], sent := s.sent + 1))
          else Some(s.(workers := s.workers[w := Holding(item)], sent := s.sent + 1,
                       computed := s.computed + [item]))
      case Deliver(w) =>
        if !s.workers[w].Holding? || s.got >= s.lines || s.workers[w].line >= |s.results| then None
        else
          var line := s.workers[w].line;
          Some(s.(workers := s.workers[w := Asking], got := s.got + 1,
                  results := s.results[line := Some(s.row(line))]))
  }

  // ---------- the loops of the three processes ----------

  /** What the producer writes is the items in order. */
  method Producer(lines: nat, workers: nat) returns (items: seq<int>)
    ensures |items| == lines + workers
    ensures forall k :: 0 <= k < |items| ==> items[k] == Item(lines, k)
  {
    items := [];
    for i := 0 to lines
      invariant |items| == i && forall k :: 0 <= k < i ==> items[k] == Item(lines, k)
    {
      items := items + [i];
    }
    for i := 0 to workers
      invariant |items| == lines + i && forall k :: 0 <= k < |items| ==> items[k] == Item(lines, k)
    {
      items := items + [-1];
    }
  }

  datatype Packet<R> = Packet(line: nat, data: R)

  /** A worker that is given `items` reads up to the first -1 and no further, and sends one
      packet for each line before it. */
  method Work<R>(row: nat -> R, items: seq<int>) returns (packets: seq<Packet<R>>, taken: nat)
    requires -1 in items && forall k :: 0 <= k < |items| ==> items[k] >= -1
    ensures 0 < taken <= |items| && items[taken - 1] == -1 && -1 !in items[..taken - 1]
    ensures |packets| == taken - 1
    ensures forall k :: 0 <= k < |packets| ==> packets[k] == Packet(items[k], row(items[k]))
  {
    packets := [];
    var line := items[0];
    taken := 1;
    while line != -1
      invariant 0 < taken <= |items| && line == items[taken - 1] && -1 !in items[..taken - 1]
      invariant |packets| == taken - 1
      invariant forall k :: 0 <= k < |packets| ==> packets[k] == Packet(items[k], row(items[k]))
      decreases |items| - taken
    {
      packets := packets + [Packet(line, row(line))];
      assert items[..taken] == items[..taken - 1] + [line];
      line := items[taken];
      taken := taken + 1;
    }
  }

  /** The packets carry different lines. */
  ghost predicate Distinct<R>(packets: seq<Packet<R>>) {
    forall j, k :: 0 <= j < k < |packets| ==> packets[j].line != packets[k].line
  }

  ghost function LinesOf<R>(packets: seq<Packet<R>>): (r: set<nat>)
    ensures forall i :: i in r <==> exists k :: 0 <= k < |packets| && packets[k].line == i
    ensures Distinct(packets) ==> |r| == |packets|
    decreases |packets|
  {
    if packets == [] then {}
    else
      var n := |packets| - 1;
      assert forall k :: 0 <= k < n ==> packets[..n][k] == packets[k];
      LinesOf(packets[..n]) + {packets[n].line}
  }

  /** `lines` packets with different lines leave no line out. */
  lemma DistinctCover<R>(packets: seq<Packet<R>>, lines: nat, i: nat) returns (k: nat)
    requires Distinct(packets) && |packets| == lines && i < lines
    requires forall k :: 0 <= k < lines ==> packets[k].line < lines
    ensures k < lines && packets[k].line == i
  {
    var seen := LinesOf(packets);
    SubsetOfSameSize(seen, Below(lines));
    assert i in seen;
    k :| 0 <= k < lines && packets[k].line == i;
  }

  /** The consumer puts every row in its place, in whatever order the packets come. */
  method Consumer<R>(row: nat -> R, lines: nat, packets: seq<Packet<R>>) returns (results: array<Option<R>>)
    requires |packets| == lines && Distinct(packets)
    requires forall k :: 0 <= k < lines ==> packets[k].line < lines && packets[k].data == row(packets[k].line)
    ensures fresh(results) && results.Length == lines
    ensures forall i :: 0 <= i < lines ==> results[i] == Some(row(i))
  {
    results := new Option<R>[lines](_ => None);
    for i := 0 to lines
      invariant forall k :: 0 <= k < i ==> results[packets[k].line] == Some(row(packets[k].line))
    {
      var packet := packets[i];
      results[packet.line] := Some(packet.data);
    }
    forall i | 0 <= i < lines ensures results[i] == Some(row(i)) {
      var k := DistinctCover(packets, lines, i);
    }
  }

  // ---------- the invariant ----------

  /** The lines whose row is stored. */
  ghost function Stored<R>(results: seq<Option<R>>): set<nat> {
    set i: nat | i < |results| && results[i].Some?
  }

  ghost function EndedSet(workers: seq<Worker>): set<nat> {
    set w: nat | w < |workers| && workers[w].Ended?
  }

  ghost predicate Counts<R>(s: State<R>) {
    && s.sent <= s.lines + |s.workers| && |s.results| == s.lines
    && s.got == |Stored(s.results)|
    && |EndedSet(s.workers)| == (if s.sent <= s.lines then 0 else s.sent - s.lines)
    && s.computed == seq(if s.sent < s.lines then s.sent else s.lines, i => i)
  }

  /** A stored row is right; a held line was sent, is not stored and is held once. */
  ghost predicate Rows<R>(s: State<R>)
    requires |s.results| == s.lines
  {
    && (forall i :: 0 <= i < s.lines && s.results[i].Some? ==> i < s.sent && s.results[i] == Some(s.row(i)))
    && (forall w :: 0 <= w < |s.workers| && s.workers[w].Holding? ==>
          s.workers[w].line < s.lines && s.workers[w].line < s.sent && s.results[s.workers[w].line].None?)
    && (forall v, w :: 0 <= v < w < |s.workers| && s.workers[v].Holding? && s.workers[w].Holding? ==>
          s.workers[v].line != s.workers[w].line)
  }

  ghost predicate Held<R>(s: State<R>, i: nat) {
    exists w :: 0 <= w < |s.workers| && s.workers[w] == Holding(i)
  }

  /** No line that was sent is lost. */
  ghost predicate NoneLost<R>(s: State<R>)
    requires |s.results| == s.lines
  {
    forall i :: 0 <= i < s.lines && i < s.sent && s.results[i].None? ==> Held(s, i)
  }

  ghost predicate Inv<R>(s: State<R>) { Counts(s) && Rows(s) && NoneLost(s) }

  lemma TakeCounts<R>(s: State<R>, w: nat)
    requires Counts(s) && Step(s, Take(w)).Some?
    ensures Counts(Step(s, Take(w)).value)
  {
    var t := Step(s, Take(w)).value;
    assert EndedSet(t.workers) == EndedSet(s.workers) + if s.sent < s.lines then {} else {w};
  }

  lemma TakeKeeps<R>(s: State<R>, w: nat)
    requires Inv(s) && Step(s, Take(w)).Some?
    ensures Inv(Step(s, Take(w)).value)
  {
    var t := Step(s, Take(w)).value;
    TakeCounts(s, w);
    forall i | 0 <= i < t.lines && i < t.sent && t.results[i].None? ensures Held(t, i) {
      if i == s.sent {
        assert t.workers[w] == Holding(i);
      } else {
        var v :| 0 <= v < |s.workers| && s.workers[v] == Holding(i);
        assert t.workers[v] == Holding(i);
      }
    }
  }

  lemma DeliverCounts<R>(s: State<R>, w: nat)
    requires Counts(s) && Step(s, Deliver(w)).Some? && s.results[s.workers[w].line].None?
    ensures Counts(Step(s, Deliver(w)).value)
  {
    var t := Step(s, Deliver(w)).value;
    assert EndedSet(t.workers) == EndedSet(s.workers);
    assert Stored(t.results) == Stored(s.results) + {s.workers[w].line};
  }

  lemma DeliverKeeps<R>(s: State<R>, w: nat)
    requires Inv(s) && Step(s, Deliver(w)).Some?
    ensures Inv(Step(s, Deliver(w)).value)
  {
    var t := Step(s, Deliver(w)).value;
    DeliverCounts(s, w);
    forall i | 0 <= i < t.lines && i < t.sent && t.results[i].None? ensures Held(t, i) {
      var v :| 0 <= v < |s.workers| && s.workers[v] == Holding(i);
      assert t.workers[v] == Holding(i);
    }
  }

  lemma InitOk<R>(lines: nat, workers: nat, row: nat -> R)
    ensures Inv(Init(lines, workers, row))
  {
    var s := Init(lines, workers, row);
    assert Stored(s.results) == {} && EndedSet(s.workers) == {};
  }

  lemma {:induction false} RunKeepsInv<R>(lines: nat, workers: nat, row: nat -> R, es: seq<Event>)
    requires Run(Step<R>, Init(lines, workers, row), es).Some?
    ensures var s := Run(Step<R>, Init(lines, workers, row), es).value;
      Inv(s) && s.lines == lines && |s.workers| == workers && s.row == row && |es| == s.sent + s.got
    decreases |es|
  {
    if es == [] {
      InitOk(lines, workers, row);
    } else {
      RunKeepsInv(lines, workers, row, es[..|es| - 1]);
      var s := Run(Step<R>, Init(lines, workers, row), es[..|es| - 1]).value;
      match es[|es| - 1]
      case Take(w) => TakeKeeps(s, w);
      case Deliver(w) => DeliverKeeps(s, w);
    }
  }

  // ---------- what the farm promises ----------

  /** Everything is done: each worker has taken its sentinel and every row is in place. */
  ghost predicate Done<R>(s: State<R>) {
    && s.sent == s.lines + |s.workers| && s.got == s.lines
    && (forall w :: 0 <= w < |s.workers| ==> s.workers[w].Ended?)
    && |s.results| == s.lines && (forall i :: 0 <= i < s.lines ==> s.results[i] == Some(s.row(i)))
    && s.computed == seq(s.lines, i => i)
  }

  ghost predicate CanStep<R>(s: State<R>) { exists e :: Step(s, e).Some? }

  /** A line that is held can be delivered: the consumer is still waiting for it. */
  lemma HeldIsAwaited<R>(s: State<R>, w: nat)
    requires Inv(s) && w < |s.workers| && s.workers[w].Holding?
    ensures Step(s, Deliver(w)).Some?
  {
    var line := s.workers[w].line;
    assert line in Below(s.lines) && Stored(s.results) <= Below(s.lines) - {line};
    SubsetOfSameSize(Stored(s.results), Below(s.lines) - {line});
  }

  /** Some worker is left to take the next item. */
  lemma SomebodyAsks<R>(s: State<R>)
    requires Inv(s) && s.sent < s.lines + |s.workers| && |s.workers| > 0
    requires forall w :: 0 <= w < |s.workers| ==> !s.workers[w].Holding?
    ensures CanStep(s)
  {
    assert EndedSet(s.workers) <= Below(|s.workers|);
    var w := Missing(EndedSet(s.workers), Below(|s.workers|));
    assert w in Below(|s.workers|);
    assert Step(s, Take(w)).Some?;
  }

  lemma AllEnded<R>(s: State<R>)
    requires Counts(s) && s.sent == s.lines + |s.workers|
    ensures forall w :: 0 <= w < |s.workers| ==> s.workers[w].Ended?
  {
    assert EndedSet(s.workers) <= Below(|s.workers|);
    SubsetOfSameSize(EndedSet(s.workers), Below(|s.workers|));
    forall w | 0 <= w < |s.workers| ensures s.workers[w].Ended? {
      assert w in Below(|s.workers|);
    }
  }

  lemma AllStored<R>(s: State<R>)
    requires Inv(s) && s.sent >= s.lines && forall w :: 0 <= w < |s.workers| ==> !s.workers[w].Holding?
    ensures s.got == s.lines && forall i :: 0 <= i < s.lines ==> s.results[i] == Some(s.row(i))
  {
    forall i | 0 <= i < s.lines ensures s.results[i].Some? {
      assert !Held(s, i);
    }
    assert Stored(s.results) == Below(s.lines);
  }

  lemma StopsOnlyWhenDone<R>(s: State<R>)
    requires Inv(s) && |s.workers| > 0
    ensures CanStep(s) || Done(s)
  {
    if w :| 0 <= w < |s.workers| && s.workers[w].Holding? {
      HeldIsAwaited(s, w);
    } else if s.sent < s.lines + |s.workers| {
      SomebodyAsks(s);
    } else {
      AllStored(s);
      AllEnded(s);
    }
  }

  lemma DoneStops<R>(s: State<R>)
    requires Done(s)
    ensures !CanStep(s)
  {
  }

  /** Every run can be extended until everything is done and no further. */
  ghost predicate Completes<R(!new)>(lines: nat, workers: nat, row: nat -> R) {
    forall es :: Run(Step<R>, Init(lines, workers, row), es).Some? ==>
      var s := Run(Step<R>, Init(lines, workers, row), es).value;
      && (CanStep(s) <==> !Done(s))
      && (if Done(s) then |es| == 2 * lines + workers else |es| < 2 * lines + workers)
  }

  lemma NotMoreThanAll<R>(s: State<R>)
    requires Inv(s)
    ensures s.sent <= s.lines + |s.workers| && s.got <= s.lines
    ensures !Done(s) && (|s.workers| > 0 || s.lines == 0) ==> s.sent + s.got < 2 * s.lines + |s.workers|
  {
    assert Stored(s.results) <= Below(s.lines);
    SubsetOfSameSize(Stored(s.results), Below(s.lines));
    if s.sent == s.lines + |s.workers| && s.got == s.lines {
      AllEnded(s);
      forall i | 0 <= i < s.lines ensures s.results[i].Some? {
        assert i in Below(s.lines);
      }
    }
  }

  lemma RunsComplete<R(!new)>(lines: nat, workers: nat, row: nat -> R, es: seq<Event>)
    requires Run(Step<R>, Init(lines, workers, row), es).Some? && (workers >= 1 || lines == 0)
    ensures var s := Run(Step<R>, Init(lines, workers, row), es).value;
      && (CanStep(s) <==> !Done(s))
      && (if Done(s) then |es| == 2 * lines + workers else |es| < 2 * lines + workers)
  {
    RunKeepsInv(lines, workers, row, es);
    var s := Run(Step<R>, Init(lines, workers, row), es).value;
    NotMoreThanAll(s);
    if workers >= 1 {
      StopsOnlyWhenDone(s);
    }
    if Done(s) {
      DoneStops(s);
    }
  }

  lemma NobodyToAsk<R(!new)>(lines: nat, row: nat -> R)
    requires lines > 0
    ensures !Completes(lines, 0, row)
  {
    var s := Init(lines, 0, row);
    assert Run(Step<R>, s, []) == Some(s);
    assert !CanStep(s) && !Done(s);
  }

  /** The farm is exactly-once and terminates under every interleaving, in 2 * lines +
      workers communications, if and only if there is a worker or nothing to do. */
  lemma CompletesExactlyWhen<R(!new)>(lines: nat, workers: nat, row: nat -> R)
    ensures Completes(lines, workers, row) <==> workers >= 1 || lines == 0
  {
    if workers >= 1 || lines == 0 {
      forall es | Run(Step<R>, Init(lines, workers, row), es).Some?
        ensures var s := Run(Step<R>, Init(lines, workers, row), es).value;
          && (CanStep(s) <==> !Done(s))
          && (if Done(s) then |es| == 2 * lines + workers else |es| < 2 * lines + workers)
      {
        RunsComplete(lines, workers, row, es);
      }
    } else {
      NobodyToAsk(lines, row);
    }
  }

  lemma {:induction false} OncePerNumber(n: nat, i: nat)
    ensures multiset(seq(n, k => k))[i] == (if i < n then 1 else 0)
  {
    if n > 0 {
      OncePerNumber(n - 1, i);
      assert seq(n, k => k) == seq(n - 1, k => k) + [n - 1];
    }
  }

  /** In the middle of a run no line is held twice, computed twice, or stored wrongly, and a
      line sent is either held by a worker or stored. */
  lemma ExactlyOnce<R(!new)>(lines: nat, workers: nat, row: nat -> R, es: seq<Event>, i: nat)
    requires Run(Step<R>, Init(lines, workers, row), es).Some? && i < lines
    ensures var s := Run(Step<R>, Init(lines, workers, row), es).value;
      && |s.results| == lines
      && (s.results[i].Some? ==> s.results[i] == Some(row(i)))
      && (i < s.sent <==> s.results[i].Some? || Held(s, i))
      && (forall v, w :: 0 <= v < w < |s.workers| && s.workers[v] == Holding(i) ==> s.workers[w] != Holding(i))
      && multiset(s.computed)[i] == (if i < s.sent then 1 else 0)
  {
    RunKeepsInv(lines, workers, row, es);
    var s := Run(Step<R>, Init(lines, workers, row), es).value;
    OncePerNumber(if s.sent < lines then s.sent else lines, i);
  }

  // ---------- the workers work in parallel ----------

  /** No worker ever waits for another: one that asks is given the next item, and one that holds
      a line delivers its row. */
  lemma WorkersNeverWait<R(!new)>(lines: nat, workers: nat, row: nat -> R, es: seq<Event>, w: nat)
    requires Run(Step<R>, Init(lines, workers, row), es).Some? && w < workers
    ensures var s := Run(Step<R>, Init(lines, workers, row), es).value;
      && |s.workers| == workers
      && (Step(s, Take(w)).Some? <==> s.workers[w].Asking?)
      && (Step(s, Deliver(w)).Some? <==> s.workers[w].Holding?)
  {
    RunKeepsInv(lines, workers, row, es);
    var s := Run(Step<R>, Init(lines, workers, row), es).value;
    if s.workers[w].Holding? {
      HeldIsAwaited(s, w);
    } else if s.workers[w].Asking? {
      assert w in Below(workers) && EndedSet(s.workers) <= Below(workers) - {w};
      SubsetOfSameSize(EndedSet(s.workers), Below(workers) - {w});
    }
  }

  /** A step moves one worker: it is given the next line, or the sentinel that ends it, or goes
      back for more. */
  lemma OneMovesAtATime<R(!new)>(lines: nat, workers: nat, row: nat -> R, es: seq<Event>, e: Event)
    requires Run(Step<R>, Init(lines, workers, row), es).Some?
    requires Step(Run(Step<R>, Init(lines, workers, row), es).value, e).Some?
    ensures var s := Run(Step<R>, Init(lines, workers, row), es).value;
      var t := Step(s, e).value;
      && e.w < |s.workers| && t.workers == s.workers[e.w := t.workers[e.w]] && |t.workers| == |s.workers|
      && t.workers[e.w] == (if e.Deliver? then Asking else if s.sent < lines then Holding(s.sent) else Ended)
  {
    RunKeepsInv(lines, workers, row, es);
  }

  function Begun<R>(lines: nat, workers: nat, row: nat -> R, k: nat): State<R>
    requires k <= workers && k <= lines
  {
    Init(lines, workers, row).(
      workers := seq(workers, w requires 0 <= w < workers => if w < k then Holding(w) else Asking),
      sent := k, computed := seq(k, i => i))
  }

  /** All workers can be at work at once, on different lines. */
  lemma {:induction false} AllWorkAtOnce<R(!new)>(lines: nat, workers: nat, row: nat -> R, k: nat)
    returns (es: seq<Event>)
    requires k <= workers && k <= lines
    ensures Run(Step<R>, Init(lines, workers, row), es) == Some(Begun(lines, workers, row, k))
    decreases k
  {
    if k == 0 {
      es := [];
      assert Init(lines, workers, row).workers == Begun(lines, workers, row, 0).workers;
      assert Init(lines, workers, row).computed == Begun(lines, workers, row, 0).computed;
    } else {
      es := AllWorkAtOnce(lines, workers, row, k - 1);
      Snoc(Step<R>, Init(lines, workers, row), es, Take(k - 1));
      es := es + [Take(k - 1)];
      var s := Begun(lines, workers, row, k - 1);
      assert s.workers[k - 1 := Holding(k - 1)] == Begun(lines, workers, row, k).workers;
      assert s.computed + [k - 1] == Begun(lines, workers, row, k).computed;
    }
  }
}
