/** The merges as processes (csp/plugnplay/merge.h:51-109).

    Each merge of the network reads and writes on rendezvous channels, and any communication
    that is possible may come next.  Every interleaving writes the stream that module Merge
    computes, and none gets stuck. */
module MergeNetwork {
  import opened Runs
  import opened Merge

  /** A read from the first or the second input, into `v1` or `v2`. */
  datatype Read = Read(fromFirst: bool, intoFirst: bool)

  /** The processes below an output channel.  A source offers its stream; a merge with no read
      left to do offers the smaller of its two values. */
  datatype Net = Source(f: Stream, sent: nat) | Merger(left: Net, right: Net, m: Loop, todo: seq<Read>)

  const BOTH := [Read(true, true), Read(false, false)]

  function Fresh(t: Tree): Net {
    match t
    case Input(f) => Source(f, 0)
    case Node(l, r) => Merger(Fresh(l), Fresh(r), Loop(0, 0, 0, 0), BOTH)
  }

  /** What a merge reads after it has written (merge.h:64-79). */
  function Refills(repaired: bool, m: Loop): seq<Read> {
    if m.v1 < m.v2 then [Read(true, true)]
    else if m.v1 > m.v2 then [Read(!repaired, false)]
    else BOTH
  }

  function DoRead(m: Loop, r: Read, x: int): Loop {
    var n := if r.fromFirst then m.(i := m.i + 1) else m.(j := m.j + 1);
    if r.intoFirst then n.(v1 := x) else n.(v2 := x)
  }

  predicate Offers(net: Net) { net.Source? || net.todo == [] }

  function Front(net: Net): int
    requires Offers(net)
  {
    if net.Source? then net.f(net.sent) else Emit(net.m)
  }

  /** The network after its output was read. */
  function Sent(repaired: bool, net: Net): Net
    requires Offers(net)
  {
    match net
    case Source(f, sent) => Source(f, sent + 1)
    case Merger(l, r, m, _) => Merger(l, r, m, Refills(repaired, m))
  }

  function Writer(net: Net): Net
    requires net.Merger? && net.todo != []
  {
    if net.todo[0].fromFirst then net.left else net.right
  }

  /** The topmost merge communicates with the process it reads from. */
  function Communicate(repaired: bool, net: Net): Option<Net> {
    if net.Source? || net.todo == [] || !Offers(Writer(net)) then None
    else
      var r, child := net.todo[0], Writer(net);
      var t := if r.fromFirst then net.(left := Sent(repaired, child)) else net.(right := Sent(repaired, child));
      Some(t.(m := DoRead(net.m, r, Front(child)), todo := net.todo[1..]))
  }

  /** `path` leads to the merge that reads: true to the left, false to the right. */
  function Inner(repaired: bool, net: Net, path: seq<bool>): Option<Net>
    decreases |path|
  {
    if path == [] then Communicate(repaired, net)
    else if net.Source? then None
    else
      match Inner(repaired, if path[0] then net.left else net.right, path[1..])
      case None => None
      case Some(child) => Some(if path[0] then net.(left := child) else net.(right := child))
  }

  datatype State = State(repaired: bool, net: Net, out: seq<int>)

  datatype Event = Inside(path: seq<bool>) | Output

  function Init(repaired: bool, t: Tree): State { State(repaired, Fresh(t), []) }

  function Step(s: State, e: Event): Option<State> {
    match e
    case Inside(path) =>
      (match Inner(s.repaired, s.net, path)
       case None => None
       case Some(net) => Some(s.(net := net)))
    case Output =>
      if Offers(s.net) then Some(s.(net := Sent(s.repaired, s.net), out := s.out + [Front(s.net)])) else None
  }

  // ---------- every interleaving writes the same ----------

  /** The loop of a merge when its reads are done. */
  function Finished(m: Loop, todo: seq<Read>, f: Stream, g: Stream): Loop
    decreases |todo|
  {
    if todo == [] then m
    else Finished(DoRead(m, todo[0], if todo[0].fromFirst then f(m.i) else g(m.j)), todo[1..], f, g)
  }

  /** The loop of a merge that has written `n` values. */
  ghost predicate InLoop(repaired: bool, m: Loop, todo: seq<Read>, f: Stream, g: Stream, n: nat) {
    Finished(m, todo, f, g) == At(repaired, f, g, n)
  }

  /** The network of `t` after `n` outputs. */
  ghost predicate Follows(repaired: bool, net: Net, t: Tree, n: nat)
    decreases t
  {
    match t
    case Input(f) => net == Source(f, n)
    case Node(l, r) =>
      && net.Merger? && Follows(repaired, net.left, l, net.m.i) && Follows(repaired, net.right, r, net.m.j)
      && InLoop(repaired, net.m, net.todo, Merged(repaired, l), Merged(repaired, r), n)
  }

  lemma BothFirst(f: Stream, g: Stream, m: Loop)
    ensures Finished(m, BOTH, f, g) == Loop(m.i + 1, m.j + 1, f(m.i), g(m.j))
  {
    var one := DoRead(m, BOTH[0], f(m.i));
    assert BOTH[1..] == [Read(false, false)] && BOTH[1..][1..] == [];
    assert Finished(one, BOTH[1..], f, g) == DoRead(one, BOTH[1], g(one.j));
  }

  lemma {:induction false} FreshFollows(repaired: bool, t: Tree)
    ensures Follows(repaired, Fresh(t), t, 0)
  {
    if t.Node? {
      FreshFollows(repaired, t.left);
      FreshFollows(repaired, t.right);
      BothFirst(Merged(repaired, t.left), Merged(repaired, t.right), Loop(0, 0, 0, 0));
    }
  }

  lemma {:induction false} FrontIsNext(repaired: bool, net: Net, t: Tree, n: nat)
    requires Follows(repaired, net, t, n) && Offers(net)
    ensures Front(net) == Merged(repaired, t)(n)
  {
  }

  lemma RefillsAreATurn(repaired: bool, f: Stream, g: Stream, m: Loop)
    ensures Finished(m, Refills(repaired, m), f, g) == Turn(repaired, f, g, m)
  {
    BothFirst(f, g, m);
    forall r: Read ensures Finished(m, [r], f, g) == DoRead(m, r, if r.fromFirst then f(m.i) else g(m.j)) {
      assert [r][1..] == [];
    }
  }

  lemma {:induction false} SentFollows(repaired: bool, net: Net, t: Tree, n: nat)
    requires Follows(repaired, net, t, n) && Offers(net)
    ensures Follows(repaired, Sent(repaired, net), t, n + 1)
  {
    if t.Node? {
      RefillsAreATurn(repaired, Merged(repaired, t.left), Merged(repaired, t.right), net.m);
    }
  }

  /** One read, of the value `x` that is next in the input it comes from. */
  lemma ReadStaysInLoop(repaired: bool, m: Loop, todo: seq<Read>, f: Stream, g: Stream, n: nat, x: int)
    requires InLoop(repaired, m, todo, f, g, n) && todo != [] && x == if todo[0].fromFirst then f(m.i) else g(m.j)
    ensures InLoop(repaired, DoRead(m, todo[0], x), todo[1..], f, g, n)
  {
  }

  /** `child`, which follows `side`, offers the value that is due, and becomes `next`. */
  ghost predicate GivesItsNext(repaired: bool, child: Net, next: Net, side: Tree, k: nat) {
    && Offers(child) && next == Sent(repaired, child)
    && Front(child) == Merged(repaired, side)(k) && Follows(repaired, next, side, k + 1)
  }

  lemma {:induction false} ReadFromFirst(repaired: bool, net: Net, next: Net, t: Tree, n: nat)
    requires Follows(repaired, net, t, n) && t.Node? && net.todo != [] && net.todo[0].fromFirst
    requires GivesItsNext(repaired, net.left, next, t.left, net.m.i)
    ensures Follows(repaired, Merger(next, net.right, DoRead(net.m, net.todo[0], Front(net.left)), net.todo[1..]), t, n)
  {
    ReadStaysInLoop(repaired, net.m, net.todo, Merged(repaired, t.left), Merged(repaired, t.right), n,
                    Front(net.left));
  }

  lemma {:induction false} ReadFromSecond(repaired: bool, net: Net, next: Net, t: Tree, n: nat)
    requires Follows(repaired, net, t, n) && t.Node? && net.todo != [] && !net.todo[0].fromFirst
    requires GivesItsNext(repaired, net.right, next, t.right, net.m.j)
    ensures Follows(repaired, Merger(net.left, next, DoRead(net.m, net.todo[0], Front(net.right)), net.todo[1..]), t, n)
  {
    ReadStaysInLoop(repaired, net.m, net.todo, Merged(repaired, t.left), Merged(repaired, t.right), n,
                    Front(net.right));
  }

  lemma {:induction false} GivesWhatFollows(repaired: bool, child: Net, side: Tree, k: nat)
    requires Follows(repaired, child, side, k) && Offers(child)
    ensures GivesItsNext(repaired, child, Sent(repaired, child), side, k)
  {
    FrontIsNext(repaired, child, side, k);
    SentFollows(repaired, child, side, k);
  }

  lemma {:induction false} CommunicateFollows(repaired: bool, net: Net, t: Tree, n: nat)
    requires Follows(repaired, net, t, n) && Communicate(repaired, net).Some?
    ensures Follows(repaired, Communicate(repaired, net).value, t, n)
  {
    var next := Sent(repaired, Writer(net));
    if net.todo[0].fromFirst {
      GivesWhatFollows(repaired, net.left, t.left, net.m.i);
      ReadFromFirst(repaired, net, next, t, n);
    } else {
      GivesWhatFollows(repaired, net.right, t.right, net.m.j);
      ReadFromSecond(repaired, net, next, t, n);
    }
  }

  lemma {:induction false} InnerFollows(repaired: bool, net: Net, t: Tree, n: nat, path: seq<bool>)
    requires Follows(repaired, net, t, n) && Inner(repaired, net, path).Some?
    ensures Follows(repaired, Inner(repaired, net, path).value, t, n)
    decreases |path|
  {
    if path == [] {
      CommunicateFollows(repaired, net, t, n);
    } else if path[0] {
      InnerFollows(repaired, net.left, t.left, net.m.i, path[1..]);
    } else {
      InnerFollows(repaired, net.right, t.right, net.m.j, path[1..]);
    }
  }

  predicate Begins(out: seq<int>, h: Stream) { forall k :: 0 <= k < |out| ==> out[k] == h(k) }

  ghost predicate Inv(s: State, t: Tree) {
    Follows(s.repaired, s.net, t, |s.out|) && Begins(s.out, Merged(s.repaired, t))
  }

  lemma OneMoreOutput(out: seq<int>, h: Stream, x: int)
    requires Begins(out, h) && x == h(|out|)
    ensures Begins(out + [x], h)
  {
  }

  lemma {:induction false} NextOutput(repaired: bool, net: Net, t: Tree, n: nat, out: seq<int>)
    requires Follows(repaired, net, t, n) && Offers(net) && Begins(out, Merged(repaired, t)) && n == |out|
    ensures Follows(repaired, Sent(repaired, net), t, n + 1) && Begins(out + [Front(net)], Merged(repaired, t))
  {
    FrontIsNext(repaired, net, t, n);
    SentFollows(repaired, net, t, n);
    OneMoreOutput(out, Merged(repaired, t), Front(net));
  }

  lemma {:induction false} OutputKeepsInv(s: State, t: Tree)
    requires Inv(s, t) && Step(s, Output).Some?
    ensures Inv(Step(s, Output).value, t)
  {
    var n := |s.out|;
    NextOutput(s.repaired, s.net, t, n, s.out);
    assert |s.out + [Front(s.net)]| == n + 1;
  }

  lemma {:induction false} StepKeepsInv(s: State, t: Tree, e: Event)
    requires Inv(s, t) && Step(s, e).Some?
    ensures Inv(Step(s, e).value, t) && Step(s, e).value.repaired == s.repaired
  {
    match e
    case Inside(path) => InnerFollows(s.repaired, s.net, t, |s.out|, path);
    case Output => OutputKeepsInv(s, t);
  }

  lemma {:induction false} RunKeepsInv(repaired: bool, t: Tree, es: seq<Event>)
    requires Run(Step, Init(repaired, t), es).Some?
    ensures var s := Run(Step, Init(repaired, t), es).value; Inv(s, t) && s.repaired == repaired
    decreases |es|
  {
    if es == [] {
      FreshFollows(repaired, t);
    } else {
      RunKeepsInv(repaired, t, es[..|es| - 1]);
      StepKeepsInv(Run(Step, Init(repaired, t), es[..|es| - 1]).value, t, es[|es| - 1]);
    }
  }

  /** However the communications of the network interleave, it writes the stream `Network`,
      with line 71 repaired or as it is. */
  lemma {:induction false} EveryRunWritesTheStream(repaired: bool, ins: seq<Stream>, es: seq<Event>)
    requires |ins| >= 2 && Run(Step, Init(repaired, Shape(ins)), es).Some?
    ensures var out := Run(Step, Init(repaired, Shape(ins)), es).value.out;
      forall k :: 0 <= k < |out| ==> out[k] == Network(repaired, ins)(k)
  {
    RunKeepsInv(repaired, Shape(ins), es);
  }

  // ---------- and never sticks ----------

  ghost predicate CanMove(repaired: bool, net: Net) { exists path :: Inner(repaired, net, path).Some? }

  lemma {:induction false} OffersOrMoves(repaired: bool, net: Net)
    ensures Offers(net) || CanMove(repaired, net)
  {
    if !Offers(net) {
      var child := Writer(net);
      if Offers(child) {
        assert Inner(repaired, net, []).Some?;
      } else {
        OffersOrMoves(repaired, child);
        var path :| Inner(repaired, child, path).Some?;
        var longer := [net.todo[0].fromFirst] + path;
        assert longer[1..] == path;
        assert Inner(repaired, net, longer).Some?;
      }
    }
  }

  /** Something can always happen: an output, or a communication inside. */
  lemma NeverSticks(s: State)
    ensures exists e :: Step(s, e).Some?
  {
    OffersOrMoves(s.repaired, s.net);
    if Offers(s.net) {
      assert Step(s, Output).Some?;
    } else {
      var path :| Inner(s.repaired, s.net, path).Some?;
      assert Step(s, Inside(path)).Some?;
    }
  }

  /** The part of the network that `path` leads to. */
  function Part(net: Net, path: seq<bool>): Option<Net>
    decreases |path|
  {
    if path == [] then Some(net)
    else if net.Source? then None
    else Part(if path[0] then net.left else net.right, path[1..])
  }

  lemma {:induction false} PartCommunicates(repaired: bool, net: Net, path: seq<bool>)
    ensures Inner(repaired, net, path).Some? <==>
      && Part(net, path).Some?
      && var part := Part(net, path).value;
         part.Merger? && part.todo != [] && Offers(Writer(part))
    decreases |path|
  {
    if path != [] && net.Merger? {
      PartCommunicates(repaired, if path[0] then net.left else net.right, path[1..]);
    }
  }

  /** A merge that has a read to do waits for the process it reads from and for nothing else,
      wherever it is in the network and whatever the others do; and so does the output. */
  lemma MergesWaitForTheirInputs(s: State, path: seq<bool>)
    ensures Step(s, Inside(path)).Some? <==>
      && Part(s.net, path).Some?
      && var part := Part(s.net, path).value;
         part.Merger? && part.todo != [] && Offers(Writer(part))
    ensures Step(s, Output).Some? <==> Offers(s.net)
  {
    PartCommunicates(s.repaired, s.net, path);
  }

  function Merges(net: Net): nat { if net.Source? then 0 else Merges(net.left) + Merges(net.right) + 1 }

  /** No more than one read from each input. */
  predicate FewReads(todo: seq<Read>) { |todo| <= 1 || (|todo| == 2 && todo[0].fromFirst != todo[1].fromFirst) }

  predicate Orderly(net: Net) { net.Source? || (FewReads(net.todo) && Orderly(net.left) && Orderly(net.right)) }

  /** A read, and the communications of the process below until it offers again. */
  function Cost(net: Net, r: Read): nat
    requires net.Merger?
  {
    1 + 2 * Merges(if r.fromFirst then net.left else net.right)
  }

  function Costs(net: Net): nat
    requires net.Merger? && FewReads(net.todo)
  {
    if net.todo == [] then 0
    else if |net.todo| == 1 then Cost(net, net.todo[0])
    else Cost(net, net.todo[0]) + Cost(net, net.todo[1])
  }

  /** How many communications inside are possible without an output. */
  function Budget(net: Net): nat
    requires Orderly(net)
  {
    if net.Source? then 0 else Budget(net.left) + Budget(net.right) + Costs(net)
  }

  lemma {:induction false} SentCosts(repaired: bool, net: Net)
    requires Offers(net) && Orderly(net)
    ensures var t := Sent(repaired, net);
      Orderly(t) && Merges(t) == Merges(net) && Budget(t) <= Budget(net) + 2 * Merges(net)
  {
  }

  lemma {:induction false} CommunicateCosts(repaired: bool, net: Net)
    requires Orderly(net) && Communicate(repaired, net).Some?
    ensures var t := Communicate(repaired, net).value;
      Orderly(t) && Merges(t) == Merges(net) && Budget(t) < Budget(net)
  {
    var t := Communicate(repaired, net).value;
    SentCosts(repaired, Writer(net));
    assert Costs(net) == Cost(net, net.todo[0]) + Costs(t);
  }

  lemma {:induction false} InnerCosts(repaired: bool, net: Net, path: seq<bool>)
    requires Orderly(net) && Inner(repaired, net, path).Some?
    ensures var t := Inner(repaired, net, path).value;
      Orderly(t) && Merges(t) == Merges(net) && Budget(t) < Budget(net)
    decreases |path|
  {
    if path == [] {
      CommunicateCosts(repaired, net);
    } else {
      InnerCosts(repaired, if path[0] then net.left else net.right, path[1..]);
    }
  }

  lemma CostsAreSmall(net: Net)
    requires net.Merger? && FewReads(net.todo)
    ensures Costs(net) <= 2 + 2 * Merges(net.left) + 2 * Merges(net.right)
  {
  }

  lemma MoreMerges(a: nat, b: nat)
    ensures a * (a + 1) + b * (b + 1) + 2 + 2 * a + 2 * b <= (a + b + 1) * (a + b + 2)
  {
    assert (a + b) * (a + b) == a * a + 2 * (a * b) + b * b;
    assert (a + b + 1) * (a + b + 2) == (a + b) * (a + b) + 3 * (a + b) + 2;
  }

  lemma {:induction false} BudgetIsSmall(net: Net)
    requires Orderly(net)
    ensures Budget(net) <= Merges(net) * (Merges(net) + 1)
  {
    if net.Merger? {
      BudgetIsSmall(net.left);
      BudgetIsSmall(net.right);
      var a, b := Merges(net.left), Merges(net.right);
      CostsAreSmall(net);
      MoreMerges(a, b);
    }
  }

  lemma BudgetOf(net: Net, n: nat)
    requires Orderly(net) && Merges(net) == n - 1
    ensures Budget(net) <= (n - 1) * n
  {
    BudgetIsSmall(net);
  }

  lemma {:induction false} FreshIsOrderly(t: Tree)
    ensures Orderly(Fresh(t)) && Merges(Fresh(t)) == |Inputs(t)| - 1
  {
    if t.Node? {
      FreshIsOrderly(t.left);
      FreshIsOrderly(t.right);
    }
  }

  lemma {:induction false} RunIsOrderly(repaired: bool, t: Tree, es: seq<Event>)
    requires Run(Step, Init(repaired, t), es).Some?
    ensures var net := Run(Step, Init(repaired, t), es).value.net;
      Orderly(net) && Merges(net) == |Inputs(t)| - 1
    decreases |es|
  {
    if es == [] {
      FreshIsOrderly(t);
    } else {
      RunIsOrderly(repaired, t, es[..|es| - 1]);
      var s := Run(Step, Init(repaired, t), es[..|es| - 1]).value;
      match es[|es| - 1]
      case Inside(path) => InnerCosts(s.repaired, s.net, path);
      case Output => SentCosts(s.repaired, s.net);
    }
  }

  lemma {:induction false} InsideIsBounded(s: State, es: seq<Event>)
    requires Orderly(s.net) && Run(Step, s, es).Some? && forall k :: 0 <= k < |es| ==> es[k].Inside?
    ensures var t := Run(Step, s, es).value; Orderly(t.net) && Budget(t.net) + |es| <= Budget(s.net)
    decreases |es|
  {
    if es != [] {
      InsideIsBounded(s, es[..|es| - 1]);
      var t := Run(Step, s, es[..|es| - 1]).value;
      InnerCosts(t.repaired, t.net, es[|es| - 1].path);
    }
  }

  /** The network of n inputs makes at most (n - 1) n communications between two outputs, in
      any interleaving, so with `NeverSticks` the next output always comes. */
  lemma {:induction false} OutputsKeepComing(repaired: bool, ins: seq<Stream>, es: seq<Event>, fs: seq<Event>)
    requires |ins| >= 2 && Run(Step, Init(repaired, Shape(ins)), es).Some?
    requires Run(Step, Run(Step, Init(repaired, Shape(ins)), es).value, fs).Some?
    requires |fs| > (|ins| - 1) * |ins|
    ensures exists k :: 0 <= k < |fs| && fs[k].Output?
  {
    RunIsOrderly(repaired, Shape(ins), es);
    var s := Run(Step, Init(repaired, Shape(ins)), es).value;
    if forall k :: 0 <= k < |fs| ==> fs[k].Inside? {
      InsideIsBounded(s, fs);
      BudgetOf(s.net, |ins|);
    }
  }
}
