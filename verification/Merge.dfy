/** Merging ascending streams (csp/plugnplay/merge.h).

    A process that only reads and writes channels in a fixed order computes a function from
    its input streams to its output stream, and a network of such processes the composition
    of these functions.  Channels are streams here; MergeNetwork has the processes.  The
    elements are integers, so an ascending stream is unbounded. */
module Merge {
  type Stream = nat -> int

  /** The two-input loop: `i` and `j` values have been read from the two inputs. */
  datatype Loop = Loop(i: nat, j: nat, v1: int, v2: int)

  function Start(f: Stream, g: Stream): Loop { Loop(1, 1, f(0), g(0)) }

  /** One turn.  When `v2` is written it is refilled from the second input if `repaired`,
      and from the first as the source has it (merge.h:71) if not. */
  function Turn(repaired: bool, f: Stream, g: Stream, m: Loop): Loop {
    if m.v1 < m.v2 then Loop(m.i + 1, m.j, f(m.i), m.v2)
    else if m.v1 > m.v2 then
      if repaired then Loop(m.i, m.j + 1, m.v1, g(m.j)) else Loop(m.i + 1, m.j, m.v1, f(m.i))
    else Loop(m.i + 1, m.j + 1, f(m.i), g(m.j))
  }

  function Emit(m: Loop): int { if m.v1 <= m.v2 then m.v1 else m.v2 }

  function At(repaired: bool, f: Stream, g: Stream, n: nat): Loop {
    if n == 0 then Start(f, g) else Turn(repaired, f, g, At(repaired, f, g, n - 1))
  }

  /** The stream a two-input merge writes. */
  function TwoWay(repaired: bool, f: Stream, g: Stream): Stream { (n: nat) => Emit(At(repaired, f, g, n)) }

  /** The loop itself, up to its first `count` outputs. */
  method RunTwoWay(repaired: bool, f: Stream, g: Stream, count: nat) returns (out: seq<int>)
    ensures |out| == count && forall k :: 0 <= k < count ==> out[k] == TwoWay(repaired, f, g)(k)
  {
    var v1, v2, i, j := f(0), g(0), 1, 1;
    out := [];
    while |out| < count
      invariant |out| <= count && i >= 1 && j >= 1
      invariant At(repaired, f, g, |out|) == Loop(i, j, v1, v2)
      invariant forall k :: 0 <= k < |out| ==> out[k] == TwoWay(repaired, f, g)(k)
    {
      if v1 < v2 {
        out := out + [v1];
        v1, i := f(i), i + 1;
      } else if v1 > v2 {
        out := out + [v2];
        if repaired {
          v2, j := g(j), j + 1;
        } else {
          v2, i := f(i), i + 1;
        }
      } else {
        out := out + [v1];
        v1, i := f(i), i + 1;
        v2, j := g(j), j + 1;
      }
    }
  }

  // ---------- ascending streams ----------

  ghost predicate Rises(f: Stream, n: nat) { f(n) < f(n + 1) }

  ghost predicate Ascending(f: Stream) { forall n: nat :: Rises(f, n) }

  ghost predicate Has(f: Stream, x: int) { exists n: nat :: f(n) == x }

  lemma {:induction false} Climbs(f: Stream, m: nat, n: nat)
    requires Ascending(f) && m <= n
    ensures f(n) >= f(m) + (n - m)
    decreases n - m
  {
    if m < n {
      Climbs(f, m, n - 1);
      assert Rises(f, n - 1);
    }
  }

  ghost predicate InSome(fs: seq<Stream>, x: int) { exists k :: 0 <= k < |fs| && Has(fs[k], x) }

  ghost predicate OnlyFrom(h: Stream, fs: seq<Stream>) { forall n: nat :: InSome(fs, h(n)) }

  ghost predicate HasAll(h: Stream, f: Stream) { forall n: nat :: Has(h, f(n)) }

  /** `h` is the strictly ascending stream of exactly the values of `fs`. */
  ghost predicate IsSortedUnion(h: Stream, fs: seq<Stream>) {
    && Ascending(h)
    && OnlyFrom(h, fs)
    && (forall k :: 0 <= k < |fs| ==> HasAll(h, fs[k]))
  }

  lemma NotBelow(h: Stream, h': Stream, fs: seq<Stream>, n: nat)
    requires IsSortedUnion(h, fs) && IsSortedUnion(h', fs)
    requires forall m: nat :: m < n ==> h(m) == h'(m)
    ensures h(n) <= h'(n)
  {
    assert InSome(fs, h'(n));
    var k :| 0 <= k < |fs| && Has(fs[k], h'(n));
    var a: nat :| fs[k](a) == h'(n);
    assert Has(h, fs[k](a));
    var m: nat :| h(m) == fs[k](a);
    if m < n {
      Climbs(h', m, n);
    } else {
      Climbs(h, n, m);
    }
  }

  /** There is only one such stream. */
  lemma {:induction false} SortedUnionIsUnique(h: Stream, h': Stream, fs: seq<Stream>, n: nat)
    requires IsSortedUnion(h, fs) && IsSortedUnion(h', fs)
    ensures h(n) == h'(n)
    decreases n
  {
    forall m: nat | m < n ensures h(m) == h'(m) {
      SortedUnionIsUnique(h, h', fs, m);
    }
    NotBelow(h, h', fs, n);
    NotBelow(h', h, fs, n);
  }

  // ---------- two inputs, repaired ----------

  ghost predicate Heads(f: Stream, g: Stream, m: Loop) {
    m.i >= 1 && m.j >= 1 && m.v1 == f(m.i - 1) && m.v2 == g(m.j - 1)
  }

  lemma {:induction false} HoldsHeads(f: Stream, g: Stream, n: nat)
    ensures Heads(f, g, At(true, f, g, n))
    decreases n
  {
    if n > 0 {
      HoldsHeads(f, g, n - 1);
    }
  }

  /** A turn moves past the value it wrote, and keeps the later head. */
  lemma TurnMovesOn(f: Stream, g: Stream, m: Loop)
    requires Ascending(f) && Ascending(g) && Heads(f, g, m)
    ensures var t := Turn(true, f, g, m);
      && Heads(f, g, t) && Emit(m) < Emit(t)
      && (m.v1 > Emit(m) ==> t.i == m.i && t.v2 > m.v2)
      && (m.v2 > Emit(m) ==> t.j == m.j && t.v1 > m.v1)
      && (m.v1 == Emit(m) ==> t.i == m.i + 1)
      && (m.v2 == Emit(m) ==> t.j == m.j + 1)
  {
    assert Rises(f, m.i - 1) && Rises(g, m.j - 1);
  }

  lemma TwoWayAscends(f: Stream, g: Stream)
    requires Ascending(f) && Ascending(g)
    ensures Ascending(TwoWay(true, f, g))
  {
    forall n: nat ensures Rises(TwoWay(true, f, g), n) {
      HoldsHeads(f, g, n);
      TurnMovesOn(f, g, At(true, f, g, n));
    }
  }

  /** Value `a` of the first input is written sooner or later. */
  lemma {:induction false} EmitsFirst(f: Stream, g: Stream, a: nat, n: nat, m: Loop)
    requires Ascending(f) && Ascending(g) && m == At(true, f, g, n) && m.i <= a + 1
    ensures Has(TwoWay(true, f, g), f(a))
    decreases a + 1 - m.i, if m.v2 <= f(a) then f(a) - m.v2 + 1 else 0
  {
    HoldsHeads(f, g, n);
    Climbs(f, m.i - 1, a);
    if m.v1 <= m.v2 && m.i - 1 == a {
      assert TwoWay(true, f, g)(n) == f(a);
    } else {
      TurnMovesOn(f, g, m);
      EmitsFirst(f, g, a, n + 1, Turn(true, f, g, m));
    }
  }

  lemma {:induction false} EmitsSecond(f: Stream, g: Stream, b: nat, n: nat, m: Loop)
    requires Ascending(f) && Ascending(g) && m == At(true, f, g, n) && m.j <= b + 1
    ensures Has(TwoWay(true, f, g), g(b))
    decreases b + 1 - m.j, if m.v1 <= g(b) then g(b) - m.v1 + 1 else 0
  {
    HoldsHeads(f, g, n);
    Climbs(g, m.j - 1, b);
    if m.v2 <= m.v1 && m.j - 1 == b {
      assert TwoWay(true, f, g)(n) == g(b);
    } else {
      TurnMovesOn(f, g, m);
      EmitsSecond(f, g, b, n + 1, Turn(true, f, g, m));
    }
  }

  lemma TwoWayInvents(f: Stream, g: Stream, n: nat)
    ensures Has(f, TwoWay(true, f, g)(n)) || Has(g, TwoWay(true, f, g)(n))
  {
    HoldsHeads(f, g, n);
    var m := At(true, f, g, n);
    assert f(m.i - 1) == m.v1 && g(m.j - 1) == m.v2;
  }

  /** The repaired two-input merge writes the sorted union of its inputs. */
  lemma TwoWayIsSortedUnion(f: Stream, g: Stream)
    requires Ascending(f) && Ascending(g)
    ensures IsSortedUnion(TwoWay(true, f, g), [f, g])
  {
    var h, fs := TwoWay(true, f, g), [f, g];
    TwoWayAscends(f, g);
    forall n: nat ensures InSome(fs, h(n)) {
      TwoWayInvents(f, g, n);
      assert fs[0] == f && fs[1] == g;
    }
    forall n: nat ensures Has(h, f(n)) {
      EmitsFirst(f, g, n, 0, Start(f, g));
    }
    forall n: nat ensures Has(h, g(n)) {
      EmitsSecond(f, g, n, 0, Start(f, g));
    }
    assert HasAll(h, fs[0]) && HasAll(h, fs[1]);
  }

  // ---------- any number of inputs ----------

  /** An arrangement of two-input merges. */
  datatype Tree = Input(f: Stream) | Node(left: Tree, right: Tree)

  function Inputs(t: Tree): (ins: seq<Stream>)
    ensures |ins| > 0
  {
    match t
    case Input(f) => [f]
    case Node(l, r) => Inputs(l) + Inputs(r)
  }

  /** The stream it writes. */
  function Merged(repaired: bool, t: Tree): Stream {
    match t
    case Input(f) => f
    case Node(l, r) => TwoWay(repaired, Merged(repaired, l), Merged(repaired, r))
  }

  /** The arrangement that `merge::run` builds. */
  function Shape(ins: seq<Stream>): (t: Tree)
    requires |ins| >= 2
    ensures Inputs(t) == ins
    decreases |ins|
  {
    if |ins| == 2 then Node(Input(ins[0]), Input(ins[1]))
    else if |ins| == 3 then
      var first := Node(Input(ins[0]), Input(ins[1]));
      assert Inputs(first) == [ins[0], ins[1]];
      Node(first, Input(ins[2]))
    else
      var n := |ins| / 2;
      Node(Shape(ins[..n]), Shape(ins[n..]))
  }

  function Network(repaired: bool, ins: seq<Stream>): Stream
    requires |ins| >= 2
  {
    Merged(repaired, Shape(ins))
  }

  ghost predicate AllAscending(ins: seq<Stream>) { forall k :: 0 <= k < |ins| ==> Ascending(ins[k]) }

  lemma UnionHas(h: Stream, fs: seq<Stream>, x: int)
    requires IsSortedUnion(h, fs)
    ensures Has(h, x) ==> InSome(fs, x)
  {
    if Has(h, x) {
      var n: nat :| h(n) == x;
      assert InSome(fs, h(n));
    }
  }

  lemma HasAllThrough(h: Stream, g: Stream, f: Stream)
    requires HasAll(h, g) && HasAll(g, f)
    ensures HasAll(h, f)
  {
    forall n: nat ensures Has(h, f(n)) {
      assert Has(g, f(n));
      var m: nat :| g(m) == f(n);
      assert Has(h, g(m));
    }
  }

  /** Merging the unions of two groups gives the union of both. */
  lemma UnionOfUnions(left: Stream, right: Stream, ls: seq<Stream>, rs: seq<Stream>)
    requires IsSortedUnion(left, ls) && IsSortedUnion(right, rs)
    ensures IsSortedUnion(TwoWay(true, left, right), ls + rs)
  {
    var h, fs := TwoWay(true, left, right), ls + rs;
    TwoWayIsSortedUnion(left, right);
    forall n: nat ensures InSome(fs, h(n)) {
      TwoWayInvents(left, right, n);
      UnionHas(left, ls, h(n));
      UnionHas(right, rs, h(n));
      if InSome(ls, h(n)) {
        var k :| 0 <= k < |ls| && Has(ls[k], h(n));
        assert fs[k] == ls[k];
      } else {
        var k :| 0 <= k < |rs| && Has(rs[k], h(n));
        assert fs[|ls| + k] == rs[k];
      }
    }
    assert HasAll(h, [left, right][0]) && HasAll(h, [left, right][1]);
    forall k | 0 <= k < |fs| ensures HasAll(h, fs[k]) {
      if k < |ls| {
        HasAllThrough(h, left, ls[k]);
      } else {
        HasAllThrough(h, right, rs[k - |ls|]);
      }
    }
  }

  lemma AloneIsUnion(f: Stream)
    requires Ascending(f)
    ensures IsSortedUnion(f, [f])
  {
    forall n: nat ensures Has(f, f(n)) && InSome([f], f(n)) {
      assert [f][0] == f;
    }
  }

  lemma PartsAscend(t: Tree)
    requires t.Node? && AllAscending(Inputs(t))
    ensures AllAscending(Inputs(t.left)) && AllAscending(Inputs(t.right))
  {
    var ls, rs := Inputs(t.left), Inputs(t.right);
    forall k | 0 <= k < |ls| ensures Ascending(ls[k]) {
      assert Inputs(t)[k] == ls[k];
    }
    forall k | 0 <= k < |rs| ensures Ascending(rs[k]) {
      assert Inputs(t)[|ls| + k] == rs[k];
    }
  }

  lemma {:induction false} TreeIsSortedUnion(t: Tree)
    requires AllAscending(Inputs(t))
    ensures IsSortedUnion(Merged(true, t), Inputs(t))
  {
    match t
    case Input(f) =>
      assert f == Inputs(t)[0];
      AloneIsUnion(f);
    case Node(l, r) =>
      PartsAscend(t);
      TreeIsSortedUnion(l);
      TreeIsSortedUnion(r);
      UnionOfUnions(Merged(true, l), Merged(true, r), Inputs(l), Inputs(r));
  }

  /** For any n >= 2 ascending inputs the recursive network writes their sorted union. */
  lemma NetworkIsSortedUnion(ins: seq<Stream>)
    requires |ins| >= 2 && AllAscending(ins)
    ensures IsSortedUnion(Network(true, ins), ins)
  {
    TreeIsSortedUnion(Shape(ins));
  }

  lemma SameInputsSameUnion(h: Stream, fs: seq<Stream>, gs: seq<Stream>)
    requires IsSortedUnion(h, fs) && (forall f :: f in fs <==> f in gs)
    ensures IsSortedUnion(h, gs)
  {
    forall n: nat ensures InSome(gs, h(n)) {
      assert InSome(fs, h(n));
      var k :| 0 <= k < |fs| && Has(fs[k], h(n));
      assert fs[k] in gs;
      var m :| 0 <= m < |gs| && gs[m] == fs[k];
      assert Has(gs[m], h(n));
    }
    forall k | 0 <= k < |gs| ensures HasAll(h, gs[k]) {
      assert gs[k] in fs;
      var m :| 0 <= m < |fs| && fs[m] == gs[k];
      assert HasAll(h, fs[m]);
    }
  }

  /** The output does not depend on the shape of the network nor on the order of its inputs. */
  lemma ShapeDoesNotMatter(ins: seq<Stream>, t: Tree, n: nat)
    requires |ins| >= 2 && AllAscending(ins) && (forall f :: f in ins <==> f in Inputs(t))
    ensures Network(true, ins)(n) == Merged(true, t)(n)
  {
    forall k | 0 <= k < |Inputs(t)| ensures Ascending(Inputs(t)[k]) {
      assert Inputs(t)[k] in ins;
    }
    NetworkIsSortedUnion(ins);
    TreeIsSortedUnion(t);
    SameInputsSameUnion(Merged(true, t), Inputs(t), ins);
    SortedUnionIsUnique(Network(true, ins), Merged(true, t), ins, n);
  }
}
