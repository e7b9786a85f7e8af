/** What the merges write with line 71 of csp/plugnplay/merge.h as it is, where the second
    value is refilled from the first input. */
module MergeAsWritten {
  import opened Merge

  // ---------- two inputs, as written ----------

  predicate Greater(f: Stream, g: Stream, n: nat) { At(false, f, g, n).v1 > At(false, f, g, n).v2 }

  /** Where the second head was the smaller one for the first time. */
  ghost predicate FirstGreater(f: Stream, g: Stream, p: nat) {
    Greater(f, g, p) && forall q: nat :: q < p ==> !Greater(f, g, q)
  }

  /** The loop has copied the first `n` values of its first input. */
  predicate Copied(f: Stream, g: Stream, n: nat, m: Loop) {
    m.i == n + 1 && m.j >= 1 && m.v1 == f(n) && m.v2 == g(m.j - 1) && (n > 0 ==> f(n - 1) < m.v2)
  }

  lemma CopyTurn(f: Stream, g: Stream, n: nat, m: Loop)
    requires Ascending(f) && Ascending(g) && Copied(f, g, n, m) && m.v1 <= m.v2
    ensures var t := Turn(false, f, g, m);
      && Copied(f, g, n + 1, t) && Emit(m) == f(n)
      && (t.j == m.j || (t.j == m.j + 1 && g(m.j - 1) == f(n)))
  {
    assert Rises(f, n) && Rises(g, m.j - 1);
  }

  /** As long as no second head was the smaller one, the loop just copies its first input. */
  lemma {:induction false} CopiesFirst(f: Stream, g: Stream, n: nat)
    requires Ascending(f) && Ascending(g) && forall k: nat :: k < n ==> !Greater(f, g, k)
    ensures Copied(f, g, n, At(false, f, g, n))
    decreases n
  {
    if n > 0 {
      CopiesFirst(f, g, n - 1);
      assert !Greater(f, g, n - 1);
      CopyTurn(f, g, n - 1, At(false, f, g, n - 1));
    }
  }

  lemma CopyEmits(f: Stream, g: Stream, n: nat)
    requires Ascending(f) && Ascending(g) && forall k: nat :: k <= n ==> !Greater(f, g, k)
    ensures TwoWay(false, f, g)(n) == f(n)
  {
    CopiesFirst(f, g, n);
    assert !Greater(f, g, n);
    CopyTurn(f, g, n, At(false, f, g, n));
  }

  /** Both heads come from the first input, and the second is never read again. */
  predicate Forgot(f: Stream, c: nat, m: Loop) {
    m.i == c + 2 && ((m.v1 == f(c) && m.v2 == f(c + 1)) || (m.v1 == f(c + 1) && m.v2 == f(c)))
  }

  lemma ForgetTurn(f: Stream, g: Stream, c: nat, m: Loop)
    requires Ascending(f) && Forgot(f, c, m)
    ensures Emit(m) == f(c) && Forgot(f, c + 1, Turn(false, f, g, m))
  {
    assert Rises(f, c) && Rises(f, c + 1);
  }

  lemma {:induction false} ForgetsSecond(f: Stream, g: Stream, p: nat, n: nat)
    requires Ascending(f) && Ascending(g) && FirstGreater(f, g, p) && n > p
    ensures Forgot(f, n - 1, At(false, f, g, n))
    decreases n
  {
    if n == p + 1 {
      CopiesFirst(f, g, p);
    } else {
      ForgetsSecond(f, g, p, n - 1);
      ForgetTurn(f, g, n - 2, At(false, f, g, n - 1));
    }
  }

  ghost predicate SlipAt(h: Stream, f: Stream, x: int, p: nat, n: nat) {
    h(n) == if n < p then f(n) else if n == p then x else f(n - 1)
  }

  /** What the loop writes: its first input, with value `x` slipped in at place `p`. */
  ghost predicate SlippedIn(h: Stream, f: Stream, x: int, p: nat) {
    (p > 0 ==> f(p - 1) < x) && x < f(p) && forall n: nat :: SlipAt(h, f, x, p, n)
  }

  lemma AfterTheSlip(f: Stream, g: Stream, p: nat, n: nat)
    requires Ascending(f) && Ascending(g) && FirstGreater(f, g, p) && n > p
    ensures TwoWay(false, f, g)(n) == f(n - 1)
  {
    ForgetsSecond(f, g, p, n);
    ForgetTurn(f, g, n - 1, At(false, f, g, n));
  }

  /** Until then, what has been read of the second input and passed over is in the first. */
  lemma {:induction false} PassedOverIsCopied(f: Stream, g: Stream, n: nat, b: nat)
    requires Ascending(f) && Ascending(g) && forall k: nat :: k < n ==> !Greater(f, g, k)
    requires b + 1 < At(false, f, g, n).j
    ensures Has(f, g(b))
    decreases n
  {
    if n > 0 {
      CopiesFirst(f, g, n - 1);
      assert !Greater(f, g, n - 1);
      CopyTurn(f, g, n - 1, At(false, f, g, n - 1));
      if b + 1 < At(false, f, g, n - 1).j {
        PassedOverIsCopied(f, g, n - 1, b);
      }
    }
  }

  lemma TheSlip(f: Stream, g: Stream, p: nat) returns (b: nat)
    requires Ascending(f) && Ascending(g) && FirstGreater(f, g, p)
    ensures TwoWay(false, f, g)(p) == g(b) < f(p) && (p > 0 ==> f(p - 1) < g(b))
    ensures forall c: nat :: c < b ==> Has(f, g(c))
  {
    CopiesFirst(f, g, p);
    b := At(false, f, g, p).j - 1;
    forall c: nat | c < b ensures Has(f, g(c)) {
      PassedOverIsCopied(f, g, p, c);
    }
  }

  lemma OneSlipsIn(f: Stream, g: Stream, p: nat) returns (b: nat)
    requires Ascending(f) && Ascending(g) && FirstGreater(f, g, p)
    ensures SlippedIn(TwoWay(false, f, g), f, g(b), p)
    ensures forall c: nat :: c < b ==> Has(f, g(c))
  {
    b := TheSlip(f, g, p);
    forall n: nat ensures SlipAt(TwoWay(false, f, g), f, g(b), p, n) {
      if n < p {
        CopyEmits(f, g, n);
      } else if n > p {
        AfterTheSlip(f, g, p, n);
      }
    }
  }

  /** A stream with a value slipped in ascends and has exactly that value more. */
  lemma SlippedInHas(h: Stream, f: Stream, x: int, p: nat)
    requires Ascending(f) && SlippedIn(h, f, x, p)
    ensures Ascending(h) && !Has(f, x) && forall y :: Has(h, y) <==> Has(f, y) || y == x
  {
    forall n: nat ensures f(n) != x {
      if n < p {
        Climbs(f, n, p - 1);
      } else {
        Climbs(f, p, n);
      }
    }
    forall n: nat ensures Rises(h, n) {
      assert SlipAt(h, f, x, p, n) && SlipAt(h, f, x, p, n + 1) && Rises(f, n);
      assert n > 0 ==> Rises(f, n - 1);
    }
    forall n: nat ensures Has(h, f(n)) {
      assert SlipAt(h, f, x, p, if n < p then n else n + 1);
    }
    assert SlipAt(h, f, x, p, p);
    forall n: nat ensures n != p ==> Has(f, h(n)) {
      assert SlipAt(h, f, x, p, n);
      if n != p {
        assert f(if n < p then n else n - 1) == h(n);
      }
    }
  }

  /** The second stream has at most one value that the first lacks. */
  ghost predicate AtMostOneMissing(f: Stream, g: Stream) {
    forall a: nat, b: nat :: !Has(f, g(a)) && !Has(f, g(b)) ==> a == b
  }

  lemma {:induction false} FindFirstGreater(f: Stream, g: Stream, n: nat) returns (p: nat)
    requires Greater(f, g, n)
    ensures FirstGreater(f, g, p)
    decreases n
  {
    if q: nat :| q < n && Greater(f, g, q) {
      p := FindFirstGreater(f, g, q);
    } else {
      p := n;
    }
  }

  /** When it only copies, everything it will ever read of the second input is in the first. */
  lemma {:induction false} FirstCatchesUp(f: Stream, g: Stream, b: nat, n: nat, m: Loop)
    requires Ascending(f) && Ascending(g) && forall k: nat :: !Greater(f, g, k)
    requires m == At(false, f, g, n) && m.j <= b + 1
    ensures Has(f, g(b))
    decreases b + 1 - m.j, if m.v1 <= m.v2 then m.v2 - m.v1 else 0
  {
    CopiesFirst(f, g, n);
    assert !Greater(f, g, n);
    CopyTurn(f, g, n, m);
    var t := Turn(false, f, g, m);
    if t.j <= b + 1 {
      CopiesFirst(f, g, n + 1);
      assert !Greater(f, g, n + 1);
      assert Rises(f, n);
      FirstCatchesUp(f, g, b, n + 1, t);
    }
  }

  lemma UnionOfTwo(h: Stream, f: Stream, g: Stream)
    ensures IsSortedUnion(h, [f, g]) <==>
      Ascending(h) && HasAll(h, f) && HasAll(h, g) && forall n: nat :: Has(f, h(n)) || Has(g, h(n))
  {
    assert [f, g][0] == f && [f, g][1] == g;
    forall n: nat ensures InSome([f, g], h(n)) <==> Has(f, h(n)) || Has(g, h(n)) {
      assert Has([f, g][0], h(n)) || Has([f, g][1], h(n)) ==> InSome([f, g], h(n));
    }
  }

  lemma SlippedInIsRightExactlyWhen(h: Stream, f: Stream, g: Stream, b: nat)
    requires Ascending(g) && Ascending(h) && !Has(f, g(b))
    requires forall y :: Has(h, y) <==> Has(f, y) || y == g(b)
    ensures IsSortedUnion(h, [f, g]) <==> AtMostOneMissing(f, g)
  {
    UnionOfTwo(h, f, g);
    forall n: nat ensures Has(f, h(n)) || Has(g, h(n)) {
      assert Has(h, h(n)) && Has(g, g(b));
    }
    forall n: nat ensures Has(h, f(n)) {
      assert Has(f, f(n));
    }
    if HasAll(h, g) {
      forall a: nat | !Has(f, g(a)) ensures a == b {
        assert Has(h, g(a));
        if a < b { Climbs(g, a, b); } else { Climbs(g, b, a); }
      }
    }
  }

  lemma CopyIsUnion(h: Stream, f: Stream, g: Stream)
    requires Ascending(f) && HasAll(f, g) && forall n: nat :: h(n) == f(n)
    ensures IsSortedUnion(h, [f, g])
  {
    UnionOfTwo(h, f, g);
    forall n: nat ensures Rises(h, n) && Has(f, h(n)) && Has(h, f(n)) {
      assert Rises(f, n);
      assert h(n) == f(n);
    }
    HasAllThrough(h, f, g);
  }

  lemma OnlyCopies(f: Stream, g: Stream)
    requires Ascending(f) && Ascending(g) && forall n: nat :: !Greater(f, g, n)
    ensures HasAll(f, g) && IsSortedUnion(TwoWay(false, f, g), [f, g])
  {
    forall n: nat ensures TwoWay(false, f, g)(n) == f(n) {
      CopyEmits(f, g, n);
    }
    forall n: nat ensures Has(f, g(n)) {
      FirstCatchesUp(f, g, n, 0, Start(f, g));
    }
    CopyIsUnion(TwoWay(false, f, g), f, g);
  }

  lemma NothingMissing(f: Stream, g: Stream)
    requires HasAll(f, g)
    ensures AtMostOneMissing(f, g)
  {
  }

  /** As written, the two-input merge is right exactly when at most one value of its second
      input is missing from the first: it reads the second input no further than that one. */
  lemma AsWrittenIsRightExactlyWhen(f: Stream, g: Stream)
    requires Ascending(f) && Ascending(g)
    ensures IsSortedUnion(TwoWay(false, f, g), [f, g]) <==> AtMostOneMissing(f, g)
  {
    if n: nat :| Greater(f, g, n) {
      var p := FindFirstGreater(f, g, n);
      var b := OneSlipsIn(f, g, p);
      SlippedInHas(TwoWay(false, f, g), f, g(b), p);
      SlippedInIsRightExactlyWhen(TwoWay(false, f, g), f, g, b);
    } else {
      OnlyCopies(f, g);
      NothingMissing(f, g);
    }
  }

  function Evens(): Stream { (n: nat) => 2 * n }
  function Odds(): Stream { (n: nat) => 2 * n + 1 }

  lemma EvensAndOddsAscend()
    ensures Ascending(Evens()) && Ascending(Odds())
  {
    forall n: nat ensures Rises(Evens(), n) && Rises(Odds(), n) {
    }
  }

  lemma OddIsNotEven(n: nat)
    ensures !Has(Evens(), Odds()(n))
  {
  }

  /** For example, merging the odd numbers into the even ones loses all but the first. */
  lemma OddsAreLost()
    ensures !IsSortedUnion(TwoWay(false, Evens(), Odds()), [Evens(), Odds()])
  {
    EvensAndOddsAscend();
    OddIsNotEven(0);
    OddIsNotEven(1);
    AsWrittenIsRightExactlyWhen(Evens(), Odds());
  }

  // ---------- any number of inputs, as written ----------

  ghost function Vals(f: Stream): iset<int> { iset x | Has(f, x) }

  /** The least value of `b` that `a` lacks. */
  ghost predicate LeastNew(x: int, a: iset<int>, b: iset<int>) {
    x in b && x !in a && forall y :: y in b && y !in a ==> x <= y
  }

  ghost function Joined(a: iset<int>, b: iset<int>): iset<int> { iset x | x in a || LeastNew(x, a, b) }

  lemma SlipsInTheLeast(f: Stream, g: Stream, b: nat)
    requires Ascending(g) && !Has(f, g(b)) && forall c: nat :: c < b ==> Has(f, g(c))
    ensures LeastNew(g(b), Vals(f), Vals(g))
  {
    assert Has(g, g(b));
    forall y | y in Vals(g) && y !in Vals(f) ensures g(b) <= y {
      var c: nat :| g(c) == y;
      Climbs(g, b, c);
    }
  }

  lemma SameValues(h: Stream, f: Stream, g: Stream, y: int)
    requires HasAll(h, f) && HasAll(f, g) && forall n: nat :: Has(f, h(n)) || Has(g, h(n))
    ensures Has(h, y) <==> Has(f, y)
  {
    if Has(f, y) {
      var n: nat :| f(n) == y;
      assert Has(h, f(n));
    }
    if n: nat :| h(n) == y {
      if Has(g, h(n)) {
        var m: nat :| g(m) == h(n);
        assert Has(f, g(m));
      }
    }
  }

  /** As written, a two-input merge writes the values of its first input and the least value
      of the second that the first lacks, if there is one. */
  lemma TwoWayWrites(f: Stream, g: Stream)
    requires Ascending(f) && Ascending(g)
    ensures Ascending(TwoWay(false, f, g)) && Vals(TwoWay(false, f, g)) == Joined(Vals(f), Vals(g))
  {
    var h := TwoWay(false, f, g);
    if n: nat :| Greater(f, g, n) {
      var p := FindFirstGreater(f, g, n);
      var b := OneSlipsIn(f, g, p);
      SlippedInHas(h, f, g(b), p);
      SlipsInTheLeast(f, g, b);
      forall y ensures y in Vals(h) <==> y in Joined(Vals(f), Vals(g)) {
        assert Has(h, y) <==> Has(f, y) || y == g(b);
      }
    } else {
      OnlyCopies(f, g);
      UnionOfTwo(h, f, g);
      forall y ensures y in Vals(h) <==> y in Joined(Vals(f), Vals(g)) {
        SameValues(h, f, g, y);
      }
    }
  }

  /** What an arrangement of uncorrected merges writes, from the values of its inputs alone. */
  ghost function Written(t: Tree): iset<int> {
    match t
    case Input(f) => Vals(f)
    case Node(l, r) => Joined(Written(l), Written(r))
  }

  lemma {:induction false} UncorrectedTreeWrites(t: Tree)
    requires AllAscending(Inputs(t))
    ensures Ascending(Merged(false, t)) && Vals(Merged(false, t)) == Written(t)
  {
    match t
    case Input(f) =>
      assert Inputs(t)[0] == f;
    case Node(l, r) =>
      PartsAscend(t);
      UncorrectedTreeWrites(l);
      UncorrectedTreeWrites(r);
      TwoWayWrites(Merged(false, l), Merged(false, r));
  }

  lemma InMore(ls: seq<Stream>, rs: seq<Stream>, y: int)
    ensures InSome(ls + rs, y) <==> InSome(ls, y) || InSome(rs, y)
  {
    var fs := ls + rs;
    if k :| 0 <= k < |ls| && Has(ls[k], y) {
      assert fs[k] == ls[k];
    }
    if k :| 0 <= k < |rs| && Has(rs[k], y) {
      assert fs[|ls| + k] == rs[k];
    }
  }

  lemma {:induction false} WrittenIsFromInputs(t: Tree, y: int)
    requires y in Written(t)
    ensures InSome(Inputs(t), y)
  {
    match t
    case Input(f) =>
      assert Has(Inputs(t)[0], y);
    case Node(l, r) =>
      if y in Written(l) {
        WrittenIsFromInputs(l, y);
      } else {
        WrittenIsFromInputs(r, y);
      }
      InMore(Inputs(l), Inputs(r), y);
  }

  lemma HasAllIsInclusion(h: Stream, f: Stream)
    ensures HasAll(h, f) <==> Vals(f) <= Vals(h)
  {
    forall n: nat ensures f(n) in Vals(f) {
    }
    if HasAll(h, f) {
      forall y | y in Vals(f) ensures y in Vals(h) {
        var n: nat :| f(n) == y;
        assert Has(h, f(n));
      }
    }
  }

  /** What the network over inputs `lo` up to `hi` writes: two are merged, a third is merged
      into the first two, and more are split in the middle (merge.h:53-106). */
  ghost function WrittenBy(ins: seq<Stream>, lo: nat, hi: nat): iset<int>
    requires lo + 2 <= hi <= |ins|
    decreases hi - lo
  {
    if hi - lo == 2 then Joined(Vals(ins[lo]), Vals(ins[lo + 1]))
    else if hi - lo == 3 then Joined(Joined(Vals(ins[lo]), Vals(ins[lo + 1])), Vals(ins[lo + 2]))
    else
      var middle := lo + (hi - lo) / 2;
      Joined(WrittenBy(ins, lo, middle), WrittenBy(ins, middle, hi))
  }

  lemma FewAreWritten(ins: seq<Stream>)
    requires 2 <= |ins| <= 3
    ensures Written(Shape(ins)) == WrittenBy(ins, 0, |ins|)
  {
    if |ins| == 3 {
      assert Written(Shape(ins).left) == Joined(Vals(ins[0]), Vals(ins[1]));
    }
  }

  lemma ManyAreWritten(ins: seq<Stream>)
    requires |ins| > 3
    ensures Written(Shape(ins)) == Joined(Written(Shape(ins[..|ins| / 2])), Written(Shape(ins[|ins| / 2..])))
  {
  }

  lemma {:induction false} WrittenByPart(ins: seq<Stream>, part: seq<Stream>, at: nat, lo: nat, hi: nat)
    requires lo + 2 <= hi <= |part| && at + |part| <= |ins|
    requires forall k :: 0 <= k < |part| ==> part[k] == ins[at + k]
    ensures WrittenBy(part, lo, hi) == WrittenBy(ins, at + lo, at + hi)
    decreases hi - lo
  {
    if hi - lo > 3 {
      var middle := lo + (hi - lo) / 2;
      WrittenByPart(ins, part, at, lo, middle);
      WrittenByPart(ins, part, at, middle, hi);
      assert at + lo + (at + hi - (at + lo)) / 2 == at + middle;
    }
  }

  lemma WrittenByHalves(ins: seq<Stream>)
    requires |ins| > 3
    ensures WrittenBy(ins, 0, |ins|) == Joined(WrittenBy(ins, 0, |ins| / 2), WrittenBy(ins, |ins| / 2, |ins|))
  {
  }

  lemma HalvesWrite(ins: seq<Stream>, n: nat)
    requires 2 <= n <= |ins| - 2
    ensures WrittenBy(ins[..n], 0, n) == WrittenBy(ins, 0, n)
    ensures WrittenBy(ins[n..], 0, |ins| - n) == WrittenBy(ins, n, |ins|)
  {
    WrittenByPart(ins, ins[..n], 0, 0, n);
    WrittenByPart(ins, ins[n..], n, 0, |ins| - n);
  }

  lemma SameJoin(w: iset<int>, a: iset<int>, b: iset<int>, v: iset<int>, c: iset<int>, d: iset<int>)
    requires w == Joined(a, b) && v == Joined(c, d) && a == c && b == d
    ensures w == v
  {
  }

  lemma {:induction false} ShapeWrites(ins: seq<Stream>)
    requires |ins| >= 2
    ensures Written(Shape(ins)) == WrittenBy(ins, 0, |ins|)
    decreases |ins|
  {
    if |ins| <= 3 {
      FewAreWritten(ins);
    } else {
      var n := |ins| / 2;
      var ls, rs := ins[..n], ins[n..];
      ShapeWrites(ls);
      ShapeWrites(rs);
      HalvesWrite(ins, n);
      ManyAreWritten(ins);
      WrittenByHalves(ins);
      SameJoin(Written(Shape(ins)), Written(Shape(ls)), Written(Shape(rs)),
               WrittenBy(ins, 0, |ins|), WrittenBy(ins, 0, n), WrittenBy(ins, n, |ins|));
    }
  }

  /** That is what the uncorrected network writes. */
  lemma UncorrectedNetworkWrites(ins: seq<Stream>)
    requires |ins| >= 2 && AllAscending(ins)
    ensures Ascending(Network(false, ins)) && Vals(Network(false, ins)) == WrittenBy(ins, 0, |ins|)
  {
    UncorrectedTreeWrites(Shape(ins));
    ShapeWrites(ins);
  }

  /** The uncorrected network is right exactly when nothing is missing from what it writes, which
      takes the least missing value at each merge and depends on the order of the inputs. */
  lemma UncorrectedNetworkIsRightExactlyWhen(ins: seq<Stream>)
    requires |ins| >= 2 && AllAscending(ins)
    ensures IsSortedUnion(Network(false, ins), ins) <==>
      forall k :: 0 <= k < |ins| ==> Vals(ins[k]) <= WrittenBy(ins, 0, |ins|)
  {
    var h := Network(false, ins);
    UncorrectedNetworkWrites(ins);
    UncorrectedTreeWrites(Shape(ins));
    forall n: nat ensures InSome(ins, h(n)) {
      assert Has(h, h(n)) && h(n) in Vals(h);
      WrittenIsFromInputs(Shape(ins), h(n));
    }
    forall k | 0 <= k < |ins| ensures HasAll(h, ins[k]) <==> Vals(ins[k]) <= Vals(h) {
      HasAllIsInclusion(h, ins[k]);
    }
  }

  // ---------- how many values it adds ----------

  /** The number of merges on the way from the first input to the output. */
  function Spine(t: Tree): nat {
    match t
    case Input(_) => 0
    case Node(l, _) => Spine(l) + 1
  }

  function NetworkSpine(n: nat): nat
    requires n >= 2
  {
    if n <= 3 then n - 1 else NetworkSpine(n / 2) + 1
  }

  lemma {:induction false} SpineOfNetwork(ins: seq<Stream>)
    requires |ins| >= 2
    ensures Spine(Shape(ins)) == NetworkSpine(|ins|)
    decreases |ins|
  {
    if |ins| > 3 {
      SpineOfNetwork(ins[..|ins| / 2]);
    } else if |ins| == 3 {
      assert Spine(Shape(ins).left) == 1;
    }
  }

  function Pow2(k: nat): nat { if k == 0 then 1 else 2 * Pow2(k - 1) }

  /** It is about the logarithm of the number of inputs. */
  lemma {:induction false} NetworkSpineIsLogarithmic(n: nat)
    requires n >= 2
    ensures 3 * Pow2(NetworkSpine(n)) <= 4 * n < 8 * Pow2(NetworkSpine(n))
    decreases n
  {
    if n > 3 {
      NetworkSpineIsLogarithmic(n / 2);
      var half, p := n / 2, Pow2(NetworkSpine(n / 2));
      assert Pow2(NetworkSpine(n)) == 2 * p && half < 2 * p && n <= 2 * half + 1;
    } else {
      assert Pow2(1) == 2 && Pow2(2) == 4;
    }
  }

  ghost predicate Disjoint(f: Stream, g: Stream) { forall n: nat :: !Has(f, g(n)) }

  ghost predicate NothingShared(ins: seq<Stream>) {
    forall i, k :: 0 <= i < |ins| && 0 <= k < |ins| && i != k ==> Disjoint(ins[i], ins[k])
  }

  lemma {:induction false} LeastNewExists(a: iset<int>, g: Stream, n: nat) returns (x: int)
    requires Ascending(g) && g(n) !in a
    ensures LeastNew(x, a, Vals(g))
    decreases n
  {
    if m: nat :| m < n && g(m) !in a {
      x := LeastNewExists(a, g, m);
    } else {
      x := g(n);
      assert Has(g, x);
      forall y | y in Vals(g) && y !in a ensures x <= y {
        var m: nat :| g(m) == y;
        Climbs(g, n, m);
      }
    }
  }

  lemma NothingSharedInParts(t: Tree)
    requires t.Node? && NothingShared(Inputs(t))
    ensures NothingShared(Inputs(t.left)) && NothingShared(Inputs(t.right))
    ensures forall y :: InSome(Inputs(t.left), y) ==> !InSome(Inputs(t.right), y)
  {
    var ls, rs, fs := Inputs(t.left), Inputs(t.right), Inputs(t);
    assert forall k :: 0 <= k < |ls| ==> fs[k] == ls[k];
    assert forall k :: 0 <= k < |rs| ==> fs[|ls| + k] == rs[k];
    forall i, k | 0 <= i < |ls| && 0 <= k < |ls| && i != k ensures Disjoint(ls[i], ls[k]) {
      assert Disjoint(fs[i], fs[k]);
    }
    forall i, k | 0 <= i < |rs| && 0 <= k < |rs| && i != k ensures Disjoint(rs[i], rs[k]) {
      assert Disjoint(fs[|ls| + i], fs[|ls| + k]);
    }
    forall y | InSome(ls, y) ensures !InSome(rs, y) {
      var i :| 0 <= i < |ls| && Has(ls[i], y);
      forall k | 0 <= k < |rs| ensures !Has(rs[k], y) {
        assert Disjoint(fs[i], fs[|ls| + k]);
      }
    }
  }

  /** When the parts share nothing, the second has something the first lacks. */
  lemma SomethingNew(t: Tree) returns (x: int)
    requires t.Node? && AllAscending(Inputs(t)) && NothingShared(Inputs(t))
    ensures LeastNew(x, Written(t.left), Written(t.right))
  {
    PartsAscend(t);
    NothingSharedInParts(t);
    UncorrectedTreeWrites(t.right);
    var g := Merged(false, t.right);
    assert Has(g, g(0)) && g(0) in Vals(g);
    WrittenIsFromInputs(t.right, g(0));
    if g(0) in Written(t.left) {
      WrittenIsFromInputs(t.left, g(0));
    }
    x := LeastNewExists(Written(t.left), g, 0);
  }

  /** `extra` are the values of `b` that `a` lacks. */
  ghost predicate AddsExactly(extra: set<int>, a: iset<int>, b: iset<int>) {
    forall y :: (y in b <==> y in a || y in extra) && !(y in a && y in extra)
  }

  lemma {:induction false} UncorrectedTreeAdds(t: Tree) returns (extra: set<int>)
    ensures AddsExactly(extra, Vals(Inputs(t)[0]), Written(t)) && |extra| <= Spine(t)
    ensures AllAscending(Inputs(t)) && NothingShared(Inputs(t)) ==> |extra| == Spine(t)
  {
    extra := {};
    match t
    case Input(f) =>
    case Node(l, r) =>
      extra := UncorrectedTreeAdds(l);
      if x :| LeastNew(x, Written(l), Written(r)) {
        extra := extra + {x};
      }
      if AllAscending(Inputs(t)) && NothingShared(Inputs(t)) {
        PartsAscend(t);
        NothingSharedInParts(t);
        var x := SomethingNew(t);
      }
  }

  /** The uncorrected network of n inputs adds to the values of its first input at most as many
      as there are merges on the way from it to the output, and exactly as many when no two
      inputs share a value. */
  lemma UncorrectedNetworkAdds(ins: seq<Stream>) returns (extra: set<int>)
    requires |ins| >= 2 && AllAscending(ins)
    ensures Ascending(Network(false, ins)) && AddsExactly(extra, Vals(ins[0]), Vals(Network(false, ins)))
    ensures |extra| <= NetworkSpine(|ins|) && (NothingShared(ins) ==> |extra| == NetworkSpine(|ins|))
  {
    extra := UncorrectedTreeAdds(Shape(ins));
    UncorrectedTreeWrites(Shape(ins));
    SpineOfNetwork(ins);
  }

  lemma JoinedWithLeast(a: iset<int>, b: iset<int>, x: int)
    requires LeastNew(x, a, b)
    ensures Joined(a, b) == a + iset{x}
  {
  }

  lemma JoinedWithNothing(a: iset<int>, b: iset<int>)
    requires b <= a
    ensures Joined(a, b) == a
  {
  }

  lemma LeastIsX(f: Stream, g: Stream, x: int, y: int)
    requires x < y && !Has(f, x) && !Has(f, y) && Vals(g) == Vals(f) + iset{x, y}
    ensures Joined(Vals(f), Vals(g)) == Vals(f) + iset{x}
  {
    JoinedWithLeast(Vals(f), Vals(g), x);
  }

  lemma YIsLost(f: Stream, g: Stream, x: int, y: int)
    requires Ascending(f) && Ascending(g) && x < y && !Has(f, x) && !Has(f, y)
    requires Vals(g) == Vals(f) + iset{x, y}
    ensures !IsSortedUnion(Network(false, [f, g, f]), [f, g, f])
  {
    var ins := [f, g, f];
    UncorrectedNetworkIsRightExactlyWhen(ins);
    LeastIsX(f, g, x, y);
    JoinedWithNothing(Vals(f) + iset{x}, Vals(f));
    assert WrittenBy(ins, 0, 3) == Vals(f) + iset{x} && y in Vals(ins[1]);
  }

  lemma YIsAdded(f: Stream, g: Stream, h: Stream, x: int, y: int)
    requires Ascending(f) && Ascending(g) && Ascending(h) && x < y && !Has(f, x) && !Has(f, y)
    requires Vals(g) == Vals(f) + iset{x, y} && Vals(h) == Vals(f) + iset{y}
    ensures IsSortedUnion(Network(false, [f, g, h]), [f, g, h])
  {
    var ins := [f, g, h];
    UncorrectedNetworkIsRightExactlyWhen(ins);
    LeastIsX(f, g, x, y);
    var first := Vals(f) + iset{x};
    JoinedWithLeast(first, Vals(h), y);
    assert WrittenBy(ins, 0, 3) == first + iset{y} == Vals(g);
    assert ins[0] == f && ins[1] == g && ins[2] == h;
  }

  /** What is missing from the first input does not decide it.  Beside the common values the
      second input has `x` and `y`; the third has nothing else, or `y` as well. */
  lemma WhatIsMissingIsNotEnough(f: Stream, g: Stream, h: Stream, x: int, y: int)
    requires Ascending(f) && Ascending(g) && Ascending(h) && x < y && !Has(f, x) && !Has(f, y)
    requires Vals(g) == Vals(f) + iset{x, y} && Vals(h) == Vals(f) + iset{y}
    ensures !IsSortedUnion(Network(false, [f, g, f]), [f, g, f])
    ensures IsSortedUnion(Network(false, [f, g, h]), [f, g, h])
  {
    YIsLost(f, g, x, y);
    YIsAdded(f, g, h, x, y);
  }
}
