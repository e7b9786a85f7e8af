/** The data stores of csp/chan_data_store.h. */
module DataStore {
  import opened Runs

  datatype Kind = Plain | Infinite | Overflowing | OverwriteOldest | Overwriting

  datatype Fill = Empty | NonEmptyFull | Full

  /** A store that overwrites pops from an empty deque when its size is 0, which is undefined. */
  predicate PutOk<T>(kind: Kind, size: nat, buf: seq<T>) {
    (kind.OverwriteOldest? || kind.Overwriting?) && |buf| == size ==> |buf| > 0
  }

  /** `buffer` and `infinite_buffer` append; the others drop the new, the oldest or the
      newest value when they are full. */
  function Put<T>(kind: Kind, size: nat, buf: seq<T>, v: T): seq<T>
    requires PutOk(kind, size, buf)
  {
    match kind
    case Overflowing => if |buf| < size then buf + [v] else buf
    case OverwriteOldest => (if |buf| == size then buf[1..] else buf) + [v]
    case Overwriting => (if |buf| == size then buf[..|buf| - 1] else buf) + [v]
    case _ => buf + [v]
  }

  function State<T>(kind: Kind, size: nat, buf: seq<T>): Fill {
    if buf == [] then Empty
    else if kind.Plain? && |buf| == size then Full
    else NonEmptyFull
  }

  /** What `get` leaves behind.  The overwriting store returns the front value but removes
      the back one (chan_data_store.h:584-589); the others remove what they return. */
  function Rest<T>(kind: Kind, buf: seq<T>): seq<T>
    requires buf != []
  {
    if kind.Overwriting? then buf[..|buf| - 1] else buf[1..]
  }

  /** The store objects differ only in `put`, `get` and `get_state`, selected here by `kind`. */
  class Store<T> {
    const kind: Kind
    const size: nat
    var buf: seq<T>

    constructor (kind: Kind, size: nat)
      ensures this.kind == kind && this.size == size && buf == []
    {
      this.kind, this.size, buf := kind, size, [];
    }

    /** `ok` is false where the source's behaviour is undefined. */
    method Add(v: T) returns (ok: bool)
      modifies this
      ensures ok == PutOk(kind, size, old(buf))
      ensures buf == if ok then Put(kind, size, old(buf), v) else old(buf)
    {
      ok := true;
      match kind {
        case Overflowing =>
          if |buf| < size {
            buf := buf + [v];
          }
        case OverwriteOldest =>
          if |buf| == size {
            if |buf| == 0 {
              return false;
            }
            buf := buf[1..];
          }
          buf := buf + [v];
        case Overwriting =>
          if |buf| == size {
            if |buf| == 0 {
              return false;
            }
            buf := buf[..|buf| - 1];
          }
          buf := buf + [v];
        case _ =>
          buf := buf + [v];
      }
    }

    method Get() returns (v: T)
      requires buf != []
      modifies this
      ensures v == old(buf)[0] && buf == Rest(kind, old(buf))
    {
      v := buf[0];
      if kind.Overwriting? {
        buf := buf[..|buf| - 1];
      } else {
        buf := buf[1..];
      }
    }

    method Clear()
      modifies this
      ensures buf == []
    {
      buf := [];
    }

    method GetState() returns (f: Fill)
      ensures f == State(kind, size, buf)
      ensures f.Empty? <==> buf == []
    {
      if |buf| == 0 {
        f := Empty;
      } else if kind.Plain? && |buf| == size {
        f := Full;
      } else {
        f := NonEmptyFull;
      }
    }
  }

  // ---------- histories of puts and gets ----------

  /** `repaired` makes the overwriting store remove the value it returns. */
  datatype History<T> = History(kind: Kind, size: nat, repaired: bool, buf: seq<T>, puts: seq<T>, gets: seq<T>)

  datatype Op<T> = DoPut(v: T) | DoGet

  function Init<T>(kind: Kind, size: nat, repaired: bool): History<T> {
    History(kind, size, repaired, [], [], [])
  }

  function Step<T>(h: History<T>, op: Op<T>): Option<History<T>> {
    match op
    case DoPut(v) =>
      if PutOk(h.kind, h.size, h.buf) then Some(h.(buf := Put(h.kind, h.size, h.buf, v), puts := h.puts + [v]))
      else None
    case DoGet =>
      if h.buf == [] then None
      else Some(h.(gets := h.gets + [h.buf[0]], buf := if h.repaired then h.buf[1..] else Rest(h.kind, h.buf)))
  }

  /** `a` is what is left of `b` after striking out some of its values. */
  ghost predicate Subsequence<T>(a: seq<T>, b: seq<T>)
    decreases |b|
  {
    a == [] ||
    (b != [] &&
     (|| Subsequence(a, b[..|b| - 1])
      || (a[|a| - 1] == b[|b| - 1] && Subsequence(a[..|a| - 1], b[..|b| - 1]))))
  }

  lemma SubsequenceSnoc<T>(a: seq<T>, b: seq<T>, v: T)
    requires Subsequence(a, b)
    ensures Subsequence(a, b + [v]) && Subsequence(a + [v], b + [v])
  {
    assert (b + [v])[..|b|] == b && (a + [v])[..|a|] == a;
  }

  /** Striking out one more value. */
  lemma {:induction false} SubsequenceDrop<T>(a: seq<T>, i: nat, b: seq<T>)
    requires Subsequence(a, b) && i < |a|
    ensures Subsequence(a[..i] + a[i + 1..], b)
    decreases |b|
  {
    var c := a[..i] + a[i + 1..];
    var shorter := b[..|b| - 1];
    if Subsequence(a, shorter) {
      SubsequenceDrop(a, i, shorter);
    } else if i == |a| - 1 {
      assert c == a[..|a| - 1];
    } else {
      SubsequenceDrop(a[..|a| - 1], i, shorter);
      assert c[..|c| - 1] == a[..|a| - 1][..i] + a[..|a| - 1][i + 1..];
    }
  }

  ghost predicate IsSuffix<T>(a: seq<T>, b: seq<T>) { |a| <= |b| && a == b[|b| - |a|..] }

  predicate Bounded(kind: Kind) { kind.Overflowing? || kind.OverwriteOldest? || kind.Overwriting? }

  /** What a store loses is what it documents. */
  ghost predicate Documented<T>(h: History<T>) {
    && Subsequence(h.gets + h.buf, h.puts)
    && (Bounded(h.kind) ==> |h.buf| <= h.size)
    && (!Bounded(h.kind) ==> h.gets + h.buf == h.puts)
    && (h.kind.OverwriteOldest? ==> IsSuffix(h.buf, h.puts))
  }

  lemma SuffixSnoc<T>(a: seq<T>, b: seq<T>, v: T)
    requires IsSuffix(a, b)
    ensures IsSuffix(a + [v], b + [v]) && (a != [] ==> IsSuffix(a[1..] + [v], b + [v]))
  {
    assert (b + [v])[|b| - |a|..] == b[|b| - |a|..] + [v];
    if a != [] {
      assert (b + [v])[|b| - |a| + 1..] == b[|b| - |a|..][1..] + [v];
    }
  }

  lemma AppendKeeps<T>(h: History<T>, v: T)
    requires Documented(h) && PutOk(h.kind, h.size, h.buf) && Put(h.kind, h.size, h.buf, v) == h.buf + [v]
    requires Bounded(h.kind) ==> |h.buf| < h.size
    ensures Documented(Step(h, DoPut(v)).value)
  {
    SubsequenceSnoc(h.gets + h.buf, h.puts, v);
    assert h.gets + (h.buf + [v]) == h.gets + h.buf + [v];
    if h.kind.OverwriteOldest? {
      SuffixSnoc(h.buf, h.puts, v);
    }
  }

  /** A full store that replaces value `i` of its contents. */
  lemma ReplaceKeeps<T>(h: History<T>, i: nat, v: T)
    requires h.kind.OverwriteOldest? || h.kind.Overwriting?
    requires Documented(h) && i < |h.buf| && PutOk(h.kind, h.size, h.buf)
    requires Put(h.kind, h.size, h.buf, v) == h.buf[..i] + h.buf[i + 1..] + [v]
    requires h.kind.OverwriteOldest? ==> i == 0
    ensures Documented(Step(h, DoPut(v)).value)
  {
    var a, j := h.gets + h.buf, |h.gets| + i;
    SubsequenceDrop(a, j, h.puts);
    SubsequenceSnoc(a[..j] + a[j + 1..], h.puts, v);
    assert h.gets + (h.buf[..i] + h.buf[i + 1..] + [v]) == a[..j] + a[j + 1..] + [v];
    if h.kind.OverwriteOldest? {
      SuffixSnoc(h.buf, h.puts, v);
      assert h.buf[..0] + h.buf[1..] + [v] == h.buf[1..] + [v];
    }
  }

  lemma PutKeeps<T>(h: History<T>, v: T)
    requires Documented(h) && PutOk(h.kind, h.size, h.buf)
    ensures Documented(Step(h, DoPut(v)).value)
  {
    if !Bounded(h.kind) || |h.buf| < h.size {
      AppendKeeps(h, v);
    } else if h.kind.Overflowing? {
      SubsequenceSnoc(h.gets + h.buf, h.puts, v);
    } else {
      var i := if h.kind.OverwriteOldest? then 0 else |h.buf| - 1;
      assert Put(h.kind, h.size, h.buf, v) == h.buf[..i] + h.buf[i + 1..] + [v];
      ReplaceKeeps(h, i, v);
    }
  }

  lemma GetKeeps<T>(h: History<T>)
    requires Documented(h) && h.buf != []
    requires h.repaired || !h.kind.Overwriting? || h.size <= 1
    ensures Documented(Step(h, DoGet).value)
  {
    var t := Step(h, DoGet).value;
    assert t.buf == h.buf[1..];
    assert t.gets + t.buf == h.gets + h.buf;
  }

  /** Over every history of puts and gets: values come out in the order they went in, a
      bounded store never holds more than its size, the plain and infinite stores lose
      nothing, and the overwrite-oldest store always holds the most recent values.  The
      overwriting store does so as written only when its size is at most 1. */
  lemma {:induction false} StoresLoseOnlyWhatTheyDocument<T>(kind: Kind, size: nat, repaired: bool, ops: seq<Op<T>>)
    requires Run(Step<T>, Init(kind, size, repaired), ops).Some?
    requires repaired || !kind.Overwriting? || size <= 1
    ensures var h := Run(Step<T>, Init(kind, size, repaired), ops).value;
      h.kind == kind && h.size == size && h.repaired == repaired && Documented(h)
    decreases |ops|
  {
    if ops != [] {
      StoresLoseOnlyWhatTheyDocument(kind, size, repaired, ops[..|ops| - 1]);
      var h := Run(Step<T>, Init(kind, size, repaired), ops[..|ops| - 1]).value;
      match ops[|ops| - 1]
      case DoPut(v) => PutKeeps(h, v);
      case DoGet => GetKeeps(h);
    }
  }

  lemma {:induction false} SizesAreKept<T>(kind: Kind, size: nat, repaired: bool, ops: seq<Op<T>>)
    requires Bounded(kind) && Run(Step<T>, Init(kind, size, repaired), ops).Some?
    ensures var h := Run(Step<T>, Init(kind, size, repaired), ops).value;
      h.kind == kind && h.size == size && |h.buf| <= size
    decreases |ops|
  {
    if ops != [] {
      SizesAreKept(kind, size, repaired, ops[..|ops| - 1]);
    }
  }

  /** A value just put into an overwriting store is the newest one in it, which still holds no
      more than its size, as written too. */
  lemma NewestSurvives<T>(kind: Kind, size: nat, repaired: bool, ops: seq<Op<T>>, v: T)
    requires kind.Overwriting? || kind.OverwriteOldest?
    requires Run(Step<T>, Init(kind, size, repaired), ops + [DoPut(v)]).Some?
    ensures var b := Run(Step<T>, Init(kind, size, repaired), ops + [DoPut(v)]).value.buf;
      b != [] && b[|b| - 1] == v && |b| <= size
  {
    assert (ops + [DoPut(v)])[..|ops|] == ops;
    SizesAreKept(kind, size, repaired, ops);
    SizesAreKept(kind, size, repaired, ops + [DoPut(v)]);
  }

  // ---------- exactly what is lost ----------

  /** What a store that held `buf` has after the values `vs` were put, all at once: of the
      whole sequence the overflowing store keeps the first `size` values, the
      overwrite-oldest store the last `size`, and the overwriting store the first `size - 1`
      and the last one. */
  function Filled<T>(kind: Kind, size: nat, buf: seq<T>, vs: seq<T>): (r: seq<T>)
    requires |buf| <= size || !Bounded(kind)
  {
    var all := buf + vs;
    if |all| <= size || !Bounded(kind) then all
    else
      match kind
      case Overflowing => all[..size]
      case OverwriteOldest => all[|all| - size..]
      case _ => if size == 0 then [] else all[..size - 1] + [all[|all| - 1]]
  }

  lemma NotYetFull<T>(kind: Kind, size: nat, buf: seq<T>, vs: seq<T>, v: T)
    requires |buf + vs| < size || !Bounded(kind)
    ensures Put(kind, size, Filled(kind, size, buf, vs), v) == Filled(kind, size, buf, vs + [v])
  {
    assert buf + (vs + [v]) == buf + vs + [v];
  }

  lemma FullOverwriting<T>(size: nat, buf: seq<T>, vs: seq<T>, v: T)
    requires |buf| <= size <= |buf + vs| && size > 0
    ensures Put(Overwriting, size, Filled(Overwriting, size, buf, vs), v) == Filled(Overwriting, size, buf, vs + [v])
  {
    var all := buf + vs;
    assert buf + (vs + [v]) == all + [v];
    assert Filled(Overwriting, size, buf, vs)[..size - 1] == all[..size - 1] == (all + [v])[..size - 1];
  }

  lemma LastValues<T>(all: seq<T>, size: nat, v: T)
    requires 0 < size <= |all|
    ensures (all + [v])[|all| + 1 - size..] == all[|all| - size..][1..] + [v]
    ensures |all| == size ==> all[|all| - size..] == all
  {
  }

  lemma FullOldest<T>(size: nat, buf: seq<T>, vs: seq<T>, v: T)
    requires |buf| <= size <= |buf + vs| && size > 0
    ensures Put(OverwriteOldest, size, Filled(OverwriteOldest, size, buf, vs), v)
         == Filled(OverwriteOldest, size, buf, vs + [v])
  {
    var all := buf + vs;
    assert buf + (vs + [v]) == all + [v];
    LastValues(all, size, v);
  }

  lemma FullOverflowing<T>(size: nat, buf: seq<T>, vs: seq<T>, v: T)
    requires |buf| <= size <= |buf + vs|
    ensures Put(Overflowing, size, Filled(Overflowing, size, buf, vs), v) == Filled(Overflowing, size, buf, vs + [v])
  {
    assert buf + (vs + [v]) == buf + vs + [v];
  }

  lemma FilledSnoc<T>(kind: Kind, size: nat, buf: seq<T>, vs: seq<T>, v: T)
    requires |buf| <= size || !Bounded(kind)
    requires PutOk(kind, size, Filled(kind, size, buf, vs))
    ensures Put(kind, size, Filled(kind, size, buf, vs), v) == Filled(kind, size, buf, vs + [v])
  {
    if |buf + vs| < size || !Bounded(kind) {
      NotYetFull(kind, size, buf, vs, v);
    } else {
      assert size == 0 ==> Filled(kind, size, buf, vs) == [];
      match kind
      case Overwriting => FullOverwriting(size, buf, vs, v);
      case OverwriteOldest => FullOldest(size, buf, vs, v);
      case _ => FullOverflowing(size, buf, vs, v);
    }
  }

  lemma {:induction false} ConfigStays<T>(kind: Kind, size: nat, repaired: bool, ops: seq<Op<T>>)
    requires Run(Step<T>, Init(kind, size, repaired), ops).Some?
    ensures var h := Run(Step<T>, Init(kind, size, repaired), ops).value;
      h.kind == kind && h.size == size && h.repaired == repaired
    decreases |ops|
  {
    if ops != [] {
      ConfigStays(kind, size, repaired, ops[..|ops| - 1]);
    }
  }

  function Puts<T>(vs: seq<T>): seq<Op<T>> { seq(|vs|, i requires 0 <= i < |vs| => DoPut(vs[i])) }

  lemma {:induction false} PutsFillFrom<T>(h: History<T>, vs: seq<T>)
    requires (|h.buf| <= h.size || !Bounded(h.kind)) && Run(Step<T>, h, Puts(vs)).Some?
    ensures var t := Run(Step<T>, h, Puts(vs)).value;
      t.kind == h.kind && t.size == h.size && t.buf == Filled(h.kind, h.size, h.buf, vs)
    decreases |vs|
  {
    if vs == [] {
      assert h.buf + vs == h.buf;
    } else {
      var before, v := vs[..|vs| - 1], vs[|vs| - 1];
      assert Puts(vs)[..|vs| - 1] == Puts(before) && before + [v] == vs;
      PutsFillFrom(h, before);
      FilledSnoc(h.kind, h.size, h.buf, before, v);
    }
  }

  /** After any history, puts alone leave exactly that. */
  lemma PutsFill<T>(kind: Kind, size: nat, repaired: bool, ops: seq<Op<T>>, vs: seq<T>)
    requires Run(Step<T>, Init(kind, size, repaired), ops).Some?
    requires Run(Step<T>, Run(Step<T>, Init(kind, size, repaired), ops).value, Puts(vs)).Some?
    ensures var h := Run(Step<T>, Init(kind, size, repaired), ops).value;
      && (Bounded(kind) ==> |h.buf| <= size)
      && Run(Step<T>, h, Puts(vs)).value.buf == Filled(kind, size, h.buf, vs)
  {
    ConfigStays(kind, size, repaired, ops);
    if Bounded(kind) {
      SizesAreKept(kind, size, repaired, ops);
    }
    PutsFillFrom(Run(Step<T>, Init(kind, size, repaired), ops).value, vs);
  }

  /** A get is possible exactly when something is there, and loses nothing: it returns the
      front value and leaves the others.  As written the overwriting store leaves the front
      value and loses the last. */
  lemma GetTakesTheFront<T>(kind: Kind, size: nat, repaired: bool, ops: seq<Op<T>>)
    requires Run(Step<T>, Init(kind, size, repaired), ops).Some?
    ensures var h := Run(Step<T>, Init(kind, size, repaired), ops).value;
      && (Step(h, DoGet).Some? <==> h.buf != [])
      && (h.buf != [] ==>
            var t := Step(h, DoGet).value;
            && t.gets == h.gets + [h.buf[0]] && t.puts == h.puts
            && (if repaired || !kind.Overwriting? then [h.buf[0]] + t.buf == h.buf
                else t.buf + [h.buf[|h.buf| - 1]] == h.buf))
  {
    ConfigStays(kind, size, repaired, ops);
  }

  /** A put is possible unless the store has to overwrite and has no room at all. */
  lemma PutsArePossible<T>(kind: Kind, size: nat, repaired: bool, ops: seq<Op<T>>, v: T)
    requires Run(Step<T>, Init(kind, size, repaired), ops).Some?
    ensures var h := Run(Step<T>, Init(kind, size, repaired), ops).value;
      && (Step(h, DoPut(v)).Some? <==> !(size == 0 && (kind.Overwriting? || kind.OverwriteOldest?)))
      && (Step(h, DoPut(v)).Some? ==> Step(h, DoPut(v)).value.puts == h.puts + [v])
  {
    ConfigStays(kind, size, repaired, ops);
    if Bounded(kind) {
      SizesAreKept(kind, size, repaired, ops);
    }
  }

  // ---------- the overwriting store as written ----------

  lemma {:induction false} AllSame<T>(buf: seq<T>, n: nat)
    requires n < |buf| && buf[..|buf| - 1] == buf[1..]
    ensures forall i :: 0 <= i <= n ==> buf[i] == buf[0]
    decreases n
  {
    if n > 0 {
      AllSame(buf, n - 1);
      assert buf[n] == buf[1..][n - 1] == buf[..|buf| - 1][n - 1];
    }
  }

  /** As written, one `get` of the overwriting store leaves the right contents exactly when all
      the values in it are the same. */
  lemma OverwritingGetIsRightExactlyWhen<T>(buf: seq<T>)
    requires buf != []
    ensures Rest(Overwriting, buf) == buf[1..] <==> forall i :: 0 <= i < |buf| ==> buf[i] == buf[0]
  {
    if Rest(Overwriting, buf) == buf[1..] {
      AllSame(buf, |buf| - 1);
    }
  }

  lemma TwiceIsNotOnce<T>(a: T, b: T)
    requires a != b
    ensures !Subsequence([a, a], [a, b])
  {
    assert [a, b][..1] == [a] && [a, a][..1] == [a] && [a][..0] == [];
    assert !Subsequence([a, a], [a]);
  }

  /** Two puts and two gets on the overwriting store as written deliver the first value
      twice and lose the second. */
  lemma OverwritingGetDuplicates<T>(size: nat, a: T, b: T)
    requires size >= 2 && a != b
    ensures var o := Run(Step<T>, Init(Overwriting, size, false), [DoPut(a), DoPut(b), DoGet, DoGet]);
      o.Some? && o.value.puts == [a, b] && o.value.gets == [a, a] && !Subsequence(o.value.gets, o.value.puts)
  {
    var h: History<T>, three: seq<Op<T>> := Init(Overwriting, size, false), [DoPut(a), DoPut(b), DoGet];
    assert Step(h, DoPut(a)).value == h.(buf := [a], puts := [a]);
    assert Step(h.(buf := [a], puts := [a]), DoPut(b)).value == h.(buf := [a, b], puts := [a, b]);
    var t := h.(buf := [a], puts := [a, b], gets := [a]);
    assert Step(h.(buf := [a, b], puts := [a, b]), DoGet).value == t by {
      assert [a, b][..1] == [a];
    }
    Few(Step<T>, h, three);
    Snoc(Step<T>, h, three, DoGet);
    assert three + [DoGet] == [DoPut(a), DoPut(b), DoGet, DoGet];
    assert Step(t, DoGet).value.gets == [a, a];
    TwiceIsNotOnce(a, b);
  }

  lemma {:induction false} SubsequencePrefix<T>(a: seq<T>, c: seq<T>, b: seq<T>)
    requires Subsequence(a + c, b)
    ensures Subsequence(a, b)
    decreases |c|
  {
    if c == [] {
      assert a + c == a;
    } else {
      var last := |a + c| - 1;
      SubsequenceDrop(a + c, last, b);
      assert (a + c)[..last] + (a + c)[last + 1..] == a + c[..|c| - 1];
      SubsequencePrefix(a, c[..|c| - 1], b);
    }
  }

  /** After every history, what was obtained is what was put, in order, less what was lost. */
  ghost predicate DeliversInOrder<T(!new)>(kind: Kind, size: nat, repaired: bool) {
    forall ops: seq<Op<T>> :: Run(Step<T>, Init(kind, size, repaired), ops).Some? ==>
      var h := Run(Step<T>, Init(kind, size, repaired), ops).value; Subsequence(h.gets, h.puts)
  }

  /** The stores deliver in order over every history, but the overwriting one as written,
      which does so exactly when it holds one value at most. */
  lemma DeliversInOrderExactlyWhen<T(!new)>(kind: Kind, size: nat, repaired: bool, a: T, b: T)
    requires a != b
    ensures DeliversInOrder<T>(kind, size, repaired) <==> repaired || !kind.Overwriting? || size <= 1
  {
    if repaired || !kind.Overwriting? || size <= 1 {
      forall ops: seq<Op<T>> | Run(Step<T>, Init(kind, size, repaired), ops).Some?
        ensures var h := Run(Step<T>, Init(kind, size, repaired), ops).value; Subsequence(h.gets, h.puts)
      {
        StoresLoseOnlyWhatTheyDocument(kind, size, repaired, ops);
        var h := Run(Step<T>, Init(kind, size, repaired), ops).value;
        SubsequencePrefix(h.gets, h.buf, h.puts);
      }
    } else {
      OverwritingGetDuplicates(size, a, b);
    }
  }
}
