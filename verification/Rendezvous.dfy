/** What an unbuffered channel is for: one writer and one reader meet and the value
    passes in a single indivisible step.  The implementation is proved to do nothing
    that this system cannot. */
module Rendezvous {
  import opened Runs

  datatype Writer<T> = WriterOut | Offering(p: nat, v: T) | Delivered(p: nat, v: T)
  datatype Reader<T> = ReaderOut | Wanting(q: nat) | Given(q: nat, v: T)

  datatype State<T> = State(w: Writer<T>, r: Reader<T>, sent: seq<T>, received: seq<T>, poisoned: bool)

  datatype Event<T> =
    | Offer(p: nat, v: T)
    | Want(q: nat)
    | Communicate
    | WriterLeaves
    | ReaderLeaves
    | BecomePoisoned
    | WriterAborts
    | ReaderAborts

  function Init<T>(): State<T> { State(WriterOut, ReaderOut, [], [], false) }

  function Step<T>(s: State<T>, e: Event<T>): Option<State<T>> {
    match e
    case Offer(p, v) =>
      if s.w.WriterOut? && !s.poisoned then Some(s.(w := Offering(p, v))) else None
    case Want(q) =>
      if s.r.ReaderOut? && !s.poisoned then Some(s.(r := Wanting(q))) else None
    case Communicate =>
      if s.w.Offering? && s.r.Wanting? && !s.poisoned then
        Some(s.(w := Delivered(s.w.p, s.w.v), r := Given(s.r.q, s.w.v), sent := s.sent + [s.w.v]))
      else None
    case WriterLeaves =>
      if s.w.Delivered? && !s.poisoned then Some(s.(w := WriterOut)) else None
    case ReaderLeaves =>
      if s.r.Given? && !s.poisoned then
        Some(s.(r := ReaderOut, received := s.received + [s.r.v]))
      else None
    case BecomePoisoned =>
      if !s.poisoned then Some(s.(poisoned := true)) else None
    case WriterAborts =>
      if s.poisoned && !s.w.WriterOut? then Some(s.(w := WriterOut)) else None
    case ReaderAborts =>
      if s.poisoned && !s.r.ReaderOut? then Some(s.(r := ReaderOut)) else None
  }

  /** In every run each value that passes is received once and in order, and a writer leaves with
      its value passed; poison loses one value at the most. */
  lemma {:induction false} ValuesPassOnce<T>(es: seq<Event<T>>)
    requires Run(Step<T>, Init(), es).Some?
    ensures var s := Run(Step<T>, Init(), es).value;
      && s.received <= s.sent && |s.sent| <= |s.received| + 1
      && (!s.poisoned ==> s.sent == s.received + if s.r.Given? then [s.r.v] else [])
      && (s.w.Delivered? ==> s.sent != [] && s.sent[|s.sent| - 1] == s.w.v)
    decreases |es|
  {
    if es != [] {
      ValuesPassOnce(es[..|es| - 1]);
    }
  }
}
