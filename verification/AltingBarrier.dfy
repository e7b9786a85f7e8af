/** The alting barrier of csp/alting_barrier.h: what its front ends share, and the
    coordinator of csp/alt.h that keeps enable sequences apart.

    The code cannot be used as it is written, so the intended behaviour is modelled next to
    it: `inverted` selects the conditions as they stand in the source (alting_barrier.h:334 has
    `_enrolled` where `!_enrolled` is meant, and line 672 asks for a countdown that is not
    zero).  The consequences of the other slips of the same protocol are `WrongFinish` below:
    `set_barrier_trigger` stores 0 (alt.h:239), and `finish_enable` is called where
    `finish_disable` is meant (alt.h:852 and 925). */
module AltingBarrier {
  import opened Barrier
  import opened Condvar
  import opened Sets

  /** One barrier.  `members` are the front ends whose `_enrolled` flag is set, `offers` those
      whose `_has_alt` flag is; a front end is known by the number of its process. */
  datatype Bar = Bar(enrolled: nat, countdown: nat, members: set<nat>, offers: set<nat>)

  datatype Answer = Ready | NotReady | Throws

  function Enable(inverted: bool, f: Bar, p: nat): (Bar, Answer) {
    if (p in f.members) == inverted then (f, Throws)
    else if p in f.offers then (f, NotReady)
    else
      var c := Dec(f.countdown);
      if c == 0 then (f.(countdown := f.enrolled), Ready)
      else (f.(countdown := c, offers := f.offers + {p}), NotReady)
  }

  function Disable(f: Bar, p: nat): (Bar, bool) {
    if p !in f.offers then (f, false)
    else if f.countdown == f.enrolled then (f.(offers := f.offers - {p}), true)
    else (f.(countdown := Inc(f.countdown), offers := f.offers - {p}), false)
  }

  /** `Ready` when the resignation completes the barrier for those who stay. */
  function Leave(inverted: bool, f: Bar, p: nat): (Bar, Answer) {
    if p !in f.members then (f, Throws)
    else
      var g := Bar(Dec(f.enrolled), Dec(f.countdown), f.members - {p}, f.offers);
      if (g.countdown == 0) == inverted then (g, NotReady)
      else (g.(countdown := g.enrolled), if g.enrolled > 0 then Ready else NotReady)
  }

  function Join(f: Bar, p: nat): (Bar, Answer) {
    if p in f.members then (f, Throws)
    else (Bar(Inc(f.enrolled), Inc(f.countdown), f.members + {p}, f.offers), NotReady)
  }

  /** Which front ends are owned (`_owned`), and the thread last noted for each (`_thread`). */
  datatype Owners = Owners(owned: set<nat>, thread: map<nat, nat>)

  predicate Foreign(o: Owners, p: nat, t: nat) { p in o.owned && !(p in o.thread && o.thread[p] == t) }

  /** A front end that nobody owns is taken by the thread that enables it. */
  function Claim(o: Owners, p: nat, t: nat): Owners {
    if p in o.owned then o else Owners(o.owned + {p}, o.thread[p := t])
  }

  /** A successful use of a front end that has to do with its owner. */
  datatype Use = Enables(p: nat, t: nat) | Marks(p: nat, t: nat) | Resets(p: nat)

  function Used(o: Owners, u: Use): Owners {
    match u
    case Enables(p, t) => Claim(o, p, t)
    case Marks(p, t) => o.(thread := o.thread[p := t])
    case Resets(p) => o.(owned := o.owned - {p})
  }

  /** What the front ends of one barrier share, and their own flags. */
  class AltingBarrierBase {
    var enrolled: nat
    var countdown: nat
    var members: set<nat>
    var offers: set<nat>
    var owned: set<nat>
    var thread: map<nat, nat>
    const inverted: bool

    function Value(): Bar reads this { Bar(enrolled, countdown, members, offers) }

    function Owner(): Owners reads this { Owners(owned, thread) }

    constructor (inverted: bool)
      ensures Value() == Bar(0, 0, {}, {}) && Owner() == Owners({}, map[]) && this.inverted == inverted
    {
      enrolled, countdown, members, offers := 0, 0, {}, {};
      owned, thread := {}, map[];
      this.inverted := inverted;
    }

    /** `enable` of front end `p`, called by thread `t`. */
    method EnableFrontEnd(p: nat, t: nat) returns (answer: Answer)
      modifies this
      ensures Owner() == Used(old(Owner()), Enables(p, t))
      ensures (Value(), answer)
           == if Foreign(old(Owner()), p, t) then (old(Value()), Throws) else Enable(inverted, old(Value()), p)
    {
      if p !in owned {
        owned, thread := owned + {p}, thread[p := t];
      } else if !(p in thread && thread[p] == t) {
        return Throws;
      }
      if (p in members) == inverted {
        return Throws;
      }
      if p in offers {
        return NotReady;
      }
      countdown := Dec(countdown);
      if countdown == 0 {
        countdown := enrolled;
        return Ready;
      }
      offers := offers + {p};
      return NotReady;
    }

    method DisableFrontEnd(p: nat) returns (ready: bool)
      modifies this`enrolled, this`countdown, this`members, this`offers
      ensures (Value(), ready) == Disable(old(Value()), p)
    {
      if p !in offers {
        return false;
      }
      ready := countdown == enrolled;
      if !ready {
        countdown := Inc(countdown);
      }
      offers := offers - {p};
    }

    method ResignFrontEnd(p: nat) returns (answer: Answer)
      modifies this`enrolled, this`countdown, this`members, this`offers
      ensures (Value(), answer) == Leave(inverted, old(Value()), p)
    {
      if p !in members {
        return Throws;
      }
      members := members - {p};
      enrolled := Dec(enrolled);
      countdown := Dec(countdown);
      answer := NotReady;
      if (countdown == 0) != inverted {
        countdown := enrolled;
        if enrolled > 0 {
          answer := Ready;
        }
      }
    }

    method EnrollFrontEnd(p: nat) returns (answer: Answer)
      modifies this`enrolled, this`countdown, this`members, this`offers
      ensures (Value(), answer) == Join(old(Value()), p)
    {
      if p in members {
        return Throws;
      }
      members := members + {p};
      enrolled := Inc(enrolled);
      countdown := Inc(countdown);
      answer := NotReady;
    }

    /** `mark`: thread `t` has taken the front end over. */
    method MarkFrontEnd(p: nat, t: nat) returns (answer: Answer)
      modifies this`thread
      ensures answer == if p in members then NotReady else Throws
      ensures Owner() == if p in members then Used(old(Owner()), Marks(p, t)) else old(Owner())
    {
      if p !in members {
        return Throws;
      }
      thread := thread[p := t];
      answer := NotReady;
    }

    /** `reset`: enrolled again, and nobody's. */
    method ResetFrontEnd(p: nat)
      modifies this
      ensures Value() == if p in old(members) then old(Value()) else Join(old(Value()), p).0
      ensures Owner() == Used(old(Owner()), Resets(p))
    {
      if p !in members {
        var _ := EnrollFrontEnd(p);
      }
      owned := owned - {p};
    }
  }

  // ---------- who may enable a front end ----------

  function OwnersAfter(uses: seq<Use>): Owners
    decreases |uses|
  {
    if uses == [] then Owners({}, map[]) else Used(OwnersAfter(uses[..|uses| - 1]), uses[|uses| - 1])
  }

  predicate AtHome(uses: seq<Use>, home: nat -> nat) {
    forall i :: 0 <= i < |uses| && !uses[i].Resets? ==> uses[i].t == home(uses[i].p)
  }

  /** A thread that alone uses its front ends is never turned away, as is each process of
      AltingBarrierSystem. */
  lemma {:induction false} OwnThreadIsWelcome(uses: seq<Use>, home: nat -> nat, p: nat)
    requires AtHome(uses, home)
    ensures !Foreign(OwnersAfter(uses), p, home(p))
    decreases |uses|
  {
    if uses != [] {
      OwnThreadIsWelcome(uses[..|uses| - 1], home, p);
    }
  }

  lemma {:induction false} OwnerStays(before: seq<Use>, since: seq<Use>, p: nat, t: nat, u: nat)
    requires !Foreign(OwnersAfter(before), p, t) && p in OwnersAfter(before).owned
    requires forall i :: 0 <= i < |since| && since[i].p == p ==> since[i].Enables?
    ensures p in OwnersAfter(before + since).owned && (Foreign(OwnersAfter(before + since), p, u) <==> u != t)
    decreases |since|
  {
    if since == [] {
      assert before + since == before;
    } else {
      OwnerStays(before, since[..|since| - 1], p, t, u);
      assert (before + since)[..|before + since| - 1] == before + since[..|since| - 1];
    }
  }

  /** After thread `t` has enabled a front end, and until somebody takes it over or it is reset,
      exactly the other threads are turned away. */
  lemma OthersAreTurnedAway(before: seq<Use>, since: seq<Use>, p: nat, t: nat, u: nat)
    requires !Foreign(OwnersAfter(before), p, t)
    requires forall i :: 0 <= i < |since| && since[i].p == p ==> since[i].Enables?
    ensures Foreign(OwnersAfter(before + [Enables(p, t)] + since), p, u) <==> u != t
  {
    var taken := before + [Enables(p, t)];
    assert taken[..|taken| - 1] == before;
    OwnerStays(taken, since, p, t, u);
  }

  /** A front end that has been taken over belongs to the new thread, and one that was reset to
      nobody. */
  lemma OwnersChange(before: seq<Use>, p: nat, t: nat, u: nat)
    ensures p in OwnersAfter(before).owned ==> (Foreign(OwnersAfter(before + [Marks(p, t)]), p, u) <==> u != t)
    ensures !Foreign(OwnersAfter(before + [Resets(p)]), p, u)
  {
    assert (before + [Marks(p, t)])[..|before|] == before && (before + [Resets(p)])[..|before|] == before;
  }

  // ---------- the coordinator: its count afterwards, and whether its sanity check passed ----------

  /** `start_enable` once the count lets it through. */
  function StartEnable(active: nat): (nat, bool) { if active == 0 then (1, true) else (active, false) }

  function StartDisable(active: nat, n: nat): (nat, bool) { if active == 1 then (n, true) else (active, false) }

  function FinishEnable(active: nat): (nat, bool) { if active == 1 then (0, true) else (active, false) }

  function FinishDisable(active: nat): (nat, bool) { if active >= 1 then (active - 1, true) else (active, false) }

  /** Whether the end of an enable or a disable sequence notifies one process. */
  function NotifiesWhenFree(now: nat, ok: bool): Notify { if ok && now == 0 then One else Nobody }

  class Coordinator {
    var active: nat

    constructor ()
      ensures active == 0
    {
      active := 0;
    }

    /** One look at the count: `start_enable` goes back to waiting while it is not zero. */
    method TryStartEnable() returns (started: bool)
      modifies this
      ensures (active, started) == StartEnable(old(active))
    {
      started := active == 0;
      if started {
        active := 1;
      }
    }

    method BeginDisable(n: nat) returns (ok: bool)
      modifies this
      ensures (active, ok) == StartDisable(old(active), n)
    {
      ok := active == 1;
      if ok {
        active := n;
      }
    }

    /** Wakes one process that waits in `start_enable`, if any. */
    method EndEnable() returns (ok: bool, notify: Notify)
      modifies this
      ensures (active, ok) == FinishEnable(old(active))
      ensures notify == NotifiesWhenFree(active, ok)
    {
      ok, notify := active == 1, Nobody;
      if ok {
        active, notify := 0, One;
      }
    }

    method EndDisable() returns (ok: bool, notify: Notify)
      modifies this
      ensures (active, ok) == FinishDisable(old(active))
      ensures notify == NotifiesWhenFree(active, ok)
    {
      ok, notify := active >= 1, Nobody;
      if ok {
        active := active - 1;
        if active == 0 {
          notify := One;
        }
      }
    }
  }

  // ---------- the operations between completions ----------

  /** What the fields mean while no completion of this barrier is being disabled. */
  predicate Counting(f: Bar) {
    && f.enrolled == |f.members| < WORD && f.offers <= f.members
    && f.countdown == |f.members| - |f.offers|
    && (f.members != {} ==> f.offers != f.members)
  }

  /** A front end that enables completes its barrier exactly when all the others are offering. */
  lemma CompletesWhenLast(f: Bar, p: nat)
    requires Counting(f) && p in f.members && p !in f.offers
    ensures Enable(false, f, p).1.Ready? <==> f.offers + {p} == f.members
    ensures !Enable(false, f, p).1.Throws? && (!Enable(false, f, p).1.Ready? ==> Counting(Enable(false, f, p).0))
  {
    SubsetOfSameSize(f.offers + {p}, f.members);
  }

  lemma WithdrawsQuietly(f: Bar, p: nat)
    requires Counting(f) && p in f.offers
    ensures !Disable(f, p).1 && Counting(Disable(f, p).0)
  {
    SubsetOfSameSize(f.offers - {p}, f.offers);
  }

  lemma JoinsQuietly(f: Bar, p: nat)
    requires Counting(f) && p !in f.members && |f.members| + 1 < WORD
    ensures Join(f, p).1.NotReady? && Counting(Join(f, p).0)
  {
    SubsetOfSameSize(f.offers, f.members);
  }

  /** A resignation completes a barrier exactly when somebody stays and all who stay are
      offering.  As written it does so exactly when somebody who stays is not. */
  lemma LeavingCompletes(f: Bar, p: nat)
    requires Counting(f) && p in f.members && p !in f.offers
    ensures Leave(false, f, p).1.Ready? <==> f.offers == f.members - {p} != {}
    ensures !Leave(false, f, p).1.Throws? && (!Leave(false, f, p).1.Ready? ==> Counting(Leave(false, f, p).0))
    ensures Leave(true, f, p).1.Ready? <==> f.offers != f.members - {p}
  {
    SubsetOfSameSize(f.offers, f.members - {p});
  }

  // ---------- what the slips lead to ----------

  /** As written every enrolled front end is turned away, whatever the barrier's state, where
      the intended test turns nobody enrolled away. */
  lemma EnrolledAreTurnedAway(f: Bar, p: nat)
    ensures Enable(true, f, p).1.Throws? <==> !Enable(false, f, p).1.Throws?
    ensures p in f.members <==> !Enable(false, f, p).1.Throws?
  {
  }

  /** `times` calls of `finish_disable`: the count left, and whether every check passed. */
  function FinishTimes(active: nat, times: nat): (nat, bool) {
    if times == 0 then (active, true)
    else
      var (a, ok) := FinishTimes(active, times - 1);
      (FinishDisable(a).0, ok && FinishDisable(a).1)
  }

  lemma {:induction false} FinishesExactlyOnceEach(active: nat, times: nat)
    ensures FinishTimes(active, times).1 <==> times <= active
    ensures FinishTimes(active, times).0 == if times <= active then active - times else 0
    decreases times
  {
    if times > 0 {
      FinishesExactlyOnceEach(active, times - 1);
    }
  }

  /** A completion with `n` members is over after exactly `n` calls of `finish_disable`.  The
      call of `finish_enable` in its place fails its check, for the first member already,
      unless the barrier has a single member. */
  lemma WrongFinish(n: nat, m: nat)
    requires n > 0
    ensures FinishTimes(StartDisable(1, n).0, m) == (0, true) <==> m == n
    ensures FinishEnable(StartDisable(1, n).0).1 <==> n == 1
  {
    FinishesExactlyOnceEach(n, m);
  }
}
