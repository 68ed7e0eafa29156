/** Transaction ids: a counter for each thread, tagged with the thread's mask in the top byte of
    a 32-bit word. */
module TidFac {
  import opened Powers

  const WORD: nat := 0x1_0000_0000
  const LIMIT: nat := 0x100_0000

  /** Bitwise or. */
  function Or(a: nat, b: nat): (r: nat) {
    if a == 0 then b
    else if b == 0 then a
    else 2 * Or(a / 2, b / 2) + (if a % 2 == 1 || b % 2 == 1 then 1 else 0)
  }

  /** `next | (mask << 24)`. */
  function IdOf(mask: nat, next: nat): (id: nat) {
    Or(next, mask * LIMIT % WORD)
  }

  /** `x` shifted left by `k`. */
  function Shl(x: nat, k: nat): (r: nat) {
    if k == 0 then x else 2 * Shl(x, k - 1)
  }

  lemma {:induction false} ShlIs(x: nat, k: nat)
    ensures Shl(x, k) == x * Pow2(k)
  {
    if k > 0 {
      ShlIs(x, k - 1);
    }
  }

  /** Or acts on the high and the low bits separately. */
  lemma {:induction false} OrSplits(h: nat, low: nat, m: nat, k: nat)
    requires low < Pow2(k)
    ensures Or(Shl(h, k) + low, Shl(m, k)) == Shl(Or(h, m), k) + low
  {
    if k > 0 {
      OrSplits(h, low / 2, m, k - 1);
      OrOfDoubles(Shl(h, k - 1), low, Shl(m, k - 1));
    }
  }

  lemma OrOfDoubles(a: nat, low: nat, b: nat)
    ensures Or(2 * a + low, 2 * b) == 2 * Or(a + low / 2, b) + low % 2
  {
    OrHalves(2 * a + low, 2 * b);
    assert (2 * a + low) / 2 == a + low / 2 && (2 * b) / 2 == b;
  }

  lemma OrHalves(a: nat, b: nat)
    ensures Or(a, b) == 2 * Or(a / 2, b / 2) + (if a % 2 == 1 || b % 2 == 1 then 1 else 0)
  {
    OrZero(a / 2);
  }

  lemma OrZero(a: nat)
    ensures Or(a, 0) == a
  {
  }

  lemma Limit()
    ensures Pow2(24) == LIMIT
  {
    assert Pow2(8) == 256;
    assert Pow2(16) == 256 * Pow2(8);
    assert Pow2(24) == 256 * Pow2(16);
  }

  lemma OrTimes(h: nat, low: nat, m: nat, k: nat, p: nat)
    requires p == Pow2(k) && low < p
    ensures Or(h * p + low, m * p) == Or(h, m) * p + low
  {
    ShlIs(h, k);
    ShlIs(m, k);
    ShlIs(Or(h, m), k);
    OrSplits(h, low, m, k);
  }

  /** The or of a tag with a counter that may have run `h` times past its range. */
  lemma IdSplits(mask: nat, h: nat, next: nat)
    requires mask < 256 && next < LIMIT
    ensures IdOf(mask, h * LIMIT + next) == Or(h, mask) * LIMIT + next
  {
    TagFits(mask);
    LimitShift(h, next, mask);
  }

  lemma TagFits(mask: nat)
    requires mask < 256
    ensures mask * LIMIT % WORD == mask * LIMIT
  {
  }

  lemma LimitShift(h: nat, low: nat, m: nat)
    requires low < LIMIT
    ensures Or(h * LIMIT + low, m * LIMIT) == Or(h, m) * LIMIT + low
  {
    Limit();
    OrTimes(h, low, m, 24, LIMIT);
  }

  /** Within its range an id is the counter next to the mask. */
  lemma IdIs(mask: nat, next: nat)
    requires mask < 256 && next < LIMIT
    ensures IdOf(mask, next) == mask * LIMIT + next
  {
    IdSplits(mask, 0, next);
  }

  /** Exactly when two ids are the same: the counters agree below the tag, and what they add to
      the masks agrees too. */
  lemma IdsCollideIff(m: nat, n: nat, m': nat, n': nat)
    requires m < 256 && m' < 256
    ensures IdOf(m, n) == IdOf(m', n') <==> n % LIMIT == n' % LIMIT && Or(n / LIMIT, m) == Or(n' / LIMIT, m')
  {
    IdSplits(m, n / LIMIT, n % LIMIT);
    IdSplits(m', n' / LIMIT, n' % LIMIT);
  }

  lemma OrOne(m: nat)
    ensures Or(1, m) == if m % 2 == 1 then m else m + 1
  {
    OrHalves(1, m);
  }

  /** One lap past its range a thread with an odd mask gives its own ids again, and one with an
      even mask those of the next thread. */
  lemma IdsRecur(m: nat, n: nat)
    requires m < 256 && n < LIMIT
    ensures IdOf(m, n + LIMIT) == IdOf(if m % 2 == 1 then m else m + 1, n)
  {
    OrOne(m);
    IdsCollideIff(m, n + LIMIT, if m % 2 == 1 then m else m + 1, n);
  }

  /** The value of a thread's `Factory`, and what a call makes of it. */
  datatype Fac = Fac(mask: nat, next: nat)

  function Stepped(f: Fac): Fac {
    f.(next := (f.next + 1) % WORD)
  }

  class Factory {
    var mask: nat
    var next: nat
    ghost var calls: nat        // how often it was called
    ghost var issued: set<nat>  // the ids given under the present mask

    ghost predicate Valid()
      reads this
    {
      && next == (1 + calls) % WORD
      && (mask < 256 && calls < LIMIT ==> forall id :: id in issued ==> id / LIMIT == mask && 0 < id % LIMIT <= calls)
    }

    function Value(): Fac
      reads this
    {
      Fac(mask, next)
    }

    constructor ()
      ensures Valid() && Value() == Fac(0, 1) && calls == 0 && issued == {}
    {
      mask, next, calls, issued := 0, 1, 0, {};
    }

    method SetMask(m: nat)
      requires Valid()
      modifies this`mask, this`issued
      ensures Valid() && mask == m && issued == {}
    {
      mask, issued := m, {};
    }

    /** While in range the id is new, is not zero and carries the thread's mask. */
    method GetNext() returns (id: nat)
      requires Valid()
      modifies this`next, this`calls, this`issued
      ensures Valid() && calls == old(calls) + 1 && issued == old(issued) + {id}
      ensures mask < 256 && calls < LIMIT ==> id !in old(issued) && id != 0 && id / LIMIT == mask && id % LIMIT == calls
      ensures id == IdOf(mask, old(next)) && Value() == Stepped(old(Value()))
    {
      id := Or(next, mask * LIMIT % WORD);
      if mask < 256 && calls + 1 < LIMIT {
        IdIs(mask, next);
        TopAndBottom(mask, next);
      }
      next := (next + 1) % WORD;
      calls, issued := calls + 1, issued + {id};
    }
  }

  lemma TopAndBottom(mask: nat, n: nat)
    requires n < LIMIT
    ensures (mask * LIMIT + n) / LIMIT == mask && (mask * LIMIT + n) % LIMIT == n
  {
  }

  // ----- any number of threads, in any order -----

  type Thread = nat

  function Called(facs: map<Thread, Fac>, t: Thread): map<Thread, Fac>
    requires t in facs
  {
    facs[t := Stepped(facs[t])]
  }

  /** The ids that the calls of a schedule return. */
  function Ids(facs: map<Thread, Fac>, sched: seq<Thread>): (ids: seq<nat>)
    requires forall i :: 0 <= i < |sched| ==> sched[i] in facs
    ensures |ids| == |sched|
    decreases |sched|
  {
    if sched == [] then []
    else [IdOf(facs[sched[0]].mask, facs[sched[0]].next)] + Ids(Called(facs, sched[0]), sched[1..])
  }

  function Calls(sched: seq<Thread>, t: Thread): (n: nat) {
    if sched == [] then 0 else (if sched[0] == t then 1 else 0) + Calls(sched[1..], t)
  }

  /** Masks are distinct bytes, counters are past 0, and no thread calls beyond its range. */
  ghost predicate InRange(facs: map<Thread, Fac>, sched: seq<Thread>) {
    && (forall i :: 0 <= i < |sched| ==> sched[i] in facs)
    && (forall t :: t in facs ==> facs[t].mask < 256 && 0 < facs[t].next && facs[t].next + Calls(sched, t) <= LIMIT)
    && (forall t, u :: t in facs && u in facs && t != u ==> facs[t].mask != facs[u].mask)
  }

  lemma CallSteps(facs: map<Thread, Fac>, sched: seq<Thread>)
    requires InRange(facs, sched) && sched != []
    ensures sched[0] in facs && facs[sched[0]].next < LIMIT && Called(facs, sched[0]).Keys == facs.Keys
    ensures forall t :: t in facs ==>
              (Called(facs, sched[0])[t].mask == facs[t].mask
               && Called(facs, sched[0])[t].next == facs[t].next + (if t == sched[0] then 1 else 0)
               && Calls(sched, t) == (if t == sched[0] then 1 else 0) + Calls(sched[1..], t))
  {
    var t := sched[0];
    assert facs[t].next + Calls(sched, t) <= LIMIT;
  }

  lemma CallKeepsRange(facs: map<Thread, Fac>, sched: seq<Thread>)
    requires InRange(facs, sched) && sched != []
    ensures sched[0] in facs && facs[sched[0]].next < LIMIT && InRange(Called(facs, sched[0]), sched[1..])
    ensures forall t :: t in facs ==>
              (t in Called(facs, sched[0])
               && Called(facs, sched[0])[t].mask == facs[t].mask
               && Called(facs, sched[0])[t].next == facs[t].next + (if t == sched[0] then 1 else 0))
  {
    CallSteps(facs, sched);
    hide Called, Calls;
  }

  lemma IdsAfterCall(facs: map<Thread, Fac>, sched: seq<Thread>, i: nat)
    requires InRange(facs, sched) && 0 < i < |sched|
    ensures InRange(Called(facs, sched[0]), sched[1..])
    ensures Ids(facs, sched)[i] == Ids(Called(facs, sched[0]), sched[1..])[i - 1]
  {
    CallKeepsRange(facs, sched);
  }

  lemma {:induction false} LaterId(facs: map<Thread, Fac>, sched: seq<Thread>, i: nat) returns (n: nat)
    requires InRange(facs, sched) && i < |sched|
    ensures sched[i] in facs && facs[sched[i]].next <= n < LIMIT && Ids(facs, sched)[i] == IdOf(facs[sched[i]].mask, n)
    decreases |sched|
  {
    CallKeepsRange(facs, sched);
    if i == 0 {
      n := facs[sched[0]].next;
    } else {
      IdsAfterCall(facs, sched, i);
      n := LaterId(Called(facs, sched[0]), sched[1..], i - 1);
    }
  }

  lemma FirstId(facs: map<Thread, Fac>, sched: seq<Thread>)
    requires InRange(facs, sched) && sched != []
    ensures Ids(facs, sched)[0] == facs[sched[0]].mask * LIMIT + facs[sched[0]].next
  {
    CallKeepsRange(facs, sched);
    IdIs(facs[sched[0]].mask, facs[sched[0]].next);
  }

  /** The first id is not given again. */
  lemma FirstIdIsNew(facs: map<Thread, Fac>, sched: seq<Thread>, j: nat)
    requires InRange(facs, sched) && 0 < j < |sched|
    ensures Ids(facs, sched)[0] != Ids(facs, sched)[j]
  {
    var t := sched[0];
    CallKeepsRange(facs, sched);
    FirstId(facs, sched);
    IdsAfterCall(facs, sched, j);
    var n := LaterId(Called(facs, t), sched[1..], j - 1);
    IdIs(facs[sched[j]].mask, n);
  }

  /** Ids are distinct and not zero, whatever the interleaving: so with one commit for each id no
      version ever comes back. */
  lemma {:induction false} IdsAreDistinct(facs: map<Thread, Fac>, sched: seq<Thread>, i: nat, j: nat)
    requires InRange(facs, sched) && i < j < |sched|
    ensures Ids(facs, sched)[i] != Ids(facs, sched)[j] && Ids(facs, sched)[i] != 0
    decreases |sched|
  {
    CallKeepsRange(facs, sched);
    if i > 0 {
      IdsAfterCall(facs, sched, i);
      IdsAfterCall(facs, sched, j);
      IdsAreDistinct(Called(facs, sched[0]), sched[1..], i - 1, j - 1);
    } else {
      FirstId(facs, sched);
      FirstIdIsNew(facs, sched, j);
    }
  }

  /** The counter that the `i`-th call of a schedule finds. */
  function CounterAt(facs: map<Thread, Fac>, sched: seq<Thread>, i: nat): (n: nat)
    requires i < |sched| && sched[i] in facs
  {
    (facs[sched[i]].next + Calls(sched[..i], sched[i])) % WORD
  }

  lemma {:induction false} IdAt(facs: map<Thread, Fac>, sched: seq<Thread>, i: nat)
    requires (forall k :: 0 <= k < |sched| ==> sched[k] in facs) && i < |sched|
    requires forall t :: t in facs ==> facs[t].next < WORD
    ensures Ids(facs, sched)[i] == IdOf(facs[sched[i]].mask, CounterAt(facs, sched, i))
    decreases |sched|
  {
    if i > 0 {
      var t := sched[0];
      IdAt(Called(facs, t), sched[1..], i - 1);
      CounterAfterCall(facs, sched, i);
    }
  }

  lemma CounterAfterCall(facs: map<Thread, Fac>, sched: seq<Thread>, i: nat)
    requires (forall k :: 0 <= k < |sched| ==> sched[k] in facs) && 0 < i < |sched|
    ensures CounterAt(Called(facs, sched[0]), sched[1..], i - 1) == CounterAt(facs, sched, i)
  {
    var t, u := sched[0], sched[i];
    assert sched[..i][0] == t && sched[..i][1..] == sched[1..][..i - 1];
    if t == u {
      ModTwice(facs[u].next + 1, Calls(sched[1..][..i - 1], u));
    }
  }

  lemma ModTwice(a: nat, b: nat)
    ensures (a % WORD + b) % WORD == (a + b) % WORD
  {
  }

  /** Beyond the range too: exactly which calls of a schedule return the same id. */
  lemma CallsCollideIff(facs: map<Thread, Fac>, sched: seq<Thread>, i: nat, j: nat)
    requires (forall k :: 0 <= k < |sched| ==> sched[k] in facs) && i < |sched| && j < |sched|
    requires forall t :: t in facs ==> facs[t].next < WORD && facs[t].mask < 256
    ensures var n, n' := CounterAt(facs, sched, i), CounterAt(facs, sched, j);
            (Ids(facs, sched)[i] == Ids(facs, sched)[j]) <==>
            (n % LIMIT == n' % LIMIT && Or(n / LIMIT, facs[sched[i]].mask) == Or(n' / LIMIT, facs[sched[j]].mask))
  {
    IdAt(facs, sched, i);
    IdAt(facs, sched, j);
    IdsCollideIff(facs[sched[i]].mask, CounterAt(facs, sched, i), facs[sched[j]].mask, CounterAt(facs, sched, j));
  }
}
