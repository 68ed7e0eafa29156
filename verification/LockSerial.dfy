/** Strict two-phase locking is serializable: the store is always what the attempts that have
    all their locks make of it one after another, in the order in which they completed their
    locks, and each of them reads what it would read in that serial execution. */
module LockSerial {
  import opened LockMachine
  import opened LockInvariant
  import opened LockTheorems

  // ----- values in the serial execution -----

  /** The value of `o` after `events`, from value `v`. */
  function Cur(events: seq<Event>, v: Val, o: Oid): Val {
    if events == [] then v
    else if events[|events| - 1] == Put(o, events[|events| - 1].v) then events[|events| - 1].v
    else Cur(events[..|events| - 1], v, o)
  }

  /** The value of `o` after the first `n` attempts. */
  function Base(init: map<Oid, Val>, h: seq<Attempt>, n: nat, o: Oid): Val
    requires n <= |h| && o in init
  {
    if n == 0 then init[o] else Cur(h[n - 1].events, Base(init, h, n - 1, o), o)
  }

  lemma CurOne(events: seq<Event>, e: Event, v: Val, o: Oid)
    ensures Cur(events + [e], v, o) == if e.Put? && e.o == o then e.v else Cur(events, v, o)
  {
    assert (events + [e])[..|events|] == events;
  }

  lemma {:induction false} CurQuiet(events: seq<Event>, v: Val, o: Oid)
    requires forall k :: 0 <= k < |events| ==> !(events[k].Put? && events[k].o == o)
    ensures Cur(events, v, o) == v
  {
    if events != [] {
      CurQuiet(events[..|events| - 1], v, o);
    }
  }

  /** The attempt touches only what it has locked. */
  predicate EventsOk(a: Attempt, os: set<Oid>) {
    forall k :: 0 <= k < |a.events| ==>
      a.events[k].o in os && a.events[k].o in a.readLocks + a.writeLocks && (a.events[k].Put? ==> a.events[k].o in a.writeLocks)
  }

  lemma {:induction false} BaseStable(init: map<Oid, Val>, h: seq<Attempt>, i: nat, n: nat, o: Oid)
    requires i <= n <= |h| && o in init
    requires forall j :: i <= j < n ==> EventsOk(h[j], init.Keys) && o !in h[j].writeLocks
    ensures Base(init, h, n, o) == Base(init, h, i, o)
    decreases n
  {
    if i < n {
      BaseStable(init, h, i, n - 1, o);
      assert EventsOk(h[n - 1], init.Keys);
      CurQuiet(h[n - 1].events, Base(init, h, n - 1, o), o);
    }
  }

  /** The history with one more event of attempt `i`. */
  function Grown(h: seq<Attempt>, i: nat, e: Event): (r: seq<Attempt>)
    requires i < |h|
  {
    h[i := h[i].(events := h[i].events + [e])]
  }

  lemma {:induction false} BaseGrown(init: map<Oid, Val>, h: seq<Attempt>, i: nat, e: Event, n: nat, o: Oid)
    requires i < |h| && n <= |h| && o in init && (n <= i || !(e.Put? && e.o == o))
    ensures Base(init, Grown(h, i, e), n, o) == Base(init, h, n, o)
    decreases n
  {
    if n > 0 {
      BaseGrown(init, h, i, e, n - 1, o);
      if n - 1 == i {
        CurOne(h[i].events, e, Base(init, h, i, o), o);
      }
    }
  }

  lemma {:induction false} BaseAppended(init: map<Oid, Val>, h: seq<Attempt>, a: Attempt, n: nat, o: Oid)
    requires n <= |h| && o in init
    ensures Base(init, h + [a], n, o) == Base(init, h, n, o)
    decreases n
  {
    if n > 0 {
      BaseAppended(init, h, a, n - 1, o);
    }
  }

  // ----- the invariant -----

  /** A transaction that has all its locks asks for no more. */
  predicate PhaseOk(x: Txn) {
    && (!x.phase.Growing? ==> x.pc.Body? || x.pc.Leave? || x.pc.Fall? || x.pc.Zero? || x.pc.Left? || x.pc.Done?)
    && (x.slot >= 0 ==> !x.phase.Growing?)
    && (x.phase.Working? ==> x.slot >= 0)
    && (!x.phase.Ending? ==> !x.pc.Leave? && !x.pc.Fall? && !x.pc.Zero? && !x.pc.Left? && !x.pc.Done?)
    && x.slot >= -1
    && (x.pc.Done? ==> x.slot >= 0)
  }

  predicate SlotOk(t: Tid, x: Txn, h: seq<Attempt>) {
    && x.slot < |h|
    && (x.slot >= 0 ==> h[x.slot].tid == t)
    && (x.slot >= 0 && x.phase.Working? ==> x.readLocks == h[x.slot].readLocks && x.writeLocks == h[x.slot].writeLocks)
  }

  predicate EntryOk(txns: map<Tid, Txn>, h: seq<Attempt>, i: int)
    requires 0 <= i < |h|
  {
    h[i].tid in txns && txns[h[i].tid].slot == i
  }

  /** Attempt `i` has let go of what the later attempt `b` conflicts with it on. */
  predicate Apart(x: Txn, b: Attempt, o: Oid) {
    && (HoldsWrite(x, o) ==> o !in b.readLocks + b.writeLocks)
    && (HoldsRead(x, o) ==> o !in b.writeLocks)
  }

  /** Every read so far is the serial one. */
  predicate ReadsOk(init: map<Oid, Val>, h: seq<Attempt>, i: nat)
    requires i < |h|
  {
    forall k :: 0 <= k < |h[i].events| && h[i].events[k].Got? && h[i].events[k].o in init ==>
      h[i].events[k].v == Cur(h[i].events[..k], Base(init, h, i, h[i].events[k].o), h[i].events[k].o)
  }

  ghost predicate PhasesOk(s: State) {
    forall t :: t in s.txns ==> PhaseOk(s.txns[t]) && SlotOk(t, s.txns[t], s.hist)
  }

  ghost predicate EntriesOk(s: State) {
    forall i :: 0 <= i < |s.hist| ==> EntryOk(s.txns, s.hist, i) && EventsOk(s.hist[i], s.init.Keys)
  }

  ghost predicate ApartOk(s: State) {
    forall i, j, o :: 0 <= i < j < |s.hist| && s.hist[i].tid in s.txns ==> Apart(s.txns[s.hist[i].tid], s.hist[j], o)
  }

  ghost predicate DataOk(s: State) {
    && s.data.Keys == s.init.Keys == s.words.Keys
    && (forall o :: o in s.init && o in s.data ==> s.data[o] == Base(s.init, s.hist, |s.hist|, o))
    && (forall i :: 0 <= i < |s.hist| ==> ReadsOk(s.init, s.hist, i))
  }

  /** What was read before the last lock is locked and still so in the store. */
  predicate SeenOk(x: Txn, data: map<Oid, Val>) {
    x.phase.Growing? ==>
      forall k :: 0 <= k < |x.seen| ==>
        x.seen[k].Got? && x.seen[k].o in x.readLocks + x.writeLocks && x.seen[k].o in data && x.seen[k].v == data[x.seen[k].o]
  }

  ghost predicate SeensOk(s: State) {
    forall t :: t in s.txns ==> SeenOk(s.txns[t], s.data)
  }

  /** Whoever has its place in the history shares no write lock with a reader. */
  predicate AloneOk(t: Tid, x: Txn, o: Oid, w: Word) {
    x.slot >= 0 && HoldsWrite(x, o) ==> w.readers <= {t}
  }

  ghost predicate AlonesOk(s: State) {
    forall t, o :: t in s.txns && o in s.words ==> AloneOk(t, s.txns[t], o, s.words[o])
  }

  ghost predicate SerialInv(s: State) {
    PhasesOk(s) && EntriesOk(s) && ApartOk(s) && DataOk(s) && SeensOk(s) && AlonesOk(s)
  }

  lemma PhaseStep(s: State, t: Tid, m: Move)
    requires t in s.txns && CanMove(s, t, m) && PhaseOk(s.txns[t])
    ensures PhaseOk(NextTxn(s, t, m))
  {
  }

  lemma SlotStep(s: State, t: Tid, m: Move)
    requires t in s.txns && CanMove(s, t, m) && PhaseOk(s.txns[t]) && SlotOk(t, s.txns[t], s.hist)
    ensures SlotOk(t, NextTxn(s, t, m), NextHist(s, t, m))
  {
  }

  /** A read of an attempt that has its place in the history. */
  predicate LateRead(x: Txn, m: Move) {
    m.Read? && x.phase.Working?
  }

  lemma HistShape(s: State, t: Tid, m: Move)
    requires t in s.txns && CanMove(s, t, m) && PhaseOk(s.txns[t]) && SlotOk(t, s.txns[t], s.hist)
    ensures var x := s.txns[t]; var h' := NextHist(s, t, m);
            && (m.LocksDone? ==> h' == s.hist + [Attempt(t, x.readLocks, x.writeLocks, x.seen)])
            && (LateRead(x, m) ==> x.slot >= 0 && h' == Grown(s.hist, x.slot, Got(m.o, s.data[m.o])))
            && (m.Write? ==> x.slot >= 0 && h' == Grown(s.hist, x.slot, Put(m.o, m.v)))
            && (!m.LocksDone? && !LateRead(x, m) && !m.Write? ==> h' == s.hist)
  {
  }

  lemma PhasesStep(s: State, t: Tid, m: Move)
    requires t in s.txns && CanMove(s, t, m) && PhasesOk(s)
    ensures PhasesOk(ApplyMove(s, t, m))
  {
    PhaseStep(s, t, m);
    SlotStep(s, t, m);
    HistShape(s, t, m);
  }

  lemma EntryStep(s: State, t: Tid, m: Move, i: nat)
    requires t in s.txns && CanMove(s, t, m) && PhaseOk(s.txns[t]) && SlotOk(t, s.txns[t], s.hist)
    requires i < |s.hist| && EntryOk(s.txns, s.hist, i)
    ensures i < |NextHist(s, t, m)| && EntryOk(ApplyMove(s, t, m).txns, NextHist(s, t, m), i)
  {
    HistShape(s, t, m);
  }

  lemma EventsStep(s: State, t: Tid, m: Move, i: nat)
    requires t in s.txns && CanMove(s, t, m) && PhaseOk(s.txns[t]) && SlotOk(t, s.txns[t], s.hist)
    requires i < |s.hist| && EventsOk(s.hist[i], s.init.Keys) && s.data.Keys == s.init.Keys
    ensures i < |NextHist(s, t, m)| && EventsOk(NextHist(s, t, m)[i], s.init.Keys)
  {
    HistShape(s, t, m);
  }

  lemma EntriesStep(s: State, t: Tid, m: Move)
    requires t in s.txns && CanMove(s, t, m) && PhasesOk(s) && EntriesOk(s) && DataOk(s) && SeensOk(s)
    ensures EntriesOk(ApplyMove(s, t, m))
  {
    var s' := ApplyMove(s, t, m);
    HistShape(s, t, m);
    forall i | 0 <= i < |s'.hist| ensures EntryOk(s'.txns, s'.hist, i) && EventsOk(s'.hist[i], s'.init.Keys) {
      if i < |s.hist| {
        EntryStep(s, t, m, i);
        EventsStep(s, t, m, i);
      } else {
        assert SeenOk(s.txns[t], s.data);
        SeenEventsOk(t, s.txns[t], s.data);
      }
    }
  }

  /** What an attempt brings into the history: reads of what it has locked. */
  function Entered(t: Tid, x: Txn): (a: Attempt) {
    Attempt(t, x.readLocks, x.writeLocks, x.seen)
  }

  lemma SeenEventsOk(t: Tid, x: Txn, data: map<Oid, Val>)
    requires x.phase.Growing? && SeenOk(x, data)
    ensures EventsOk(Entered(t, x), data.Keys)
    ensures forall v, o :: Cur(x.seen, v, o) == v
  {
    forall v, o ensures Cur(x.seen, v, o) == v {
      CurQuiet(x.seen, v, o);
    }
  }

  /** Locks are only given up once the transaction has its place in the history. */
  lemma HoldsLess(s: State, t: Tid, m: Move, o: Oid)
    requires t in s.txns && CanMove(s, t, m) && PhaseOk(s.txns[t]) && s.txns[t].slot >= 0
    ensures HoldsWrite(NextTxn(s, t, m), o) ==> HoldsWrite(s.txns[t], o)
    ensures HoldsRead(NextTxn(s, t, m), o) ==> HoldsRead(s.txns[t], o)
  {
  }

  lemma LocksConflict(s: State, t: Tid, u: Tid, o: Oid)
    requires Inv(s) && t in s.txns && u in s.txns && t != u && o in s.words && AloneOk(u, s.txns[u], o, s.words[o])
    ensures s.txns[u].slot >= 0 && HoldsWrite(s.txns[u], o) ==> !HoldsWrite(s.txns[t], o) && !HoldsRead(s.txns[t], o)
  {
    assert PairOk(t, s.txns[t], o, s.words[o]) && PairOk(u, s.txns[u], o, s.words[o]);
  }

  /** A new attempt that is not exposed is apart from every earlier one. */
  lemma ApartNew(s: State, t: Tid, u: Tid, o: Oid)
    requires Inv(s) && t in s.txns && u in s.txns && t != u && s.txns[u].slot >= 0 && !Exposed(s, t) && AlonesOk(s)
    ensures Apart(s.txns[u], Entered(t, s.txns[t]), o)
  {
    assert AboutOk(s.txns[t], s.words.Keys) && AboutOk(s.txns[u], s.words.Keys);
    if o in s.words {
      assert AloneOk(u, s.txns[u], o, s.words[o]);
      LocksConflict(s, t, u, o);
      assert PairOk(u, s.txns[u], o, s.words[o]) && PairOk(t, s.txns[t], o, s.words[o]);
      assert o in s.txns[t].writeLocks ==> s.words[o].readers <= {t};
    }
  }

  lemma OnlyLocksDoneAdds(s: State, t: Tid, m: Move)
    requires t in s.txns && CanMove(s, t, m) && PhaseOk(s.txns[t]) && SlotOk(t, s.txns[t], s.hist) && |NextHist(s, t, m)| > |s.hist|
    ensures NextHist(s, t, m) == s.hist + [Entered(t, s.txns[t])] && s.txns[t].slot < 0
    ensures ApplyMove(s, t, m).tainted <==> s.tainted || Exposed(s, t)
    ensures ApplyMove(s, t, m).txns == s.txns[t := NextTxn(s, t, m)]
  {
    HistShape(s, t, m);
  }

  lemma ApartLast(s: State, t: Tid, m: Move, u: Tid, o: Oid)
    requires t in s.txns && CanMove(s, t, m) && PhaseOk(s.txns[t]) && SlotOk(t, s.txns[t], s.hist) && |NextHist(s, t, m)| > |s.hist|
    requires Inv(s) && AlonesOk(s) && !ApplyMove(s, t, m).tainted && u in s.txns && s.txns[u].slot >= 0
    ensures Apart(ApplyMove(s, t, m).txns[u], NextHist(s, t, m)[|s.hist|], o)
  {
    OnlyLocksDoneAdds(s, t, m);
    hide *;
    ApartNew(s, t, u, o);
  }

  lemma ApartPair(s: State, t: Tid, m: Move, i: nat, j: nat, o: Oid)
    requires t in s.txns && CanMove(s, t, m) && PhaseOk(s.txns[t]) && SlotOk(t, s.txns[t], s.hist)
    requires Inv(s) && !ApplyMove(s, t, m).tainted && AlonesOk(s)
    requires i < j < |NextHist(s, t, m)| <= |s.hist| + 1 && i < |s.hist| && EntryOk(s.txns, s.hist, i)
    requires j < |s.hist| ==> Apart(s.txns[s.hist[i].tid], s.hist[j], o)
    ensures Apart(ApplyMove(s, t, m).txns[s.hist[i].tid], NextHist(s, t, m)[j], o)
  {
    if j < |s.hist| {
      hide *;
      ApartOld(s, t, m, i, j, o);
    } else {
      assert s.txns[s.hist[i].tid].slot >= 0;
      hide *;
      ApartLast(s, t, m, s.hist[i].tid, o);
    }
  }

  lemma ApartOld(s: State, t: Tid, m: Move, i: nat, j: nat, o: Oid)
    requires t in s.txns && CanMove(s, t, m) && PhaseOk(s.txns[t]) && SlotOk(t, s.txns[t], s.hist)
    requires i < j < |s.hist| && EntryOk(s.txns, s.hist, i) && Apart(s.txns[s.hist[i].tid], s.hist[j], o)
    ensures j < |NextHist(s, t, m)| && Apart(ApplyMove(s, t, m).txns[s.hist[i].tid], NextHist(s, t, m)[j], o)
  {
    HistShape(s, t, m);
    if s.hist[i].tid == t {
      HoldsLess(s, t, m, o);
    }
  }

  lemma EarlierStays(s: State, t: Tid, m: Move)
    requires t in s.txns && CanMove(s, t, m) && PhasesOk(s) && EntriesOk(s)
    ensures forall i :: 0 <= i < |NextHist(s, t, m)| - 1 ==>
              i < |s.hist| && NextHist(s, t, m)[i].tid == s.hist[i].tid && s.hist[i].tid in s.txns
  {
    assert PhaseOk(s.txns[t]) && SlotOk(t, s.txns[t], s.hist);
    HistShape(s, t, m);
    forall i | 0 <= i < |s.hist| ensures s.hist[i].tid in s.txns {
      assert EntryOk(s.txns, s.hist, i);
    }
  }

  lemma ApartStep(s: State, t: Tid, m: Move)
    requires t in s.txns && CanMove(s, t, m) && Inv(s) && !ApplyMove(s, t, m).tainted && PhasesOk(s) && EntriesOk(s) && ApartOk(s) && AlonesOk(s)
    ensures ApartOk(ApplyMove(s, t, m))
  {
    hide Apart, NextTxn, NextWord, Inv, PhaseOk, SlotOk;
    var s' := ApplyMove(s, t, m);
    assert PhaseOk(s.txns[t]) && SlotOk(t, s.txns[t], s.hist);
    HistShape(s, t, m);
    EarlierStays(s, t, m);
    forall i, j, o | 0 <= i < j < |s'.hist| && s'.hist[i].tid in s'.txns
      ensures Apart(s'.txns[s'.hist[i].tid], s'.hist[j], o)
    {
      assert EntryOk(s.txns, s.hist, i) && (j < |s.hist| ==> Apart(s.txns[s.hist[i].tid], s.hist[j], o));
      ApartPair(s, t, m, i, j, o);
    }
  }

  /** What a working transaction has locked is as it left it or found it. */
  lemma LockedIsCurrent(s: State, t: Tid, o: Oid)
    requires SerialInv(s) && t in s.txns && s.txns[t].phase.Working? && o in s.txns[t].readLocks + s.txns[t].writeLocks && o in s.init
    ensures 0 <= s.txns[t].slot < |s.hist|
    ensures Base(s.init, s.hist, |s.hist|, o) == Cur(s.hist[s.txns[t].slot].events, Base(s.init, s.hist, s.txns[t].slot, o), o)
  {
    var i := s.txns[t].slot;
    LaterLeaveAlone(s, t, o);
    BaseStable(s.init, s.hist, i + 1, |s.hist|, o);
  }

  lemma LaterLeaveAlone(s: State, t: Tid, o: Oid)
    requires PhasesOk(s) && EntriesOk(s) && ApartOk(s) && t in s.txns && s.txns[t].phase.Working?
    requires o in s.txns[t].readLocks + s.txns[t].writeLocks
    ensures 0 <= s.txns[t].slot < |s.hist|
    ensures forall j :: s.txns[t].slot < j < |s.hist| ==> EventsOk(s.hist[j], s.init.Keys) && o !in s.hist[j].writeLocks
    ensures o in s.txns[t].writeLocks ==> forall j :: s.txns[t].slot < j < |s.hist| ==> o !in s.hist[j].readLocks
  {
    assert PhaseOk(s.txns[t]) && SlotOk(t, s.txns[t], s.hist);
    var i := s.txns[t].slot;
    forall j | i < j < |s.hist|
      ensures EventsOk(s.hist[j], s.init.Keys) && o !in s.hist[j].writeLocks
      ensures o in s.txns[t].writeLocks ==> o !in s.hist[j].readLocks
    {
      assert s.hist[i].tid == t;
      assert Apart(s.txns[t], s.hist[j], o);
    }
  }

  /** The store after a write. */
  lemma WriteData(s: State, t: Tid, o: Oid, v: Val, p: Oid)
    requires t in s.txns && CanMove(s, t, Write(o, v)) && SerialInv(s) && p in s.init
    ensures p in ApplyMove(s, t, Write(o, v)).data
    ensures ApplyMove(s, t, Write(o, v)).data[p] == Base(s.init, NextHist(s, t, Write(o, v)), |s.hist|, p)
  {
    var i, e := s.txns[t].slot, Put(o, v);
    assert PhaseOk(s.txns[t]) && SlotOk(t, s.txns[t], s.hist);
    HistShape(s, t, Write(o, v));
    var h' := Grown(s.hist, i, e);
    if p == o {
      LaterLeaveAlone(s, t, o);
      BaseStable(s.init, h', i + 1, |h'|, o);
      CurOne(s.hist[i].events, e, Base(s.init, h', i, o), o);
    } else {
      BaseGrown(s.init, s.hist, i, e, |s.hist|, p);
    }
  }

  lemma DataStep(s: State, t: Tid, m: Move, p: Oid)
    requires t in s.txns && CanMove(s, t, m) && SerialInv(s) && p in s.init
    ensures var s' := ApplyMove(s, t, m); p in s'.data && s'.data[p] == Base(s.init, s'.hist, |s'.hist|, p)
  {
    assert PhaseOk(s.txns[t]) && SlotOk(t, s.txns[t], s.hist);
    HistShape(s, t, m);
    if m.Write? {
      WriteData(s, t, m.o, m.v, p);
    } else if LateRead(s.txns[t], m) {
      BaseGrown(s.init, s.hist, s.txns[t].slot, Got(m.o, s.data[m.o]), |s.hist|, p);
    } else if m.LocksDone? {
      assert SeenOk(s.txns[t], s.data);
      SeenEventsOk(t, s.txns[t], s.data);
      BaseAppended(s.init, s.hist, Entered(t, s.txns[t]), |s.hist|, p);
    }
  }

  /** Reads of attempt `j` stay right when attempt `i` gets event `e`. */
  lemma ReadsOther(init: map<Oid, Val>, h: seq<Attempt>, i: nat, e: Event, j: nat)
    requires i < |h| && j < |h| && i != j && ReadsOk(init, h, j) && EventsOk(h[j], init.Keys)
    requires i < j && e.Put? ==> e.o !in h[j].readLocks + h[j].writeLocks
    ensures ReadsOk(init, Grown(h, i, e), j)
  {
    forall k | 0 <= k < |h[j].events| && h[j].events[k].Got? && h[j].events[k].o in init
      ensures h[j].events[k].v == Cur(h[j].events[..k], Base(init, Grown(h, i, e), j, h[j].events[k].o), h[j].events[k].o)
    {
      BaseGrown(init, h, i, e, j, h[j].events[k].o);
    }
  }

  lemma ReadsOwn(init: map<Oid, Val>, h: seq<Attempt>, i: nat, e: Event)
    requires i < |h| && ReadsOk(init, h, i)
    requires e.Got? && e.o in init ==> e.v == Cur(h[i].events, Base(init, h, i, e.o), e.o)
    ensures ReadsOk(init, Grown(h, i, e), i)
  {
    var h' := Grown(h, i, e);
    forall k | 0 <= k < |h'[i].events| && h'[i].events[k].Got? && h'[i].events[k].o in init
      ensures h'[i].events[k].v == Cur(h'[i].events[..k], Base(init, h', i, h'[i].events[k].o), h'[i].events[k].o)
    {
      BaseGrown(init, h, i, e, i, h'[i].events[k].o);
      if k < |h[i].events| {
        assert h'[i].events[..k] == h[i].events[..k];
        assert h'[i].events[k] == h[i].events[k];
      } else {
        assert h'[i].events[..k] == h[i].events;
      }
    }
  }

  lemma ReadsAppended(init: map<Oid, Val>, h: seq<Attempt>, a: Attempt, j: nat)
    requires j < |h| && ReadsOk(init, h, j)
    ensures ReadsOk(init, h + [a], j)
  {
    forall k | 0 <= k < |h[j].events| && h[j].events[k].Got? && h[j].events[k].o in init
      ensures h[j].events[k].v == Cur(h[j].events[..k], Base(init, h + [a], j, h[j].events[k].o), h[j].events[k].o)
    {
      BaseAppended(init, h, a, j, h[j].events[k].o);
    }
  }

  lemma EventStep(s: State, t: Tid, m: Move, j: nat)
    requires t in s.txns && CanMove(s, t, m) && SerialInv(s) && j < |s.hist| && (LateRead(s.txns[t], m) || m.Write?)
    ensures j < |NextHist(s, t, m)| && ReadsOk(s.init, NextHist(s, t, m), j)
  {
    var x := s.txns[t];
    assert PhaseOk(x) && SlotOk(t, x, s.hist);
    HistShape(s, t, m);
    var e := if m.Read? then Got(m.o, s.data[m.o]) else Put(m.o, m.v);
    assert ReadsOk(s.init, s.hist, j) && EventsOk(s.hist[j], s.init.Keys);
    if j == x.slot {
      LockedIsCurrent(s, t, m.o);
      ReadsOwn(s.init, s.hist, j, e);
    } else {
      LaterLeaveAlone(s, t, m.o);
      ReadsOther(s.init, s.hist, x.slot, e, j);
    }
  }

  lemma ReadsStep(s: State, t: Tid, m: Move, j: nat)
    requires t in s.txns && CanMove(s, t, m) && SerialInv(s) && j < |NextHist(s, t, m)|
    ensures ReadsOk(s.init, NextHist(s, t, m), j)
  {
    assert PhaseOk(s.txns[t]) && SlotOk(t, s.txns[t], s.hist);
    HistShape(s, t, m);
    if LateRead(s.txns[t], m) || m.Write? {
      EventStep(s, t, m, j);
    } else if m.LocksDone? && j < |s.hist| {
      ReadsAppended(s.init, s.hist, Entered(t, s.txns[t]), j);
    } else if m.LocksDone? {
      ReadsEntered(s, t);
    }
  }

  /** Early reads returned what the store still has when the attempt takes its place. */
  lemma ReadsEntered(s: State, t: Tid)
    requires t in s.txns && s.txns[t].phase.Growing? && SerialInv(s)
    ensures ReadsOk(s.init, s.hist + [Entered(t, s.txns[t])], |s.hist|)
  {
    var x, n := s.txns[t], |s.hist|;
    var h' := s.hist + [Entered(t, x)];
    assert SeenOk(x, s.data) && h'[n].events == x.seen;
    forall k | 0 <= k < |x.seen| && x.seen[k].Got? && x.seen[k].o in s.init
      ensures x.seen[k].v == Cur(x.seen[..k], Base(s.init, h', n, x.seen[k].o), x.seen[k].o)
    {
      BaseAppended(s.init, s.hist, Entered(t, x), n, x.seen[k].o);
      CurQuiet(x.seen[..k], Base(s.init, s.hist, n, x.seen[k].o), x.seen[k].o);
    }
  }

  lemma SeenSelf(s: State, t: Tid, m: Move)
    requires t in s.txns && CanMove(s, t, m) && PhaseOk(s.txns[t]) && SeenOk(s.txns[t], s.data)
    ensures SeenOk(NextTxn(s, t, m), ApplyMove(s, t, m).data)
  {
  }

  lemma DataMoves(s: State, t: Tid, m: Move)
    requires t in s.txns && CanMove(s, t, m)
    ensures if m.Write? then s.txns[t].phase.Working? && m.o in s.txns[t].writeLocks && m.o in s.data && ApplyMove(s, t, m).data == s.data[m.o := m.v]
            else ApplyMove(s, t, m).data == s.data
  {
  }

  /** Nobody writes what another has locked. */
  lemma WriterIsAlone(s: State, t: Tid, u: Tid, o: Oid)
    requires Inv(s) && t in s.txns && PhaseOk(s.txns[t]) && AlonesOk(s) && s.txns[t].phase.Working? && o in s.txns[t].writeLocks
    requires u in s.txns && u != t && o in s.words
    ensures o !in s.txns[u].readLocks + s.txns[u].writeLocks
  {
    assert AloneOk(t, s.txns[t], o, s.words[o]);
    LocksConflict(s, u, t, o);
  }

  lemma SeenOther(s: State, t: Tid, m: Move, u: Tid)
    requires t in s.txns && CanMove(s, t, m) && Inv(s) && PhaseOk(s.txns[t]) && AlonesOk(s) && s.data.Keys == s.words.Keys
    requires u in s.txns && u != t && SeenOk(s.txns[u], s.data)
    ensures SeenOk(s.txns[u], ApplyMove(s, t, m).data)
  {
    DataMoves(s, t, m);
    hide NextTxn, NextWord, NextHist, CanMove, Inv, Exposed, PhaseOk, AlonesOk, ApplyMove;
    if m.Write? {
      assert m.o in s.words.Keys;
      WriterIsAlone(s, t, u, m.o);
    }
  }

  lemma SeensStep(s: State, t: Tid, m: Move)
    requires t in s.txns && CanMove(s, t, m) && Inv(s) && !ApplyMove(s, t, m).tainted && SerialInv(s)
    ensures SeensOk(ApplyMove(s, t, m))
  {
    var s' := ApplyMove(s, t, m);
    forall u | u in s'.txns ensures SeenOk(s'.txns[u], s'.data) {
      assert SeenOk(s.txns[u], s.data) && PhaseOk(s.txns[u]);
      if u == t {
        SeenSelf(s, t, m);
      } else {
        SeenOther(s, t, m, u);
      }
    }
  }

  lemma SlotStarts(s: State, t: Tid, m: Move)
    requires t in s.txns && CanMove(s, t, m) && NextTxn(s, t, m).slot >= 0
    ensures s.txns[t].slot >= 0 || m.LocksDone?
    ensures m.LocksDone? ==> s.txns[t].pc.Body? && NextTxn(s, t, m).pc.Body? && NextTxn(s, t, m).writeLocks == s.txns[t].writeLocks
    ensures m.LocksDone? ==> ApplyMove(s, t, m).words == s.words && (ApplyMove(s, t, m).tainted <==> s.tainted || Exposed(s, t))
  {
  }

  /** One's own step. */
  lemma AloneSelf(s: State, t: Tid, m: Move, o: Oid)
    requires t in s.txns && t != 0 && CanMove(s, t, m) && PhaseOk(s.txns[t]) && !ApplyMove(s, t, m).tainted
    requires o in s.words && o in ApplyMove(s, t, m).words && PairOk(t, s.txns[t], o, s.words[o])
    requires AloneOk(t, s.txns[t], o, s.words[o])
    ensures AloneOk(t, NextTxn(s, t, m), o, ApplyMove(s, t, m).words[o])
  {
    if NextTxn(s, t, m).slot >= 0 {
      SlotStarts(s, t, m);
      if !m.LocksDone? {
        HoldsLess(s, t, m, o);
        GainsReader(s, t, m, o);
      }
      hide NextTxn, CanMove, ApplyMove;
    }
  }

  /** Somebody else's step. */
  lemma AloneOther(s: State, t: Tid, m: Move, u: Tid, o: Oid)
    requires t in s.txns && t != 0 && CanMove(s, t, m) && u in s.txns && u != 0 && u != t
    requires o in s.words && o in ApplyMove(s, t, m).words && AloneOk(u, s.txns[u], o, s.words[o])
    requires PairOk(t, s.txns[t], o, s.words[o]) && PairOk(u, s.txns[u], o, s.words[o])
    ensures AloneOk(u, ApplyMove(s, t, m).txns[u], o, ApplyMove(s, t, m).words[o])
  {
    hide PairOk, NextTxn, CanMove, NextWord, NextHist, Exposed;
    if HoldsWrite(s.txns[u], o) {
      ReadersBesideWriter(s, t, m, u, o);
    }
  }

  lemma AloneStep(s: State, t: Tid, m: Move, u: Tid, o: Oid)
    requires t in s.txns && CanMove(s, t, m) && Inv(s) && PhasesOk(s) && AlonesOk(s) && !ApplyMove(s, t, m).tainted
    requires u in s.txns && o in s.words && o in ApplyMove(s, t, m).words
    ensures AloneOk(u, ApplyMove(s, t, m).txns[u], o, ApplyMove(s, t, m).words[o])
  {
    assert PairOk(t, s.txns[t], o, s.words[o]) && PairOk(u, s.txns[u], o, s.words[o]);
    assert PhaseOk(s.txns[t]) && AloneOk(u, s.txns[u], o, s.words[o]) && u != 0;
    hide PairOk, PhaseOk, NextTxn, CanMove, NextWord, NextHist, PhasesOk, AlonesOk, Inv, Exposed, AloneOk;
    if u == t {
      AloneSelf(s, t, m, o);
    } else {
      AloneOther(s, t, m, u, o);
    }
  }

  lemma AlonesStep(s: State, t: Tid, m: Move)
    requires t in s.txns && CanMove(s, t, m) && Inv(s) && !ApplyMove(s, t, m).tainted && SerialInv(s)
    ensures AlonesOk(ApplyMove(s, t, m))
  {
    assert AboutOk(s.txns[t], s.words.Keys);
    AboutStep(s, t, m);
    hide Inv, NextTxn, CanMove, NextWord, AloneOk;
    var s' := ApplyMove(s, t, m);
    forall u, o | u in s'.txns && o in s'.words ensures AloneOk(u, s'.txns[u], o, s'.words[o]) {
      AloneStep(s, t, m, u, o);
    }
  }

  lemma SerialStep(s: State, t: Tid, m: Move)
    requires t in s.txns && CanMove(s, t, m) && Inv(s) && !ApplyMove(s, t, m).tainted && SerialInv(s)
    ensures SerialInv(ApplyMove(s, t, m))
  {
    var s' := ApplyMove(s, t, m);
    PhasesStep(s, t, m);
    EntriesStep(s, t, m);
    ApartStep(s, t, m);
    AllDataStep(s, t, m);
    SeensStep(s, t, m);
    AlonesStep(s, t, m);
  }

  lemma DomainsStep(s: State, t: Tid, m: Move)
    requires t in s.txns && CanMove(s, t, m) && AboutOk(s.txns[t], s.words.Keys) && s.data.Keys == s.init.Keys == s.words.Keys
    ensures var s' := ApplyMove(s, t, m); s'.data.Keys == s'.init.Keys == s'.words.Keys && s'.init == s.init
  {
    AboutStep(s, t, m);
  }

  lemma AllDataStep(s: State, t: Tid, m: Move)
    requires t in s.txns && CanMove(s, t, m) && Inv(s) && SerialInv(s)
    ensures DataOk(ApplyMove(s, t, m))
  {
    var s' := ApplyMove(s, t, m);
    assert AboutOk(s.txns[t], s.words.Keys);
    DomainsStep(s, t, m);
    forall p | p in s'.init && p in s'.data ensures s'.data[p] == Base(s'.init, s'.hist, |s'.hist|, p) {
      DataStep(s, t, m, p);
    }
    forall j | 0 <= j < |s'.hist| ensures ReadsOk(s'.init, s'.hist, j) {
      ReadsStep(s, t, m, j);
    }
  }

  lemma {:induction false} TaintStays(s: State, es: seq<Action>)
    requires CanRun(s, es)
    ensures s.tainted ==> Run(s, es).tainted
    decreases |es|
  {
    if es != [] {
      TaintStays(ApplyMove(s, es[0].t, es[0].m), es[1..]);
    }
  }

  lemma {:induction false} RunKeepsSerialInv(s: State, es: seq<Action>)
    requires CanRun(s, es) && Inv(s) && SerialInv(s) && !Run(s, es).tainted
    ensures SerialInv(Run(s, es))
    decreases |es|
  {
    if es != [] {
      TaintStays(ApplyMove(s, es[0].t, es[0].m), es[1..]);
      InvStep(s, es[0].t, es[0].m);
      SerialStep(s, es[0].t, es[0].m);
      RunKeepsSerialInv(ApplyMove(s, es[0].t, es[0].m), es[1..]);
    }
  }

  lemma ReachableSerial(s: State)
    requires Reachable(s) && !s.tainted
    ensures SerialInv(s)
  {
    var s0, es :| Init(s0) && CanRun(s0, es) && Run(s0, es) == s;
    InvInit(s0);
    RunKeepsSerialInv(s0, es);
  }

  // ----- the serial execution -----

  /** One event executed on a store: a read must return what is recorded. */
  predicate Legal(store: map<Oid, Val>, e: Event) {
    e.o in store && (e.Got? ==> store[e.o] == e.v)
  }

  function Effect(store: map<Oid, Val>, e: Event): map<Oid, Val> {
    if e.Put? then store[e.o := e.v] else store
  }

  predicate LegalAll(store: map<Oid, Val>, events: seq<Event>)
    decreases |events|
  {
    events == [] || (Legal(store, events[0]) && LegalAll(Effect(store, events[0]), events[1..]))
  }

  function EffectAll(store: map<Oid, Val>, events: seq<Event>): map<Oid, Val>
    decreases |events|
  {
    if events == [] then store else EffectAll(Effect(store, events[0]), events[1..])
  }

  /** Executing the attempts one after another, each without interruption. */
  predicate SerialRun(store: map<Oid, Val>, h: seq<Attempt>)
    decreases |h|
  {
    h == [] || (LegalAll(store, h[0].events) && SerialRun(EffectAll(store, h[0].events), h[1..]))
  }

  function SerialStore(store: map<Oid, Val>, h: seq<Attempt>): map<Oid, Val>
    decreases |h|
  {
    if h == [] then store else SerialStore(EffectAll(store, h[0].events), h[1..])
  }

  /** From the `k`-th event on, an attempt whose reads are right runs legally. */
  lemma {:induction false} EventsRun(store: map<Oid, Val>, base: map<Oid, Val>, events: seq<Event>, k: nat)
    requires k <= |events| && store.Keys == base.Keys
    requires forall o :: o in store ==> store[o] == Cur(events[..k], base[o], o)
    requires forall l :: 0 <= l < |events| ==> events[l].o in base
    requires forall l :: 0 <= l < |events| && events[l].Got? ==> events[l].v == Cur(events[..l], base[events[l].o], events[l].o)
    ensures LegalAll(store, events[k..])
    ensures EffectAll(store, events[k..]).Keys == base.Keys
    ensures forall o :: o in base ==> EffectAll(store, events[k..])[o] == Cur(events, base[o], o)
    decreases |events| - k
  {
    if k < |events| {
      var e := events[k];
      assert events[k..][0] == e && events[k..][1..] == events[k + 1..];
      assert events[..k + 1] == events[..k] + [e];
      forall o | o in Effect(store, e) ensures Effect(store, e)[o] == Cur(events[..k + 1], base[o], o) {
        CurOne(events[..k], e, base[o], o);
      }
      EventsRun(Effect(store, e), base, events, k + 1);
    } else {
      assert events[..k] == events;
    }
  }

  /** From the `n`-th attempt on, a history whose reads are right runs serially. */
  lemma {:induction false} AttemptsRun(store: map<Oid, Val>, init: map<Oid, Val>, h: seq<Attempt>, n: nat)
    requires n <= |h| && store.Keys == init.Keys
    requires forall o :: o in store ==> store[o] == Base(init, h, n, o)
    requires forall i :: 0 <= i < |h| ==> ReadsOk(init, h, i) && EventsOk(h[i], init.Keys)
    ensures SerialRun(store, h[n..])
    ensures SerialStore(store, h[n..]).Keys == init.Keys
    ensures forall o :: o in init ==> SerialStore(store, h[n..])[o] == Base(init, h, |h|, o)
    decreases |h| - n
  {
    if n < |h| {
      assert h[n..][0] == h[n] && h[n..][1..] == h[n + 1..];
      assert ReadsOk(init, h, n) && EventsOk(h[n], init.Keys);
      EventsRun(store, store, h[n].events, 0);
      assert h[n].events[0..] == h[n].events;
      AttemptsRun(EffectAll(store, h[n].events), init, h, n + 1);
    }
  }

  /** Every run, up to any point, is the serial run of the attempts that completed their locks:
      executed one after another in that order they read the same values and leave the same
      store.  An attempt that ends before it has all its locks leaves no trace. */
  lemma EveryRunIsSerial(s: State)
    requires Reachable(s) && !s.tainted
    ensures SerialRun(s.init, s.hist) && SerialStore(s.init, s.hist) == s.data
  {
    ReachableSerial(s);
    AttemptsRun(s.init, s.init, s.hist, 0);
    assert s.hist[0..] == s.hist;
  }

  /** The order has one attempt for each transaction that has completed its locks, so also for
      each that is done, and none for the others. */
  lemma OrderIsOfWinners(s: State, t: Tid)
    requires Reachable(s) && !s.tainted && t in s.txns
    ensures s.txns[t].slot >= 0 <==> exists i :: 0 <= i < |s.hist| && s.hist[i].tid == t
    ensures forall i, j :: 0 <= i < |s.hist| && 0 <= j < |s.hist| && s.hist[i].tid == s.hist[j].tid ==> i == j
    ensures s.txns[t].pc.Done? ==> s.txns[t].slot >= 0
  {
    ReachableSerial(s);
    assert PhaseOk(s.txns[t]) && SlotOk(t, s.txns[t], s.hist);
    forall i, j | 0 <= i < |s.hist| && 0 <= j < |s.hist| && s.hist[i].tid == s.hist[j].tid ensures i == j {
      assert EntryOk(s.txns, s.hist, i) && EntryOk(s.txns, s.hist, j);
    }
    forall i | 0 <= i < |s.hist| && s.hist[i].tid == t ensures s.txns[t].slot >= 0 {
      assert EntryOk(s.txns, s.hist, i);
    }
  }

  /** So it is for every run in which no id that has released a read lock on an object asks for
      its write lock without a read lock. */
  lemma SafeRelockingIsSerial(s0: State, es: seq<Action>)
    requires Init(s0) && CanRun(s0, es) && RelocksSafely(s0, es)
    ensures var s := Run(s0, es); SerialRun(s.init, s.hist) && SerialStore(s.init, s.hist) == s.data
  {
    InvInit(s0);
    SafeRelockingKeepsSafe(s0, es);
    EveryRunIsSerial(Run(s0, es));
  }

  /** For every run in which each id takes its locks from the same lists, reading before writing,
      through all its retries. */
  lemma ReadingFirstIsSerial(s0: State, es: seq<Action>, keys: map<Tid, set<Oid>>)
    requires Init(s0) && CanRun(s0, es) && ReadsBeforeWrites(s0, es, keys)
    ensures var s := Run(s0, es); SerialRun(s.init, s.hist) && SerialStore(s.init, s.hist) == s.data
  {
    InvInit(s0);
    ReadingFirstIsSafe(s0, es, keys);
    SafeRelockingIsSerial(s0, es);
  }

  /** And for every run in which no id locks an object again after releasing a read lock on it. */
  lemma NeverRelockingIsSerial(s0: State, es: seq<Action>)
    requires Init(s0) && CanRun(s0, es) && NeverRelocks(s0, es)
    ensures var s := Run(s0, es); SerialRun(s.init, s.hist) && SerialStore(s.init, s.hist) == s.data
  {
    NeverRelockingIsSafe(s0, es);
    SafeRelockingIsSerial(s0, es);
  }
}
