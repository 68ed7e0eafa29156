/** `Transaction2PL` over the reader/writer lock of `TVersion`, as a program.  Its methods take the
    steps of `LockMachine` one at a time, with any steps of the other transactions in between.
    The loops end as they do in the original, which panics when it has spun for too long. */
module LockTransaction {
  import opened LockMachine
  import opened LockInvariant
  import opened LockTheorems

  datatype Outcome = Granted | Refused | Panicked

  const SPINS: nat := 100_000_000
  const ROUNDS: nat := 200_000_000

  /** What a transaction may rely on between its steps. */
  lemma Standing(s: State, t: Tid)
    requires Reachable(s) && t in s.txns
    ensures RequestOk(s.txns[t]) && AboutOk(s.txns[t], s.words.Keys) && !Panics(s, t) && s.data.Keys == s.words.Keys
  {
    ReachableInv(s);
    NoPanic(s, t);
  }

  /** Nobody writes what another has write-locked. */
  lemma WriterKeepsData(s: State, t: Tid, m: Move, u: Tid, o: Oid)
    requires Reachable(s) && t in s.txns && CanMove(s, t, m) && u in s.txns && u != t && o in s.txns[u].writeLocks && o in s.data
    ensures o in ApplyMove(s, t, m).data && ApplyMove(s, t, m).data[o] == s.data[o]
  {
    if m.Write? && m.o == o {
      Standing(s, u);
      WritersExclude(s, o, t, u);
    }
  }

  /** Others take no part in what one has alone. */
  lemma OthersKeepMine(s: State, t: Tid, m: Move, u: Tid)
    requires Reachable(s) && t in s.txns && CanMove(s, t, m) && u in s.txns && u != t
    ensures forall o :: Exclusive(s, u, o) ==> Exclusive(ApplyMove(s, t, m), u, o)
    ensures forall o :: o in s.words && o in ApplyMove(s, t, m).words ==> (u in ApplyMove(s, t, m).words[o].gone <==> u in s.words[o].gone)
  {
    forall o | Exclusive(s, u, o) ensures Exclusive(ApplyMove(s, t, m), u, o) {
      ExclusiveStep(s, t, m, u, o);
    }
    forall o | o in s.words && o in ApplyMove(s, t, m).words
      ensures u in ApplyMove(s, t, m).words[o].gone <==> u in s.words[o].gone
    {
      GoneMoves(s, t, m, o);
    }
  }

  /** What one has alone after a step: what it had, and what it is granted then. */
  lemma MineAfter(s: State, t: Tid, m: Move)
    requires Reachable(s) && t in s.txns && CanMove(s, t, m)
    ensures forall o :: Exclusive(s, t, o) && HoldsWrite(NextTxn(s, t, m), o) ==> Exclusive(ApplyMove(s, t, m), t, o)
    ensures forall o :: Grants(s, t, m, o) && (m.StoreWriter? || o in s.txns[t].readLocks) ==> Exclusive(ApplyMove(s, t, m), t, o)
    ensures forall o :: !m.Subtract? && o in s.words && o in ApplyMove(s, t, m).words
              ==> ApplyMove(s, t, m).words[o].gone == s.words[o].gone
  {
    forall o | Exclusive(s, t, o) && HoldsWrite(NextTxn(s, t, m), o) ensures Exclusive(ApplyMove(s, t, m), t, o) {
      ExclusiveStep(s, t, m, t, o);
    }
    forall o | Grants(s, t, m, o) && (m.StoreWriter? || o in s.txns[t].readLocks) ensures Exclusive(ApplyMove(s, t, m), t, o) {
      GrantIsMine(s, t, m, o);
    }
    forall o | !m.Subtract? && o in s.words && o in ApplyMove(s, t, m).words
      ensures ApplyMove(s, t, m).words[o].gone == s.words[o].gone
    {
      GoneByUnlock(s, t, m, o);
    }
  }

  lemma GoneByUnlock(s: State, t: Tid, m: Move, o: Oid)
    requires t in s.txns && CanMove(s, t, m) && o in s.words && o in ApplyMove(s, t, m).words && !m.Subtract?
    ensures ApplyMove(s, t, m).words[o].gone == s.words[o].gone
  {
  }

  lemma GrantIsMine(s: State, t: Tid, m: Move, o: Oid)
    requires Reachable(s) && t in s.txns && CanMove(s, t, m) && Grants(s, t, m, o) && (m.StoreWriter? || o in s.txns[t].readLocks)
    ensures Exclusive(ApplyMove(s, t, m), t, o)
  {
    GrantShape(s, t, m, o);
    if m.StoreWriter? {
      GrantWhenFree(s, t, o);
    }
    GrantIsExclusiveIff(s, t, m, o);
    HoldersAreReaders(s, o);
    GrantKeepsReaders(s, t, m, o);
  }

  /** What a step of `t` does to the lock word it is about. */
  lemma WordAfter(s: State, t: Tid, m: Move, o: Oid)
    requires t in s.txns && CanMove(s, t, m) && o in s.words && (TouchesWord(m) ==> s.txns[t].pc.o == o)
    ensures ApplyMove(s, t, m).words == s.words[o := NextWord(s.words[o], t, s.txns[t].pc, m)]
  {
  }

  /** What a write request of `t` comes to in one round, from the lock word it finds. */
  function Verdict(t: Tid, w: Word): (a: Answer) {
    if w.writer != 0 then (if w.writer < t then No else Again)
    else if w.max == 0 then Yes
    else if w.max == t then (if w.cnt == 1 then Yes else More)
    else if w.max > t then No else Again
  }

  class Transaction2PL {
    const me: Tid
    const others: nat -> seq<Action>   // what the others do after each step of this one
    var s: State                       // shared memory, and how far everybody is
    var clock: nat

    ghost predicate Valid()
      reads this
    {
      Reachable(s) && me in s.txns
    }

    function Me(): Txn
      reads this
      requires me in s.txns
    {
      s.txns[me]
    }

    /** Objects of which this transaction's id has ever released a read lock. */
    ghost function Gone(): iset<Oid>
      reads this
    {
      iset o | o in s.words && me in s.words[o].gone
    }

    /** Objects that this transaction alone has locked, for writing. */
    ghost function Mine(): iset<Oid>
      reads this
    {
      iset o | Exclusive(s, me, o)
    }

    /** Objects of which it has the write lock. */
    ghost function Writing(): iset<Oid>
      reads this
      requires me in s.txns
    {
      iset o | HoldsWrite(Me(), o)
    }

    /** The others take no steps. */
    ghost predicate Alone() {
      forall n :: others(n) == []
    }

    /** Nobody is in a critical section. */
    ghost predicate GatesFree()
      reads this
    {
      forall o :: o in s.words ==> !s.words[o].cr
    }

    constructor (me: Tid, others: nat -> seq<Action>, s: State)
      requires Reachable(s) && me in s.txns
      ensures Valid() && this.me == me && this.s == s
    {
      this.me, this.others, this.s, clock := me, others, s, 0;
    }

    /** One step of another. */
    method Grant(t: Tid, m: Move)
      requires Valid() && t != me && t in s.txns && CanMove(s, t, m)
      modifies this`s
      ensures Valid() && Me() == old(Me()) && Gone() == old(Gone()) && old(Mine()) <= Mine() && s.words.Keys == old(s.words.Keys)
      ensures forall p :: p in old(s.data) && p in Me().writeLocks ==> p in s.data && s.data[p] == old(s.data[p])
      ensures LeadsTo(old(s), s)
    {
      hide NextTxn, NextWord, NextHist, Exclusive, HoldsWrite, Reachable, LeadsTo;
      LeadsByStep(s, t, m);
      ReachableStep(s, t, m);
      Standing(s, t);
      AboutStep(s, t, m);
      OthersKeepMine(s, t, m, me);
      forall p | p in s.data && p in Me().writeLocks ensures p in ApplyMove(s, t, m).data && ApplyMove(s, t, m).data[p] == s.data[p] {
        WriterKeepsData(s, t, m, me, p);
      }
      s := ApplyMove(s, t, m);
    }

    /** The others take those of their next steps that they can. */
    method Interfere()
      requires Valid()
      modifies this
      ensures Valid() && Me() == old(Me()) && Gone() == old(Gone()) && old(Mine()) <= Mine() && s.words.Keys == old(s.words.Keys)
      ensures forall p :: p in old(s.data) && p in Me().writeLocks ==> p in s.data && s.data[p] == old(s.data[p])
      ensures LeadsTo(old(s), s) && (Alone() ==> s == old(s))
    {
      hide Exclusive, Reachable, LeadsTo;
      clock := clock + 1;
      var acts := others(clock);
      ghost var s0 := s;
      LeadsToSelf(s);
      for i := 0 to |acts|
        invariant LeadsTo(s0, s) && (acts == [] ==> s == s0)
        invariant Valid() && Me() == old(Me()) && Gone() == old(Gone()) && old(Mine()) <= Mine() && s.words.Keys == old(s.words.Keys)
        invariant forall p :: p in old(s.data) && p in Me().writeLocks ==> p in s.data && s.data[p] == old(s.data[p])
      {
        if acts[i].t != me && acts[i].t in s.txns && CanMove(s, acts[i].t, acts[i].m) {
          ghost var s1 := s;
          Grant(acts[i].t, acts[i].m);
          LeadsFurther(s0, s1, s);
        }
      }
    }

    /** One atomic step of this transaction, and then some of the others. */
    method Step(m: Move)
      requires Valid() && CanMove(s, me, m)
      modifies this
      ensures Valid() && Me() == old(NextTxn(s, me, m)) && s.words.Keys == old(s.words.Keys)
      ensures !m.Subtract? ==> Gone() == old(Gone())
      ensures old(Mine()) * Writing() <= Mine()
      ensures forall o :: old(Grants(s, me, m, o)) && (m.StoreWriter? || o in old(Me()).readLocks) ==> o in Mine()
      ensures LeadsTo(old(s), s) && (Alone() ==> s == old(ApplyMove(s, me, m)))
    {
      hide Exclusive, HoldsWrite, LeadsTo, Reachable;
      LeadsByStep(s, me, m);
      ReachableStep(s, me, m);
      Standing(s, me);
      AboutStep(s, me, m);
      MineAfter(s, me, m);
      ghost var before := s;
      s := ApplyMove(s, me, m);
      ghost var mine := Mine();
      assert forall o :: Grants(before, me, m, o) && (m.StoreWriter? || o in before.txns[me].readLocks) ==> o in mine;
      hide NextTxn, NextWord, ApplyMove, CanMove;
      ghost var next := s;
      Interfere();
      LeadsFurther(before, next, s);
    }

    /** `read` of a locked object, with all locks taken or not: what is in the store.  Until all
        locks are taken the attempt remembers it. */
    method Read(o: Oid) returns (v: Val)
      requires Valid() && Me().pc.Body? && !Me().phase.Ending? && o in Me().readLocks + Me().writeLocks
      modifies this
      ensures Valid() && o in old(s.data) && v == old(s.data[o])
      ensures Me() == if old(Me()).phase.Growing? then old(Me()).(seen := old(Me()).seen + [Got(o, v)]) else old(Me())
    {
      hide Grants, Exclusive, HoldsWrite, Reachable, ApplyMove;
      Standing(s, me);
      v := s.data[o];
      Step(LockMachine.Read(o));
    }

    /** `write` of a locked object: it keeps the value, whatever the others do. */
    method Write(o: Oid, v: Val)
      requires Valid() && Me().pc.Body? && Me().phase.Working? && o in Me().writeLocks
      modifies this
      ensures Valid() && Me() == old(Me()) && o in s.data && s.data[o] == v
    {
      Standing(s, me);
      ReachableStep(s, me, LockMachine.Write(o, v));
      s := ApplyMove(s, me, LockMachine.Write(o, v));
      Interfere();
    }

    /** All locks are taken: the attempt gets its place in the order. */
    method LocksTaken()
      requires Valid() && Me().pc.Body? && Me().phase.Growing?
      modifies this
      ensures Valid() && Me() == old(Me()).(phase := Working, slot := |old(s.hist)|)
    {
      Step(LocksDone);
    }

    /** `enter_cr`: spins while somebody is inside. */
    method EnterCr() returns (ok: bool)
      requires Valid() && (Me().pc.Ask? || Me().pc.Yield? || Me().pc.Leave?) && Me().pc.o in s.words
      modifies this
      ensures Valid() && s.words.Keys == old(s.words.Keys) && Gone() == old(Gone()) && LeadsTo(old(s), s)
      ensures Me() == if ok then old(Me()).(pc := Entered(old(Me()).pc)) else old(Me())
      ensures !ok ==> s.words[Me().pc.o].cr
      ensures Alone() && !old(s.words[Me().pc.o].cr)
              ==> ok && s.words == old(s.words[Me().pc.o := s.words[Me().pc.o].(cr := true, user := me)])
    {
      hide Grants, Exclusive, HoldsWrite, LeadsTo;
      Standing(s, me);
      var o := Me().pc.o;
      var n := 0;
      ghost var s0 := s;
      LeadsToSelf(s);
      while s.words[o].cr
        invariant Valid() && Me() == old(Me()) && o in s.words
        invariant s.words.Keys == old(s.words.Keys) && Gone() == old(Gone())
        invariant LeadsTo(s0, s) && (!s0.words[o].cr ==> s == s0)
        decreases SPINS - n
      {
        if n >= SPINS {
          return false;
        }
        n := n + 1;
        ghost var s1 := s;
        Interfere();
        LeadsFurther(s0, s1, s);
      }
      ghost var s2 := s;
      Step(Enter);
      LeadsFurther(s0, s2, s);
      ok := true;
    }

    static function Entered(pc: Pc): Pc
      requires pc.Ask? || pc.Yield? || pc.Leave?
    {
      match pc
      case Ask(o, k) => Test(o, k)
      case Yield(o) => Drain(o)
      case Leave(o, k) => Fall(o, k)
    }

    /** `read_lock`.  Granted, it is in the lock map and nothing else has changed; refused, the
        attempt is over, and `at` is when a transaction with a smaller id was the writer.  If
        nobody else moves, the writer decides. */
    method ReadLock(o: Oid) returns (r: Outcome, ghost at: State)
      requires Valid() && Me().pc.Body? && Me().phase.Growing? && o in s.words && o !in Me().readLocks
      modifies this
      ensures Valid() && s.words.Keys == old(s.words.Keys) && Gone() == old(Gone())
      ensures r.Granted? ==> Me() == old(Me()).(readLocks := old(Me()).readLocks + {o})
      ensures r.Refused? ==> Me() == old(Me()).(phase := Ending)
      ensures r.Refused? ==> LeadsTo(old(s), at) && LeadsTo(at, s) && ReadDies(at, o)
      ensures Alone() && !old(s.words[o].cr) ==>
                && (r.Granted? <==> old(s.words[o].writer) == 0 || old(s.words[o].writer) == me)
                && (r.Refused? <==> 0 < old(s.words[o].writer) < me)
    {
      hide LeadsTo, NextTxn, NextWord, Reachable;
      ghost var s0 := s;
      AfterRequest(s, me, o, Rd);
      Step(Request(o, Rd));
      at := s;
      var n := 0;
      while n < ROUNDS
        invariant Valid() && Me() == old(Me()).(pc := Ask(o, Rd))
        invariant s.words.Keys == old(s.words.Keys) && Gone() == old(Gone()) && LeadsTo(s0, s)
        invariant Alone() && !old(s.words[o].cr) ==> !s.words[o].cr && s.words[o].writer == old(s.words[o].writer)
        invariant Alone() && !old(s.words[o].cr) && n > 0 ==> me < old(s.words[o].writer)
      {
        ghost var s1 := s;
        var ok := EnterCr();
        LeadsFurther(s0, s1, s);
        if !ok {
          return Panicked, at;
        }
        at := s;
        var a := ReadOnce(o);
        LeadsFurther(s0, at, s);
        if a.Yes? || a.No? {
          return if a.Yes? then Granted else Refused, at;
        }
        n := n + 1;
      }
      r := Panicked;
    }

    lemma AfterRequest(s: State, t: Tid, o: Oid, k: Kind)
      requires t in s.txns && CanMove(s, t, Request(o, k))
      ensures NextTxn(s, t, Request(o, k)) == s.txns[t].(pc := Ask(o, k)) && ApplyMove(s, t, Request(o, k)).words == s.words
    {
    }

    /** The transaction is at the test of the writer, which is one with a smaller id. */
    ghost predicate ReadDies(at: State, o: Oid) {
      me in at.txns && o in at.words && at.txns[me].pc == Test(o, Rd) && 0 < at.words[o].writer < me
    }

    /** Likewise, or at the test of the readers, of which the maximum is larger. */
    ghost predicate WriteDies(at: State, o: Oid) {
      && me in at.txns && o in at.words
      && ((at.txns[me].pc == Test(o, Wr) && 0 < at.words[o].writer < me) || (at.txns[me].pc == Readers(o) && me < at.words[o].max))
    }

    /** One round of `read_lock` in the critical section. */
    method ReadOnce(o: Oid) returns (a: Answer)
      requires Valid() && Me().pc == Test(o, Rd) && o in s.words
      modifies this
      ensures Valid() && s.words.Keys == old(s.words.Keys) && Gone() == old(Gone()) && LeadsTo(old(s), s)
      ensures !a.More? && Me() == AfterExit(old(Me()).(pc := Reply(o, Rd, a)))
      ensures a.Yes? <==> old(s.words[o].writer) == 0 || old(s.words[o].writer) == me
      ensures a.No? <==> 0 < old(s.words[o].writer) < me
      ensures Alone() && a.Again? ==> s.words == old(s.words[o := s.words[o].(cr := false, user := 0)])
    {
      hide Grants, Exclusive, HoldsWrite, Reachable, LeadsTo, ApplyMove;
      Standing(s, me);
      ghost var s0 := s;
      WordAfter(s, me, LoadWriter, o);
      Step(LoadWriter);
      ghost var s1 := s;
      Standing(s, me);
      if Me().pc.Raise? {
        TakeRead(o);
        a := Yes;
      } else {
        a := Me().pc.a;
        WordAfter(s, me, Exit, o);
        Step(Exit);
      }
      LeadsFurther(s0, s1, s);
    }

    /** The grant of a read lock. */
    method TakeRead(o: Oid)
      requires Valid() && Me().pc == Raise(o)
      modifies this
      ensures Valid() && s.words.Keys == old(s.words.Keys) && Gone() == old(Gone()) && LeadsTo(old(s), s)
      ensures Me() == AfterExit(old(Me()).(pc := Reply(o, Rd, Yes)))
    {
      hide Grants, Exclusive, HoldsWrite, Reachable, ApplyMove, LeadsTo;
      ghost var s0 := s;
      Standing(s, me);
      Step(FetchMax);
      ghost var s1 := s;
      Standing(s, me);
      Step(FetchAdd);
      LeadsFurther(s0, s1, s);
      LeaveGranted(s0, o, Rd);
    }

    /** The way out of the critical section. */
    method LeaveGranted(ghost s0: State, o: Oid, k: Kind)
      requires Valid() && Me().pc == Reply(o, k, Yes) && LeadsTo(s0, s)
      modifies this
      ensures Valid() && s.words.Keys == old(s.words.Keys) && Gone() == old(Gone()) && LeadsTo(s0, s)
      ensures Me() == AfterExit(old(Me())) && (k.Wr? && o in old(Mine()) ==> o in Mine())
    {
      hide Grants, Exclusive, Reachable, ApplyMove, LeadsTo;
      Standing(s, me);
      ghost var s1 := s;
      Step(Exit);
      LeadsFurther(s0, s1, s);
    }

    /** One round of `write_lock` in the critical section, before an upgrade. */
    method WriteOnce(o: Oid) returns (a: Answer, ghost at: State)
      requires Valid() && Me().pc == Test(o, Wr) && o in s.words
      modifies this
      ensures Valid() && s.words.Keys == old(s.words.Keys)
      ensures Gone() == old(Gone()) && (a.Yes? && o in old(Me()).readLocks ==> o in Mine())
      ensures Me() == AfterExit(old(Me()).(pc := Reply(o, Wr, a)))
      ensures LeadsTo(old(s), at) && LeadsTo(at, s) && (a.No? ==> WriteDies(at, o))
      ensures Alone() ==> a == Verdict(me, old(s.words[o])) && (a.Again? ==> s.words[o] == old(s.words[o]).(cr := false, user := 0))
      ensures Alone() && a.More? ==> s.words[o].cnt == old(s.words[o].cnt) && !s.words[o].cr
    {
      hide Grants, Exclusive, HoldsWrite, Reachable, LeadsTo, ApplyMove;
      Standing(s, me);
      at := s;
      LeadsToSelf(s);
      WordAfter(s, me, LoadWriter, o);
      Step(LoadWriter);
      ghost var s1 := s;
      if Me().pc.Readers? {
        a := TestReaders(o);
        LeadsFurther(at, s1, s);
        at := s1;
      } else {
        Standing(s, me);
        a := Me().pc.a;
        WordAfter(s, me, Exit, o);
        Step(Exit);
        LeadsFurther(at, s1, s);
      }
    }

    /** The part of a round after the writer was found to be 0. */
    method TestReaders(o: Oid) returns (a: Answer)
      requires Valid() && Me().pc == Readers(o) && o in s.words
      modifies this
      ensures Valid() && s.words.Keys == old(s.words.Keys) && LeadsTo(old(s), s)
      ensures Gone() == old(Gone()) && (a.Yes? && o in old(Me()).readLocks ==> o in Mine())
      ensures Me() == AfterExit(old(Me()).(pc := Reply(o, Wr, a)))
      ensures a.No? <==> me < old(s.words[o].max)
      ensures Alone() ==> a == Verdict(me, old(s.words[o])) && (a.Again? ==> s.words[o] == old(s.words[o]).(cr := false, user := 0))
      ensures Alone() && a.More? ==> s.words[o].cnt == old(s.words[o].cnt) && !s.words[o].cr
    {
      hide Grants, Exclusive, HoldsWrite, Reachable, ApplyMove, LeadsTo;
      Standing(s, me);
      AtReaders(s, me, o);
      ghost var s0 := s;
      WordAfter(s, me, LoadReader, o);
      Step(LoadReader);
      ghost var s1 := s;
      if Me().pc.Upgrade? {
        a := UpgradeOnce(o);
      } else if Me().pc.Take? {
        TakeFree(o);
        a := Yes;
      } else {
        Standing(s, me);
        WordAfter(s, me, Exit, o);
        a := Me().pc.a;
        Step(Exit);
      }
      LeadsFurther(s0, s1, s);
    }

    lemma AtReaders(s: State, t: Tid, o: Oid)
      requires Reachable(s) && t in s.txns && o in s.words && s.txns[t].pc == Readers(o)
      ensures s.words[o].writer == 0
    {
      PairAndRequest(s, t, o);
    }

    /** The upgrade of the maximal reader, and its first test of the count. */
    method UpgradeOnce(o: Oid) returns (a: Answer)
      requires Valid() && Me().pc == Upgrade(o) && o in s.words
      modifies this
      ensures Valid() && s.words.Keys == old(s.words.Keys) && LeadsTo(old(s), s)
      ensures Gone() == old(Gone()) && (a.Yes? && o in old(Me()).readLocks ==> o in Mine())
      ensures (a.Yes? || a.More?) && Me() == AfterExit(old(Me()).(pc := Reply(o, Wr, a)))
      ensures Alone() ==> a == (if old(s.words[o].cnt) == 1 then Yes else More) && s.words[o].cnt == old(s.words[o].cnt) && !s.words[o].cr
    {
      hide Grants, Exclusive, HoldsWrite, Reachable, ApplyMove, LeadsTo;
      Standing(s, me);
      ghost var s0 := s;
      WordAfter(s, me, StoreWriter, o);
      Step(StoreWriter);
      ghost var s1 := s;
      a := DrainOnce(o);
      LeadsFurther(s0, s1, s);
    }

    /** The grant of an object without readers. */
    method TakeFree(o: Oid)
      requires Valid() && Me().pc == Take(o)
      modifies this
      ensures Valid() && s.words.Keys == old(s.words.Keys) && Gone() == old(Gone()) && LeadsTo(old(s), s)
      ensures o in Mine() && Me() == AfterExit(old(Me()).(pc := Reply(o, Wr, Yes)))
    {
      hide Exclusive, LeadsTo, Reachable;
      Standing(s, me);
      ghost var s0 := s;
      Step(StoreWriter);
      hide Grants;
      LeaveGranted(s0, o, Wr);
    }

    /** One test of the reader count by an upgrade. */
    method DrainOnce(o: Oid) returns (a: Answer)
      requires Valid() && Me().pc == Drain(o) && o in s.words
      modifies this
      ensures Valid() && s.words.Keys == old(s.words.Keys) && LeadsTo(old(s), s)
      ensures Gone() == old(Gone()) && (a.Yes? && o in old(Me()).readLocks ==> o in Mine())
      ensures a == (if old(s.words[o].cnt) == 1 then Yes else More) && Me() == AfterExit(old(Me()).(pc := Reply(o, Wr, a)))
      ensures Alone() ==> s.words[o] == old(s.words[o]).(cr := false, user := 0)
    {
      hide Exclusive, LeadsTo, Reachable, ApplyMove;
      Standing(s, me);
      ghost var s0 := s;
      WordAfter(s, me, LoadCount, o);
      Step(LoadCount);
      ghost var s1 := s;
      Standing(s, me);
      a := Me().pc.a;
      WordAfter(s, me, Exit, o);
      Step(Exit);
      LeadsFurther(s0, s1, s);
    }

    /** `write_lock`.  Granted, it is in the lock map, nobody else has a write lock on the object
        and, with a read lock in the map or if none was ever released there, nobody else has a read
        lock either; refused, the attempt is over, and `at` is when there was a writer with a
        smaller id or a maximal reader with a larger one.  If nobody else moves, the lock word
        decides. */
    method WriteLock(o: Oid) returns (r: Outcome, ghost at: State)
      requires Valid() && Me().pc.Body? && Me().phase.Growing? && o in s.words && o !in Me().writeLocks
      modifies this
      ensures Valid() && s.words.Keys == old(s.words.Keys)
      ensures r.Granted? ==> Me() == old(Me()).(writeLocks := old(Me()).writeLocks + {o})
      ensures r.Refused? ==> Me() == old(Me()).(phase := Ending)
      ensures Gone() == old(Gone())
      ensures r.Granted? && (o in old(Me()).readLocks || o !in old(Gone())) ==> ReadHolders(s, o) <= {me}
      ensures r.Granted? ==> forall u :: u in s.txns && HoldsWrite(s.txns[u], o) ==> u == me
      ensures r.Refused? ==> LeadsTo(old(s), at) && LeadsTo(at, s) && WriteDies(at, o)
      ensures Alone() && !old(s.words[o].cr) ==> var w := old(s.words[o]);
                && (r.Granted? <==> w.writer == 0 && (w.max == 0 || (w.max == me && w.cnt == 1)))
                && (r.Refused? <==> 0 < w.writer < me || (w.writer == 0 && me < w.max))
    {
      hide LeadsTo, NextTxn, NextWord, Reachable;
      ghost var s0 := s;
      ghost var w := s.words[o];
      AfterRequest(s, me, o, Wr);
      Step(Request(o, Wr));
      at := s;
      var a := Again;
      var n := 0;
      while a.Again? || a.More?
        invariant Valid() && o in s.words && s.words.Keys == old(s.words.Keys)
        invariant Gone() == old(Gone()) && (a.Yes? && o in old(Me()).readLocks ==> o in Mine())
        invariant Me() == AfterExit(old(Me()).(pc := Reply(o, Wr, a)))
        invariant LeadsTo(s0, s) && (a.No? ==> LeadsTo(s0, at) && LeadsTo(at, s) && WriteDies(at, o))
        invariant (n == 0 ==> a.Again?) && (Alone() && !w.cr && n > 0 ==> a == Verdict(me, w))
        invariant Alone() && !w.cr && a.Again? ==> !s.words[o].cr && SameTest(s.words[o], w)
        invariant Alone() && !w.cr && a.More? ==> !s.words[o].cr && s.words[o].cnt == w.cnt != 1
        decreases a.Again? || a.More?, ROUNDS - n
      {
        if n >= ROUNDS {
          return Panicked, at;
        }
        n := n + 1;
        ghost var s1 := s;
        var ok := EnterCr();
        LeadsFurther(s0, s1, s);
        if !ok {
          return Panicked, at;
        }
        ghost var s2 := s;
        if a.Again? {
          a, at := WriteOnce(o);
          LeadsFurther(s0, s2, at);
          LeadsFurther(s0, at, s);
        } else {
          a := DrainOnce(o);
          LeadsFurther(s0, s2, s);
        }
      }
      r := if a.Yes? then Granted else Refused;
      if a.Yes? {
        WhatIsMine(o);
      }
    }

    /** The fields that decide a write request. */
    predicate SameTest(v: Word, w: Word) {
      v.writer == w.writer && v.max == w.max && v.cnt == w.cnt
    }

    lemma WhatIsMine(o: Oid)
      requires Valid() && o in s.words && o in Me().writeLocks
      ensures o in Mine() || o !in Gone() ==> ReadHolders(s, o) <= {me}
      ensures forall u :: u in s.txns && HoldsWrite(s.txns[u], o) ==> u == me
    {
      if o !in Gone() && !(ReadHolders(s, o) <= {me}) {
        SharedMeansReleased(s, me, o);
      }
      HoldersAreReaders(s, o);
      forall u | u in s.txns && HoldsWrite(s.txns[u], o) ensures u == me {
        WritersExclude(s, o, me, u);
      }
    }

    /** `lock_tref`: a lock that is in the map is not taken again. */
    method LockTref(o: Oid, k: Kind) returns (r: Outcome, ghost at: State)
      requires Valid() && Me().pc.Body? && Me().phase.Growing? && o in s.words
      modifies this
      ensures Valid() && s.words.Keys == old(s.words.Keys)
      ensures r.Granted? ==> InMap(Me(), o, k) && Me().pc.Body? && Me().phase.Growing?
      ensures r.Granted? ==> Me() == old(Me()).(readLocks := Me().readLocks, writeLocks := Me().writeLocks)
      ensures r.Granted? ==> Me().readLocks == old(Me()).readLocks + (if k.Rd? then {o} else {})
      ensures r.Granted? ==> Me().writeLocks == old(Me()).writeLocks + (if k.Wr? then {o} else {})
      ensures r.Refused? ==> Me() == old(Me()).(phase := Ending)
      ensures r.Refused? ==> LeadsTo(old(s), at) && LeadsTo(at, s) && if k.Rd? then ReadDies(at, o) else WriteDies(at, o)
      ensures old(InMap(Me(), o, k)) ==> r.Granted? && s == old(s)
    {
      hide LeadsTo, Reachable;
      if InMap(Me(), o, k) {
        r, at := Granted, s;
      } else if k.Rd? {
        r, at := ReadLock(o);
      } else {
        r, at := WriteLock(o);
      }
    }

    /** `read_unlock` or `write_unlock` of a lock taken out of the map. */
    method UnlockOne(o: Oid, k: Kind) returns (ok: bool)
      requires Valid() && Me().pc.Body? && Me().phase.Ending? && InMap(Me(), o, k)
      modifies this
      ensures Valid()
      ensures ok ==> Me() == if k.Rd? then old(Me()).(readLocks := old(Me()).readLocks - {o})
                             else old(Me()).(writeLocks := old(Me()).writeLocks - {o})
      ensures Alone() && old(GatesFree()) ==> ok && GatesFree()
    {
      hide Reachable, ApplyMove;
      Standing(s, me);
      AfterRelease(s, me, o, k);
      Step(Release(o, k));
      ok := EnterCr();
      if !ok {
        return;
      }
      if k.Rd? {
        DropRead(o);
      } else {
        DropWrite(o);
      }
    }

    lemma AfterRelease(s: State, t: Tid, o: Oid, k: Kind)
      requires t in s.txns && CanMove(s, t, Release(o, k))
      ensures ApplyMove(s, t, Release(o, k)).words == s.words
    {
    }

    /** `read_unlock` in the critical section. */
    method DropRead(o: Oid)
      requires Valid() && Me().pc == Fall(o, Rd) && o in s.words
      modifies this
      ensures Valid() && Me() == old(Me()).(pc := Body)
      ensures Alone() ==> o in s.words && s.words == old(s.words)[o := s.words[o]] && !s.words[o].cr
    {
      hide Grants, Exclusive, HoldsWrite, Reachable, ApplyMove;
      Standing(s, me);
      WordAfter(s, me, Subtract, o);
      Step(Subtract);
      if Me().pc.Zero? {
        ResetMax(o);
      }
      LeaveReleased(o, Rd);
    }

    method LeaveReleased(o: Oid, k: Kind)
      requires Valid() && Me().pc == Left(o, k) && o in s.words
      modifies this
      ensures Valid() && Me() == old(Me()).(pc := Body)
      ensures Alone() ==> s.words == old(s.words[o := s.words[o].(cr := false, user := 0)])
    {
      hide Grants, Exclusive, HoldsWrite, Reachable, ApplyMove;
      Standing(s, me);
      WordAfter(s, me, Exit, o);
      Step(Exit);
    }

    /** The last reader resets the maximum. */
    method ResetMax(o: Oid)
      requires Valid() && Me().pc == Zero(o) && o in s.words
      modifies this
      ensures Valid() && Me() == old(Me()).(pc := Left(o, Rd)) && s.words.Keys == old(s.words.Keys)
      ensures Alone() ==> s.words == old(s.words[o := s.words[o].(max := 0)])
    {
      hide Grants, Exclusive, HoldsWrite, Reachable, ApplyMove;
      Standing(s, me);
      WordAfter(s, me, ClearMax, o);
      Step(ClearMax);
    }

    /** `write_unlock` in the critical section. */
    method DropWrite(o: Oid)
      requires Valid() && Me().pc == Fall(o, Wr) && o in s.words
      modifies this
      ensures Valid() && Me() == old(Me()).(pc := Body)
      ensures Alone() ==> o in s.words && s.words == old(s.words)[o := s.words[o]] && !s.words[o].cr
    {
      hide Grants, Exclusive, HoldsWrite, Reachable, ApplyMove;
      Standing(s, me);
      WordAfter(s, me, ClearWriter, o);
      Step(ClearWriter);
      LeaveReleased(o, Wr);
    }

    /** `unlock`: every lock in the map, in any order. */
    method Unlock() returns (ok: bool)
      requires Valid() && Me().pc.Body? && Me().phase.Ending?
      modifies this
      ensures Valid() && (ok ==> Me() == old(Me()).(readLocks := {}, writeLocks := {}))
      ensures Alone() && old(GatesFree()) ==> ok
    {
      while Me().readLocks != {} || Me().writeLocks != {}
        invariant Valid() && Me() == old(Me()).(readLocks := Me().readLocks, writeLocks := Me().writeLocks)
        invariant Alone() && old(GatesFree()) ==> GatesFree()
        decreases Me().readLocks, Me().writeLocks
      {
        if Me().readLocks != {} {
          var o :| o in Me().readLocks;
          ok := UnlockOne(o, Rd);
        } else {
          var o :| o in Me().writeLocks;
          ok := UnlockOne(o, Wr);
        }
        if !ok {
          return;
        }
      }
      ok := true;
    }

    /** `abort`, after a refusal or at the caller's wish: no lock is left and the id starts anew. */
    method Abort() returns (ok: bool)
      requires Valid() && Me().pc.Body? && Me().slot < 0 && !Me().phase.Working?
      modifies this
      ensures Valid() && (ok ==> Me() == FRESH)
      ensures Alone() && old(GatesFree()) ==> ok
    {
      hide Grants, Exclusive, HoldsWrite, Reachable;
      if Me().phase.Growing? {
        Step(GiveUp);
      }
      ok := Unlock();
      if ok {
        Restart();
      }
    }

    method Restart()
      requires Valid() && Me().pc.Body? && Me().phase.Ending? && Me().readLocks == {} && Me().writeLocks == {} && Me().slot < 0
      modifies this
      ensures Valid() && Me() == FRESH
    {
      hide Grants, Exclusive, HoldsWrite, Reachable, ApplyMove;
      Step(Finish);
    }

    /** `commit`, once all locks are taken and everything is written. */
    method Commit() returns (ok: bool)
      requires Valid() && Me().pc.Body? && Me().phase.Working? && Me().slot >= 0
      modifies this
      ensures Valid() && (ok ==> Me() == old(Me()).(pc := Done, phase := Ending, readLocks := {}, writeLocks := {}))
      ensures Alone() && old(GatesFree()) ==> ok
    {
      hide Grants, Exclusive, HoldsWrite, Reachable;
      Step(LockMachine.Commit);
      ok := Unlock();
      if ok {
        Step(Finish);
      }
    }
  }
}
