/** `TransactionOCC` as a program.  Its methods take the steps of `OccMachine` one at a time, with
    any steps of the other transactions in between, and go through their tags in any order.
    Whatever the others do, `TryCommit` ends, either recorded or with nothing left of the attempt. */
module OccTransaction {
  import opened OccMachine
  import opened OccInvariant
  import opened OccStructure
  import opened OccReads
  import opened OccTheorems

  /** What a transaction may rely on between its steps. */
  lemma Standing(s: State, t: Tid)
    requires Reachable(s) && t in s.txns
    ensures t != 0 && PcOk(s.txns[t]) && s.txns[t].tags.Keys <= s.data.Keys && (s.txns[t].pc.Load? ==> s.txns[t].pc.k in s.data)
    ensures forall k :: k in s.data ==> LockOf(k) in s.cells
    ensures t in s.recs <==> s.txns[t].ok && !IsWriting(s.txns[t])
    ensures s.txns[t].ok ==> LinkOk(s.hist, t, s.txns[t]) && s.txns[t].slot >= 0
  {
    ReachableInv(s);
  }

  /** Another transaction has the lock of `k`, by a tag or on the way to or from one. */
  ghost predicate OthersLock(s: State, t: Tid, k: Key) {
    var o := LockOf(k);
    exists u :: u in s.txns && u != t && OwnerIn(s.cells, o) == u && (HeldOn(s.txns[u], o) != {} || InWindow(s.txns[u], o))
  }

  lemma OwnerLocks(s: State, t: Tid, k: Key)
    requires Reachable(s) && OwnerIn(s.cells, LockOf(k)) != 0 && OwnerIn(s.cells, LockOf(k)) != t
    ensures OthersLock(s, t, k)
  {
    ReachableInv(s);
    var o := LockOf(k);
    var u := s.cells[o].owner;
    assert OwnedOk(s.txns, o, s.cells[o]);
    assert u in s.txns && u != t && (HeldOn(s.txns[u], o) != {} || InWindow(s.txns[u], o));
  }

  /** What one owns nobody else takes or gives back. */
  lemma OwnerStays(s: State, t: Tid, m: Move, u: Tid)
    requires Reachable(s) && t in s.txns && CanMove(s, t, m) && u != t && u != 0
    ensures forall o :: OwnerIn(s.cells, o) == u ==> OwnerIn(ApplyMove(s, t, m).cells, o) == u
  {
    ReachableInv(s);
    assert HoldsOk(s.cells, t, s.txns[t]);
    forall o | OwnerIn(s.cells, o) == u ensures OwnerIn(ApplyMove(s, t, m).cells, o) == u {
      OwnerFrame(s, t, m, o);
    }
  }

  /** A tag of the attempt with these tags is to be locked, and another has its lock. */
  ghost predicate LostLock(s: State, t: Tid, tags: map<Key, Tag>) {
    && t in s.txns && s.txns[t].tags == tags && s.txns[t].pc.Locking?
    && exists k :: k in Written(tags) - s.txns[t].held && OthersLock(s, t, k)
  }

  /** A tag only read is being checked, and another has its lock or its version has changed. */
  ghost predicate LostRead(s: State, t: Tid, tags: map<Key, Tag>) {
    && t in s.txns && s.txns[t].tags == tags
    && exists k :: k in ReadOnly(tags) - s.txns[t].marked
         && ((s.txns[t].pc.Checking? && OthersLock(s, t, k))
             || (s.txns[t].pc == Vers(k) && VersIn(s.cells, LockOf(k)) != tags[k].vers))
  }

  /** Nobody but `t` has the lock. */
  predicate Clear(cells: map<Obj, Cell>, t: Tid, o: Obj) {
    OwnerIn(cells, o) == 0 || OwnerIn(cells, o) == t
  }

  ghost predicate AllClear(cells: map<Obj, Cell>, t: Tid, ks: set<Key>) {
    forall k :: k in ks ==> Clear(cells, t, LockOf(k))
  }

  /** All of `ks` have the versions that were read, and nobody else has their locks. */
  ghost predicate AllCurrent(cells: map<Obj, Cell>, t: Tid, tags: map<Key, Tag>, ks: set<Key>) {
    forall k :: k in ks && k in tags ==> Clear(cells, t, LockOf(k)) && VersIn(cells, LockOf(k)) == tags[k].vers
  }

  /** As far as `t` is concerned nothing has changed. */
  ghost predicate SameFor(a: map<Obj, Cell>, b: map<Obj, Cell>, t: Tid) {
    forall o :: VersIn(a, o) == VersIn(b, o) && (Clear(a, t, o) <==> Clear(b, t, o))
  }

  lemma LockingCells(s: State, t: Tid, m: Move)
    requires t in s.txns && CanMove(s, t, m) && (m.Cas? || m.BumpCount? || m.TryCommit? || m.LocksDone?)
    ensures SameFor(s.cells, ApplyMove(s, t, m).cells, t)
  {
  }

  lemma CheckingCells(s: State, t: Tid, m: Move)
    requires t in s.txns && CanMove(s, t, m) && (m.OwnerLoad? || m.OwnerAgain? || m.OwnerFail? || m.VersLoad? || m.VersFail? || m.Pass?)
    ensures ApplyMove(s, t, m).cells == s.cells
  {
  }

  /** Only one kind of step changes data. */
  lemma DataAfter(s: State, t: Tid, m: Move)
    requires t in s.txns && CanMove(s, t, m)
    ensures m.Store? ==> m.k in s.txns[t].tags
    ensures ApplyMove(s, t, m).data == if m.Store? then s.data[m.k := s.txns[t].tags[m.k].val] else s.data
  {
  }

  /** `b` is `a` with the writes of `ks`. */
  ghost predicate Wrote(a: map<Key, Val>, b: map<Key, Val>, tags: map<Key, Tag>, ks: set<Key>) {
    b.Keys == a.Keys && forall k :: k in b && k in a ==> b[k] == if k in ks && k in tags then tags[k].val else a[k]
  }

  class TransactionOCC {
    const me: Tid
    const others: nat -> seq<Action>   // what the others do after each step of this one
    var s: State                       // shared memory, and how far everybody is
    var clock: nat

    ghost predicate Valid()
      reads this
    {
      Reachable(s) && me in s.txns
    }

    function Me(): Txn
      reads this
      requires me in s.txns
    {
      s.txns[me]
    }

    /** The others take no steps. */
    ghost predicate Alone() {
      forall n :: others(n) == []
    }

    constructor (me: Tid, others: nat -> seq<Action>, s: State)
      requires Reachable(s) && me in s.txns
      ensures Valid() && this.me == me && this.s == s
    {
      this.me, this.others, this.s, clock := me, others, s, 0;
    }

    /** The others take those of the given steps that they can. */
    method Interfere(acts: seq<Action>)
      requires Valid()
      modifies this`s
      ensures Valid() && Me() == old(Me()) && s.data.Keys == old(s.data.Keys)
      ensures LeadsTo(old(s), s) && (acts == [] ==> s == old(s))
      ensures forall o :: OwnerIn(old(s).cells, o) == me ==> OwnerIn(s.cells, o) == me
    {
      hide LeadsTo, Reachable, NextTxn;
      ghost var s0 := s;
      LeadsToSelf(s);
      for i := 0 to |acts|
        invariant Valid() && Me() == old(Me()) && s.data.Keys == old(s.data.Keys) && LeadsTo(s0, s) && (acts == [] ==> s == s0)
        invariant forall o :: OwnerIn(s0.cells, o) == me ==> OwnerIn(s.cells, o) == me
      {
        var t, m := acts[i].t, acts[i].m;
        if t != me && t in s.txns && CanMove(s, t, m) {
          ghost var s1 := s;
          Other(t, m);
          LeadsFurther(s0, s1, s);
        }
      }
    }

    /** One step of another. */
    method Other(t: Tid, m: Move)
      requires Valid() && t != me && t in s.txns && CanMove(s, t, m)
      modifies this`s
      ensures Valid() && Me() == old(Me()) && s.data.Keys == old(s.data.Keys) && LeadsTo(old(s), s)
      ensures forall o :: OwnerIn(old(s).cells, o) == me ==> OwnerIn(s.cells, o) == me
    {
      hide LeadsTo, Reachable, NextTxn, NextCells, NextHist;
      ReachableStep(s, t, m);
      DataDomain(s, t, m);
      LeadsByStep(s, t, m);
      Standing(s, me);
      OwnerStays(s, t, m, me);
      s := ApplyMove(s, t, m);
    }

    /** One atomic step of this transaction, and then some of the others. */
    method Step(m: Move)
      requires Valid() && CanMove(s, me, m)
      modifies this
      ensures Valid() && Me() == old(NextTxn(s, me, m)) && s.data.Keys == old(s.data.Keys) && LeadsTo(old(s), s)
      ensures Alone() ==> s == old(ApplyMove(s, me, m))
      ensures forall o :: OwnerIn(old(ApplyMove(s, me, m)).cells, o) == me ==> OwnerIn(s.cells, o) == me
    {
      hide LeadsTo, Reachable;
      ReachableStep(s, me, m);
      Standing(s, me);
      DataDomain(s, me, m);
      LeadsByStep(s, me, m);
      ghost var s0 := s;
      s := ApplyMove(s, me, m);
      ghost var s1 := s;
      clock := clock + 1;
      hide ApplyMove;
      Interfere(others(clock));
      LeadsFurther(s0, s1, s);
    }

    /** `read`: the version, then the data; a second read of the same object replaces both, and
        neither returns what the attempt itself is to write. */
    method Read(k: Key) returns (v: Val)
      requires Valid() && Me().pc.Exec? && k.Row? && k in s.data
      modifies this
      ensures Valid() && Me().pc.Exec? && k in Me().tags && Me().tags[k].wasRead && Me().tags[k].seen == v
      ensures Me().tags == old(Me()).tags[k := Me().tags[k]] && Me().trace == old(Me()).trace + [(k, v)]
      ensures Me().tags[k].hasWrite == (k in old(Me()).tags && old(Me()).tags[k].hasWrite)
      ensures k in old(Me()).tags ==> Me().tags[k].val == old(Me()).tags[k].val
      ensures Alone() ==> v == old(s.data[k]) && Me().tags[k].vers == VersIn(old(s).cells, LockOf(k)) && s.data == old(s.data)
    {
      hide LeadsTo, Reachable, ApplyMove;
      Standing(s, me);
      DataAfter(s, me, ReadVers(k));
      Step(ReadVers(k));
      DataAfter(s, me, ReadData);
      Step(ReadData);
      v := Me().tags[k].seen;
    }

    /** `write`: buffered in the tag, which keeps what was read. */
    method Write(k: Key, v: Val)
      requires Valid() && Me().pc.Exec? && k in s.data
      modifies this
      ensures Valid() && k in Me().tags && Me().tags[k].hasWrite && Me().tags[k].val == v
      ensures Me() == old(Me()).(tags := old(Me()).tags[k := Me().tags[k]])
      ensures if k in old(Me()).tags then Me().tags[k] == old(Me()).tags[k].(hasWrite := true, val := v) else !Me().tags[k].wasRead
      ensures Alone() ==> s.data == old(s.data)
    {
      hide LeadsTo, Reachable, ApplyMove;
      DataAfter(s, me, OccMachine.Write(k, v));
      Step(OccMachine.Write(k, v));
    }

    /** `lock`: the write set, in any order; the first lock that another has ends it, as it was at
        `at`.  A lock that this transaction has already it takes again. */
    method Lock() returns (ok: bool, ghost at: State)
      requires Valid() && Me().pc.Locking?
      modifies this
      ensures Valid() && Me().tags == old(Me()).tags && Me().trace == old(Me()).trace && !Me().ok
      ensures if ok then Me().pc.Checking? && Me().held == Written(Me().tags) else Me().pc.Releasing?
      ensures LeadsTo(old(s), at) && LeadsTo(at, s) && s.data.Keys == old(s.data.Keys)
      ensures !ok ==> LostLock(at, me, Me().tags)
      ensures Alone() ==> (ok <==> AllClear(old(s).cells, me, Written(Me().tags) - old(Me().held)))
      ensures Alone() ==> s.data == old(s.data) && (ok ==> SameFor(old(s).cells, s.cells, me))
      ensures ok ==> Me().marked == old(Me()).marked && Me().stored == old(Me()).stored
    {
      hide LeadsTo, Reachable, LostLock, OthersLock, SameFor, ApplyMove;
      ghost var s0 := s;
      at := s;
      LeadsToSelf(s);
      Standing(s, me);
      SameForSelf(s.cells, me);
      while !(Written(Me().tags) <= Me().held)
        invariant Valid() && Me() == old(Me()).(held := Me().held) && PcOk(Me()) && s.data.Keys == old(s.data.Keys)
        invariant LeadsTo(s0, s) && (Alone() ==> s.data == s0.data && SameFor(s0.cells, s.cells, me))
        invariant Alone() ==> AllClear(s0.cells, me, Me().held - old(Me().held))
        decreases Written(Me().tags) - Me().held
      {
        var k :| k in Written(Me().tags) && k !in Me().held;
        ghost var s1 := s;
        ok := LockTag(k);
        LeadsFurther(s0, s1, s);
        SameForKey(s0.cells, s1.cells, me, k);
        if !ok {
          at := s1;
          return;
        }
        if Alone() {
          SameForTrans(s0.cells, s1.cells, s.cells, me);
        }
      }
      ghost var s2 := s;
      DataAfter(s, me, LocksDone);
      LockingCells(s, me, LocksDone);
      Step(LocksDone);
      LeadsFurther(s0, s2, s);
      if Alone() {
        SameForTrans(s0.cells, s2.cells, s.cells, me);
      }
      Standing(s, me);
      ok := true;
    }

    lemma SameForSelf(a: map<Obj, Cell>, t: Tid)
      ensures SameFor(a, a, t)
    {
    }

    lemma SameForTrans(a: map<Obj, Cell>, b: map<Obj, Cell>, c: map<Obj, Cell>, t: Tid)
      requires SameFor(a, b, t) && SameFor(b, c, t)
      ensures SameFor(a, c, t)
    {
    }

    lemma SameForKey(a: map<Obj, Cell>, b: map<Obj, Cell>, t: Tid, k: Key)
      ensures SameFor(a, b, t) ==> (Clear(a, t, LockOf(k)) <==> Clear(b, t, LockOf(k))) && VersIn(a, LockOf(k)) == VersIn(b, LockOf(k))
    {
    }

    /** `TVersion::lock`. */
    method LockTag(k: Key) returns (ok: bool)
      requires Valid() && Me().pc.Locking? && k in Written(Me().tags) && k !in Me().held
      modifies this
      ensures Valid() && PcOk(Me()) && LeadsTo(old(s), s) && s.data.Keys == old(s.data.Keys)
      ensures Me() == if ok then old(Me()).(held := old(Me()).held + {k}) else old(Me()).(pc := Releasing)
      ensures ok <==> Clear(old(s).cells, me, LockOf(k))
      ensures !ok ==> LostLock(old(s), me, Me().tags)
      ensures Alone() ==> s.data == old(s.data) && (ok ==> SameFor(old(s).cells, s.cells, me))
    {
      hide LeadsTo, Reachable, LostLock, OthersLock, SameFor, ApplyMove;
      Standing(s, me);
      ghost var s0 := s;
      var owner := s.cells[LockOf(k)].owner;
      ok := owner == 0 || owner == me;
      if ok {
        DataAfter(s, me, Cas(k));
        LockingCells(s, me, Cas(k));
        Step(Cas(k));
        ghost var s1 := s;
        Standing(s, me);
        DataAfter(s, me, BumpCount);
        LockingCells(s, me, BumpCount);
        Step(BumpCount);
        LeadsFurther(s0, s1, s);
        if Alone() {
          SameForTrans(s0.cells, s1.cells, s.cells, me);
        }
      } else {
        LostTo(s, k);
        DataAfter(s, me, CasFail(k));
        Step(CasFail(k));
      }
      Standing(s, me);
    }

    lemma LostTo(s: State, k: Key)
      requires Reachable(s) && me in s.txns && s.txns[me].pc.Locking? && k in Written(s.txns[me].tags) - s.txns[me].held
      requires !Clear(s.cells, me, LockOf(k))
      ensures LostLock(s, me, s.txns[me].tags)
    {
      hide Reachable;
      OwnerLocks(s, me, k);
    }

    /** `check_version` of one tag: owner, owner again if it was not 0, version. */
    method CheckTag(k: Key) returns (ok: bool, ghost at: State)
      requires Valid() && Me().pc.Checking? && k in ReadOnly(Me().tags) && k !in Me().marked
      modifies this
      ensures Valid() && PcOk(Me()) && s.data.Keys == old(s.data.Keys)
      ensures if ok then Me() == old(Me()).(marked := old(Me()).marked + {k}) else Me() == old(Me()).(pc := Releasing)
      ensures LeadsTo(old(s), at) && LeadsTo(at, s)
      ensures !ok ==> LostRead(at, me, Me().tags)
      ensures Alone() ==> s.cells == old(s.cells) && s.data == old(s.data)
      ensures Alone() ==> (ok <==> Clear(s.cells, me, LockOf(k)) && VersIn(s.cells, LockOf(k)) == Me().tags[k].vers)
    {
      hide LeadsTo, Reachable, LostRead, OthersLock, ApplyMove;
      at := s;
      LeadsToSelf(s);
      ok := CheckOwner(k);
      if !ok {
        return;
      }
      LeadsFurther(at, at, s);
      at := s;
      Standing(s, me);
      ok := s.cells[LockOf(k)].vers == Me().tags[k].vers;
      if !ok {
        assert LostRead(s, me, Me().tags) by { VersionLost(s, k); }
      }
      DataAfter(s, me, if ok then VersLoad else VersFail);
      CheckingCells(s, me, if ok then VersLoad else VersFail);
      Step(if ok then VersLoad else VersFail);
      Standing(s, me);
    }

    lemma VersionLost(s: State, k: Key)
      requires me in s.txns && s.txns[me].pc == Vers(k) && k in ReadOnly(s.txns[me].tags) - s.txns[me].marked
      requires VersIn(s.cells, LockOf(k)) != s.txns[me].tags[k].vers
      ensures LostRead(s, me, s.txns[me].tags)
    {
    }

    lemma OwnerLost(s: State, k: Key)
      requires Reachable(s) && me in s.txns && s.txns[me].pc.Checking? && k in ReadOnly(s.txns[me].tags) - s.txns[me].marked
      requires !Clear(s.cells, me, LockOf(k))
      ensures LostRead(s, me, s.txns[me].tags)
    {
      hide Reachable;
      OwnerLocks(s, me, k);
    }

    /** The owner, and the owner again if it was not 0. */
    method CheckOwner(k: Key) returns (ok: bool)
      requires Valid() && Me().pc.Checking? && k in ReadOnly(Me().tags) && k !in Me().marked
      modifies this
      ensures Valid() && PcOk(Me()) && s.data.Keys == old(s.data.Keys) && LeadsTo(old(s), s)
      ensures Me() == old(Me()).(pc := if ok then Vers(k) else Releasing)
      ensures !ok ==> LostRead(old(s), me, Me().tags)
      ensures Clear(old(s).cells, me, LockOf(k)) ==> ok
      ensures Alone() ==> s.cells == old(s.cells) && s.data == old(s.data) && (ok <==> Clear(s.cells, me, LockOf(k)))
    {
      hide LeadsTo, Reachable, LostRead, OthersLock, ApplyMove;
      ghost var s0 := s;
      Standing(s, me);
      if !Clear(s.cells, me, LockOf(k)) {
        OwnerLost(s, k);
      }
      DataAfter(s, me, OwnerLoad(k));
      CheckingCells(s, me, OwnerLoad(k));
      Step(OwnerLoad(k));
      Standing(s, me);
      ok := true;
      if Me().pc.Again? {
        ghost var s1 := s;
        ok := s.cells[LockOf(k)].owner == me;
        DataAfter(s, me, if ok then OwnerAgain else OwnerFail);
        CheckingCells(s, me, if ok then OwnerAgain else OwnerFail);
        Step(if ok then OwnerAgain else OwnerFail);
        LeadsFurther(s0, s1, s);
        Standing(s, me);
      }
    }

    /** `check`: the read-only tags, in any order; the first whose lock another has or whose version
        has changed ends it, as it was at `at`. */
    method Check() returns (ok: bool, ghost at: State)
      requires Valid() && Me().pc.Checking?
      modifies this
      ensures Valid() && Me().tags == old(Me()).tags && Me().trace == old(Me()).trace && Me().ok == ok
      ensures if ok then Me().pc.Writing? && Me().marked == ReadOnly(Me().tags) else Me().pc.Releasing?
      ensures LeadsTo(old(s), at) && LeadsTo(at, s) && s.data.Keys == old(s.data.Keys)
      ensures !ok ==> LostRead(at, me, Me().tags)
      ensures Alone() ==> s.cells == old(s.cells) && s.data == old(s.data)
      ensures Alone() ==> (ok <==> AllCurrent(old(s).cells, me, Me().tags, ReadOnly(Me().tags) - old(Me().marked)))
      ensures ok ==> Me().stored == old(Me()).stored
    {
      hide LeadsTo, Reachable, LostRead, OthersLock, ApplyMove;
      ghost var s0 := s;
      at := s;
      LeadsToSelf(s);
      Standing(s, me);
      while !(ReadOnly(Me().tags) <= Me().marked)
        invariant Valid() && Me() == old(Me()).(marked := Me().marked) && PcOk(Me()) && s.data.Keys == old(s.data.Keys)
        invariant LeadsTo(s0, s) && at == s0 && (Alone() ==> s.cells == s0.cells && s.data == s0.data)
        invariant Alone() ==> AllCurrent(s0.cells, me, Me().tags, Me().marked - old(Me().marked))
        decreases ReadOnly(Me().tags) - Me().marked
      {
        var k :| k in ReadOnly(Me().tags) && k !in Me().marked;
        ghost var s1 := s;
        ghost var at1;
        ok, at1 := CheckTag(k);
        LeadsFurther(s0, s1, at1);
        LeadsFurther(s0, at1, s);
        if !ok {
          at := at1;
          return;
        }
      }
      ghost var s2 := s;
      DataAfter(s, me, Pass);
      CheckingCells(s, me, Pass);
      Step(Pass);
      LeadsFurther(s0, s2, s);
      ok := true;
    }

    /** `do_log`: the values before, of everything that is to be written. */
    method Log()
      requires Valid() && Me().pc.Writing?
      modifies this
      ensures Valid() && Me() == old(Me()).(logged := Me().logged) && Written(Me().tags) <= Me().logged
      ensures LeadsTo(old(s), s) && s.data.Keys == old(s.data.Keys) && (Alone() ==> s.data == old(s.data))
    {
      hide LeadsTo, Reachable, ApplyMove;
      ghost var s0 := s;
      LeadsToSelf(s);
      while !(Written(Me().tags) <= Me().logged)
        invariant Valid() && Me() == old(Me()).(logged := Me().logged)
        invariant LeadsTo(s0, s) && s.data.Keys == s0.data.Keys && (Alone() ==> s.data == s0.data)
        decreases Written(Me().tags) - Me().logged
      {
        Standing(s, me);
        var k :| k in Written(Me().tags) && k !in Me().logged;
        ghost var s1 := s;
        DataAfter(s, me, LogPre(k));
        Step(LogPre(k));
        LeadsFurther(s0, s1, s);
      }
    }

    /** `install_data`: each object's data, then its version. */
    method InstallData()
      requires Valid() && Me().pc.Writing? && Written(Me().tags) <= Me().logged && Me().stored == {}
      modifies this
      ensures Valid() && Me() == old(Me()).(stored := Me().stored) && Me().stored == Written(Me().tags)
      ensures LeadsTo(old(s), s) && s.data.Keys == old(s.data.Keys)
      ensures Alone() ==> Wrote(old(s).data, s.data, Me().tags, Written(Me().tags))
    {
      hide LeadsTo, Reachable, ApplyMove;
      ghost var s0 := s;
      LeadsToSelf(s);
      while !(Written(Me().tags) <= Me().stored)
        invariant Valid() && Me() == old(Me()).(stored := Me().stored) && Me().stored <= Written(Me().tags)
        invariant LeadsTo(s0, s) && s.data.Keys == s0.data.Keys && (Alone() ==> Wrote(s0.data, s.data, Me().tags, Me().stored))
        decreases Written(Me().tags) - Me().stored
      {
        var k :| k in Written(Me().tags) && k !in Me().stored;
        ghost var s1 := s;
        InstallTag(k);
        LeadsFurther(s0, s1, s);
      }
    }

    /** The id of the transaction, or the version of the row that a delete takes out of a bucket. */
    function NewVersion(cells: map<Obj, Cell>, tags: map<Key, Tag>, k: Key): (v: Tid) {
      if k.Slot? && Mark(k.row) in tags && RowObj(k.row) in cells then VersIn(cells, RowObj(k.row)) else me
    }

    lemma VersAfter(s: State, t: Tid, m: Move)
      requires t in s.txns && CanMove(s, t, m) && (m.Store? || m.SetVersion?)
      ensures m.Store? ==> ApplyMove(s, t, m).cells == s.cells
      ensures m.SetVersion? ==> var k := s.txns[t].pc.k;
                forall o :: VersIn(ApplyMove(s, t, m).cells, o) == if o == LockOf(k) then VersionFor(s, t, k) else VersIn(s.cells, o)
    {
    }

    /** One object: the data, then the version, which a delete leaves to the bucket. */
    method InstallTag(k: Key)
      requires Valid() && Me().pc.Writing? && Written(Me().tags) <= Me().logged && k in Written(Me().tags) - Me().stored
      modifies this
      ensures Valid() && Me() == old(Me()).(stored := old(Me()).stored + {k})
      ensures LeadsTo(old(s), s) && s.data.Keys == old(s.data.Keys)
      ensures Alone() ==> s.data == old(s.data)[k := Me().tags[k].val]
      ensures Alone() ==> forall o :: VersIn(s.cells, o) == if o == LockOf(k) && !k.Mark? then NewVersion(old(s).cells, Me().tags, k) else VersIn(old(s).cells, o)
    {
      hide LeadsTo, Reachable, ApplyMove;
      ghost var s0 := s;
      Standing(s, me);
      DataAfter(s, me, Store(k));
      VersAfter(s, me, Store(k));
      Step(Store(k));
      if !k.Mark? {
        Standing(s, me);
        ghost var s1 := s;
        DataAfter(s, me, SetVersion);
        VersAfter(s, me, SetVersion);
        Step(SetVersion);
        LeadsFurther(s0, s1, s);
      }
    }

    /** `persist_data` and the commit record. */
    method PersistData()
      requires Valid() && Me().pc.Writing? && Written(Me().tags) <= Me().stored
      modifies this
      ensures Valid() && Me() == old(Me()).(flushed := Me().flushed, pc := Releasing)
      ensures LeadsTo(old(s), s) && s.data.Keys == old(s.data.Keys) && (Alone() ==> s.data == old(s.data))
    {
      hide LeadsTo, Reachable, ApplyMove;
      ghost var s0 := s;
      LeadsToSelf(s);
      while !(Written(Me().tags) <= Me().flushed)
        invariant Valid() && Me() == old(Me()).(flushed := Me().flushed)
        invariant LeadsTo(s0, s) && s.data.Keys == s0.data.Keys && (Alone() ==> s.data == s0.data)
        decreases Written(Me().tags) - Me().flushed
      {
        Standing(s, me);
        var k :| k in Written(Me().tags) && k !in Me().flushed;
        ghost var s1 := s;
        DataAfter(s, me, Flush(k));
        Step(Flush(k));
        LeadsFurther(s0, s1, s);
      }
      ghost var s2 := s;
      DataAfter(s, me, Record);
      Step(Record);
      LeadsFurther(s0, s2, s);
    }

    method Unlock(k: Key)
      requires Valid() && Me().pc.Releasing? && k in Me().held
      modifies this
      ensures Valid() && Me() == old(Me()).(held := old(Me()).held - {k})
      ensures LeadsTo(old(s), s) && s.data.Keys == old(s.data.Keys) && (Alone() ==> s.data == old(s.data))
    {
      hide LeadsTo, Reachable, ApplyMove;
      ghost var s0 := s;
      Standing(s, me);
      DataAfter(s, me, Drop(k));
      Step(Drop(k));
      if Me().pc.Free? {
        Standing(s, me);
        ghost var s1 := s;
        DataAfter(s, me, FreeOwner);
        Step(FreeOwner);
        LeadsFurther(s0, s1, s);
      }
    }

    /** `clean_up`: whatever was locked is released. */
    method CleanUp()
      requires Valid() && Me().pc.Releasing?
      modifies this
      ensures Valid() && Me() == if old(Me()).ok then old(Me()).(pc := Done, held := {}) else FRESH
      ensures LeadsTo(old(s), s) && s.data.Keys == old(s.data.Keys) && (Alone() ==> s.data == old(s.data))
    {
      hide LeadsTo, Reachable, ApplyMove;
      ghost var s0 := s;
      LeadsToSelf(s);
      while Me().held != {}
        invariant Valid() && Me() == old(Me()).(held := Me().held)
        invariant LeadsTo(s0, s) && s.data.Keys == s0.data.Keys && (Alone() ==> s.data == s0.data)
        decreases Me().held
      {
        var k :| k in Me().held;
        ghost var s1 := s;
        Unlock(k);
        LeadsFurther(s0, s1, s);
      }
      ghost var s2 := s;
      DataAfter(s, me, Finish);
      Step(Finish);
      LeadsFurther(s0, s2, s);
    }

    /** What follows validation. */
    method WriteAll()
      requires Valid() && Me().pc.Writing? && Me().stored == {}
      modifies this
      ensures Valid() && Me() == old(Me()).(pc := Releasing, logged := Me().logged, stored := Me().stored, flushed := Me().flushed)
      ensures LeadsTo(old(s), s) && s.data.Keys == old(s.data.Keys)
      ensures Alone() ==> Wrote(old(s).data, s.data, Me().tags, Written(Me().tags))
    {
      hide LeadsTo, Reachable, ApplyMove, Wrote;
      ghost var s0 := s;
      Log();
      ghost var s1 := s;
      InstallData();
      LeadsFurther(s0, s1, s);
      ghost var s2 := s;
      PersistData();
      LeadsFurther(s0, s2, s);
    }

    /** The attempt up to its release. */
    method LockAndCheck() returns (ok: bool, ghost at: State)
      requires Valid() && Me().pc.Locking? && Me().held == {} && Me().marked == {} && Me().stored == {}
      modifies this
      ensures Valid() && Me().pc == (if ok then Writing else Releasing) && Me().ok == ok
      ensures Me().tags == old(Me()).tags && Me().trace == old(Me()).trace && s.data.Keys == old(s.data.Keys)
      ensures ok ==> Me().stored == {}
      ensures LeadsTo(old(s), at) && LeadsTo(at, s)
      ensures !ok ==> LostLock(at, me, Me().tags) || LostRead(at, me, Me().tags)
      ensures Alone() ==> s.data == old(s.data) && (ok <==> Succeeds(old(s).cells, me, Me().tags))
    {
      hide LeadsTo, Reachable, ApplyMove, LostLock, LostRead, AllClear, AllCurrent, SameFor;
      ghost var s0 := s;
      Standing(s, me);
      assert Written(Me().tags) - Me().held == Written(Me().tags);
      ok, at := Lock();
      if ok {
        ghost var s1 := s;
        LeadsFurther(s0, at, s);
        assert ReadOnly(Me().tags) - Me().marked == ReadOnly(Me().tags);
        ok, at := Check();
        LeadsFurther(s0, s1, at);
        if Alone() {
          SameCurrent(s0.cells, s1.cells, Me().tags, ReadOnly(Me().tags));
        }
      }
      Standing(s, me);
    }

    /** Nobody else has a lock of the tags, and those only read have the versions that were read. */
    ghost predicate Succeeds(cells: map<Obj, Cell>, t: Tid, tags: map<Key, Tag>) {
      AllClear(cells, t, Written(tags)) && AllCurrent(cells, t, tags, ReadOnly(tags))
    }

    lemma SameCurrent(a: map<Obj, Cell>, b: map<Obj, Cell>, tags: map<Key, Tag>, ks: set<Key>)
      requires SameFor(a, b, me)
      ensures AllCurrent(a, me, tags, ks) <==> AllCurrent(b, me, tags, ks)
    {
    }

    /** `try_commit`.  If it succeeds, the transaction has its commit record and its place in the
        history, and its locks are released; if it fails there is no record and the transaction is
        as before its attempt, and `at` is when another had one of its locks or a version had
        changed.  If nobody else moves it succeeds exactly when no other has a lock of its tags
        and all it only read is current, and then it has stored what it wrote. */
    method TryCommit() returns (ok: bool, ghost at: State)
      requires Valid() && Me().pc.Exec?
      modifies this
      ensures Valid() && (ok <==> me in s.recs)
      ensures ok ==> Me().pc.Done? && Me().tags == old(Me()).tags && Me().trace == old(Me()).trace && Me().held == {}
      ensures ok ==> 0 <= Me().slot < |s.hist|
                     && s.hist[Me().slot] == Attempt(me, old(Me()).tags, old(Me()).trace, Recorded)
      ensures !ok ==> Me() == FRESH
      ensures LeadsTo(old(s), at) && LeadsTo(at, s)
      ensures !ok ==> LostLock(at, me, old(Me()).tags) || LostRead(at, me, old(Me()).tags)
      ensures Alone() ==> (ok <==> Succeeds(old(s).cells, me, old(Me()).tags))
      ensures Alone() ==> if ok then Wrote(old(s).data, s.data, old(Me()).tags, Written(old(Me()).tags)) else s.data == old(s.data)
    {
      hide LeadsTo, Reachable, ApplyMove, LostLock, LostRead, Succeeds, Wrote;
      ghost var s0 := s;
      Standing(s, me);
      StartsFresh(s, me);
      AfterTryCommit(s, me);
      Step(OccMachine.TryCommit);
      ghost var s1 := s;
      ok, at := LockAndCheck();
      LeadsFurther(s0, s1, at);
      if ok {
        ghost var s2 := s;
        WriteAll();
        LeadsFurther(at, s2, s);
      }
      ghost var s3 := s;
      CleanUp();
      LeadsFurther(at, s3, s);
      Standing(s, me);
    }

    lemma StartsFresh(s: State, t: Tid)
      requires Reachable(s) && t in s.txns && s.txns[t].pc.Exec?
      ensures s.txns[t].held == {} && s.txns[t].marked == {} && s.txns[t].stored == {}
    {
      ReachableInv(s);
    }

    lemma AfterTryCommit(s: State, t: Tid)
      requires t in s.txns && CanMove(s, t, OccMachine.TryCommit)
      ensures ApplyMove(s, t, OccMachine.TryCommit).cells == s.cells && ApplyMove(s, t, OccMachine.TryCommit).data == s.data
    {
    }

    /** `abort` by the transaction's own code. */
    method Abort()
      requires Valid() && Me().pc.Exec?
      modifies this
      ensures Valid() && Me() == FRESH && me !in s.recs && (Alone() ==> s.data == old(s.data))
    {
      hide LeadsTo, Reachable, ApplyMove;
      Standing(s, me);
      DataAfter(s, me, GiveUp);
      Step(GiveUp);
      CleanUp();
      Standing(s, me);
    }
  }
}
