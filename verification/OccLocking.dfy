/** Lock counts, aborts and progress of the optimistic protocol, and what it does not validate. */
module OccLocking {
  import opened OccMachine
  import opened OccInvariant
  import opened OccData
  import opened OccTheorems

  /** The recursive count of a lock is the number of tags that hold it, all of them its owner's. */
  lemma CountIsConserved(s: State, o: Obj)
    requires Reachable(s) && o in s.cells
    ensures var c := s.cells[o];
            && (forall t :: t in s.txns && t != c.owner ==> HeldOn(s.txns[t], o) == {})
            && c.count == (if c.owner in s.txns then |HeldOn(s.txns[c.owner], o)| else 0)
            && ((forall t :: t in s.txns ==> !InWindow(s.txns[t], o)) ==> (c.owner == 0 <==> c.count == 0))
  {
    ReachableInv(s);
    var c := s.cells[o];
    assert OwnedOk(s.txns, o, c);
    forall t | t in s.txns && t != c.owner
      ensures HeldOn(s.txns[t], o) == {}
    {
      assert HoldsOk(s.cells, t, s.txns[t]);
      assert forall k :: k in HeldOn(s.txns[t], o) ==> OwnerIn(s.cells, LockOf(k)) == t;
    }
  }

  /** The debug assertions of `TVersion::lock` and `unlock` hold: a free lock has count 0, a lock
      taken again has a positive count, and an unlock finds a positive count and a set owner. */
  lemma LockAssertionsHold(s: State, t: Tid, m: Move)
    requires Reachable(s) && t in s.txns && CanMove(s, t, m)
    ensures m.Cas? ==> var c := s.cells[LockOf(m.k)]; if c.owner == 0 then c.count == 0 else c.count > 0
    ensures m.Drop? ==> s.cells[LockOf(m.k)].count >= 1 && s.cells[LockOf(m.k)].owner == t
    ensures m.FreeOwner? ==> s.cells[LockOf(s.txns[t].pc.k)].count == 0 && s.cells[LockOf(s.txns[t].pc.k)].owner == t
  {
    ReachableSound(s, t);
    match m
    case Cas(k) => ReachableOwned(s, LockOf(k));
    case Drop(k) =>
      ReachableOwned(s, LockOf(k));
      assert k in HeldOn(s.txns[t], LockOf(k));
    case FreeOwner => ReachableOwned(s, LockOf(s.txns[t].pc.k));
    case _ =>
  }

  lemma ReachableOwned(s: State, o: Obj)
    requires Reachable(s) && o in s.cells
    ensures OwnedOk(s.txns, o, s.cells[o])
  {
    ReachableInv(s);
  }

  lemma QuietMove(s: State, t: Tid, m: Move)
    requires t in s.txns && CanMove(s, t, m) && !IsWriting(s.txns[t])
    ensures var s' := ApplyMove(s, t, m); s'.data == s.data && s'.log == s.log && s'.recs == s.recs
    ensures forall o :: VersIn(NextCells(s, t, m), o) == VersIn(s.cells, o)
  {
  }

  /** Whatever an attempt does before it passes leaves data, versions, log and records alone. */
  lemma NothingBeforePassing(s: State, t: Tid, m: Move)
    requires Reachable(s) && t in s.txns && CanMove(s, t, m) && !s.txns[t].ok
    ensures var s' := ApplyMove(s, t, m);
            s'.data == s.data && s'.log == s.log && s'.recs == s.recs && forall o :: VersIn(s'.cells, o) == VersIn(s.cells, o)
  {
    ReachableSound(s, t);
    QuietMove(s, t, m);
  }

  /** A transaction that has not passed has left no trace, and between attempts owns no lock. */
  lemma AbortLeavesNothing(s: State, t: Tid)
    requires Reachable(s) && t in s.txns && !s.txns[t].ok
    ensures t !in s.recs
    ensures forall e :: e in s.log ==> e.tid != t
    ensures forall i :: 0 <= i < |s.hist| && Committed(s.hist[i]) ==> s.hist[i].tid != t
    ensures s.txns[t].pc == Exec ==> forall o :: OwnerIn(s.cells, o) != t
  {
    ReachableInv(s);
    SoundOf(s, t);
    forall e | e in s.log
      ensures e.tid != t
    {
      assert RecOk(s.init, s.hist, s.txns, e);
    }
    forall i | 0 <= i < |s.hist| && Committed(s.hist[i])
      ensures s.hist[i].tid != t
    {
      assert EntryOk(s.txns, i, s.hist[i]);
    }
    if s.txns[t].pc == Exec {
      forall o | o in s.cells
        ensures s.cells[o].owner != t
      {
        assert OwnedOk(s.txns, o, s.cells[o]);
      }
    }
  }

  /** No version ever names a transaction that has not passed. */
  lemma VersionsAreCommitted(s: State, k: Key)
    requires Reachable(s) && k in s.data && k.Row?
    ensures var v := VersIn(s.cells, LockOf(k)); v == 0 || (v in s.txns && s.txns[v].ok && k in s.txns[v].stored)
  {
    ReachableInv(s);
    assert Known(s.txns, |s.hist|, k, VersIn(s.cells, LockOf(k)));
  }

  /** No transaction ever waits: until it is done it can move, whatever the others do. */
  lemma NeverStuck(s: State, t: Tid) returns (m: Move)
    requires Reachable(s) && t in s.txns && s.txns[t].pc != Done
    ensures CanMove(s, t, m) && !m.Evict?
  {
    ReachableSound(s, t);
    var x := s.txns[t];
    match x.pc
    case Exec => m := TryCommit;
    case Load(_, _) => m := ReadData;
    case Locking => m := LockingMove(s, t);
    case Bump(_) => m := BumpCount;
    case Checking => m := CheckingMove(s, t);
    case Again(k) => m := if OwnerIn(s.cells, LockOf(k)) == t then OwnerAgain else OwnerFail;
    case Vers(k) => m := if VersIn(s.cells, LockOf(k)) == x.tags[k].vers then VersLoad else VersFail;
    case Writing => m := WritingMove(s, t);
    case SetVers(_) => m := SetVersion;
    case Releasing => m := ReleasingMove(s, t);
    case Free(_) => m := FreeMove(s, t);
  }

  lemma LockingMove(s: State, t: Tid) returns (m: Move)
    requires Reachable(s) && t in s.txns && s.txns[t].pc == Locking
    ensures CanMove(s, t, m) && !m.Evict?
  {
    ReachableSound(s, t);
    var x := s.txns[t];
    if Written(x.tags) <= x.held {
      m := LocksDone;
    } else {
      var k :| k in Written(x.tags) && k !in x.held;
      assert k in x.tags;
      m := if s.cells[LockOf(k)].owner == 0 || s.cells[LockOf(k)].owner == t then Cas(k) else CasFail(k);
    }
  }

  lemma CheckingMove(s: State, t: Tid) returns (m: Move)
    requires Reachable(s) && t in s.txns && s.txns[t].pc == Checking
    ensures CanMove(s, t, m) && !m.Evict?
  {
    ReachableSound(s, t);
    var x := s.txns[t];
    if ReadOnly(x.tags) <= x.marked {
      m := Pass;
    } else {
      var k :| k in ReadOnly(x.tags) && k !in x.marked;
      m := OwnerLoad(k);
    }
  }

  lemma WritingMove(s: State, t: Tid) returns (m: Move)
    requires Reachable(s) && t in s.txns && s.txns[t].pc == Writing
    ensures CanMove(s, t, m) && !m.Evict?
  {
    ReachableSound(s, t);
    var x := s.txns[t];
    var w := Written(x.tags);
    if !(w <= x.logged) {
      var k :| k in w && k !in x.logged;
      m := LogPre(k);
    } else if !(w <= x.stored) {
      var k :| k in w && k !in x.stored;
      m := Store(k);
    } else if !(w <= x.flushed) {
      var k :| k in w && k !in x.flushed;
      m := Flush(k);
    } else {
      m := Record;
    }
  }

  lemma ReleasingMove(s: State, t: Tid) returns (m: Move)
    requires Reachable(s) && t in s.txns && s.txns[t].pc == Releasing
    ensures CanMove(s, t, m) && !m.Evict?
  {
    ReachableSound(s, t);
    var x := s.txns[t];
    if x.held == {} {
      m := Finish;
    } else {
      var k :| k in x.held;
      m := Drop(k);
    }
  }

  lemma FreeMove(s: State, t: Tid) returns (m: Move)
    requires Reachable(s) && t in s.txns && s.txns[t].pc.Free?
    ensures CanMove(s, t, m) && !m.Evict?
  {
    ReachableSound(s, t);
    assert OwnerIn(s.cells, LockOf(s.txns[t].pc.k)) == t;
    m := FreeOwner;
  }
}
