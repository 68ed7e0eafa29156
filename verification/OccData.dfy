/** Every move keeps data and versions equal to the replay of the history. */
module OccData {
  import opened OccMachine
  import opened OccInvariant
  import opened OccHistory
  import opened OccStructure

  /** The parts of the invariant that speak about one transaction. */
  ghost predicate Sound(s: State, t: Tid) {
    && 0 !in s.txns && t in s.txns && TxnOk(s.data.Keys, s.txns[t]) && LinkOk(s.hist, t, s.txns[t])
    && HoldsOk(s.cells, t, s.txns[t]) && OrderOk(s.hist, s.txns[t])
  }

  lemma SoundOf(s: State, t: Tid)
    requires Shape(s) && Linked(s) && Locks(s) && Ordered(s) && t in s.txns
    ensures Sound(s, t)
  {
  }

  /** No attempt after that of `t` writes what `t` has locked. */
  lemma NoLaterWriter(s: State, t: Tid, k: Key)
    requires Sound(s, t) && k in s.txns[t].held && s.txns[t].slot >= 0
    ensures forall j :: s.txns[t].slot < j < |s.hist| ==> !Writes(s.hist[j], k)
  {
  }

  /** The pending attempt of `t` is the last that writes what `t` has locked. */
  lemma PendingIsLast(s: State, t: Tid, k: Key)
    requires Sound(s, t) && IsChecking(s.txns[t]) && k in Written(s.txns[t].tags)
    ensures LastWriter(s.hist, |s.hist|, k) == LastWriter(s.hist, s.txns[t].slot, k)
  {
    NoLaterWriter(s, t, k);
    NoneAfter(s.hist, s.txns[t].slot, |s.hist|, k);
  }

  lemma WriterIsLast(s: State, t: Tid, k: Key)
    requires Sound(s, t) && IsWriting(s.txns[t]) && k in Written(s.txns[t].tags)
    ensures LastWriter(s.hist, |s.hist|, k) == s.txns[t].slot
  {
    NoLaterWriter(s, t, k);
    LastIs(s.hist, |s.hist|, k, s.txns[t].slot);
  }

  lemma PassKeepsValue(s: State, t: Tid, n: int, k: Key)
    requires Sound(s, t) && CanMove(s, t, Pass) && n <= |s.hist|
    requires n <= s.txns[t].slot || k !in Written(s.txns[t].tags)
    ensures ValueAt(s.init, NextHist(s, t, Pass), n, k) == ValueAt(s.init, s.hist, n, k)
    ensures VersAt(NextHist(s, t, Pass), n, k) == VersAt(s.hist, n, k)
  {
    HistFrame(s, t, Pass);
    PassLast(s.hist, s.txns[t].slot, n, k);
  }

  /** What an attempt in the history found where it writes never changes again. */
  lemma PreimageStands(s: State, t: Tid, m: Move, u: Tid, k: Key)
    requires Sound(s, t) && CanMove(s, t, m) && Sound(s, u) && s.txns[u].slot >= 0 && k in Written(s.txns[u].tags)
    ensures ValueAt(s.init, NextHist(s, t, m), s.txns[u].slot, k) == ValueAt(s.init, s.hist, s.txns[u].slot, k)
    ensures VersAt(NextHist(s, t, m), s.txns[u].slot, k) == VersAt(s.hist, s.txns[u].slot, k)
  {
    HistFrame(s, t, m);
    if m.Pass? {
      if s.txns[t].slot < s.txns[u].slot && k in Written(s.txns[t].tags) {
        NoLaterWriter(s, t, k);
        assert Writes(s.hist[s.txns[u].slot], k);
      }
      PassKeepsValue(s, t, s.txns[u].slot, k);
    } else {
      SameReplay(s.init, s.hist, NextHist(s, t, m));
    }
  }

  lemma UnstoredFrame(s: State, t: Tid, m: Move, k: Key)
    requires t in s.txns && CanMove(s, t, m) && PcOk(s.txns[t]) && !m.Pass? && !(m.Store? && m.k == k)
    ensures var x, x' := s.txns[t], NextTxn(s, t, m);
            Unstored(x', k) == Unstored(x, k) && (Unstored(x, k) ==> x'.slot == x.slot)
  {
    WritingMoves(s, t, m);
    if IsWriting(s.txns[t]) {
      WritingFrame(s, t, m);
    }
    hide NextTxn, CanMove;
  }

  lemma FrontFrame(s: State, t: Tid, m: Move, k: Key)
    requires Sound(s, t) && CanMove(s, t, m) && !m.Pass? && !(m.Store? && m.k == k)
    requires Owner(s, k) in s.txns ==> Sound(s, Owner(s, k))
    ensures Front(ApplyMove(s, t, m), k) == if Front(s, k) == |s.hist| then |NextHist(s, t, m)| else Front(s, k)
  {
    HistFrame(s, t, m);
    UnstoredFrame(s, t, m, k);
    OwnerFrame(s, t, m, LockOf(k));
    hide NextTxn, NextCells, NextHist, CanMove;
  }

  /** Up to the moves that store or pass, the replay of the history stands still. */
  lemma QuietKeepsData(s: State, t: Tid, m: Move, k: Key)
    requires Sound(s, t) && CanMove(s, t, m) && !m.Pass? && !(m.Store? && m.k == k)
    requires DataOk(s, k) && (Owner(s, k) in s.txns ==> Sound(s, Owner(s, k)))
    ensures DataOk(ApplyMove(s, t, m), k)
  {
    HistFrame(s, t, m);
    SameReplay(s.init, s.hist, NextHist(s, t, m));
    FrontFrame(s, t, m, k);
  }

  lemma PassFront(s: State, t: Tid, k: Key)
    requires Sound(s, t) && CanMove(s, t, Pass)
    ensures Front(ApplyMove(s, t, Pass), k) == if k in Written(s.txns[t].tags) then s.txns[t].slot else Front(s, k)
    ensures k in Written(s.txns[t].tags) ==> Front(s, k) == |s.hist|
  {
    HistFrame(s, t, Pass);
  }

  lemma PassKeepsData(s: State, t: Tid, k: Key)
    requires Sound(s, t) && CanMove(s, t, Pass)
    requires DataOk(s, k) && (Owner(s, k) in s.txns ==> Sound(s, Owner(s, k)))
    ensures DataOk(ApplyMove(s, t, Pass), k)
  {
    PassFront(s, t, k);
    if k in Written(s.txns[t].tags) {
      PendingIsLast(s, t, k);
      PassKeepsValue(s, t, s.txns[t].slot, k);
    } else {
      PassKeepsValue(s, t, Front(s, k), k);
    }
  }

  lemma StoreKeepsData(s: State, t: Tid, k: Key)
    requires Sound(s, t) && CanMove(s, t, Store(k))
    ensures DataOk(ApplyMove(s, t, Store(k)), k)
  {
    WriterIsLast(s, t, k);
  }

  lemma DataKept(s: State, t: Tid, m: Move)
    requires Shape(s) && Linked(s) && Locks(s) && Ordered(s) && Data(s) && t in s.txns && CanMove(s, t, m)
    ensures Data(ApplyMove(s, t, m))
  {
    SoundOf(s, t);
    forall k | k in s.data
      ensures DataOk(ApplyMove(s, t, m), k)
    {
      if Owner(s, k) in s.txns {
        SoundOf(s, Owner(s, k));
      }
      if m.Pass? {
        PassKeepsData(s, t, k);
      } else if m.Store? && m.k == k {
        StoreKeepsData(s, t, k);
      } else {
        QuietKeepsData(s, t, m, k);
      }
    }
  }

  // ----- versions -----

  lemma UnversionedFrame(s: State, t: Tid, m: Move, k: Key)
    requires t in s.txns && CanMove(s, t, m) && PcOk(s.txns[t]) && !m.Pass? && !(m.SetVersion? && s.txns[t].pc.k == k)
    requires k.Row?
    ensures var x, x' := s.txns[t], NextTxn(s, t, m);
            Unversioned(x', k) == Unversioned(x, k) && (Unversioned(x, k) ==> x'.slot == x.slot)
  {
    WritingMoves(s, t, m);
    SetVersMoves(s, t, m, k);
    if IsWriting(s.txns[t]) {
      WritingFrame(s, t, m);
    }
    hide NextTxn, CanMove;
  }

  lemma VersFrontFrame(s: State, t: Tid, m: Move, k: Key)
    requires Sound(s, t) && CanMove(s, t, m) && !m.Pass? && !(m.SetVersion? && s.txns[t].pc.k == k)
    requires k.Row? && (Owner(s, k) in s.txns ==> Sound(s, Owner(s, k)))
    ensures VersFront(ApplyMove(s, t, m), k) == if VersFront(s, k) == |s.hist| then |NextHist(s, t, m)| else VersFront(s, k)
  {
    HistFrame(s, t, m);
    UnversionedFrame(s, t, m, k);
    OwnerFrame(s, t, m, LockOf(k));
  }

  lemma VersFrame(s: State, t: Tid, m: Move, k: Key)
    requires t in s.txns && CanMove(s, t, m) && PcOk(s.txns[t]) && k.Row? && !(m.SetVersion? && s.txns[t].pc.k == k)
    ensures VersIn(NextCells(s, t, m), LockOf(k)) == VersIn(s.cells, LockOf(k))
  {
  }

  lemma QuietKeepsVers(s: State, t: Tid, m: Move, k: Key)
    requires Sound(s, t) && CanMove(s, t, m) && !m.Pass? && !(m.SetVersion? && s.txns[t].pc.k == k)
    requires k.Row? && VersOk(s, k) && (Owner(s, k) in s.txns ==> Sound(s, Owner(s, k)))
    ensures VersOk(ApplyMove(s, t, m), k)
  {
    HistFrame(s, t, m);
    SameReplay(s.init, s.hist, NextHist(s, t, m));
    VersFrontFrame(s, t, m, k);
    VersFrame(s, t, m, k);
    hide NextTxn, NextCells, NextHist, CanMove;
  }

  lemma PassVersFront(s: State, t: Tid, k: Key)
    requires Sound(s, t) && CanMove(s, t, Pass)
    ensures VersFront(ApplyMove(s, t, Pass), k) == if k in Written(s.txns[t].tags) then s.txns[t].slot else VersFront(s, k)
    ensures k in Written(s.txns[t].tags) ==> VersFront(s, k) == |s.hist|
  {
    HistFrame(s, t, Pass);
  }

  lemma PassKeepsVers(s: State, t: Tid, k: Key)
    requires Sound(s, t) && CanMove(s, t, Pass)
    requires VersOk(s, k) && (Owner(s, k) in s.txns ==> Sound(s, Owner(s, k)))
    ensures VersOk(ApplyMove(s, t, Pass), k)
  {
    PassVersFront(s, t, k);
    if k in Written(s.txns[t].tags) {
      PendingIsLast(s, t, k);
      PassKeepsValue(s, t, s.txns[t].slot, k);
    } else {
      PassKeepsValue(s, t, VersFront(s, k), k);
    }
  }

  lemma SetKeepsVers(s: State, t: Tid)
    requires Sound(s, t) && CanMove(s, t, SetVersion) && s.txns[t].pc.k.Row?
    ensures VersOk(ApplyMove(s, t, SetVersion), s.txns[t].pc.k)
  {
    WriterIsLast(s, t, s.txns[t].pc.k);
  }

  lemma VersionsKept(s: State, t: Tid, m: Move)
    requires Shape(s) && Linked(s) && Locks(s) && Ordered(s) && Versions(s) && t in s.txns && CanMove(s, t, m)
    ensures Versions(ApplyMove(s, t, m))
  {
    SoundOf(s, t);
    forall k | k in s.data && k.Row?
      ensures VersOk(ApplyMove(s, t, m), k)
    {
      if Owner(s, k) in s.txns {
        SoundOf(s, Owner(s, k));
      }
      if m.Pass? {
        PassKeepsVers(s, t, k);
      } else if m.SetVersion? && s.txns[t].pc.k == k {
        SetKeepsVers(s, t);
      } else {
        QuietKeepsVers(s, t, m, k);
      }
    }
  }
}
