/** Every move keeps the structural part of the invariant: program counters, links with the
    history, locks and their counts, and the order of lock holders. */
module OccStructure {
  import opened OccMachine
  import opened OccInvariant
  import opened OccHistory

  lemma NextTxnOk(s: State, t: Tid, m: Move)
    requires t in s.txns && CanMove(s, t, m) && TxnOk(s.data.Keys, s.txns[t])
    ensures TxnOk(s.data.Keys, NextTxn(s, t, m))
  {
    match m
    case ReadVers(_) =>
    case ReadData =>
    case Write(_, _) =>
    case _ =>
  }

  lemma ShapeKept(s: State, t: Tid, m: Move)
    requires Shape(s) && t in s.txns && CanMove(s, t, m)
    ensures Shape(ApplyMove(s, t, m))
  {
    NextTxnOk(s, t, m);
  }

  lemma LinkVerdict(s: State, t: Tid, m: Move)
    requires t in s.txns && CanMove(s, t, m) && (m.LocksDone? || m.OwnerFail? || m.VersFail? || m.Pass? || m.Record?)
    requires TxnOk(s.data.Keys, s.txns[t]) && LinkOk(s.hist, t, s.txns[t])
    ensures LinkOk(NextHist(s, t, m), t, NextTxn(s, t, m))
  {
  }

  lemma LinkQuiet(s: State, t: Tid, m: Move)
    requires t in s.txns && CanMove(s, t, m) && !(m.LocksDone? || m.OwnerFail? || m.VersFail? || m.Pass? || m.Record?)
    requires TxnOk(s.data.Keys, s.txns[t]) && LinkOk(s.hist, t, s.txns[t])
    ensures LinkOk(NextHist(s, t, m), t, NextTxn(s, t, m))
  {
  }

  lemma NextLinkOk(s: State, t: Tid, m: Move)
    requires t in s.txns && CanMove(s, t, m)
    requires TxnOk(s.data.Keys, s.txns[t]) && LinkOk(s.hist, t, s.txns[t])
    ensures LinkOk(NextHist(s, t, m), t, NextTxn(s, t, m))
  {
    if m.LocksDone? || m.OwnerFail? || m.VersFail? || m.Pass? || m.Record? {
      LinkVerdict(s, t, m);
    } else {
      LinkQuiet(s, t, m);
    }
    hide *;
  }

  lemma EntriesKept(s: State, t: Tid, m: Move)
    requires Shape(s) && Linked(s) && t in s.txns && CanMove(s, t, m)
    ensures forall i :: 0 <= i < |NextHist(s, t, m)| ==> EntryOk(s.txns[t := NextTxn(s, t, m)], i, NextHist(s, t, m)[i])
  {
    HistFrame(s, t, m);
    NextLinkOk(s, t, m);
    var h', x' := NextHist(s, t, m), NextTxn(s, t, m);
    forall i | 0 <= i < |h'|
      ensures EntryOk(s.txns[t := x'], i, h'[i])
    {
      if i < |s.hist| {
        assert EntryOk(s.txns, i, s.hist[i]);
        if h'[i].tid == t && h'[i].verdict != Aborted {
          assert x'.slot == s.txns[t].slot;
        }
      }
    }
  }

  lemma LinkedKept(s: State, t: Tid, m: Move)
    requires Shape(s) && Linked(s) && t in s.txns && CanMove(s, t, m)
    ensures Linked(ApplyMove(s, t, m))
  {
    HistFrame(s, t, m);
    NextLinkOk(s, t, m);
    EntriesKept(s, t, m);
    var s' := ApplyMove(s, t, m);
    forall u | u in s'.txns
      ensures LinkOk(s'.hist, u, s'.txns[u])
    {
      assert LinkOk(s.hist, u, s.txns[u]);
    }
  }

  lemma NextRecorded(s: State, t: Tid, m: Move)
    requires t in s.txns && CanMove(s, t, m) && PcOk(s.txns[t])
    ensures var x, x' := s.txns[t], NextTxn(s, t, m);
            x'.ok && !IsWriting(x') <==> m.Record? || (x.ok && !IsWriting(x))
  {
  }

  lemma ReceiptsKept(s: State, t: Tid, m: Move)
    requires Shape(s) && Receipts(s) && t in s.txns && CanMove(s, t, m)
    ensures Receipts(ApplyMove(s, t, m))
  {
    assert TxnOk(s.data.Keys, s.txns[t]);
    NextRecorded(s, t, m);
  }

  // ----- locks -----

  /** Who writes takes one of these moves, and starts to write by `Pass` only. */
  lemma WritingMoves(s: State, t: Tid, m: Move)
    requires t in s.txns && CanMove(s, t, m)
    ensures IsWriting(s.txns[t]) ==> m.LogPre? || m.Store? || m.SetVersion? || m.Flush? || m.Record? || m.Evict?
    ensures !IsWriting(s.txns[t]) && !m.Pass? ==> !IsWriting(NextTxn(s, t, m))
  {
  }

  lemma WritingFrame(s: State, t: Tid, m: Move)
    requires t in s.txns && CanMove(s, t, m) && IsWriting(s.txns[t])
    ensures var x, y := s.txns[t], NextTxn(s, t, m);
            && y.tags == x.tags && y.slot == x.slot && (IsWriting(y) <==> !m.Record?)
            && y.stored == (if m.Store? then x.stored + {m.k} else x.stored)
            && y.flushed == (if m.Flush? then x.flushed + {m.k} else x.flushed)
            && (m.Record? ==> Written(x.tags) <= x.flushed) && (m.SetVersion? ==> x.pc.SetVers?)
  {
  }

  /** A version is torn between these two moves. */
  lemma SetVersMoves(s: State, t: Tid, m: Move, k: Key)
    requires t in s.txns && CanMove(s, t, m)
    ensures NextTxn(s, t, m).pc == SetVers(k) <==> (m == Store(k) && !k.Mark?) || (m.Evict? && s.txns[t].pc == SetVers(k))
    ensures s.txns[t].pc == SetVers(k) ==> m.SetVersion? || m.Evict?
  {
  }

  /** A move changes the owner of an object only from or to nobody, and only for itself. */
  lemma OwnerFrame(s: State, t: Tid, m: Move, o: Obj)
    requires t in s.txns && CanMove(s, t, m) && HoldsOk(s.cells, t, s.txns[t])
    ensures var w, w' := OwnerIn(s.cells, o), OwnerIn(NextCells(s, t, m), o);
            w' == w || (w == 0 && w' == t) || (w == t && w' == 0)
  {
  }

  lemma HeldFrame(s: State, t: Tid, m: Move)
    requires t in s.txns && CanMove(s, t, m) && PcOk(s.txns[t])
    ensures var x, x' := s.txns[t], NextTxn(s, t, m);
            if m.BumpCount? then x.pc.Bump? && x.pc.k !in x.held && x'.held == x.held + {x.pc.k}
            else if m.Drop? then m.k in x.held && x'.held == x.held - {m.k}
            else x'.held == x.held
  {
  }

  lemma HeldOnMore(x: Txn, y: Txn, k: Key, o: Obj)
    requires k !in x.held && y.held == x.held + {k}
    ensures if LockOf(k) == o then |HeldOn(y, o)| == |HeldOn(x, o)| + 1 else HeldOn(y, o) == HeldOn(x, o)
  {
    if LockOf(k) == o {
      assert HeldOn(y, o) == HeldOn(x, o) + {k};
    } else {
      assert HeldOn(y, o) == HeldOn(x, o);
    }
  }

  /** Acquiring and releasing a tag moves the held set by exactly that tag. */
  lemma HeldMoves(s: State, t: Tid, m: Move, o: Obj)
    requires t in s.txns && CanMove(s, t, m) && PcOk(s.txns[t])
    ensures var x, x' := s.txns[t], NextTxn(s, t, m);
            if m.BumpCount? && LockOf(x.pc.k) == o then |HeldOn(x', o)| == |HeldOn(x, o)| + 1
            else if m.Drop? && LockOf(m.k) == o then |HeldOn(x', o)| == |HeldOn(x, o)| - 1
            else HeldOn(x', o) == HeldOn(x, o)
  {
    HeldFrame(s, t, m);
    hide NextTxn, PcOk, CanMove;
    var x, x' := s.txns[t], NextTxn(s, t, m);
    if m.BumpCount? {
      HeldOnMore(x, x', x.pc.k, o);
    } else if m.Drop? {
      HeldOnMore(x', x, m.k, o);
    }
  }

  lemma NextHoldsOk(s: State, t: Tid, m: Move)
    requires t in s.txns && t != 0 && CanMove(s, t, m) && PcOk(s.txns[t]) && HoldsOk(s.cells, t, s.txns[t])
    requires m.Drop? ==> OwnedOk(s.txns, LockOf(m.k), s.cells[LockOf(m.k)])
    ensures HoldsOk(NextCells(s, t, m), t, NextTxn(s, t, m))
  {
    var x := s.txns[t];
    match m
    case Drop(k) =>
      HeldMoves(s, t, m, LockOf(k));
      assert k in HeldOn(x, LockOf(k));
    case FreeOwner =>
      forall k | k in x.held
        ensures LockOf(k) != LockOf(x.pc.k)
      {
        assert k in HeldOn(x, LockOf(k));
      }
    case _ =>
  }

  lemma OthersHold(s: State, t: Tid, m: Move)
    requires Shape(s) && Locks(s) && t in s.txns && CanMove(s, t, m)
    ensures forall u :: u in s.txns && u != t ==> HoldsOk(NextCells(s, t, m), u, s.txns[u])
  {
    forall u | u in s.txns && u != t
      ensures HoldsOk(NextCells(s, t, m), u, s.txns[u])
    {
      assert HoldsOk(s.cells, u, s.txns[u]);
      forall o {
        OwnerFrame(s, t, m, o);
      }
    }
  }

  lemma OwnedTake(s: State, t: Tid, m: Move, o: Obj)
    requires m.Cas? || m.BumpCount?
    requires t in s.txns && t != 0 && CanMove(s, t, m) && PcOk(s.txns[t]) && HoldsOk(s.cells, t, s.txns[t])
    requires o in s.cells && OwnedOk(s.txns, o, s.cells[o])
    ensures OwnedOk(s.txns[t := NextTxn(s, t, m)], o, NextCells(s, t, m)[o])
  {
    HeldMoves(s, t, m, o);
    if s.cells[o].owner != t {
      NotOwned(s, t, o);
    }
  }

  lemma OwnedDrop(s: State, t: Tid, m: Move, o: Obj)
    requires m.Drop? || m.FreeOwner?
    requires t in s.txns && t != 0 && CanMove(s, t, m) && PcOk(s.txns[t]) && HoldsOk(s.cells, t, s.txns[t])
    requires o in s.cells && OwnedOk(s.txns, o, s.cells[o])
    ensures OwnedOk(s.txns[t := NextTxn(s, t, m)], o, NextCells(s, t, m)[o])
  {
    HeldMoves(s, t, m, o);
    if s.cells[o].owner != t {
      NotOwned(s, t, o);
    }
  }

  lemma OwnedQuiet(s: State, t: Tid, m: Move, o: Obj)
    requires !(m.Cas? || m.BumpCount? || m.Drop? || m.FreeOwner?)
    requires t in s.txns && t != 0 && CanMove(s, t, m) && PcOk(s.txns[t]) && HoldsOk(s.cells, t, s.txns[t])
    requires o in s.cells && OwnedOk(s.txns, o, s.cells[o])
    ensures OwnedOk(s.txns[t := NextTxn(s, t, m)], o, NextCells(s, t, m)[o])
  {
    HeldMoves(s, t, m, o);
    if s.cells[o].owner != t {
      NotOwned(s, t, o);
    }
  }

  lemma OwnedKept(s: State, t: Tid, m: Move, o: Obj)
    requires t in s.txns && t != 0 && CanMove(s, t, m) && PcOk(s.txns[t]) && HoldsOk(s.cells, t, s.txns[t])
    requires o in s.cells && OwnedOk(s.txns, o, s.cells[o])
    ensures OwnedOk(s.txns[t := NextTxn(s, t, m)], o, NextCells(s, t, m)[o])
  {
    if m.Cas? || m.BumpCount? {
      OwnedTake(s, t, m, o);
    } else if m.Drop? || m.FreeOwner? {
      OwnedDrop(s, t, m, o);
    } else {
      OwnedQuiet(s, t, m, o);
    }
    hide *;
  }

  lemma NotOwned(s: State, t: Tid, o: Obj)
    requires t in s.txns && HoldsOk(s.cells, t, s.txns[t]) && t != 0 && OwnerIn(s.cells, o) != t
    ensures HeldOn(s.txns[t], o) == {} && !InWindow(s.txns[t], o)
  {
    assert forall k :: k in HeldOn(s.txns[t], o) ==> OwnerIn(s.cells, LockOf(k)) == t;
  }

  lemma AllOwnedKept(s: State, t: Tid, m: Move)
    requires Shape(s) && Locks(s) && t in s.txns && CanMove(s, t, m) && PcOk(s.txns[t])
    ensures NextCells(s, t, m).Keys == s.cells.Keys
    ensures forall o :: o in s.cells ==> OwnedOk(s.txns[t := NextTxn(s, t, m)], o, NextCells(s, t, m)[o])
  {
    CellsDomain(s, t, m);
    forall o | o in s.cells
      ensures OwnedOk(s.txns[t := NextTxn(s, t, m)], o, NextCells(s, t, m)[o])
    {
      OwnedKept(s, t, m, o);
    }
  }

  lemma CellsDomain(s: State, t: Tid, m: Move)
    requires t in s.txns && CanMove(s, t, m)
    ensures NextCells(s, t, m).Keys == s.cells.Keys
  {
  }

  lemma LocksKept(s: State, t: Tid, m: Move)
    requires Shape(s) && Locks(s) && t in s.txns && CanMove(s, t, m)
    ensures Locks(ApplyMove(s, t, m))
  {
    assert TxnOk(s.data.Keys, s.txns[t]);
    NextHoldsOk(s, t, m);
    OthersHold(s, t, m);
    AllOwnedKept(s, t, m);
  }

  // ----- order of lock holders -----

  /** A transaction with all its locks shares none of them with another that is in the history. */
  lemma Disjoint(s: State, t: Tid, u: Tid, k: Key, k': Key)
    requires Locks(s) && t in s.txns && u in s.txns && u != t && k in s.txns[u].held && k' in s.txns[t].held
    ensures LockOf(k) != LockOf(k')
  {
    assert HoldsOk(s.cells, u, s.txns[u]) && HoldsOk(s.cells, t, s.txns[t]);
  }

  lemma OrderedKept(s: State, t: Tid, m: Move)
    requires Shape(s) && Linked(s) && Locks(s) && Ordered(s) && t in s.txns && CanMove(s, t, m)
    ensures Ordered(ApplyMove(s, t, m))
  {
    var s' := ApplyMove(s, t, m);
    assert TxnOk(s.data.Keys, s.txns[t]);
    HistFrame(s, t, m);
    forall u | u in s'.txns
      ensures OrderOk(s'.hist, s'.txns[u])
    {
      assert OrderOk(s.hist, s.txns[u]);
      OrderKept(s, t, m, u);
    }
  }

  lemma OrderKept(s: State, t: Tid, m: Move, u: Tid)
    requires Locks(s) && t in s.txns && CanMove(s, t, m) && TxnOk(s.data.Keys, s.txns[t]) && LinkOk(s.hist, t, s.txns[t])
    requires u in s.txns && LinkOk(s.hist, u, s.txns[u]) && OrderOk(s.hist, s.txns[u])
    ensures OrderOk(NextHist(s, t, m), s.txns[t := NextTxn(s, t, m)][u])
  {
    HistFrame(s, t, m);
    var h', x' := NextHist(s, t, m), s.txns[t := NextTxn(s, t, m)][u];
    forall k, j, k' | x'.slot >= 0 && k in x'.held && x'.slot < j < |h'| && Writes(h'[j], k')
      ensures LockOf(k') != LockOf(k)
    {
      if j == |s.hist| {
        Disjoint(s, t, u, k, k');
      } else {
        assert Writes(s.hist[j], k');
      }
    }
  }
}
