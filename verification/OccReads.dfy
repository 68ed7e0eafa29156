/** Every move keeps what is known about reads: their versions, their values, and their validation. */
module OccReads {
  import opened OccMachine
  import opened OccInvariant
  import opened OccHistory
  import opened OccStructure
  import opened OccData

  // ----- known versions -----

  lemma KnownMono(s: State, t: Tid, m: Move, n: int, n': int, k: Key, v: Tid)
    requires t in s.txns && CanMove(s, t, m) && PcOk(s.txns[t]) && n <= n' && Known(s.txns, n, k, v)
    ensures Known(s.txns[t := NextTxn(s, t, m)], n', k, v)
  {
  }

  lemma HorizonGrows(s: State, t: Tid, m: Move)
    requires t in s.txns && CanMove(s, t, m) && TxnOk(s.data.Keys, s.txns[t]) && LinkOk(s.hist, t, s.txns[t])
    ensures var x' := NextTxn(s, t, m); x' == FRESH || Horizon(s.hist, s.txns[t]) <= Horizon(NextHist(s, t, m), x')
  {
    HistFrame(s, t, m);
  }

  lemma NextKnown(s: State, t: Tid, m: Move)
    requires Sound(s, t) && CanMove(s, t, m) && KnownOk(s.txns, s.hist, s.txns[t])
    requires m.ReadVers? ==> Known(s.txns, |s.hist|, m.k, VersIn(s.cells, LockOf(m.k)))
    ensures KnownOk(s.txns[t := NextTxn(s, t, m)], NextHist(s, t, m), NextTxn(s, t, m))
  {
    var x, x', h' := s.txns[t], NextTxn(s, t, m), NextHist(s, t, m);
    HistFrame(s, t, m);
    HorizonGrows(s, t, m);
    forall k | k in x'.tags && x'.tags[k].wasRead
      ensures Known(s.txns[t := x'], Horizon(h', x'), k, x'.tags[k].vers)
    {
      if m.ReadData? && k == x.pc.k {
        KnownMono(s, t, m, |s.hist|, Horizon(h', x'), k, x.pc.v);
      } else {
        assert k in x.tags && x.tags[k].wasRead;
        KnownMono(s, t, m, Horizon(s.hist, x), Horizon(h', x'), k, x.tags[k].vers);
      }
    }
    if m.ReadVers? {
      KnownMono(s, t, m, |s.hist|, |h'|, m.k, VersIn(s.cells, LockOf(m.k)));
    }
  }

  lemma OthersKnown(s: State, t: Tid, m: Move, u: Tid)
    requires Sound(s, t) && CanMove(s, t, m) && u in s.txns && u != t && KnownOk(s.txns, s.hist, s.txns[u])
    ensures KnownOk(s.txns[t := NextTxn(s, t, m)], NextHist(s, t, m), s.txns[u])
  {
    var y, x', h' := s.txns[u], NextTxn(s, t, m), NextHist(s, t, m);
    HistFrame(s, t, m);
    forall k | k in y.tags && y.tags[k].wasRead
      ensures Known(s.txns[t := x'], Horizon(h', y), k, y.tags[k].vers)
    {
      KnownMono(s, t, m, Horizon(s.hist, y), Horizon(h', y), k, y.tags[k].vers);
    }
    if y.pc.Load? {
      KnownMono(s, t, m, |s.hist|, |h'|, y.pc.k, y.pc.v);
    }
  }

  lemma CellsKnown(s: State, t: Tid, m: Move, k: Key)
    requires Sound(s, t) && CanMove(s, t, m) && k.Row? && Known(s.txns, |s.hist|, k, VersIn(s.cells, LockOf(k)))
    ensures Known(s.txns[t := NextTxn(s, t, m)], |NextHist(s, t, m)|, k, VersIn(NextCells(s, t, m), LockOf(k)))
  {
    HistFrame(s, t, m);
    KnownMono(s, t, m, |s.hist|, |NextHist(s, t, m)|, k, VersIn(s.cells, LockOf(k)));
  }

  lemma DataDomain(s: State, t: Tid, m: Move)
    requires t in s.txns && CanMove(s, t, m)
    ensures ApplyMove(s, t, m).data.Keys == s.data.Keys
  {
  }

  lemma KnownKept(s: State, t: Tid, m: Move)
    requires Shape(s) && Linked(s) && Locks(s) && Ordered(s) && KnownReads(s) && t in s.txns && CanMove(s, t, m)
    ensures KnownReads(ApplyMove(s, t, m))
  {
    SoundOf(s, t);
    DataDomain(s, t, m);
    hide NextTxn, NextHist, NextCells, CanMove, Known, Shape, Linked, Locks, Ordered, Sound;
    assert KnownOk(s.txns, s.hist, s.txns[t]);
    NextKnown(s, t, m);
    hide KnownOk;
    forall u | u in s.txns && u != t
      ensures KnownOk(s.txns[t := NextTxn(s, t, m)], NextHist(s, t, m), s.txns[u])
    {
      OthersKnown(s, t, m, u);
    }
    forall k | k in s.data && k.Row?
      ensures Known(s.txns[t := NextTxn(s, t, m)], |NextHist(s, t, m)|, k, VersIn(NextCells(s, t, m), LockOf(k)))
    {
      CellsKnown(s, t, m, k);
    }
  }

  // ----- fresh reads -----

  /** A version that a move sets has never been read. */
  lemma NewVersion(s: State, t: Tid, m: Move, n: int, k: Key, v: Tid)
    requires Sound(s, t) && CanMove(s, t, m) && k.Row? && Known(s.txns, n, k, v)
    ensures VersIn(NextCells(s, t, m), LockOf(k)) == v ==> VersIn(s.cells, LockOf(k)) == v
    ensures m.SetVersion? && s.txns[t].pc.k == k ==> VersIn(NextCells(s, t, m), LockOf(k)) != v
  {
  }

  lemma StoresWhatItHolds(s: State, t: Tid, m: Move)
    requires Sound(s, t) && CanMove(s, t, m)
    ensures m.Store? ==> OwnerIn(s.cells, LockOf(m.k)) == t && NextCells(s, t, m) == s.cells
    ensures m.SetVersion? ==> s.txns[t].pc.SetVers? && OwnerIn(s.cells, LockOf(s.txns[t].pc.k)) == t
    ensures m.Evict? ==> NextTxn(s, t, m) == s.txns[t] && NextCells(s, t, m) == s.cells
  {
    assert m.Store? ==> m.k in s.txns[t].held;
    assert m.SetVersion? ==> s.txns[t].pc.k in s.txns[t].held;
  }

  lemma TornFrame(s: State, t: Tid, m: Move, k: Key)
    requires Sound(s, t) && CanMove(s, t, m) && k.Row?
    ensures var s' := ApplyMove(s, t, m);
            if m.Store? && m.k == k then Torn(s', k)
            else if m.SetVersion? && s.txns[t].pc.k == k then Torn(s, k)
            else Torn(s', k) == Torn(s, k)
  {
    OwnerFrame(s, t, m, LockOf(k));
    SetVersMoves(s, t, m, k);
    StoresWhatItHolds(s, t, m);
    hide NextTxn, NextCells, CanMove;
  }

  /** A tag that was read is as before, unless it has just been read again. */
  lemma ReadTagFrame(s: State, t: Tid, m: Move, k: Key)
    requires t in s.txns && CanMove(s, t, m) && PcOk(s.txns[t]) && !(m.ReadData? && s.txns[t].pc.k == k)
    requires k in NextTxn(s, t, m).tags && NextTxn(s, t, m).tags[k].wasRead
    ensures k in s.txns[t].tags && s.txns[t].tags[k].wasRead
    ensures NextTxn(s, t, m).tags[k].vers == s.txns[t].tags[k].vers && NextTxn(s, t, m).tags[k].seen == s.txns[t].tags[k].seen
  {
  }

  lemma FreshKept(s: State, t: Tid, m: Move, u: Tid)
    requires Sound(s, t) && CanMove(s, t, m) && u in s.txns && PcOk(s.txns[u])
    requires KnownOk(s.txns, s.hist, s.txns[u]) && FreshOk(s, s.txns[u])
    ensures FreshOk(ApplyMove(s, t, m), s.txns[t := NextTxn(s, t, m)][u])
  {
    var s' := ApplyMove(s, t, m);
    var y, y' := s.txns[u], s'.txns[u];
    forall k | k in y'.tags && y'.tags[k].wasRead && k in s'.data && VersIn(s'.cells, LockOf(k)) == y'.tags[k].vers && !Torn(s', k)
      ensures y'.tags[k].seen == s'.data[k]
    {
      if !(u == t && m.ReadData? && s.txns[t].pc.k == k) {
        if u == t {
          ReadTagFrame(s, t, m, k);
        }
        assert k in y.tags && y.tags[k].wasRead;
        NewVersion(s, t, m, Horizon(s.hist, y), k, y.tags[k].vers);
        TornFrame(s, t, m, k);
      }
    }
  }

  lemma FreshReadsKept(s: State, t: Tid, m: Move)
    requires Shape(s) && Linked(s) && Locks(s) && Ordered(s) && KnownReads(s) && FreshReads(s) && t in s.txns && CanMove(s, t, m)
    ensures FreshReads(ApplyMove(s, t, m))
  {
    SoundOf(s, t);
    forall u | u in s.txns
      ensures FreshOk(ApplyMove(s, t, m), s.txns[t := NextTxn(s, t, m)][u])
    {
      assert TxnOk(s.data.Keys, s.txns[u]) && KnownOk(s.txns, s.hist, s.txns[u]);
      FreshKept(s, t, m, u);
    }
  }
}
