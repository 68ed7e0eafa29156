/** Every move keeps validated reads equal to the replay of the history at the reader's place. */
module OccValidation {
  import opened OccMachine
  import opened OccInvariant
  import opened OccHistory
  import opened OccStructure
  import opened OccData
  import opened OccReads

  // ----- earlier writers are decided -----

  lemma PendingOwns(s: State, i: int, k: Key)
    requires Shape(s) && Linked(s) && Locks(s)
    requires 0 <= i < |s.hist| && s.hist[i].verdict == Pending && Writes(s.hist[i], k)
    ensures s.hist[i].tid in s.txns && s.txns[s.hist[i].tid].slot == i && Owner(s, k) == s.hist[i].tid
  {
    var u := s.hist[i].tid;
    assert EntryOk(s.txns, i, s.hist[i]);
    assert LinkOk(s.hist, u, s.txns[u]) && TxnOk(s.data.Keys, s.txns[u]) && HoldsOk(s.cells, u, s.txns[u]);
    assert k in s.txns[u].held;
  }

  /** If `k` is locked by nobody but perhaps `t`, every earlier attempt that writes it is decided. */
  lemma DecidedBefore(s: State, t: Tid, k: Key, i: int)
    requires Shape(s) && Linked(s) && Locks(s) && t in s.txns
    requires Owner(s, k) == 0 || Owner(s, k) == t
    requires 0 <= i < s.txns[t].slot && i < |s.hist| && Writes(s.hist[i], k)
    ensures s.hist[i].verdict != Pending
  {
    if s.hist[i].verdict == Pending {
      PendingOwns(s, i, k);
    }
  }

  /** The move by which `check_version` accepts the owner of `AcceptedKey`. */
  predicate Accepts(s: State, t: Tid, m: Move)
    requires t in s.txns && CanMove(s, t, m)
  {
    NextTxn(s, t, m).pc.Vers? && !s.txns[t].pc.Vers?
  }

  function AcceptedKey(s: State, t: Tid, m: Move): Key
    requires t in s.txns && CanMove(s, t, m) && Accepts(s, t, m)
  {
    NextTxn(s, t, m).pc.k
  }

  lemma AcceptFacts(s: State, t: Tid, m: Move)
    requires Sound(s, t) && CanMove(s, t, m) && Accepts(s, t, m)
    ensures var k := AcceptedKey(s, t, m);
            && (Owner(s, k) == 0 || Owner(s, k) == t) && k in ReadOnly(s.txns[t].tags) && k.Row?
            && IsChecking(s.txns[t]) && NextHist(s, t, m) == s.hist && NextCells(s, t, m) == s.cells
            && NextTxn(s, t, m) == s.txns[t].(pc := Vers(k))
  {
  }

  lemma SettledKept(s: State, t: Tid, m: Move)
    requires Shape(s) && Linked(s) && Locks(s) && Ordered(s) && Settled(s) && t in s.txns && CanMove(s, t, m)
    ensures Settled(ApplyMove(s, t, m))
  {
    SoundOf(s, t);
    forall u | u in s.txns
      ensures SettledOk(NextHist(s, t, m), s.txns[t := NextTxn(s, t, m)][u])
    {
      assert SettledOk(s.hist, s.txns[u]) && LinkOk(s.hist, u, s.txns[u]);
      if u == t && Accepts(s, t, m) {
        AcceptFacts(s, t, m);
        var k := AcceptedKey(s, t, m);
        forall i | 0 <= i < s.txns[t].slot && i < |s.hist| && Writes(s.hist[i], k)
          ensures s.hist[i].verdict != Pending
        {
          DecidedBefore(s, t, k, i);
        }
      } else {
        SettledStep(s, t, m, u);
      }
    }
  }

  lemma SettledStep(s: State, t: Tid, m: Move, u: Tid)
    requires Sound(s, t) && CanMove(s, t, m) && u in s.txns && (u == t ==> !Accepts(s, t, m))
    requires SettledOk(s.hist, s.txns[u]) && LinkOk(s.hist, u, s.txns[u])
    ensures SettledOk(NextHist(s, t, m), s.txns[t := NextTxn(s, t, m)][u])
  {
    HistFrame(s, t, m);
    var h', y' := NextHist(s, t, m), s.txns[t := NextTxn(s, t, m)][u];
    forall k, i | Accepted(y', k) && 0 <= i < y'.slot && i < |h'| && Writes(h'[i], k)
      ensures h'[i].verdict != Pending
    {
      assert i < |s.hist| && Writes(s.hist[i], k);
      assert Accepted(s.txns[u], k);
    }
  }

  // ----- validated reads -----

  /** A current read of a row that nobody else has locked returned the value at the reader's place. */
  lemma CurrentReadIsSerial(s: State, t: Tid, k: Key)
    requires Sound(s, t) && IsChecking(s.txns[t]) && k in ReadOnly(s.txns[t].tags) && k.Row?
    requires Owner(s, k) == 0 || Owner(s, k) == t
    requires DataOk(s, k) && VersOk(s, k) && FreshOk(s, s.txns[t]) && KnownOk(s.txns, s.hist, s.txns[t])
    requires forall i :: 0 <= i < |s.hist| ==> EntryOk(s.txns, i, s.hist[i])
    requires VersIn(s.cells, LockOf(k)) == s.txns[t].tags[k].vers
    ensures s.txns[t].tags[k].seen == ValueAt(s.init, s.hist, s.txns[t].slot, k)
  {
    var x, h := s.txns[t], s.hist;
    var r := LastWriter(h, |h|, k);
    assert x.tags[k].wasRead;
    assert x.tags[k].seen == s.data[k] == ValueAt(s.init, h, |h|, k);
    assert x.tags[k].vers == VersAt(h, |h|, k);
    if r >= 0 {
      assert EntryOk(s.txns, r, h[r]);
    }
    NoneAfter(h, x.slot, |h|, k);
  }

  /** A read that is accepted stays right: later passes write elsewhere or later. */
  lemma ValueStands(s: State, t: Tid, m: Move, u: Tid, k: Key)
    requires Sound(s, t) && CanMove(s, t, m) && u in s.txns && LinkOk(s.hist, u, s.txns[u])
    requires SettledOk(s.hist, s.txns[u]) && Accepted(s.txns[u], k) && 0 <= s.txns[u].slot
    ensures ValueAt(s.init, NextHist(s, t, m), s.txns[u].slot, k) == ValueAt(s.init, s.hist, s.txns[u].slot, k)
  {
    HistFrame(s, t, m);
    if m.Pass? {
      if s.txns[t].slot < s.txns[u].slot && k in Written(s.txns[t].tags) {
        assert Writes(s.hist[s.txns[t].slot], k);
      }
      PassKeepsValue(s, t, s.txns[u].slot, k);
    } else {
      SameReplay(s.init, s.hist, NextHist(s, t, m));
    }
  }

  lemma ValidStep(s: State, t: Tid, m: Move, u: Tid)
    requires Sound(s, t) && CanMove(s, t, m) && u in s.txns && (u == t ==> !Accepts(s, t, m))
    requires TxnOk(s.data.Keys, s.txns[u]) && LinkOk(s.hist, u, s.txns[u]) && SettledOk(s.hist, s.txns[u])
    requires KnownOk(s.txns, s.hist, s.txns[u]) && ValidOk(s.init, s.hist, s.cells, s.txns[u])
    ensures ValidOk(s.init, NextHist(s, t, m), NextCells(s, t, m), s.txns[t := NextTxn(s, t, m)][u])
  {
    var y, y' := s.txns[u], s.txns[t := NextTxn(s, t, m)][u];
    forall k | k in y'.tags && Accepted(y', k) && (k in y'.marked || VersIn(NextCells(s, t, m), LockOf(k)) == y'.tags[k].vers)
      ensures y'.tags[k].seen == ValueAt(s.init, NextHist(s, t, m), y'.slot, k)
    {
      assert Accepted(y, k) && y.slot == y'.slot >= 0 && y.tags == y'.tags;
      assert k in ReadOnly(y.tags);
      ValueStands(s, t, m, u, k);
      NewVersion(s, t, m, Horizon(s.hist, y), k, y.tags[k].vers);
    }
  }

  lemma AcceptIsValid(s: State, t: Tid, m: Move)
    requires Shape(s) && Linked(s) && Locks(s) && Ordered(s) && Data(s) && Versions(s) && KnownReads(s) && FreshReads(s)
    requires t in s.txns && CanMove(s, t, m) && Accepts(s, t, m) && ValidOk(s.init, s.hist, s.cells, s.txns[t])
    ensures ValidOk(s.init, NextHist(s, t, m), NextCells(s, t, m), NextTxn(s, t, m))
  {
    SoundOf(s, t);
    AcceptFacts(s, t, m);
    var k := AcceptedKey(s, t, m);
    assert k in s.data && DataOk(s, k) && VersOk(s, k);
    assert FreshOk(s, s.txns[t]) && KnownOk(s.txns, s.hist, s.txns[t]);
    if VersIn(s.cells, LockOf(k)) == s.txns[t].tags[k].vers {
      CurrentReadIsSerial(s, t, k);
    }
  }

  lemma OtherIsValid(s: State, t: Tid, m: Move, u: Tid)
    requires Shape(s) && Linked(s) && Locks(s) && Ordered(s) && KnownReads(s) && Settled(s)
    requires t in s.txns && CanMove(s, t, m) && u in s.txns && (u == t ==> !Accepts(s, t, m))
    requires ValidOk(s.init, s.hist, s.cells, s.txns[u])
    ensures ValidOk(s.init, NextHist(s, t, m), NextCells(s, t, m), s.txns[t := NextTxn(s, t, m)][u])
  {
    SoundOf(s, t);
    SoundOf(s, u);
    assert KnownOk(s.txns, s.hist, s.txns[u]) && SettledOk(s.hist, s.txns[u]);
    ValidStep(s, t, m, u);
  }

  lemma ValidatedKept(s: State, t: Tid, m: Move)
    requires Shape(s) && Linked(s) && Locks(s) && Ordered(s) && Data(s) && Versions(s) && KnownReads(s) && FreshReads(s)
    requires Settled(s) && Validated(s) && t in s.txns && CanMove(s, t, m)
    ensures Validated(ApplyMove(s, t, m))
  {
    forall u | u in s.txns
      ensures ValidOk(s.init, NextHist(s, t, m), NextCells(s, t, m), s.txns[t := NextTxn(s, t, m)][u])
    {
      assert ValidOk(s.init, s.hist, s.cells, s.txns[u]);
      if u == t && Accepts(s, t, m) {
        AcceptIsValid(s, t, m);
      } else {
        OtherIsValid(s, t, m, u);
      }
    }
  }

  // ----- keys both read and written -----

  /** When the last lock has been taken, a current version means a current value. */
  lemma LockedReadIsCurrent(s: State, t: Tid, k: Key)
    requires Sound(s, t) && CanMove(s, t, LocksDone) && k in Written(s.txns[t].tags) && s.txns[t].tags[k].wasRead
    requires DataOk(s, k) && VersOk(s, k) && FreshOk(s, s.txns[t]) && s.txns[t].tags[k].vers == VersAt(s.hist, |s.hist|, k)
    ensures s.txns[t].tags[k].seen == ValueAt(s.init, s.hist, |s.hist|, k)
  {
    assert k in s.txns[t].held;
  }

  lemma UpdateStep(s: State, t: Tid, m: Move, u: Tid)
    requires Sound(s, t) && CanMove(s, t, m) && Sound(s, u) && UpdateOk(s.init, s.hist, s.txns[u])
    requires u == t ==> FreshOk(s, s.txns[t]) && forall k :: k in s.txns[t].tags ==> DataOk(s, k) && (k.Row? ==> VersOk(s, k))
    ensures UpdateOk(s.init, NextHist(s, t, m), s.txns[t := NextTxn(s, t, m)][u])
  {
    HistFrame(s, t, m);
    SameReplayUnlessPass(s, t, m);
    var y, y', h' := s.txns[u], s.txns[t := NextTxn(s, t, m)][u], NextHist(s, t, m);
    forall k | k in y'.tags && y'.tags[k].wasRead && y'.tags[k].hasWrite && y'.slot >= 0 && y'.tags[k].vers == VersAt(h', y'.slot, k)
      ensures y'.tags[k].seen == ValueAt(s.init, h', y'.slot, k)
    {
      assert y'.tags == y.tags && k in Written(y.tags);
      if u == t && m.LocksDone? {
        LockedReadIsCurrent(s, t, k);
      } else {
        PreimageStands(s, t, m, u, k);
      }
    }
  }

  lemma SameReplayUnlessPass(s: State, t: Tid, m: Move)
    requires Sound(s, t) && CanMove(s, t, m)
    ensures !m.Pass? ==> forall n, k :: n <= |s.hist| ==>
              ValueAt(s.init, NextHist(s, t, m), n, k) == ValueAt(s.init, s.hist, n, k)
              && VersAt(NextHist(s, t, m), n, k) == VersAt(s.hist, n, k)
  {
    HistFrame(s, t, m);
    if !m.Pass? {
      SameReplay(s.init, s.hist, NextHist(s, t, m));
    }
  }

  lemma UpdateKept(s: State, t: Tid, m: Move, u: Tid)
    requires Shape(s) && Linked(s) && Locks(s) && Ordered(s) && Data(s) && Versions(s) && FreshReads(s)
    requires t in s.txns && CanMove(s, t, m) && u in s.txns && UpdateOk(s.init, s.hist, s.txns[u])
    ensures UpdateOk(s.init, NextHist(s, t, m), s.txns[t := NextTxn(s, t, m)][u])
  {
    SoundOf(s, t);
    SoundOf(s, u);
    forall k | k in s.txns[t].tags
      ensures DataOk(s, k) && (k.Row? ==> VersOk(s, k))
    {
      assert k in s.data;
    }
    UpdateStep(s, t, m, u);
  }

  lemma UpdatesKept(s: State, t: Tid, m: Move)
    requires Shape(s) && Linked(s) && Locks(s) && Ordered(s) && Data(s) && Versions(s) && FreshReads(s) && Updates(s)
    requires t in s.txns && CanMove(s, t, m)
    ensures Updates(ApplyMove(s, t, m))
  {
    forall u | u in s.txns
      ensures UpdateOk(s.init, NextHist(s, t, m), s.txns[t := NextTxn(s, t, m)][u])
    {
      UpdateKept(s, t, m, u);
    }
  }

  // ----- the trace of reads -----

  lemma TracedKept(s: State, t: Tid, m: Move)
    requires Shape(s) && Traced(s) && t in s.txns && CanMove(s, t, m)
    ensures Traced(ApplyMove(s, t, m))
  {
    assert TxnOk(s.data.Keys, s.txns[t]) && TraceOk(s.txns[t]);
    NextTraceOk(s, t, m);
  }

  lemma NextTraceOk(s: State, t: Tid, m: Move)
    requires t in s.txns && CanMove(s, t, m) && PcOk(s.txns[t]) && TraceOk(s.txns[t])
    ensures TraceOk(NextTxn(s, t, m))
  {
    var x, x' := s.txns[t], NextTxn(s, t, m);
    if m.ReadData? {
      var n := |x.trace|;
      forall j | 0 <= j < |x'.trace|
        ensures var k := x'.trace[j].0;
                WasRead(x', k) && ((forall j' :: j < j' < |x'.trace| ==> x'.trace[j'].0 != k) ==> x'.tags[k].seen == x'.trace[j].1)
      {
        assert x'.trace[n].0 == x.pc.k;
        if j < n {
          assert x'.trace[j] == x.trace[j] && WasRead(x, x.trace[j].0);
          if forall j' :: j < j' < |x'.trace| ==> x'.trace[j'].0 != x'.trace[j].0 {
            assert forall j' :: j < j' < n ==> x.trace[j'] == x'.trace[j'];
          }
        }
      }
    }
  }
}
