/** Every move keeps the undo log and the durable copy of the data sufficient for recovery. */
module OccDurability {
  import opened OccMachine
  import opened OccInvariant
  import opened OccHistory
  import opened OccStructure
  import opened OccData

  lemma LoggedFrame(s: State, t: Tid, m: Move)
    requires t in s.txns && CanMove(s, t, m) && PcOk(s.txns[t])
    ensures var x, x' := s.txns[t], NextTxn(s, t, m);
            && x'.logged == (if m.LogPre? then x.logged + {m.k} else x.logged)
            && (x.logged != {} ==> x'.slot == x.slot)
  {
  }

  lemma RecKept(s: State, t: Tid, m: Move, e: LogRec)
    requires Sound(s, t) && CanMove(s, t, m) && e.tid in s.txns && Sound(s, e.tid) && RecOk(s.init, s.hist, s.txns, e)
    ensures RecOk(s.init, NextHist(s, t, m), s.txns[t := NextTxn(s, t, m)], e)
  {
    LoggedFrame(s, t, m);
    PreimageStands(s, t, m, e.tid, e.key);
  }

  /** What `make_log` saves is the value before the attempt. */
  lemma LogIsPreimage(s: State, t: Tid, k: Key)
    requires Sound(s, t) && CanMove(s, t, LogPre(k)) && DataOk(s, k)
    ensures s.data[k] == ValueAt(s.init, s.hist, s.txns[t].slot, k)
  {
    assert k in s.txns[t].held;
  }

  lemma LoggedStep(s: State, t: Tid, m: Move, u: Tid)
    requires Sound(s, t) && CanMove(s, t, m) && Sound(s, u) && LoggedOk(s.init, s.hist, s.log, u, s.txns[u])
    requires m.LogPre? ==> DataOk(s, m.k)
    ensures LoggedOk(s.init, NextHist(s, t, m), ApplyMove(s, t, m).log, u, s.txns[t := NextTxn(s, t, m)][u])
  {
    LoggedFrame(s, t, m);
    var y, y', log' := s.txns[u], s.txns[t := NextTxn(s, t, m)][u], ApplyMove(s, t, m).log;
    forall k | k in y'.logged
      ensures LogRec(u, k, ValueAt(s.init, NextHist(s, t, m), y'.slot, k)) in log'
    {
      if k in y.logged {
        PreimageStands(s, t, m, u, k);
        assert LogRec(u, k, ValueAt(s.init, s.hist, y.slot, k)) in s.log;
      } else {
        LogIsPreimage(s, t, k);
        assert log'[|s.log|] == LogRec(t, k, s.data[k]);
      }
    }
  }

  lemma RecStep(s: State, t: Tid, m: Move, e: LogRec)
    requires Shape(s) && Linked(s) && Locks(s) && Ordered(s) && Data(s) && t in s.txns && CanMove(s, t, m)
    requires e in ApplyMove(s, t, m).log && (e in s.log ==> RecOk(s.init, s.hist, s.txns, e))
    ensures RecOk(s.init, NextHist(s, t, m), s.txns[t := NextTxn(s, t, m)], e)
  {
    SoundOf(s, t);
    if e in s.log {
      SoundOf(s, e.tid);
      RecKept(s, t, m, e);
    } else {
      NewRecord(s, t, m, e);
    }
  }

  lemma NewRecord(s: State, t: Tid, m: Move, e: LogRec)
    requires Sound(s, t) && CanMove(s, t, m) && (m.LogPre? ==> DataOk(s, m.k))
    requires e in ApplyMove(s, t, m).log && e !in s.log
    ensures RecOk(s.init, NextHist(s, t, m), s.txns[t := NextTxn(s, t, m)], e)
  {
    assert m.LogPre?;
    LogIsPreimage(s, t, m.k);
    LoggedFrame(s, t, m);
  }

  lemma AllLogged(s: State, t: Tid, m: Move, u: Tid)
    requires Shape(s) && Linked(s) && Locks(s) && Ordered(s) && Data(s) && Logged(s) && t in s.txns && CanMove(s, t, m)
    requires u in s.txns
    ensures LoggedOk(s.init, NextHist(s, t, m), ApplyMove(s, t, m).log, u, s.txns[t := NextTxn(s, t, m)][u])
  {
    SoundOf(s, t);
    SoundOf(s, u);
    LoggedStep(s, t, m, u);
  }

  lemma AllRecords(s: State, t: Tid, m: Move, e: LogRec)
    requires Shape(s) && Linked(s) && Locks(s) && Ordered(s) && Data(s) && Logged(s) && t in s.txns && CanMove(s, t, m)
    requires e in ApplyMove(s, t, m).log
    ensures RecOk(s.init, NextHist(s, t, m), s.txns[t := NextTxn(s, t, m)], e)
  {
    RecStep(s, t, m, e);
  }

  lemma LoggedKept(s: State, t: Tid, m: Move)
    requires Shape(s) && Linked(s) && Locks(s) && Ordered(s) && Data(s) && Logged(s) && t in s.txns && CanMove(s, t, m)
    ensures Logged(ApplyMove(s, t, m))
  {
    var s' := ApplyMove(s, t, m);
    forall u | u in s'.txns ensures LoggedOk(s'.init, s'.hist, s'.log, u, s'.txns[u]) {
      AllLogged(s, t, m, u);
    }
    forall e | e in s'.log ensures RecOk(s'.init, s'.hist, s'.txns, e) {
      AllRecords(s, t, m, e);
    }
  }

  lemma StoreAndFlush(s: State, t: Tid, m: Move)
    requires t in s.txns && CanMove(s, t, m) && PcOk(s.txns[t])
    ensures m.Store? ==> IsWriting(s.txns[t]) && m.k !in s.txns[t].flushed
    ensures m.Flush? || m.Record? ==> IsWriting(s.txns[t]) && s.txns[t].stored <= Written(s.txns[t].tags)
    ensures m.Pass? ==> !IsWriting(s.txns[t]) && NextTxn(s, t, m).stored == {}
  {
  }

  lemma UnflushedFrame(s: State, t: Tid, m: Move, k: Key)
    requires t in s.txns && CanMove(s, t, m) && PcOk(s.txns[t])
    ensures var x, x' := s.txns[t], NextTxn(s, t, m);
            if m.Store? && m.k == k then Unflushed(x', k)
            else if (m.Flush? && m.k == k) || m.Record? then !Unflushed(x', k) && (m.Record? ==> !Unflushed(x, k))
            else Unflushed(x', k) == Unflushed(x, k)
  {
    WritingMoves(s, t, m);
    if IsWriting(s.txns[t]) {
      WritingFrame(s, t, m);
    }
    StoreAndFlush(s, t, m);
    hide NextTxn, CanMove;
  }

  lemma StaysUnflushed(s: State, t: Tid, m: Move, k: Key)
    requires Sound(s, t) && CanMove(s, t, m) && !((m.Flush? || m.Evict?) && m.k == k)
    requires var w := Owner(s, k); w in s.txns && Unflushed(s.txns[w], k)
    ensures Owner(ApplyMove(s, t, m), k) == Owner(s, k) && Unflushed(s.txns[t := NextTxn(s, t, m)][Owner(s, k)], k)
  {
    OwnerFrame(s, t, m, LockOf(k));
    UnflushedFrame(s, t, m, k);
  }

  lemma DurableStep(s: State, t: Tid, m: Move, k: Key)
    requires Sound(s, t) && CanMove(s, t, m) && DurableOk(s, k)
    ensures DurableOk(ApplyMove(s, t, m), k)
  {
    if m.Store? && m.k == k {
      assert k in s.txns[t].held;
      UnflushedFrame(s, t, m, k);
    } else if !((m.Flush? || m.Evict?) && m.k == k) && Owner(s, k) in s.txns && Unflushed(s.txns[Owner(s, k)], k) {
      StaysUnflushed(s, t, m, k);
    }
  }

  lemma DurableKept(s: State, t: Tid, m: Move)
    requires Shape(s) && Linked(s) && Locks(s) && Ordered(s) && Durable(s) && t in s.txns && CanMove(s, t, m)
    ensures Durable(ApplyMove(s, t, m))
  {
    SoundOf(s, t);
    forall k | k in s.data
      ensures DurableOk(ApplyMove(s, t, m), k)
    {
      DurableStep(s, t, m, k);
    }
  }
}
