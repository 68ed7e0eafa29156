/** What every step of the piece pipeline keeps. */
module PipeInvariant {
  import opened PipeMachine

  // ----- one transaction by itself -----

  predicate Running(pc: Pc) {
    pc.Exec? || pc.Locking? || pc.Checking? || pc.Scanning? || pc.Seen? || pc.Installing? || pc.Mark? || pc.Unlocking?
  }

  /** The write locks are all taken and none is released. */
  predicate HoldsAll(pc: Pc) {
    pc.Checking? || pc.Scanning? || pc.Seen? || pc.Installing? || pc.Mark?
  }

  /** The current piece has not yet decided to install. */
  predicate Undecided(pc: Pc) {
    pc.Exec? || pc.Locking? || pc.Checking? || pc.Scanning? || pc.Seen? || (pc.Unlocking? && pc.retry)
  }

  predicate Waiting(pc: Pc) {
    pc.WaitStart? || pc.WaitCommit? || pc.WaitPersist?
  }

  predicate ShapeOk(x: Txn) {
    ProgressOk(x) && StampOk(x) && FlagsOk(x)
  }

  /** Where the transaction is among its pieces. */
  predicate ProgressOk(x: Txn) {
    && Increasing(x.pieces) && x.next <= |x.pieces|
    && x.passed <= x.deps
    && (x.next == 0 ==> x.rank == 0 && x.deps == {} && !Running(x.pc) && !x.pc.Aborting?)
    && (x.next > 0 ==> x.rank == x.pieces[x.next - 1])
    && (x.pc.WaitStart? ==> x.next < |x.pieces|)
  }

  predicate StampOk(x: Txn) {
    x.stamped <==> x.next > 0 && !Undecided(x.pc)
  }

  predicate FlagsOk(x: Txn) {
    && (x.committed <==> x.pc.WaitPersist? || x.pc.Aborting? || x.pc.Finished?)
    && (x.persisted <==> x.pc.Finished?)
    && (x.aborted ==> x.committed)
    && (x.pc.Aborting? ==> x.aborted)
    && (x.pc.WaitPersist? ==> !x.aborted)
  }

  predicate TagsOk(x: Txn, rankOf: map<Oid, nat>) {
    && (forall o :: o in x.tags ==> o in rankOf && rankOf[o] == x.rank)
    && (!Running(x.pc) ==> x.tags == map[])
    && x.held <= Written(x)
    && (HoldsAll(x.pc) ==> Written(x) <= x.held)
    && (x.pc.Exec? ==> x.held == {})
    && (x.pc.Seen? ==> x.pc.o in x.tags && x.pc.o !in x.scanned)
    && (x.pc.Mark? ==> x.pc.o in x.tags && x.pc.o !in x.installed)
    && (x.pc.Installing? || x.pc.Mark? ==> x.tags.Keys <= x.scanned)
    && (x.pc.Scanning? || x.pc.Seen? ==> x.installed == {})
    && (x.pc.Scanning? ==> x.hid <= x.scanned)
    && (x.pc.Seen? ==> x.hid <= x.scanned + {x.pc.o})
  }

  /** The steps of a piece up to its decision, and those after it; a proof takes them apart. */
  predicate Deciding(m: Move) {
    m.Touch? || m.TryCommit? || m.Lock? || m.LockFail? || m.LocksDone? || m.CheckPass? || m.CheckFail? || m.LoadAccess? || m.AddDep?
  }

  predicate WrappingUp(m: Move) {
    m.Install? || m.SetAccess? || m.InstallDone? || m.Unlock? || m.UnlockDone?
  }

  lemma ProgressStart(s: State, t: Tid)
    requires t in s.txns && CanMove(s, t, StartPiece) && ProgressOk(s.txns[t])
    ensures ProgressOk(NextTxn(s, t, StartPiece))
  {
  }

  lemma PieceStays(s: State, t: Tid, m: Move)
    requires t in s.txns && CanMove(s, t, m) && !m.StartPiece?
    ensures NextTxn(s, t, m).pieces == s.txns[t].pieces
    ensures NextTxn(s, t, m).next == s.txns[t].next
    ensures NextTxn(s, t, m).rank == s.txns[t].rank
  {
    hide CanMove;
    if Deciding(m) {
    } else if WrappingUp(m) {
    }
  }

  /** Which steps lead where. */
  lemma PcMoves(s: State, t: Tid, m: Move)
    requires t in s.txns && CanMove(s, t, m) && !m.StartPiece?
    ensures Running(NextTxn(s, t, m).pc) ==> Running(s.txns[t].pc)
    ensures NextTxn(s, t, m).pc.Aborting? ==> s.txns[t].pc.Aborting? || s.txns[t].next > 0
    ensures NextTxn(s, t, m).pc.WaitStart? ==> s.txns[t].pc.WaitStart? || s.txns[t].next < |s.txns[t].pieces|
  {
    if m.NextPiece? {
    } else if m.EarlyAbort? {
    } else if m.UnlockDone? {
    } else {
      assert NextTxn(s, t, m).pc == s.txns[t].pc || !NextTxn(s, t, m).pc.WaitStart?;
    }
  }

  lemma DepsMove(s: State, t: Tid, m: Move)
    requires t in s.txns && CanMove(s, t, m) && !m.AddDep? && s.txns[t].passed <= s.txns[t].deps
    ensures NextTxn(s, t, m).passed <= NextTxn(s, t, m).deps == s.txns[t].deps
  {
    if m.PassStart? {
    } else if m.PassCommit? {
    } else if m.PassPersist? {
    } else {
      hide CanMove;
    }
  }

  lemma ProgressStep(s: State, t: Tid, m: Move)
    requires t in s.txns && CanMove(s, t, m) && ProgressOk(s.txns[t])
    ensures ProgressOk(NextTxn(s, t, m))
  {
    if m.StartPiece? {
      ProgressStart(s, t);
    } else {
      PieceStays(s, t, m);
      PcMoves(s, t, m);
      if !m.AddDep? {
        DepsMove(s, t, m);
        hide NextTxn, CanMove, Running, Increasing;
      }
    }
  }

  lemma UndecidedMoves(s: State, t: Tid, m: Move)
    requires t in s.txns && CanMove(s, t, m) && !m.StartPiece? && !m.ScanDone? && (Running(s.txns[t].pc) ==> s.txns[t].next > 0)
    ensures s.txns[t].next > 0 ==> (Undecided(NextTxn(s, t, m).pc) <==> Undecided(s.txns[t].pc))
  {
    if Deciding(m) {
    } else if WrappingUp(m) {
    }
  }

  lemma StampStep(s: State, t: Tid, m: Move)
    requires t in s.txns && CanMove(s, t, m) && ProgressOk(s.txns[t]) && StampOk(s.txns[t])
    ensures StampOk(NextTxn(s, t, m))
  {
    if !m.StartPiece? && !m.ScanDone? {
      PieceStays(s, t, m);
      StampSame(s, t, m);
      UndecidedMoves(s, t, m);
      hide NextTxn, CanMove, Undecided, ProgressOk;
    }
  }

  /** Only four steps set a flag. */
  predicate SetsFlag(m: Move) {
    m.EarlyAbort? || m.AbortPersist? || m.Commit? || m.Persist?
  }

  lemma FlagsStay(s: State, t: Tid, m: Move)
    requires t in s.txns && CanMove(s, t, m) && !SetsFlag(m)
    ensures NextTxn(s, t, m).committed == s.txns[t].committed && NextTxn(s, t, m).aborted == s.txns[t].aborted
    ensures NextTxn(s, t, m).persisted == s.txns[t].persisted && NextTxn(s, t, m).ctime == s.txns[t].ctime
  {
    hide CanMove;
    if Deciding(m) {
    } else if WrappingUp(m) {
    }
  }

  lemma EndingStays(s: State, t: Tid, m: Move)
    requires t in s.txns && CanMove(s, t, m) && !SetsFlag(m)
    ensures var pc, pc' := s.txns[t].pc, NextTxn(s, t, m).pc;
            pc' == pc || !(pc.WaitPersist? || pc.Aborting? || pc.Finished? || pc'.WaitPersist? || pc'.Aborting? || pc'.Finished?)
  {
    if Deciding(m) {
    } else if WrappingUp(m) {
    }
  }

  lemma FlagsStep(s: State, t: Tid, m: Move)
    requires t in s.txns && CanMove(s, t, m) && FlagsOk(s.txns[t])
    ensures FlagsOk(NextTxn(s, t, m))
  {
    if !SetsFlag(m) {
      FlagsStay(s, t, m);
      EndingStays(s, t, m);
      hide NextTxn, CanMove;
    }
  }

  lemma ShapeStep(s: State, t: Tid, m: Move)
    requires t in s.txns && CanMove(s, t, m) && ShapeOk(s.txns[t])
    ensures ShapeOk(NextTxn(s, t, m))
  {
    ProgressStep(s, t, m);
    StampStep(s, t, m);
    FlagsStep(s, t, m);
  }

  lemma TagsStep(s: State, t: Tid, m: Move)
    requires t in s.txns && CanMove(s, t, m) && ShapeOk(s.txns[t]) && TagsOk(s.txns[t], s.rankOf)
    ensures TagsOk(NextTxn(s, t, m), s.rankOf)
  {
    var x, y := s.txns[t], NextTxn(s, t, m);
    if m.Touch? {
      assert x.held == {};
    } else if m.Unlock? || m.Lock? || m.LockFail? {
      assert Written(y) == Written(x);
    } else if y.tags == x.tags {
      assert Written(y) == Written(x);
    }
  }

  // ----- the order behind the waits -----

  /** The transaction has left rank `r`, or is done with its piece of that rank. */
  predicate Past(x: Txn, r: nat) {
    x.rank > r || (x.rank == r && x.stamped)
  }

  /** `a` is ahead of `b`: at a higher rank, or at the same rank and decided first. */
  predicate Before(a: Txn, b: Txn) {
    a.rank > b.rank || (a.rank == b.rank && a.stamped && (b.stamped ==> a.stamp < b.stamp))
  }

  /** What a recorded dependency of `x` on `d` stands for as both move on. */
  predicate EdgeOk(d: Txn, x: Txn) {
    && (!x.committed ==> d.committed || Before(d, x))
    && (x.committed && !x.aborted ==> d.committed && d.ctime < x.ctime)
    && (x.persisted && !x.aborted ==> d.persisted)
  }

  /** What a wait loop of `x` that is done with `d` may rely on. */
  predicate PassedOk(d: Txn, x: Txn) {
    && (x.pc.WaitStart? && x.next < |x.pieces| ==> d.committed || d.rank > x.pieces[x.next])
    && (x.pc.WaitCommit? ==> d.committed)
    && (x.pc.WaitPersist? ==> d.persisted)
  }

  predicate ClockOk(x: Txn, clock: nat) {
    (x.stamped ==> x.stamp < clock) && (x.committed ==> x.ctime < clock)
  }

  predicate RecordOk(x: Txn, clock: nat) {
    ShapeOk(x) && ClockOk(x, clock)
  }

  /** Whoever is recorded as the last to access an object is past that object's rank. */
  predicate AccessOk(d: Tid, txns: map<Tid, Txn>, r: nat) {
    d == 0 || (d in txns && (txns[d].committed || Past(txns[d], r)))
  }

  ghost predicate TxnsOk(s: State) {
    0 !in s.txns && forall t :: t in s.txns ==> RecordOk(s.txns[t], s.clock)
  }

  ghost predicate AllTagsOk(s: State) {
    forall t :: t in s.txns ==> TagsOk(s.txns[t], s.rankOf)
  }

  ghost predicate DepsKnown(s: State) {
    forall t, d :: t in s.txns && d in s.txns[t].deps ==> d in s.txns && d != t
  }

  ghost predicate EdgesOk(s: State) {
    forall t, d :: t in s.txns && d in s.txns[t].deps && d in s.txns ==> EdgeOk(s.txns[d], s.txns[t])
  }

  ghost predicate PassedAllOk(s: State) {
    forall t, d :: t in s.txns && d in s.txns[t].passed && d in s.txns ==> PassedOk(s.txns[d], s.txns[t])
  }

  predicate KeysOk(s: State) {
    s.owner.Keys == s.access.Keys == s.rankOf.Keys == s.wlog.Keys
  }

  ghost predicate AccessesOk(s: State) {
    && KeysOk(s)
    && (forall o :: o in s.access && o in s.rankOf ==> AccessOk(s.access[o], s.txns, s.rankOf[o]))
  }

  ghost predicate SeenOk(s: State) {
    forall t :: t in s.txns && s.txns[t].pc.Seen? ==> AccessOk(s.txns[t].pc.d, s.txns, s.txns[t].rank)
  }

  ghost predicate Inv(s: State) {
    && TxnsOk(s) && AllTagsOk(s) && DepsKnown(s) && EdgesOk(s) && PassedAllOk(s) && AccessesOk(s) && SeenOk(s)
  }

  lemma ClockStep(s: State, t: Tid, m: Move)
    requires t in s.txns && CanMove(s, t, m) && ClockOk(s.txns[t], s.clock)
    ensures ClockOk(NextTxn(s, t, m), ApplyMove(s, t, m).clock) && s.clock <= ApplyMove(s, t, m).clock
  {
  }

  lemma TxnsStep(s: State, t: Tid, m: Move)
    requires t in s.txns && CanMove(s, t, m) && TxnsOk(s)
    ensures TxnsOk(ApplyMove(s, t, m))
  {
    assert RecordOk(s.txns[t], s.clock);
    ShapeStep(s, t, m);
    ClockStep(s, t, m);
    var s' := ApplyMove(s, t, m);
    forall u | u in s'.txns && u != t ensures RecordOk(s'.txns[u], s'.clock) {
      assert RecordOk(s.txns[u], s.clock);
    }
  }

  lemma AllTagsStep(s: State, t: Tid, m: Move)
    requires t in s.txns && CanMove(s, t, m) && TxnsOk(s) && AllTagsOk(s)
    ensures AllTagsOk(ApplyMove(s, t, m))
  {
    assert RecordOk(s.txns[t], s.clock);
    TagsStep(s, t, m);
  }

  lemma RankForward(s: State, t: Tid, m: Move)
    requires t in s.txns && CanMove(s, t, m) && ShapeOk(s.txns[t])
    ensures var x, y := s.txns[t], NextTxn(s, t, m);
            x.rank <= y.rank && (x.rank == y.rank && x.stamped ==> y.stamped && y.stamp == x.stamp)
  {
    if m.StartPiece? {
      RankRises(s.txns[t]);
    } else {
      StampForward(s, t, m);
    }
  }

  lemma RankRises(x: Txn)
    requires ShapeOk(x) && x.next < |x.pieces|
    ensures x.stamped ==> x.rank < x.pieces[x.next]
    ensures x.rank <= x.pieces[x.next]
  {
    assert x.next > 0 ==> x.pieces[x.next - 1] < x.pieces[x.next];
  }

  lemma StampSame(s: State, t: Tid, m: Move)
    requires t in s.txns && CanMove(s, t, m) && !m.StartPiece? && !m.ScanDone?
    ensures NextTxn(s, t, m).rank == s.txns[t].rank
    ensures NextTxn(s, t, m).stamped == s.txns[t].stamped
    ensures NextTxn(s, t, m).stamp == s.txns[t].stamp
  {
    hide CanMove;
    if Deciding(m) {
    } else if WrappingUp(m) {
    }
  }

  lemma StampForward(s: State, t: Tid, m: Move)
    requires t in s.txns && CanMove(s, t, m) && StampOk(s.txns[t]) && !m.StartPiece?
    ensures var x, y := s.txns[t], NextTxn(s, t, m);
            y.rank == x.rank && (x.stamped ==> y.stamped && y.stamp == x.stamp)
  {
    if m.ScanDone? {
      assert Undecided(s.txns[t].pc);
    } else {
      StampSame(s, t, m);
      hide NextTxn, CanMove;
    }
  }

  /** A transaction only moves forward, so what holds of it for others keeps holding. */
  lemma Forward(s: State, t: Tid, m: Move)
    requires t in s.txns && CanMove(s, t, m) && RecordOk(s.txns[t], s.clock)
    ensures var x, y := s.txns[t], NextTxn(s, t, m);
            && x.rank <= y.rank && (x.committed ==> y.committed && y.ctime == x.ctime && y.aborted == x.aborted)
            && (!x.committed && y.committed ==> y.ctime == s.clock) && (x.persisted ==> y.persisted) && x.deps <= y.deps
            && (x.rank == y.rank && x.stamped ==> y.stamped && y.stamp == x.stamp)
            && (forall r :: Past(x, r) ==> Past(y, r))
  {
    RankForward(s, t, m);
    FlagsForward(s, t, m);
    DepsForward(s, t, m);
    hide NextTxn, CanMove, RecordOk;
  }

  lemma DepsForward(s: State, t: Tid, m: Move)
    requires t in s.txns && CanMove(s, t, m)
    ensures s.txns[t].deps <= NextTxn(s, t, m).deps
  {
    hide CanMove;
    if Deciding(m) {
    } else if WrappingUp(m) {
    }
  }

  lemma FlagsForward(s: State, t: Tid, m: Move)
    requires t in s.txns && CanMove(s, t, m) && FlagsOk(s.txns[t])
    ensures var x, y := s.txns[t], NextTxn(s, t, m);
            && (x.committed ==> y.committed && y.ctime == x.ctime && y.aborted == x.aborted)
            && (!x.committed && y.committed ==> y.ctime == s.clock) && (x.persisted ==> y.persisted)
  {
    if !SetsFlag(m) {
      FlagsStay(s, t, m);
      hide NextTxn, CanMove;
    }
  }

  /** The step of somebody's dependency keeps the edge. */
  lemma EdgeTo(s: State, t: Tid, m: Move, x: Txn)
    requires t in s.txns && CanMove(s, t, m) && RecordOk(s.txns[t], s.clock)
    requires EdgeOk(s.txns[t], x)
    ensures EdgeOk(NextTxn(s, t, m), x)
  {
    Forward(s, t, m);
  }

  lemma EdgeStart(s: State, t: Tid, m: Move, d: Tid)
    requires m.StartPiece?
    requires t in s.txns && CanMove(s, t, m) && RecordOk(s.txns[t], s.clock)
    requires d in s.txns && d != t && RecordOk(s.txns[d], s.clock)
    requires d in s.txns[t].deps && EdgeOk(s.txns[d], s.txns[t])
    requires d in s.txns[t].passed ==> PassedOk(s.txns[d], s.txns[t])
    ensures EdgeOk(s.txns[d], NextTxn(s, t, m))
  {
    var x := s.txns[t];
    assert x.next > 0 ==> x.pieces[x.next - 1] < x.pieces[x.next];
    assert d in x.passed;
  }

  lemma EdgeCommit(s: State, t: Tid, m: Move, d: Tid)
    requires m.Commit? || m.Persist? || m.EarlyAbort? || m.AbortPersist?
    requires t in s.txns && CanMove(s, t, m) && RecordOk(s.txns[t], s.clock)
    requires d in s.txns && d != t && RecordOk(s.txns[d], s.clock)
    requires d in s.txns[t].deps && EdgeOk(s.txns[d], s.txns[t])
    requires d in s.txns[t].passed ==> PassedOk(s.txns[d], s.txns[t])
    ensures EdgeOk(s.txns[d], NextTxn(s, t, m))
  {
  }

  lemma EdgeQuiet(s: State, t: Tid, m: Move, d: Tid)
    requires !(m.StartPiece? || m.Commit? || m.Persist? || m.EarlyAbort? || m.AbortPersist?)
    requires t in s.txns && CanMove(s, t, m) && RecordOk(s.txns[t], s.clock)
    requires d in s.txns && d != t && RecordOk(s.txns[d], s.clock)
    requires d in s.txns[t].deps && EdgeOk(s.txns[d], s.txns[t])
    requires d in s.txns[t].passed ==> PassedOk(s.txns[d], s.txns[t])
    ensures EdgeOk(s.txns[d], NextTxn(s, t, m))
  {
  }

  /** The step of a transaction keeps the edges it has. */
  lemma EdgeFrom(s: State, t: Tid, m: Move, d: Tid)
    requires t in s.txns && CanMove(s, t, m) && RecordOk(s.txns[t], s.clock)
    requires d in s.txns && d != t && RecordOk(s.txns[d], s.clock)
    requires d in s.txns[t].deps && EdgeOk(s.txns[d], s.txns[t])
    requires d in s.txns[t].passed ==> PassedOk(s.txns[d], s.txns[t])
    ensures EdgeOk(s.txns[d], NextTxn(s, t, m))
  {
    if m.StartPiece? {
      EdgeStart(s, t, m, d);
    } else if m.Commit? || m.Persist? || m.EarlyAbort? || m.AbortPersist? {
      EdgeCommit(s, t, m, d);
    } else {
      EdgeQuiet(s, t, m, d);
    }
    hide *;
  }

  /** A dependency that `add_dep` records is ahead. */
  lemma EdgeNew(s: State, t: Tid, d: Tid)
    requires t in s.txns && CanMove(s, t, AddDep) && RecordOk(s.txns[t], s.clock)
    requires d in NextTxn(s, t, AddDep).deps && d !in s.txns[t].deps
    requires AccessOk(s.txns[t].pc.d, s.txns, s.txns[t].rank) && 0 !in s.txns
    ensures d in s.txns && d != t && EdgeOk(s.txns[d], NextTxn(s, t, AddDep))
  {
  }

  lemma DepsOnlyGrowAtAddDep(s: State, t: Tid, m: Move, d: Tid)
    requires t in s.txns && CanMove(s, t, m)
    ensures d in NextTxn(s, t, m).deps && d !in s.txns[t].deps ==> m.AddDep?
  {
  }

  lemma EdgeStep(s: State, t: Tid, m: Move, u: Tid, d: Tid)
    requires t in s.txns && CanMove(s, t, m) && TxnsOk(s) && DepsKnown(s) && EdgesOk(s) && PassedAllOk(s) && SeenOk(s)
    requires u in s.txns && d in ApplyMove(s, t, m).txns[u].deps
    ensures d in s.txns && d != u && EdgeOk(ApplyMove(s, t, m).txns[d], ApplyMove(s, t, m).txns[u])
  {
    assert RecordOk(s.txns[t], s.clock);
    if u == t && d !in s.txns[t].deps {
      DepsOnlyGrowAtAddDep(s, t, m, d);
      EdgeNew(s, t, d);
    } else if u == t {
      assert RecordOk(s.txns[d], s.clock);
      EdgeFrom(s, t, m, d);
    } else if d == t {
      EdgeTo(s, t, m, s.txns[u]);
    }
  }

  lemma EdgesStep(s: State, t: Tid, m: Move)
    requires t in s.txns && CanMove(s, t, m) && Inv(s)
    ensures DepsKnown(ApplyMove(s, t, m)) && EdgesOk(ApplyMove(s, t, m))
  {
    var s' := ApplyMove(s, t, m);
    forall u, d | u in s'.txns && d in s'.txns[u].deps
      ensures d in s'.txns && d != u && EdgeOk(s'.txns[d], s'.txns[u])
    {
      EdgeStep(s, t, m, u, d);
    }
  }

  lemma PassedMore(s: State, t: Tid, m: Move, d: Tid)
    requires t in s.txns && CanMove(s, t, m) && d in s.txns
    requires m.PassStart? || m.PassCommit? || m.PassPersist?
    requires d in s.txns[t].passed ==> PassedOk(s.txns[d], s.txns[t])
    ensures d in NextTxn(s, t, m).passed ==> PassedOk(s.txns[d], NextTxn(s, t, m))
  {
  }

  lemma PassedReset(s: State, t: Tid, m: Move)
    requires t in s.txns && CanMove(s, t, m)
    requires !(m.PassStart? || m.PassCommit? || m.PassPersist?)
    ensures Waiting(NextTxn(s, t, m).pc) ==> NextTxn(s, t, m).passed == {}
  {
  }

  lemma PassedTo(s: State, t: Tid, m: Move, x: Txn)
    requires t in s.txns && CanMove(s, t, m) && RecordOk(s.txns[t], s.clock)
    requires PassedOk(s.txns[t], x)
    ensures PassedOk(NextTxn(s, t, m), x)
  {
    Forward(s, t, m);
  }

  lemma PassedStep(s: State, t: Tid, m: Move, u: Tid, d: Tid)
    requires t in s.txns && CanMove(s, t, m) && TxnsOk(s) && DepsKnown(s) && PassedAllOk(s)
    requires u in s.txns && d in s.txns && d in ApplyMove(s, t, m).txns[u].passed
    requires d != u
    ensures PassedOk(ApplyMove(s, t, m).txns[d], ApplyMove(s, t, m).txns[u])
  {
    if u == t {
      if m.PassStart? || m.PassCommit? || m.PassPersist? {
        PassedMore(s, t, m, d);
      } else {
        PassedReset(s, t, m);
      }
    } else if d == t {
      assert RecordOk(s.txns[t], s.clock);
      PassedTo(s, t, m, s.txns[u]);
    }
  }

  lemma PassedAllStep(s: State, t: Tid, m: Move)
    requires t in s.txns && CanMove(s, t, m) && Inv(s)
    ensures PassedAllOk(ApplyMove(s, t, m))
  {
    var s' := ApplyMove(s, t, m);
    TxnsStep(s, t, m);
    EdgesStep(s, t, m);
    forall u, d | u in s'.txns && d in s'.txns[u].passed && d in s'.txns
      ensures PassedOk(s'.txns[d], s'.txns[u])
    {
      assert RecordOk(s'.txns[u], s'.clock);
      PassedStep(s, t, m, u, d);
    }
  }

  lemma AccessKept(s: State, t: Tid, m: Move, d: Tid, r: nat)
    requires t in s.txns && CanMove(s, t, m) && RecordOk(s.txns[t], s.clock)
    requires AccessOk(d, s.txns, r)
    ensures AccessOk(d, ApplyMove(s, t, m).txns, r)
  {
    Forward(s, t, m);
  }

  lemma AccessStep(s: State, t: Tid, m: Move, o: Oid)
    requires t in s.txns && CanMove(s, t, m) && RecordOk(s.txns[t], s.clock) && TagsOk(s.txns[t], s.rankOf)
    requires o in s.access && o in s.rankOf && AccessOk(s.access[o], s.txns, s.rankOf[o])
    ensures var s' := ApplyMove(s, t, m); o in s'.access && AccessOk(s'.access[o], s'.txns, s.rankOf[o])
  {
    if m.SetAccess? && s.txns[t].pc.o == o {
    } else {
      AccessKept(s, t, m, s.access[o], s.rankOf[o]);
    }
  }

  lemma KeysStep(s: State, t: Tid, m: Move)
    requires t in s.txns && CanMove(s, t, m) && KeysOk(s) && TagsOk(s.txns[t], s.rankOf)
    ensures KeysOk(ApplyMove(s, t, m))
  {
    var x := s.txns[t];
    hide NextTxn;
    if m.Unlock? {
      assert m.o in Written(x) && m.o in s.rankOf.Keys;
    } else if m.SetAccess? {
      assert x.pc.o in s.rankOf.Keys;
    }
  }

  lemma AccessesStep(s: State, t: Tid, m: Move)
    requires t in s.txns && CanMove(s, t, m) && Inv(s)
    ensures AccessesOk(ApplyMove(s, t, m))
  {
    var s' := ApplyMove(s, t, m);
    var x := s.txns[t];
    assert RecordOk(x, s.clock) && TagsOk(x, s.rankOf);
    KeysStep(s, t, m);
    forall o | o in s'.access && o in s'.rankOf ensures AccessOk(s'.access[o], s'.txns, s'.rankOf[o]) {
      AccessStep(s, t, m, o);
    }
  }

  lemma SeenStep(s: State, t: Tid, m: Move)
    requires t in s.txns && CanMove(s, t, m) && Inv(s)
    ensures SeenOk(ApplyMove(s, t, m))
  {
    var s' := ApplyMove(s, t, m);
    var x := s.txns[t];
    assert RecordOk(x, s.clock) && TagsOk(x, s.rankOf);
    forall u | u in s'.txns && s'.txns[u].pc.Seen? ensures AccessOk(s'.txns[u].pc.d, s'.txns, s'.txns[u].rank) {
      if u == t {
        SeenNew(s, t, m);
      } else {
        AccessKept(s, t, m, s.txns[u].pc.d, s.txns[u].rank);
      }
    }
  }

  lemma SeenNew(s: State, t: Tid, m: Move)
    requires t in s.txns && CanMove(s, t, m) && RecordOk(s.txns[t], s.clock) && TagsOk(s.txns[t], s.rankOf)
    requires AccessesOk(s) && NextTxn(s, t, m).pc.Seen?
    ensures var s' := ApplyMove(s, t, m); AccessOk(s'.txns[t].pc.d, s'.txns, s'.txns[t].rank)
  {
    assert m.LoadAccess?;
    AccessKept(s, t, m, s.access[m.o], s.rankOf[m.o]);
  }

  lemma InvStep(s: State, t: Tid, m: Move)
    requires t in s.txns && CanMove(s, t, m) && Inv(s)
    ensures Inv(ApplyMove(s, t, m))
  {
    TxnsStep(s, t, m);
    AllTagsStep(s, t, m);
    EdgesStep(s, t, m);
    PassedAllStep(s, t, m);
    AccessesStep(s, t, m);
    SeenStep(s, t, m);
  }

  lemma InvInit(s: State)
    requires Init(s)
    ensures Inv(s)
  {
  }

  lemma {:induction false} RunKeepsInv(s: State, es: seq<Action>)
    requires Inv(s) && CanRun(s, es)
    ensures Inv(Run(s, es))
    decreases |es|
  {
    if es != [] {
      InvStep(s, es[0].t, es[0].m);
      RunKeepsInv(ApplyMove(s, es[0].t, es[0].m), es[1..]);
    }
  }

  lemma ReachableInv(s: State)
    requires Reachable(s)
    ensures Inv(s)
  {
    var s0, es :| Init(s0) && CanRun(s0, es) && Run(s0, es) == s;
    InvInit(s0);
    RunKeepsInv(s0, es);
  }
}
