/** What `add_dep` records of the installer before.  A piece that only read an object never
    installed it, so a writer that finds a reader's access info does not record the last installer,
    and one that finds no reader's does. */
module PipeScan {
  import opened PipeMachine
  import opened PipeInvariant
  import opened PipeWaits
  import opened PipeInstall

  /** The transaction is past rank `r`, or done with its piece of that rank, in which it touches
      `o` at most in the way `w` says. */
  predicate Took(x: Txn, o: Oid, r: nat, w: bool) {
    x.rank > r || (x.rank == r && x.stamped && (o in x.tags ==> x.tags[o] == w))
  }

  ghost predicate InLog(w: seq<Entry>, d: Tid) {
    exists i :: 0 <= i < |w| && w[i].t == d
  }

  ghost predicate InstallersOk(txns: map<Tid, Txn>, w: seq<Entry>, o: Oid, r: nat) {
    forall i :: 0 <= i < |w| ==> w[i].t in txns && Took(txns[w[i].t], o, r, true)
  }

  /** The reader whose access info an object has has not installed it. */
  ghost predicate VeilOk(s: State, o: Oid, r: nat)
    requires o in s.access && o in s.wlog
  {
    o in s.veiled ==>
      s.access[o] in s.txns && Took(s.txns[s.access[o]], o, r, false) && !InLog(s.wlog[o], s.access[o])
  }

  /** The same of one that a writer is looking at. */
  ghost predicate LookOk(s: State, t: Tid, o: Oid)
    requires t in s.txns && o in s.wlog
  {
    Looking(s.txns[t], o) && o in s.txns[t].hid ==> !InLog(s.wlog[o], s.txns[t].pc.d)
  }

  ghost predicate ReaderOk(s: State, o: Oid)
    requires KeysOk(s) && o in s.access
  {
    && o in s.rankOf && InstallersOk(s.txns, s.wlog[o], o, s.rankOf[o]) && VeilOk(s, o, s.rankOf[o])
    && forall t :: t in s.txns ==> LookOk(s, t, o)
  }

  ghost predicate ReaderInv(s: State) {
    KeysOk(s) && forall o :: o in s.access ==> ReaderOk(s, o)
  }

  lemma TookStep(s: State, t: Tid, m: Move, o: Oid, r: nat, w: bool)
    requires t in s.txns && CanMove(s, t, m) && ShapeOk(s.txns[t]) && Took(s.txns[t], o, r, w)
    ensures Took(NextTxn(s, t, m), o, r, w)
  {
    RankForward(s, t, m);
    if s.txns[t].stamped {
      TagsGrow(s, t, m);
    }
    hide NextTxn, CanMove;
  }

  lemma TagsGrow(s: State, t: Tid, m: Move)
    requires t in s.txns && CanMove(s, t, m) && StampOk(s.txns[t]) && s.txns[t].stamped
    ensures NextTxn(s, t, m).tags == s.txns[t].tags || NextTxn(s, t, m).tags == map[]
  {
    if !m.Touch? && !m.UnlockDone? {
      hide CanMove;
    }
  }

  /** A transaction in the middle of a piece took its objects as its tags say. */
  lemma TookByTag(x: Txn, o: Oid, rankOf: map<Oid, nat>)
    requires ShapeOk(x) && TagsOk(x, rankOf) && o in x.tags && (x.pc.Installing? || x.pc.Mark?)
    ensures x.rank == rankOf[o] && x.stamped
    ensures forall w :: Took(x, o, rankOf[o], w) <==> x.tags[o] == w
  {
  }

  lemma InstallersStep(s: State, t: Tid, m: Move, o: Oid)
    requires t in s.txns && CanMove(s, t, m) && ShapeOk(s.txns[t]) && TagsOk(s.txns[t], s.rankOf)
    requires o in s.wlog && o in s.rankOf && o in ApplyMove(s, t, m).wlog && InstallersOk(s.txns, s.wlog[o], o, s.rankOf[o])
    ensures InstallersOk(ApplyMove(s, t, m).txns, ApplyMove(s, t, m).wlog[o], o, s.rankOf[o])
  {
    LogGrows(s, t, m, o);
    if m == Install(o) {
      TookByTag(s.txns[t], o, s.rankOf);
    }
    hide NextTxn, CanMove, ShapeOk, TagsOk;
    var s' := ApplyMove(s, t, m);
    forall i | 0 <= i < |s'.wlog[o]| ensures s'.wlog[o][i].t in s'.txns && Took(s'.txns[s'.wlog[o][i].t], o, s.rankOf[o], true) {
      if s'.wlog[o][i].t == t {
        TookStep(s, t, m, o, s.rankOf[o], true);
      }
    }
  }

  /** Only these steps touch an object's access info. */
  lemma VeilMoves(s: State, t: Tid, m: Move, o: Oid)
    requires t in s.txns && CanMove(s, t, m) && o in s.access && o in ApplyMove(s, t, m).access
    ensures (m.SetAccess? && s.txns[t].pc == Mark(o))
         || (ApplyMove(s, t, m).access[o] == s.access[o] && (o in ApplyMove(s, t, m).veiled <==> o in s.veiled))
  {
  }

  lemma VeilSet(s: State, t: Tid, o: Oid)
    requires t in s.txns && CanMove(s, t, SetAccess) && ShapeOk(s.txns[t]) && TagsOk(s.txns[t], s.rankOf) && s.txns[t].pc == Mark(o)
    requires o in s.access && o in s.wlog && o in s.rankOf && InstallersOk(s.txns, s.wlog[o], o, s.rankOf[o])
    requires o in ApplyMove(s, t, SetAccess).access && o in ApplyMove(s, t, SetAccess).wlog
    ensures VeilOk(ApplyMove(s, t, SetAccess), o, s.rankOf[o])
  {
    TookByTag(s.txns[t], o, s.rankOf);
    if !s.txns[t].tags[o] {
      TookStep(s, t, SetAccess, o, s.rankOf[o], false);
    }
  }

  lemma VeilQuiet(s: State, t: Tid, m: Move, o: Oid)
    requires t in s.txns && CanMove(s, t, m) && ShapeOk(s.txns[t]) && TagsOk(s.txns[t], s.rankOf)
    requires o in s.access && o in s.wlog && o in s.rankOf && VeilOk(s, o, s.rankOf[o])
    requires o in ApplyMove(s, t, m).access && o in ApplyMove(s, t, m).wlog && !(m.SetAccess? && s.txns[t].pc == Mark(o))
    ensures VeilOk(ApplyMove(s, t, m), o, s.rankOf[o])
  {
    VeilMoves(s, t, m, o);
    LogGrows(s, t, m, o);
    if m == Install(o) {
      TookByTag(s.txns[t], o, s.rankOf);
    }
    if o in s.veiled && s.access[o] == t {
      TookStep(s, t, m, o, s.rankOf[o], false);
    }
    hide NextTxn, CanMove, ShapeOk, TagsOk, Took;
  }

  lemma VeilStep(s: State, t: Tid, m: Move, o: Oid)
    requires t in s.txns && CanMove(s, t, m) && ShapeOk(s.txns[t]) && TagsOk(s.txns[t], s.rankOf)
    requires o in s.access && o in s.wlog && o in s.rankOf && VeilOk(s, o, s.rankOf[o]) && InstallersOk(s.txns, s.wlog[o], o, s.rankOf[o])
    requires o in ApplyMove(s, t, m).access && o in ApplyMove(s, t, m).wlog
    ensures VeilOk(ApplyMove(s, t, m), o, s.rankOf[o])
  {
    if m.SetAccess? && s.txns[t].pc == Mark(o) {
      VeilSet(s, t, o);
    } else {
      VeilQuiet(s, t, m, o);
    }
  }

  lemma LookNew(s: State, t: Tid, o: Oid)
    requires t in s.txns && CanMove(s, t, LoadAccess(o)) && TagsOk(s.txns[t], s.rankOf) && o in s.wlog && o in s.rankOf
    requires VeilOk(s, o, s.rankOf[o])
    ensures LookOk(ApplyMove(s, t, LoadAccess(o)), t, o)
  {
  }

  lemma LookOther(s: State, t: Tid, m: Move, u: Tid, o: Oid)
    requires t in s.txns && CanMove(s, t, m) && LocksOk(s) && TagsOk(s.txns[t], s.rankOf)
    requires u in s.txns && u != t && TagsOk(s.txns[u], s.rankOf) && o in s.wlog && o in ApplyMove(s, t, m).wlog && LookOk(s, u, o)
    ensures LookOk(ApplyMove(s, t, m), u, o)
  {
    var x := s.txns[u];
    if Looking(x, o) {
      assert o in Written(x) && o in x.held;
      assert HeldBy(s, o, u);
      if ApplyMove(s, t, m).wlog[o] != s.wlog[o] {
        OnlyOwnerInstalls(s, t, m, o);
        assert false;
      }
    }
  }

  lemma LookStep(s: State, t: Tid, m: Move, u: Tid, o: Oid)
    requires t in s.txns && CanMove(s, t, m) && Inv(s) && LocksOk(s) && ReaderInv(s)
    requires u in s.txns && o in s.access && o in ApplyMove(s, t, m).wlog
    ensures LookOk(ApplyMove(s, t, m), u, o)
  {
    assert TagsOk(s.txns[t], s.rankOf) && TagsOk(s.txns[u], s.rankOf) && ReaderOk(s, o) && LookOk(s, u, o);
    hide Inv, TagsOk, NextTxn;
    if u != t {
      LookOther(s, t, m, u, o);
    } else if m == LoadAccess(o) {
      LookNew(s, t, o);
    } else {
      LookingStarts(s, t, m, o);
    }
  }

  lemma ReaderStep(s: State, t: Tid, m: Move, o: Oid)
    requires t in s.txns && CanMove(s, t, m) && Inv(s) && LocksOk(s) && ReaderInv(s)
    requires o in s.access && KeysOk(ApplyMove(s, t, m)) && o in ApplyMove(s, t, m).access
    ensures ReaderOk(ApplyMove(s, t, m), o)
  {
    var s' := ApplyMove(s, t, m);
    assert RecordOk(s.txns[t], s.clock) && TagsOk(s.txns[t], s.rankOf) && ReaderOk(s, o);
    hide Inv, TagsOk, NextTxn, CanMove, InstallersOk, VeilOk, LookOk;
    InstallersStep(s, t, m, o);
    VeilStep(s, t, m, o);
    forall u | u in s'.txns ensures LookOk(s', u, o) {
      LookStep(s, t, m, u, o);
    }
  }

  lemma ReaderInvStep(s: State, t: Tid, m: Move)
    requires t in s.txns && CanMove(s, t, m) && Inv(s) && LocksOk(s) && ReaderInv(s)
    ensures ReaderInv(ApplyMove(s, t, m))
  {
    assert TagsOk(s.txns[t], s.rankOf);
    KeysStep(s, t, m);
    hide Inv, TagsOk, NextTxn, CanMove, LocksOk;
    var s' := ApplyMove(s, t, m);
    forall o | o in s'.access ensures ReaderOk(s', o) {
      assert o in s'.rankOf.Keys && o in s.access.Keys;
      ReaderStep(s, t, m, o);
    }
  }

  lemma {:induction false} RunKeepsReaderInv(s: State, es: seq<Action>)
    requires Inv(s) && InstallInv(s) && ReaderInv(s) && CanRun(s, es)
    ensures ReaderInv(Run(s, es))
    decreases |es|
  {
    if es != [] {
      InvStep(s, es[0].t, es[0].m);
      InstallInvStep(s, es[0].t, es[0].m);
      ReaderInvStep(s, es[0].t, es[0].m);
      RunKeepsReaderInv(ApplyMove(s, es[0].t, es[0].m), es[1..]);
    }
  }

  lemma ReaderInvInit(s: State)
    requires Init(s)
    ensures ReaderInv(s)
  {
    forall o | o in s.access ensures ReaderOk(s, o) {
      assert o in s.owner.Keys && o in s.rankOf.Keys;
    }
  }

  lemma ReachableReaderInv(s: State)
    requires Reachable(s)
    ensures ReaderInv(s)
  {
    var s0, es :| Init(s0) && CanRun(s0, es) && Run(s0, es) == s;
    InvInit(s0);
    InstallInvInit(s0);
    ReaderInvInit(s0);
    RunKeepsReaderInv(s0, es);
  }

  lemma LookFacts(s: State, t: Tid, o: Oid)
    requires Reachable(s) && t in s.txns && o in s.wlog && Looking(s.txns[t], o)
    ensures ScanOk(s, t, o)
    ensures o in s.txns[t].hid ==> !InLog(s.wlog[o], s.txns[t].pc.d)
  {
    ReachableInstallInv(s);
    ReachableReaderInv(s);
    assert o in s.access && ObjectOk(s, o) && ReaderOk(s, o);
    assert LookOk(s, t, o);
  }

  lemma RecordsWhatItSees(s: State, t: Tid, a: Tid)
    requires t in s.txns && CanMove(s, t, AddDep) && s.txns[t].tags[s.txns[t].pc.o] && a !in s.txns[t].deps
    ensures a in NextTxn(s, t, AddDep).deps <==> a == s.txns[t].pc.d && a != t && !HasCommit(s.txns, a)
  {
  }

  /** When a writer comes to decide about an object whose last installer is uncommitted and not a
      dependency yet, that installer becomes one if and only if the access info found there had not
      been left by a piece that only read. */
  lemma RecordsInstallerIff(s: State, t: Tid, o: Oid)
    requires Reachable(s) && t in s.txns && CanMove(s, t, AddDep) && Looking(s.txns[t], o) && o in s.wlog && s.wlog[o] != []
    requires var a := LastT(s.wlog[o]); a !in s.txns[t].deps && !HasCommit(s.txns, a)
    ensures LastT(s.wlog[o]) in NextTxn(s, t, AddDep).deps <==> o !in s.txns[t].hid
  {
    var a := LastT(s.wlog[o]);
    LookFacts(s, t, o);
    RecordsWhatItSees(s, t, a);
    assert s.wlog[o][|s.wlog[o]| - 1].t == a;
    assert InLog(s.wlog[o], a);
    hide NextTxn, CanMove, Reachable;
  }
}
