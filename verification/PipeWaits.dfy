/** The busy-waits of the pipeline: they never deadlock, dependencies never form a cycle, and
    nobody overtakes a transaction it follows. */
module PipeWaits {
  import opened PipeMachine
  import opened PipeInvariant
  import FiniteSets

  // ----- the order -----

  /** `d` comes before `x` for good: by commit once `x` is committed, by rank until then. */
  predicate Precedes(d: Txn, x: Txn) {
    if x.committed then d.committed && d.ctime < x.ctime else d.committed || Before(d, x)
  }

  lemma PrecedesIsStrictOrder(a: Txn, b: Txn, c: Txn)
    ensures !Precedes(a, a)
    ensures Precedes(a, b) && Precedes(b, c) ==> Precedes(a, c)
  {
  }

  lemma DependencyPrecedes(s: State, t: Tid, d: Tid)
    requires Reachable(s) && t in s.txns && d in s.txns[t].deps && !s.txns[t].aborted
    ensures d in s.txns && d != t && Precedes(s.txns[d], s.txns[t])
  {
    ReachableInv(s);
    assert EdgeOk(s.txns[d], s.txns[t]);
  }

  // ----- cycles -----

  /** `c` leads from its first transaction to its last, each depending on the next one. */
  ghost predicate Chain(s: State, c: seq<Tid>) {
    && |c| > 0 && (forall i :: 0 <= i < |c| ==> c[i] in s.txns)
    && (forall i :: 0 < i < |c| ==> c[i] in s.txns[c[i - 1]].deps)
  }

  lemma {:induction false} ChainPrecedes(s: State, c: seq<Tid>)
    requires Reachable(s) && Chain(s, c) && |c| > 1
    requires forall i :: 0 <= i < |c| - 1 ==> !s.txns[c[i]].aborted
    ensures Precedes(s.txns[c[|c| - 1]], s.txns[c[0]])
    decreases |c|
  {
    var n := |c| - 1;
    DependencyPrecedes(s, c[n - 1], c[n]);
    if n > 1 {
      ChainPrecedes(s, c[..n]);
      PrecedesIsStrictOrder(s.txns[c[n]], s.txns[c[n - 1]], s.txns[c[0]]);
    }
  }

  /** Recorded dependencies are acyclic, except through a transaction that gave up. */
  lemma DependenciesAreAcyclic(s: State, c: seq<Tid>)
    requires Reachable(s) && Chain(s, c) && |c| > 1 && c[0] == c[|c| - 1]
    ensures exists i :: 0 <= i < |c| && s.txns[c[i]].aborted
  {
    if forall i :: 0 <= i < |c| ==> !s.txns[c[i]].aborted {
      ChainPrecedes(s, c);
      PrecedesIsStrictOrder(s.txns[c[0]], s.txns[c[0]], s.txns[c[0]]);
    }
  }

  // ----- deadlock -----

  /** A wait loop of `t` is stuck on dependency `d`. */
  predicate BlockedBy(s: State, t: Tid, d: Tid)
    requires t in s.txns
  {
    var x := s.txns[t];
    && d in x.deps
    && match x.pc
       case WaitStart => x.next < |x.pieces| && !HasCommit(s.txns, d) && !HasStarted(s.txns, d, x.pieces[x.next])
       case WaitCommit => !HasCommit(s.txns, d)
       case WaitPersist => !HasPersist(s.txns, d)
       case _ => false
  }

  ghost predicate Blocked(s: State, t: Tid)
    requires t in s.txns
  {
    exists d :: BlockedBy(s, t, d)
  }

  lemma BlockerPrecedes(s: State, t: Tid, d: Tid)
    requires Reachable(s) && t in s.txns && BlockedBy(s, t, d)
    ensures d in s.txns && !s.txns[d].pc.Finished? && Precedes(s.txns[d], s.txns[t])
  {
    ReachableInv(s);
    assert RecordOk(s.txns[t], s.clock);
    assert RecordOk(s.txns[d], s.clock);
    assert EdgeOk(s.txns[d], s.txns[t]);
  }

  ghost function Ahead(s: State, t: Tid): set<Tid>
    requires t in s.txns
  {
    set u | u in s.txns && Precedes(s.txns[u], s.txns[t])
  }

  lemma AheadShrinks(s: State, d: Tid, t: Tid)
    requires d in s.txns && t in s.txns && Precedes(s.txns[d], s.txns[t])
    ensures |Ahead(s, d)| < |Ahead(s, t)|
  {
    forall u | u in Ahead(s, d) ensures u in Ahead(s, t) {
      PrecedesIsStrictOrder(s.txns[u], s.txns[d], s.txns[t]);
    }
    PrecedesIsStrictOrder(s.txns[d], s.txns[d], s.txns[d]);
    assert d in Ahead(s, t) && d !in Ahead(s, d);
    FiniteSets.SmallerSet(Ahead(s, d), Ahead(s, t), d);
  }

  /** Behind every unfinished transaction, itself or something it waits for can move on. */
  lemma {:induction false} NoDeadlock(s: State, t: Tid) returns (u: Tid)
    requires Reachable(s) && t in s.txns && !s.txns[t].pc.Finished?
    ensures u in s.txns && !s.txns[u].pc.Finished? && !Blocked(s, u)
    ensures u == t || Precedes(s.txns[u], s.txns[t])
    decreases |Ahead(s, t)|
  {
    if !Blocked(s, t) {
      u := t;
    } else {
      var d :| BlockedBy(s, t, d);
      BlockerPrecedes(s, t, d);
      AheadShrinks(s, d, t);
      u := NoDeadlock(s, d);
      PrecedesIsStrictOrder(s.txns[u], s.txns[d], s.txns[t]);
    }
  }

  lemma WaitCanMove(s: State, t: Tid) returns (m: Move)
    requires t in s.txns && ShapeOk(s.txns[t]) && Waiting(s.txns[t].pc) && !Blocked(s, t)
    ensures CanMove(s, t, m) && NextTxn(s, t, m) != s.txns[t]
  {
    var x := s.txns[t];
    if x.deps <= x.passed {
      m := if x.pc.WaitStart? then StartPiece else if x.pc.WaitCommit? then Commit else Persist;
    } else {
      var d :| d in x.deps && d !in x.passed;
      assert !BlockedBy(s, t, d);
      m := if x.pc.WaitStart? then PassStart(d) else if x.pc.WaitCommit? then PassCommit(d) else PassPersist(d);
    }
  }

  lemma PieceCanMove(s: State, t: Tid) returns (m: Move)
    requires t in s.txns && ShapeOk(s.txns[t]) && TagsOk(s.txns[t], s.rankOf) && KeysOk(s) && Running(s.txns[t].pc)
    ensures CanMove(s, t, m) && NextTxn(s, t, m) != s.txns[t]
  {
    var x := s.txns[t];
    match x.pc
    case Locking =>
      if Written(x) <= x.held {
        m := LocksDone;
      } else {
        var o :| o in Written(x) && o !in x.held;
        assert o in s.rankOf.Keys;
        m := if s.owner[o] == 0 then Lock(o) else LockFail(o);
      }
    case Scanning =>
      if x.tags.Keys <= x.scanned {
        m := ScanDone;
      } else {
        var o :| o in x.tags && o !in x.scanned;
        assert o in s.rankOf.Keys;
        m := LoadAccess(o);
      }
    case Installing =>
      if x.tags.Keys <= x.installed {
        m := InstallDone;
      } else {
        var o :| o in x.tags && o !in x.installed;
        assert o in s.rankOf.Keys;
        m := Install(o);
      }
    case Unlocking(_) =>
      if x.held == {} {
        m := UnlockDone;
      } else {
        var o :| o in x.held;
        m := Unlock(o);
      }
    case _ =>
      m := if x.pc.Exec? then TryCommit else if x.pc.Checking? then CheckPass else if x.pc.Seen? then AddDep else SetAccess;
  }

  /** A transaction that is not blocked in a wait has a step that changes it. */
  lemma UnblockedCanMove(s: State, t: Tid) returns (m: Move)
    requires Reachable(s) && t in s.txns && !s.txns[t].pc.Finished? && !Blocked(s, t)
    ensures CanMove(s, t, m) && NextTxn(s, t, m) != s.txns[t]
  {
    ReachableInv(s);
    var x := s.txns[t];
    assert RecordOk(x, s.clock) && TagsOk(x, s.rankOf);
    if Waiting(x.pc) {
      m := WaitCanMove(s, t);
    } else if Running(x.pc) {
      m := PieceCanMove(s, t);
    } else {
      m := if x.pc.Aborting? then AbortPersist else if x.next < |x.pieces| then NextPiece else EndPieces;
    }
  }

  // ----- closure of commit and persistence -----

  // The loops test one dependency at a time, but when they end all the tests hold at once.

  lemma StartWaitHolds(s: State, t: Tid, d: Tid)
    requires Reachable(s) && t in s.txns && d in s.txns[t].deps && CanMove(s, t, StartPiece)
    ensures HasCommit(s.txns, d) || HasStarted(s.txns, d, s.txns[t].pieces[s.txns[t].next])
  {
    PassedMeans(s, t, d);
  }

  lemma CommitWaitHolds(s: State, t: Tid, d: Tid)
    requires Reachable(s) && t in s.txns && d in s.txns[t].deps && CanMove(s, t, Commit)
    ensures HasCommit(s.txns, d)
  {
    PassedMeans(s, t, d);
  }

  lemma PersistWaitHolds(s: State, t: Tid, d: Tid)
    requires Reachable(s) && t in s.txns && d in s.txns[t].deps && CanMove(s, t, Persist)
    ensures HasPersist(s.txns, d)
  {
    PassedMeans(s, t, d);
  }

  lemma PassedMeans(s: State, t: Tid, d: Tid)
    requires Reachable(s) && t in s.txns && d in s.txns[t].deps
    ensures d in s.txns && (d in s.txns[t].passed ==> PassedOk(s.txns[d], s.txns[t]))
  {
    ReachableInv(s);
  }

  /** A transaction that did not give up is committed only after all it follows, and durable
      only when all it follows are. */
  lemma CommitAndPersistAreClosed(s: State, t: Tid, d: Tid)
    requires Reachable(s) && t in s.txns && d in s.txns[t].deps && !s.txns[t].aborted
    ensures s.txns[t].committed ==> HasCommit(s.txns, d) && d in s.txns && s.txns[d].ctime < s.txns[t].ctime
    ensures s.txns[t].persisted ==> HasPersist(s.txns, d)
  {
    ReachableInv(s);
    assert EdgeOk(s.txns[d], s.txns[t]);
  }

  lemma StepMovesForward(s: State, t: Tid, m: Move)
    requires Reachable(s) && t in s.txns && CanMove(s, t, m)
    ensures var x, y := s.txns[t], NextTxn(s, t, m);
            && x.rank <= y.rank && x.deps <= y.deps && (x.persisted ==> y.persisted)
            && (x.committed ==> y.committed && y.ctime == x.ctime && y.aborted == x.aborted)
  {
    ReachableInv(s);
    assert RecordOk(s.txns[t], s.clock);
    Forward(s, t, m);
  }

  /** Flags, ranks, dependencies and commit times only move forward, over any run. */
  lemma {:induction false} RunsMoveForward(s: State, es: seq<Action>, t: Tid)
    requires Reachable(s) && CanRun(s, es) && t in s.txns
    ensures t in Run(s, es).txns
    ensures var x, y := s.txns[t], Run(s, es).txns[t];
            && x.rank <= y.rank && x.deps <= y.deps && (x.persisted ==> y.persisted)
            && (x.committed ==> y.committed && y.ctime == x.ctime && y.aborted == x.aborted)
    decreases |es|
  {
    if es != [] {
      var s' := ApplyMove(s, es[0].t, es[0].m);
      StepMovesForward(s, es[0].t, es[0].m);
      ReachableStep(s, es[0].t, es[0].m);
      hide Reachable, NextTxn, CanMove;
      RunsMoveForward(s', es[1..], t);
    }
  }

  lemma ReachableStep(s: State, t: Tid, m: Move)
    requires Reachable(s) && t in s.txns && CanMove(s, t, m)
    ensures Reachable(ApplyMove(s, t, m))
  {
    var s0, es :| Init(s0) && CanRun(s0, es) && Run(s0, es) == s;
    RunThen(s0, es, Action(t, m));
    assert CanRun(s0, es + [Action(t, m)]) && Run(s0, es + [Action(t, m)]) == ApplyMove(s, t, m);
  }

  lemma {:induction false} RunThen(s: State, es: seq<Action>, a: Action)
    requires CanRun(s, es) && a.t in Run(s, es).txns && CanMove(Run(s, es), a.t, a.m)
    ensures CanRun(s, es + [a]) && Run(s, es + [a]) == ApplyMove(Run(s, es), a.t, a.m)
    decreases |es|
  {
    if es == [] {
      assert es + [a] == [a] && [a][1..] == [];
      assert CanRun(ApplyMove(s, a.t, a.m), []);
    } else {
      assert (es + [a])[0] == es[0] && (es + [a])[1..] == es[1..] + [a];
      RunThen(ApplyMove(s, es[0].t, es[0].m), es[1..], a);
    }
  }

  /** Some run takes `a` to `b`. */
  ghost predicate LeadsTo(a: State, b: State) {
    exists es :: CanRun(a, es) && Run(a, es) == b
  }

  lemma {:induction false} RunConcat(s: State, es: seq<Action>, fs: seq<Action>)
    requires CanRun(s, es) && CanRun(Run(s, es), fs)
    ensures CanRun(s, es + fs) && Run(s, es + fs) == Run(Run(s, es), fs)
    decreases |es|
  {
    if es == [] {
      assert es + fs == fs;
    } else {
      assert (es + fs)[0] == es[0] && (es + fs)[1..] == es[1..] + fs;
      RunConcat(ApplyMove(s, es[0].t, es[0].m), es[1..], fs);
    }
  }

  lemma LeadsFurther(a: State, b: State, c: State)
    requires LeadsTo(a, b) && LeadsTo(b, c)
    ensures LeadsTo(a, c)
  {
    var es :| CanRun(a, es) && Run(a, es) == b;
    var fs :| CanRun(b, fs) && Run(b, fs) == c;
    RunConcat(a, es, fs);
  }

  lemma LeadsToSelf(s: State)
    ensures LeadsTo(s, s)
  {
    assert CanRun(s, []) && Run(s, []) == s;
  }

  lemma LeadsByStep(s: State, t: Tid, m: Move)
    requires t in s.txns && CanMove(s, t, m)
    ensures LeadsTo(s, ApplyMove(s, t, m))
  {
    var es := [Action(t, m)];
    assert es[1..] == [] && CanRun(ApplyMove(s, t, m), []);
    assert CanRun(s, es) && Run(s, es) == ApplyMove(s, t, m);
  }

  lemma {:induction false} SameTxns(s: State, es: seq<Action>)
    requires CanRun(s, es)
    ensures Run(s, es).txns.Keys == s.txns.Keys
    decreases |es|
  {
    if es != [] {
      SameTxns(ApplyMove(s, es[0].t, es[0].m), es[1..]);
    }
  }

  /** So a test that a wait makes stays passed. */
  lemma TestsStayPassed(a: State, b: State, d: Tid, r: nat)
    requires Reachable(a) && LeadsTo(a, b)
    ensures a.txns.Keys == b.txns.Keys
    ensures HasCommit(a.txns, d) ==> HasCommit(b.txns, d)
    ensures HasPersist(a.txns, d) ==> HasPersist(b.txns, d)
    ensures HasStarted(a.txns, d, r) ==> HasStarted(b.txns, d, r)
  {
    var es :| CanRun(a, es) && Run(a, es) == b;
    SameTxns(a, es);
    if d in a.txns {
      RunsMoveForward(a, es, d);
    }
  }

  // ----- no overtaking -----

  /** Along any chain of dependencies the last transaction stays ahead of the first: committed,
      at a higher rank, or at the same rank and decided earlier. */
  lemma NoOvertaking(s: State, c: seq<Tid>)
    requires Reachable(s) && Chain(s, c) && |c| > 1
    requires forall i :: 0 <= i < |c| - 1 ==> !s.txns[c[i]].aborted
    ensures var first, last := s.txns[c[0]], s.txns[c[|c| - 1]];
            last.committed || (!first.committed && Before(last, first))
  {
    ChainPrecedes(s, c);
  }

  /** The first transaction of a chain starts a piece of rank `r` only when the last has
      committed or is past rank `r`. */
  lemma StartsBehindChain(s: State, c: seq<Tid>)
    requires Reachable(s) && Chain(s, c) && |c| > 1 && CanMove(s, c[0], StartPiece)
    requires forall i :: 0 <= i < |c| - 1 ==> !s.txns[c[i]].aborted
    ensures var x := s.txns[c[0]];
            s.txns[c[|c| - 1]].committed || s.txns[c[|c| - 1]].rank > x.pieces[x.next]
  {
    StartWaitHolds(s, c[0], c[1]);
    if |c| > 2 {
      assert Chain(s, c[1..]);
      NoOvertaking(s, c[1..]);
      var d := s.txns[c[1]];
      ReachableInv(s);
      assert RecordOk(d, s.clock);
    } else {
      assert c[1] in s.txns;
    }
  }
}
