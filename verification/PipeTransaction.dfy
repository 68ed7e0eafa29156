/** `TransactionParOCC` as a program.  Its methods take the steps of `PipeMachine` one at a time,
    with any steps of the other transactions in between, and go through tags and dependencies in
    any order.  A busy-wait polls as often as its caller asks and says whether it is over. */
module PipeTransaction {
  import opened PipeMachine
  import opened PipeInvariant
  import opened PipeWaits
  import opened PipeInstall

  /** What a transaction may rely on between its steps. */
  lemma Standing(s: State, t: Tid)
    requires Reachable(s) && t in s.txns
    ensures ShapeOk(s.txns[t]) && TagsOk(s.txns[t], s.rankOf) && KeysOk(s) && t !in s.txns[t].deps
  {
    ReachableInv(s);
    assert RecordOk(s.txns[t], s.clock);
  }

  class TransactionParOCC {
    const me: Tid
    const others: nat -> seq<Action>   // what the others do after each step of this one
    var s: State                       // shared memory, and how far everybody is
    var clock: nat

    ghost predicate Valid()
      reads this
    {
      Reachable(s) && me in s.txns
    }

    function Me(): Txn
      reads this
      requires me in s.txns
    {
      s.txns[me]
    }

    /** The others take no steps. */
    ghost predicate Alone() {
      forall n :: others(n) == []
    }

    constructor (me: Tid, others: nat -> seq<Action>, s: State)
      requires Reachable(s) && me in s.txns
      ensures Valid() && this.me == me && this.s == s
    {
      this.me, this.others, this.s, clock := me, others, s, 0;
    }

    /** The others take those of their next steps that they can. */
    method Interfere()
      requires Valid()
      modifies this
      ensures Valid() && Me() == old(Me()) && LeadsTo(old(s), s) && (Alone() ==> s == old(s))
    {
      hide LeadsTo, Reachable, NextTxn;
      clock := clock + 1;
      var acts := others(clock);
      ghost var s0 := s;
      LeadsToSelf(s);
      for i := 0 to |acts|
        invariant Valid() && Me() == old(Me()) && LeadsTo(s0, s) && (acts == [] ==> s == s0)
      {
        var t, m := acts[i].t, acts[i].m;
        if t != me && t in s.txns && CanMove(s, t, m) {
          ReachableStep(s, t, m);
          LeadsByStep(s, t, m);
          LeadsFurther(s0, s, ApplyMove(s, t, m));
          s := ApplyMove(s, t, m);
        }
      }
    }

    /** One atomic step of this transaction, and then some of the others. */
    method Step(m: Move)
      requires Valid() && CanMove(s, me, m)
      modifies this
      ensures Valid() && Me() == old(NextTxn(s, me, m)) && LeadsTo(old(s), s)
      ensures Alone() ==> s == old(ApplyMove(s, me, m))
    {
      hide LeadsTo, Reachable;
      ReachableStep(s, me, m);
      LeadsByStep(s, me, m);
      ghost var s0 := s;
      s := ApplyMove(s, me, m);
      ghost var s1 := s;
      Interfere();
      LeadsFurther(s0, s1, s);
    }

    /** `o` is to be locked, and another transaction has its lock. */
    ghost predicate IsTaken(at: State, o: Oid) {
      && me in at.txns && at.txns[me].pc.Locking? && o in Written(at.txns[me]) && o !in at.txns[me].held
      && o in at.owner && at.owner[o] != me && at.owner[o] in at.txns && o in at.txns[at.owner[o]].held
    }

    /** So is some object of the attempt with these tags. */
    ghost predicate LostLock(at: State, tags: map<Oid, bool>) {
      me in at.txns && at.txns[me].tags == tags && exists o :: IsTaken(at, o)
    }

    lemma TakenByAnother(s: State, o: Oid)
      requires Reachable(s) && me in s.txns && s.txns[me].pc.Locking? && o in Written(s.txns[me]) && o !in s.txns[me].held
      requires o in s.owner && s.owner[o] != 0
      ensures LostLock(s, s.txns[me].tags)
    {
      ReachableInstallInv(s);
      assert IsTaken(s, o);
    }

    /** Nobody has the lock of an object of `os`. */
    ghost predicate AllFree(owner: map<Oid, Tid>, os: set<Oid>) {
      forall o :: o in os ==> o in owner && owner[o] == 0
    }

    /** `lock`: the write set, in any order; the first lock that is taken ends it, and that is one of
        another transaction, as it was at `at`. */
    method Lock() returns (ok: bool, ghost at: State)
      requires Valid() && Me().pc.Locking?
      modifies this
      ensures Valid() && Me() == old(Me()).(pc := if ok then Checking else Unlocking(true), held := Me().held)
      ensures LeadsTo(old(s), at) && LeadsTo(at, s)
      ensures !ok ==> LostLock(at, Me().tags)
      ensures Alone() ==> (ok <==> AllFree(old(s).owner, Written(Me()) - old(Me().held)))
    {
      hide LeadsTo, Reachable, LostLock;
      ghost var s0 := s;
      at := s;
      LeadsToSelf(s);
      while !(Written(Me()) <= Me().held)
        invariant Valid() && Me() == old(Me()).(held := Me().held) && LeadsTo(s0, s)
        invariant Alone() ==> Taken(s0, s, old(Me().held), Me().held)
        decreases Written(Me()) - Me().held
      {
        var o :| o in Written(Me()) && o !in Me().held;
        ghost var s1 := s;
        LockKeeps(s0, s, old(Me().held), o);
        ok := LockTag(o);
        LeadsFurther(s0, s1, s);
        if !ok {
          at := s1;
          return;
        }
      }
      ghost var s2 := s;
      LockEnds(s0, s, old(Me()).held);
      Step(LocksDone);
      LeadsFurther(s0, s2, s);
      ok := true;
    }

    /** From `a` on the locks of `more` but not `held` have been taken, and were free. */
    ghost predicate Taken(a: State, b: State, held: set<Oid>, more: set<Oid>) {
      && held <= more && (forall o :: o in more - held ==> o in a.owner && a.owner[o] == 0)
      && (forall o :: o !in more ==> (o in a.owner <==> o in b.owner) && (o in a.owner ==> a.owner[o] == b.owner[o]))
    }

    lemma LockKeeps(a: State, b: State, held: set<Oid>, o: Oid)
      requires Reachable(b) && me in b.txns && o in Written(b.txns[me]) - b.txns[me].held
      ensures o in b.owner
      ensures Taken(a, b, held, b.txns[me].held) ==>
                if b.owner[o] == 0 then forall s: State :: s.owner == b.owner[o := me] ==> Taken(a, s, held, b.txns[me].held + {o})
                else !AllFree(a.owner, Written(b.txns[me]) - held)
    {
      Standing(b, me);
      assert o in b.rankOf.Keys;
    }

    lemma LockEnds(a: State, b: State, held: set<Oid>)
      requires me in b.txns
      ensures Taken(a, b, held, b.txns[me].held) && Written(b.txns[me]) <= b.txns[me].held ==> AllFree(a.owner, Written(b.txns[me]) - held)
    {
    }

    method LockTag(o: Oid) returns (ok: bool)
      requires Valid() && Me().pc.Locking? && o in Written(Me()) && o !in Me().held && o in s.owner
      modifies this
      ensures Valid() && Me() == (if ok then old(Me()).(held := old(Me()).held + {o}) else old(Me()).(pc := Unlocking(true)))
      ensures LeadsTo(old(s), s) && (ok <==> old(s.owner[o]) == 0)
      ensures !ok ==> LostLock(old(s), old(Me()).tags)
      ensures Alone() && ok ==> s.owner == old(s.owner)[o := me]
    {
      hide LeadsTo, Reachable, ApplyMove, LostLock;
      ok := s.owner[o] == 0;
      if ok {
        AfterLock(s, o);
        Step(PipeMachine.Lock(o));
      } else {
        TakenByAnother(s, o);
        Step(LockFail(o));
      }
    }

    lemma AfterLock(s: State, o: Oid)
      requires me in s.txns && CanMove(s, me, PipeMachine.Lock(o))
      ensures ApplyMove(s, me, PipeMachine.Lock(o)).owner == s.owner[o := me]
    {
    }

    /** `check`, whose outcome for the read-only tags is given. */
    method Check(current: bool) returns (ok: bool)
      requires Valid() && Me().pc.Checking?
      modifies this
      ensures Valid() && (ok <==> current || Written(Me()) == Me().tags.Keys) && LeadsTo(old(s), s)
      ensures Me() == if ok then old(Me()).(pc := Scanning, scanned := {}, installed := {}, hid := {}) else old(Me()).(pc := Unlocking(true))
    {
      hide LeadsTo, Reachable, ApplyMove;
      ok := current || Written(Me()) == Me().tags.Keys;
      Step(if ok then CheckPass else CheckFail);
    }

    /** `add_dep`: the last accessor of each object, in any order.  If nobody else moves, it adds the
        uncommitted ones of the objects that are written. */
    method AddDeps()
      requires Valid() && Me().pc.Scanning? && Me().scanned == {}
      modifies this
      ensures Valid() && Me() == old(Me()).(scanned := Me().scanned, deps := Me().deps, hid := Me().hid)
      ensures Me().tags.Keys <= Me().scanned && old(Me()).deps <= Me().deps && LeadsTo(old(s), s)
      ensures Alone() ==> forall d :: d in Me().deps <==> d in old(Me()).deps || exists o :: IsFollowed(old(s), o, d)
    {
      hide LeadsTo, Reachable, ApplyMove;
      ghost var s0 := s;
      LeadsToSelf(s);
      while !(Me().tags.Keys <= Me().scanned)
        invariant Valid() && Me() == old(Me()).(scanned := Me().scanned, deps := Me().deps, hid := Me().hid) && old(Me()).deps <= Me().deps
        invariant Me().scanned <= Me().tags.Keys && LeadsTo(s0, s)
        invariant Alone() ==> s.access == old(s.access) && forall d :: HasCommit(s.txns, d) <==> HasCommit(old(s.txns), d)
        invariant Alone() ==> forall d :: d in Me().deps <==> d in old(Me()).deps || exists o :: o in Me().scanned && IsFollowed(old(s), o, d)
        decreases Me().tags.Keys - Me().scanned
      {
        var o :| o in Me().tags && o !in Me().scanned;
        Standing(s, me);
        assert o in s.rankOf.Keys;
        ghost var s1 := s;
        ScanTag(o);
        LeadsFurther(s0, s1, s);
      }
    }

    /** `d` was the last to access `o`, which is written, and is uncommitted. */
    ghost predicate IsFollowed(at: State, o: Oid, d: Tid) {
      me in at.txns && o in Written(at.txns[me]) && o in at.access && at.access[o] == d && d != me && !HasCommit(at.txns, d)
    }

    /** The last accessor of one object, loaded and then tested: it becomes a dependency if the
        object is written and the accessor, another transaction, is not committed by then. */
    method ScanTag(o: Oid)
      requires Valid() && Me().pc.Scanning? && o in Me().tags && o !in Me().scanned && o in s.access
      modifies this
      ensures Valid() && old(Me()).deps <= Me().deps && LeadsTo(old(s), s)
      ensures Me() == old(Me()).(scanned := old(Me()).scanned + {o}, deps := Me().deps, hid := Me().hid)
      ensures var d := old(s.access[o]);
              && Me().deps <= old(Me()).deps + {d}
              && (d in Me().deps && d !in old(Me()).deps ==> Me().tags[o] && d != me && !HasCommit(old(s).txns, d))
              && (Me().tags[o] && d != me && !HasCommit(s.txns, d) ==> d in Me().deps)
      ensures Alone() ==> s.access == old(s.access) && forall d :: HasCommit(s.txns, d) <==> HasCommit(old(s.txns), d)
    {
      hide LeadsTo, Reachable, ApplyMove;
      ghost var s0 := s;
      ghost var d := s.access[o];
      ScanSteps(s, LoadAccess(o));
      Step(LoadAccess(o));
      ghost var s1 := s;
      TestsStayPassed(s0, s1, d, 0);
      ScanSteps(s, AddDep);
      Step(AddDep);
      TestsStayPassed(s1, s, d, 0);
      LeadsFurther(s0, s1, s);
    }

    lemma ScanSteps(s: State, m: Move)
      requires me in s.txns && CanMove(s, me, m) && (m.LoadAccess? || m.AddDep?)
      ensures ApplyMove(s, me, m).access == s.access
      ensures forall d :: HasCommit(ApplyMove(s, me, m).txns, d) <==> HasCommit(s.txns, d)
    {
    }

    /** `install_data`: data, then the access info, which also goes to objects only read. */
    method InstallData()
      requires Valid() && Me().pc.Installing?
      modifies this
      ensures Valid() && Me() == old(Me()).(pc := Unlocking(false), installed := Me().installed) && LeadsTo(old(s), s)
      ensures Me().tags.Keys <= Me().installed
      ensures Alone() ==> Installed(old(s.access), s.access, old(Me().installed), Me().tags.Keys)
    {
      hide LeadsTo, Reachable, ApplyMove;
      ghost var s0 := s;
      LeadsToSelf(s);
      assert Installed(s.access, s.access, Me().installed, Me().installed);
      hide Installed;
      while !(Me().tags.Keys <= Me().installed)
        invariant Valid() && Me() == old(Me()).(installed := Me().installed) && LeadsTo(s0, s)
        invariant old(Me()).installed <= Me().installed <= old(Me()).installed + Me().tags.Keys
        invariant Alone() ==> Installed(s0.access, s.access, old(Me().installed), Me().installed)
        decreases Me().tags.Keys - Me().installed
      {
        ghost var s1 := s;
        var o :| o in Me().tags && o !in Me().installed;
        InstallTag(o);
        if Alone() {
          InstalledMore(s0.access, s1.access, old(Me().installed), s1.txns[me].installed, o);
        }
        LeadsFurther(s0, s1, s);
      }
      ghost var s2 := s;
      InstallSteps(s, InstallDone);
      InstalledAll(s0.access, s.access, old(Me().installed), Me().installed, Me().tags.Keys);
      Step(InstallDone);
      LeadsFurther(s0, s2, s);
    }

    /** `b` is `a` with this transaction's access info on `more`, as far as it was not there. */
    ghost predicate Installed(a: map<Oid, Tid>, b: map<Oid, Tid>, were: set<Oid>, more: set<Oid>) {
      a.Keys == b.Keys && forall o :: o in a && o !in were ==> b[o] == if o in more then me else a[o]
    }

    lemma InstalledMore(a: map<Oid, Tid>, b: map<Oid, Tid>, were: set<Oid>, more: set<Oid>, o: Oid)
      requires Installed(a, b, were, more) && o in b
      ensures Installed(a, b[o := me], were, more + {o})
    {
    }

    lemma InstalledAll(a: map<Oid, Tid>, b: map<Oid, Tid>, were: set<Oid>, more: set<Oid>, all: set<Oid>)
      requires all <= more <= were + all
      ensures Installed(a, b, were, more) ==> Installed(a, b, were, all)
    {
    }

    method InstallTag(o: Oid)
      requires Valid() && Me().pc.Installing? && o in Me().tags && o !in Me().installed
      modifies this
      ensures Valid() && Me() == old(Me()).(installed := old(Me()).installed + {o}) && LeadsTo(old(s), s)
      ensures Alone() ==> o in old(s.access) && s.access == old(s.access)[o := me]
    {
      hide LeadsTo, Reachable, ApplyMove;
      Standing(s, me);
      assert o in s.rankOf.Keys && o in s.access.Keys;
      ghost var s0 := s;
      InstallSteps(s, Install(o));
      Step(Install(o));
      ghost var s1 := s;
      InstallSteps(s, SetAccess);
      Step(SetAccess);
      LeadsFurther(s0, s1, s);
    }

    lemma InstallSteps(s: State, m: Move)
      requires me in s.txns && CanMove(s, me, m) && (m.Install? || m.SetAccess? || m.InstallDone?)
      ensures ApplyMove(s, me, m).access == if m.SetAccess? then s.access[s.txns[me].pc.o := me] else s.access
    {
    }

    /** `clean_up`: whatever was locked is released, and the tags are dropped. */
    method CleanUp()
      requires Valid() && Me().pc.Unlocking?
      modifies this
      ensures Valid() && Me() == old(Me()).(pc := if old(Me()).pc.retry then Exec else Idle, held := {}, tags := map[])
      ensures LeadsTo(old(s), s)
    {
      hide LeadsTo, Reachable, ApplyMove;
      ghost var s0 := s;
      LeadsToSelf(s);
      while Me().held != {}
        invariant Valid() && Me() == old(Me()).(held := Me().held) && LeadsTo(s0, s)
        decreases Me().held
      {
        ghost var s1 := s;
        var o :| o in Me().held;
        Step(Unlock(o));
        LeadsFurther(s0, s1, s);
      }
      ghost var s2 := s;
      Step(UnlockDone);
      LeadsFurther(s0, s2, s);
    }

    /** What follows validation: dependencies, the decision, installation. */
    method CommitPiece()
      requires Valid() && Me().pc.Scanning? && Me().scanned == {}
      modifies this
      ensures Valid() && old(Me()).deps <= Me().deps && Me().stamped && Me().pc == Unlocking(false) && LeadsTo(old(s), s)
      ensures Me() == old(Me()).(pc := Unlocking(false), scanned := Me().scanned, installed := Me().installed,
                                 deps := Me().deps, hid := Me().hid, stamped := true, stamp := Me().stamp)
    {
      hide LeadsTo, Reachable, ApplyMove;
      ghost var s0 := s;
      AddDeps();
      ghost var s1 := s;
      Step(ScanDone);
      LeadsFurther(s0, s1, s);
      ghost var s2 := s;
      InstallData();
      LeadsFurther(s0, s2, s);
    }

    /** The read-only tags, if there are any, are no longer current. */
    predicate IsStale(tags: map<Oid, bool>, current: bool) {
      !current && exists o :: o in tags && !tags[o]
    }

    method RunPiece(current: bool) returns (ok: bool, ghost at: State)
      requires Valid() && Me().pc.Exec? && Me().held == {}
      modifies this
      ensures Valid() && Me().held == {} && Me().tags == map[] && old(Me()).deps <= Me().deps
      ensures Me().rank == old(Me()).rank && Me().next == old(Me()).next
      ensures ok ==> Me().pc.Idle? && Me().stamped
      ensures !ok ==> Me() == old(Me()).(tags := map[], held := {})
      ensures LeadsTo(old(s), at) && LeadsTo(at, s)
      ensures !ok ==> IsStale(old(Me()).tags, current) || LostLock(at, old(Me()).tags)
      ensures Alone() ==> (ok <==> !IsStale(old(Me()).tags, current) && AllFree(old(s).owner, Written(old(Me()))))
    {
      hide LeadsTo, Reachable, ApplyMove, NextTxn, LostLock, AllFree, IsStale;
      ghost var s0 := s;
      AfterTryCommit(s);
      Step(TryCommit);
      ghost var s1 := s;
      ok, at := LockAndCommit(current);
      LeadsFurther(s0, s1, at);
      ghost var s2 := s;
      CleanUp();
      LeadsFurther(at, s2, s);
    }

    /** All but the release. */
    method LockAndCommit(current: bool) returns (ok: bool, ghost at: State)
      requires Valid() && Me().pc.Locking? && Me().held == {}
      modifies this
      ensures Valid() && old(Me()).deps <= Me().deps && Me().rank == old(Me()).rank && Me().next == old(Me()).next
      ensures ok ==> Me().pc == Unlocking(false) && Me().stamped
      ensures !ok ==> Me() == old(Me()).(pc := Unlocking(true), held := Me().held)
      ensures LeadsTo(old(s), at) && LeadsTo(at, s)
      ensures !ok ==> IsStale(old(Me()).tags, current) || LostLock(at, old(Me()).tags)
      ensures Alone() ==> (ok <==> !IsStale(old(Me()).tags, current) && AllFree(old(s).owner, Written(old(Me()))))
    {
      hide LeadsTo, Reachable, ApplyMove, NextTxn, LostLock, AllFree, IsStale;
      assert Written(Me()) - Me().held == Written(Me());
      ok, at := Lock();
      if ok {
        ghost var s1 := s;
        ok := CheckAndCommit(current);
        LeadsFurther(at, s1, s);
      }
    }

    /** What follows the locks. */
    method CheckAndCommit(current: bool) returns (ok: bool)
      requires Valid() && Me().pc.Checking?
      modifies this
      ensures Valid() && old(Me()).deps <= Me().deps && LeadsTo(old(s), s)
      ensures ok <==> !IsStale(old(Me()).tags, current)
      ensures ok ==> Me() == old(Me()).(pc := Unlocking(false), scanned := Me().scanned, installed := Me().installed,
                                        deps := Me().deps, hid := Me().hid, stamped := true, stamp := Me().stamp)
      ensures !ok ==> Me() == old(Me()).(pc := Unlocking(true))
    {
      hide LeadsTo, Reachable, ApplyMove;
      ghost var s0 := s;
      ok := Check(current);
      if ok {
        ghost var s1 := s;
        CommitPiece();
        LeadsFurther(s0, s1, s);
      }
    }

    lemma AfterTryCommit(s: State)
      requires me in s.txns && CanMove(s, me, TryCommit)
      ensures ApplyMove(s, me, TryCommit).owner == s.owner && NextTxn(s, me, TryCommit) == s.txns[me].(pc := Locking)
    {
    }

    /** `try_commit_piece`.  On success the piece is decided and its dependencies are recorded, on
        failure it is to be run again and nothing else has changed; no lock is kept either way.  It
        fails only on a read that is not current or on a lock that another has at `at`; if nobody
        else moves, exactly then. */
    method TryCommitPiece(current: bool) returns (ok: bool, ghost at: State)
      requires Valid() && Me().pc.Exec?
      modifies this
      ensures Valid() && Me().held == {} && Me().tags == map[] && old(Me()).deps <= Me().deps
      ensures Me().rank == old(Me()).rank && Me().next == old(Me()).next
      ensures ok ==> Me().pc.Idle? && Me().stamped
      ensures !ok ==> Me() == old(Me()).(tags := map[], held := {})
      ensures forall d :: d in Me().deps && !Me().aborted ==> d in s.txns && Precedes(s.txns[d], Me())
      ensures LeadsTo(old(s), at) && LeadsTo(at, s)
      ensures !ok ==> IsStale(old(Me()).tags, current) || LostLock(at, old(Me()).tags)
      ensures Alone() ==> (ok <==> !IsStale(old(Me()).tags, current) && AllFree(old(s).owner, Written(old(Me()))))
    {
      hide LeadsTo, Reachable, ApplyMove, LostLock;
      Standing(s, me);
      ok, at := RunPiece(current);
      forall d | d in Me().deps && !Me().aborted ensures d in s.txns && Precedes(s.txns[d], Me()) {
        DependencyPrecedes(s, me, d);
      }
    }

    /** What a wait waits for: the commit of `d` or its start of a later piece, its commit, or its
        persistence. */
    ghost predicate Lacks(at: State, x: Txn, d: Tid) {
      && d in at.txns
      && (x.pc.WaitStart? && x.next < |x.pieces| ==> !at.txns[d].committed && at.txns[d].rank <= x.pieces[x.next])
      && (x.pc.WaitCommit? ==> !at.txns[d].committed)
      && (x.pc.WaitPersist? ==> !at.txns[d].persisted)
    }

    lemma LacksLonger(a: State, b: State, x: Txn, d: Tid)
      requires Reachable(a) && LeadsTo(a, b) && Lacks(b, x, d)
      ensures Lacks(a, x, d)
    {
      hide Reachable, LeadsTo;
      TestsStayPassed(a, b, d, if x.next < |x.pieces| then x.pieces[x.next] else 0);
    }

    /** One busy-wait, in which each test of `d` may fail at most `polls` times.  It comes back
        without success only while `d` lacks what it waits for. */
    method PollFor(d: Tid, polls: nat) returns (ok: bool)
      requires Valid() && Waiting(Me().pc) && ShapeOk(Me()) && d in Me().deps
      modifies this
      ensures Valid() && Me() == (if ok then old(Me()).(passed := old(Me()).passed + {d}) else old(Me())) && LeadsTo(old(s), s)
      ensures !ok ==> Lacks(s, Me(), d)
    {
      hide LeadsTo, Reachable;
      ghost var s0 := s;
      LeadsToSelf(s);
      var n := 0;
      while BlockedBy(s, me, d)
        invariant Valid() && Me() == old(Me()) && LeadsTo(s0, s)
        decreases polls - n
      {
        if n >= polls {
          return false;
        }
        n := n + 1;
        ghost var s1 := s;
        Interfere();
        LeadsFurther(s0, s1, s);
      }
      ghost var s2 := s;
      Step(if Me().pc.WaitStart? then PassStart(d) else if Me().pc.WaitCommit? then PassCommit(d) else PassPersist(d));
      LeadsFurther(s0, s2, s);
      ok := true;
    }

    /** The loop over the dependencies that all three waits have. */
    method WaitDeps(polls: nat) returns (ok: bool)
      requires Valid() && Waiting(Me().pc)
      modifies this
      ensures Valid() && Me() == old(Me()).(passed := Me().passed) && LeadsTo(old(s), s)
      ensures ok ==> Me().deps <= Me().passed
      ensures !ok ==> exists d :: d in Me().deps && Lacks(s, Me(), d)
    {
      hide LeadsTo, Reachable;
      ghost var s0 := s;
      LeadsToSelf(s);
      while !(Me().deps <= Me().passed)
        invariant Valid() && Me() == old(Me()).(passed := Me().passed) && LeadsTo(s0, s)
        decreases Me().deps - Me().passed
      {
        Standing(s, me);
        var d :| d in Me().deps && d !in Me().passed;
        ghost var s1 := s;
        ok := PollFor(d, polls);
        LeadsFurther(s0, s1, s);
        if !ok {
          return;
        }
      }
      ok := true;
    }

    /** `wait_deps_start` and the start of the next piece: by then every dependency is committed
        or past its rank, even those tested long before.  Otherwise one is not, and was not at the
        start either. */
    method StartNextPiece(polls: nat) returns (ok: bool)
      requires Valid() && Me().pc.Idle? && Me().next < |Me().pieces|
      modifies this
      ensures Valid() && Me().deps == old(Me()).deps
      ensures ok ==> Me().pc.Exec? && Me().next == old(Me()).next + 1 && Me().rank == old(Me()).pieces[old(Me()).next]
      ensures ok ==> forall d :: d in Me().deps ==> d in s.txns && (s.txns[d].committed || Before(s.txns[d], Me()))
      ensures !ok ==> Me().pc.WaitStart? && Me().rank == old(Me()).rank
      ensures !ok ==> exists d :: d in Me().deps && HoldsBack(old(s), d) && HoldsBack(s, d)
    {
      hide LeadsTo, Reachable;
      ghost var s0 := s;
      Step(NextPiece);
      ghost var s1 := s;
      Standing(s, me);
      ok := WaitDeps(polls);
      LeadsFurther(s0, s1, s);
      if ok {
        Step(StartPiece);
        Standing(s, me);
        forall d | d in Me().deps ensures d in s.txns && (s.txns[d].committed || Before(s.txns[d], Me())) {
          DependencyPrecedes(s, me, d);
        }
      } else {
        ghost var d :| d in Me().deps && Lacks(s, Me(), d);
        LacksLonger(s0, s, Me(), d);
        assert HoldsBack(s0, d) && HoldsBack(s, d);
      }
    }

    /** `d` is uncommitted and not past the rank of the next piece. */
    ghost predicate HoldsBack(at: State, d: Tid)
      reads this
      requires me in s.txns
    {
      Me().next < |Me().pieces| && d in at.txns && !at.txns[d].committed && at.txns[d].rank <= Me().pieces[Me().next]
    }

    /** `d` is not committed yet, or not persistent. */
    ghost predicate IsBehind(at: State, d: Tid, committed: bool) {
      d in at.txns && if committed then !at.txns[d].persisted else !at.txns[d].committed
    }

    /** `wait_deps_commit`, `commit`, `wait_deps_persist` and the persistence of the transaction,
        after the last piece.  It ends early only if some dependency is not committed or persistent,
        and was not at the start either. */
    method Finish(polls: nat) returns (ok: bool)
      requires Valid() && Me().pc.Idle? && Me().next == |Me().pieces|
      modifies this
      ensures Valid() && Me().deps == old(Me()).deps && (ok <==> Me().pc.Finished?)
      ensures Me().committed ==> forall d :: d in Me().deps ==> HasCommit(s.txns, d)
      ensures ok ==> Me().persisted && forall d :: d in Me().deps ==> HasPersist(s.txns, d)
      ensures !ok ==> exists d :: d in Me().deps && IsBehind(old(s), d, Me().committed) && IsBehind(s, d, Me().committed)
    {
      hide LeadsTo, Reachable, ApplyMove;
      ghost var s0 := s;
      Standing(s, me);
      Step(EndPieces);
      ghost var s1 := s;
      ok := WaitDeps(polls);
      LeadsFurther(s0, s1, s);
      if ok {
        ghost var s2 := s;
        ok := CommitAndPersist(polls);
        LeadsFurther(s0, s2, s);
      }
      if !ok {
        StillBehind(s0, s);
      }
      AllClosed();
    }

    method CommitAndPersist(polls: nat) returns (ok: bool)
      requires Valid() && Me().pc.WaitCommit? && Me().deps <= Me().passed
      modifies this
      ensures Valid() && Me().deps == old(Me()).deps && LeadsTo(old(s), s) && Me().committed && Me().aborted == old(Me()).aborted
      ensures if ok then Me().pc.Finished? && Me().persisted
              else Me().pc.WaitPersist? && exists d :: d in Me().deps && Lacks(s, Me(), d)
    {
      hide LeadsTo, Reachable, ApplyMove;
      ghost var s0 := s;
      Step(Commit);
      ghost var s1 := s;
      ok := WaitDeps(polls);
      LeadsFurther(s0, s1, s);
      if ok {
        ghost var s2 := s;
        Step(Persist);
        LeadsFurther(s0, s2, s);
      }
    }

    lemma StillBehind(a: State, b: State)
      requires Reachable(a) && LeadsTo(a, b) && Reachable(b) && me in b.txns
      requires b.txns[me].pc.WaitCommit? || b.txns[me].pc.WaitPersist?
      requires exists d :: d in b.txns[me].deps && Lacks(b, b.txns[me], d)
      ensures exists d :: d in b.txns[me].deps && IsBehind(a, d, b.txns[me].committed) && IsBehind(b, d, b.txns[me].committed)
    {
      hide LeadsTo, Reachable;
      Standing(b, me);
      var d :| d in b.txns[me].deps && Lacks(b, b.txns[me], d);
      LacksLonger(a, b, b.txns[me], d);
      assert IsBehind(a, d, b.txns[me].committed) && IsBehind(b, d, b.txns[me].committed);
    }

    lemma AllClosed()
      requires Valid() && !Me().aborted
      ensures forall d :: d in Me().deps && Me().committed ==> HasCommit(s.txns, d) && (Me().persisted ==> HasPersist(s.txns, d))
    {
      forall d | d in Me().deps && Me().committed
        ensures HasCommit(s.txns, d) && (Me().persisted ==> HasPersist(s.txns, d))
      {
        CommitAndPersistAreClosed(s, me, d);
      }
    }

    /** `abort`, when a piece asked for it: dependencies are not waited for. */
    method Abort()
      requires Valid() && Me().pc.Idle? && Me().next > 0
      modifies this
      ensures Valid() && Me().pc.Finished? && Me().committed && Me().persisted && Me().aborted && Me().deps == old(Me()).deps
    {
      hide LeadsTo, Reachable, ApplyMove;
      Step(EarlyAbort);
      Step(AbortPersist);
    }
  }
}
