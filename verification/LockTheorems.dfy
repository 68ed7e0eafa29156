/** What the reader/writer lock guarantees: exact counts, exclusion and when it fails, pending
    upgrades, internal assertions, and the direction of waits. */
module LockTheorems {
  import opened LockMachine
  import opened LockInvariant
  import FiniteSets

  // ----- runs -----

  lemma {:induction false} RunThen(s: State, es: seq<Action>, a: Action)
    requires CanRun(s, es) && a.t in Run(s, es).txns && CanMove(Run(s, es), a.t, a.m)
    ensures CanRun(s, es + [a]) && Run(s, es + [a]) == ApplyMove(Run(s, es), a.t, a.m)
    decreases |es|
  {
    if es == [] {
      assert es + [a] == [a] && [a][1..] == [];
      assert CanRun(ApplyMove(s, a.t, a.m), []);
    } else {
      assert (es + [a])[0] == es[0] && (es + [a])[1..] == es[1..] + [a];
      RunThen(ApplyMove(s, es[0].t, es[0].m), es[1..], a);
    }
  }

  lemma ReachableStep(s: State, t: Tid, m: Move)
    requires Reachable(s) && t in s.txns && CanMove(s, t, m)
    ensures Reachable(ApplyMove(s, t, m))
  {
    var s0, es :| Init(s0) && CanRun(s0, es) && Run(s0, es) == s;
    RunThen(s0, es, Action(t, m));
    assert CanRun(s0, es + [Action(t, m)]) && Run(s0, es + [Action(t, m)]) == ApplyMove(s, t, m);
  }

  /** Some run takes `a` to `b`. */
  ghost predicate LeadsTo(a: State, b: State) {
    exists es :: CanRun(a, es) && Run(a, es) == b
  }

  lemma {:induction false} RunConcat(s: State, es: seq<Action>, fs: seq<Action>)
    requires CanRun(s, es) && CanRun(Run(s, es), fs)
    ensures CanRun(s, es + fs) && Run(s, es + fs) == Run(Run(s, es), fs)
    decreases |es|
  {
    if es == [] {
      assert es + fs == fs;
    } else {
      assert (es + fs)[0] == es[0] && (es + fs)[1..] == es[1..] + fs;
      RunConcat(ApplyMove(s, es[0].t, es[0].m), es[1..], fs);
    }
  }

  lemma LeadsFurther(a: State, b: State, c: State)
    requires LeadsTo(a, b) && LeadsTo(b, c)
    ensures LeadsTo(a, c)
  {
    var es :| CanRun(a, es) && Run(a, es) == b;
    var fs :| CanRun(b, fs) && Run(b, fs) == c;
    RunConcat(a, es, fs);
  }

  lemma LeadsToSelf(s: State)
    ensures LeadsTo(s, s)
  {
    assert CanRun(s, []) && Run(s, []) == s;
  }

  lemma LeadsByStep(s: State, t: Tid, m: Move)
    requires t in s.txns && CanMove(s, t, m)
    ensures LeadsTo(s, ApplyMove(s, t, m))
  {
    var es := [Action(t, m)];
    assert es[1..] == [] && CanRun(ApplyMove(s, t, m), []);
    assert CanRun(s, es) && Run(s, es) == ApplyMove(s, t, m);
  }

  /** Exactly the transactions that hold a read lock on `o`. */
  ghost function ReadHolders(s: State, o: Oid): set<Tid> {
    set t | t in s.txns && HoldsRead(s.txns[t], o)
  }

  // ----- counts -----

  lemma HolderIsReader(s: State, o: Oid, t: Tid)
    requires Reachable(s) && o in s.words && t in s.txns
    ensures HoldsRead(s.txns[t], o) <==> t in s.words[o].readers
    ensures HoldsWrite(s.txns[t], o) || Upgrading(s.txns[t], o) <==> s.words[o].writer == t
  {
    ReachableInv(s);
    assert PairOk(t, s.txns[t], o, s.words[o]);
  }

  lemma WordsAreOk(s: State, o: Oid)
    requires Reachable(s) && o in s.words
    ensures WordOk(s.words[o]) && s.words[o].readers <= s.txns.Keys && 0 !in s.txns
  {
    ReachableInv(s);
  }

  lemma HoldersAreReaders(s: State, o: Oid)
    requires Reachable(s) && o in s.words
    ensures ReadHolders(s, o) == s.words[o].readers
  {
    WordsAreOk(s, o);
    forall t | t in s.txns ensures t in ReadHolders(s, o) <==> t in s.words[o].readers {
      HolderIsReader(s, o, t);
    }
  }

  /** The reader count is the number of read locks, always; outside critical sections the maximum
      is 0 exactly when there are none, bounds them, and is a reader's or a former reader's. */
  lemma CountAndMaximum(s: State, o: Oid)
    requires Reachable(s) && o in s.words
    ensures var w := s.words[o];
            && w.cnt == |ReadHolders(s, o)|
            && (forall t :: t in ReadHolders(s, o) ==> t <= w.max)
            && (!w.cr ==> (w.max == 0 <==> w.cnt == 0) && (w.max != 0 ==> w.max in ReadHolders(s, o) + w.gone))
  {
    var w := s.words[o];
    WordsAreOk(s, o);
    HoldersAreReaders(s, o);
    if w.max == 0 {
      NoReaders(w);
    }
  }

  /** At most one thread is in the critical section of a lock, and its flag says whether one is. */
  lemma OneInside(s: State, o: Oid, t: Tid, u: Tid)
    requires Reachable(s) && o in s.words && t in s.txns && u in s.txns
    requires Inside(s.txns[t].pc, o)
    ensures s.words[o].cr && (Inside(s.txns[u].pc, o) ==> u == t)
  {
    WordsAreOk(s, o);
    ReachableInv(s);
    assert PairOk(t, s.txns[t], o, s.words[o]) && PairOk(u, s.txns[u], o, s.words[o]);
  }

  // ----- exclusion -----

  /** Two transactions never hold the write lock of an object together. */
  lemma WritersExclude(s: State, o: Oid, t: Tid, u: Tid)
    requires Reachable(s) && o in s.words && t in s.txns && u in s.txns
    requires HoldsWrite(s.txns[t], o) && HoldsWrite(s.txns[u], o)
    ensures t == u
  {
    HolderIsReader(s, o, t);
    HolderIsReader(s, o, u);
  }

  predicate Grants(s: State, t: Tid, m: Move, o: Oid)
    requires t in s.txns
  {
    CanMove(s, t, m) && o in s.words && NextTxn(s, t, m).pc == Reply(o, Wr, Yes)
  }

  lemma GrantAfterDrain(s: State, t: Tid, o: Oid)
    requires Reachable(s) && t in s.txns && o in s.words && s.txns[t].pc == Drain(o) && s.words[o].cnt == 1
    ensures ReadHolders(s, o) <= {t} <==> o in s.txns[t].readLocks
  {
    var w := s.words[o];
    WordsAreOk(s, o);
    HoldersAreReaders(s, o);
    HolderIsReader(s, o, t);
    assert w.readers != {};
    if t in w.readers {
      OneReader(w.readers, t);
    }
  }

  lemma GrantWhenFree(s: State, t: Tid, o: Oid)
    requires Reachable(s) && t in s.txns && o in s.words && s.txns[t].pc == Take(o) && s.words[o].cnt == 0
    ensures ReadHolders(s, o) == {}
  {
    WordsAreOk(s, o);
    HoldersAreReaders(s, o);
  }

  lemma GrantShape(s: State, t: Tid, m: Move, o: Oid)
    requires t in s.txns && Grants(s, t, m, o)
    ensures (m.StoreWriter? && s.txns[t].pc == Take(o) && s.words[o].cnt == 0)
         || (m.LoadCount? && s.txns[t].pc == Drain(o) && s.words[o].cnt == 1)
  {
  }

  /** The moment a write lock is granted it is exclusive if and only if there is no reader or the
      transaction itself has a read lock in its lock map. */
  lemma GrantIsExclusiveIff(s: State, t: Tid, m: Move, o: Oid)
    requires Reachable(s) && t in s.txns && Grants(s, t, m, o)
    ensures ReadHolders(s, o) <= {t} <==> ReadHolders(s, o) == {} || o in s.txns[t].readLocks
  {
    GrantShape(s, t, m, o);
    if m.StoreWriter? {
      GrantWhenFree(s, t, o);
    } else {
      GrantAfterDrain(s, t, o);
      CountAndMaximum(s, o);
    }
  }

  /** `t` has the write lock of `o` and nobody else has a read lock. */
  ghost predicate Exclusive(s: State, t: Tid, o: Oid) {
    t in s.txns && o in s.words && HoldsWrite(s.txns[t], o) && s.words[o].readers <= {t}
  }

  lemma ExclusiveStep(s: State, u: Tid, m: Move, t: Tid, o: Oid)
    requires Reachable(s) && u in s.txns && CanMove(s, u, m) && Exclusive(s, t, o) && HoldsWrite(ApplyMove(s, u, m).txns[t], o)
    ensures Exclusive(ApplyMove(s, u, m), t, o)
  {
    PairAndRequest(s, t, o);
    PairAndRequest(s, u, o);
    WordsAreOk(s, o);
    AboutStep(s, u, m);
    ReadersBesideWriter(s, u, m, t, o);
  }

  /** All along the run `t` has the write lock of `o`. */
  predicate Keeps(s: State, es: seq<Action>, t: Tid, o: Oid)
    requires CanRun(s, es)
    decreases |es|
  {
    && t in s.txns && HoldsWrite(s.txns[t], o)
    && (es == [] || Keeps(ApplyMove(s, es[0].t, es[0].m), es[1..], t, o))
  }

  /** A write lock that excludes all readers once does so for as long as it is held. */
  lemma {:induction false} WritersExcludeReaders(s: State, es: seq<Action>, t: Tid, o: Oid)
    requires Reachable(s) && CanRun(s, es) && Exclusive(s, t, o) && Keeps(s, es, t, o)
    ensures Exclusive(Run(s, es), t, o) && Reachable(Run(s, es)) && ReadHolders(Run(s, es), o) <= {t}
    decreases |es|
  {
    if es != [] {
      var s' := ApplyMove(s, es[0].t, es[0].m);
      assert Keeps(s', es[1..], t, o);
      ExclusiveStep(s, es[0].t, es[0].m, t, o);
      ReachableStep(s, es[0].t, es[0].m);
      WritersExcludeReaders(s', es[1..], t, o);
    } else {
      HoldersAreReaders(s, o);
    }
  }

  /** So it does from a grant on that finds no reader or comes with a read lock. */
  lemma GrantExcludesReaders(s: State, t: Tid, m: Move, o: Oid, es: seq<Action>)
    requires Reachable(s) && t in s.txns && Grants(s, t, m, o) && (ReadHolders(s, o) == {} || o in s.txns[t].readLocks)
    requires CanRun(ApplyMove(s, t, m), es) && Keeps(ApplyMove(s, t, m), es, t, o)
    ensures ReadHolders(Run(ApplyMove(s, t, m), es), o) <= {t}
  {
    GrantIsExclusiveIff(s, t, m, o);
    HoldersAreReaders(s, o);
    GrantKeepsReaders(s, t, m, o);
    ReachableStep(s, t, m);
    WritersExcludeReaders(ApplyMove(s, t, m), es, t, o);
  }

  lemma GrantKeepsReaders(s: State, t: Tid, m: Move, o: Oid)
    requires t in s.txns && Grants(s, t, m, o)
    ensures var s' := ApplyMove(s, t, m); o in s'.words && s'.words[o].readers == s.words[o].readers && HoldsWrite(s'.txns[t], o)
  {
    GrantShape(s, t, m, o);
  }

  /** A write lock beside somebody else's read lock is only ever held by an id that has released
      a read lock there. */
  lemma SharedMeansReleased(s: State, t: Tid, o: Oid)
    requires Reachable(s) && o in s.words && t in s.txns && HoldsWrite(s.txns[t], o) && !(ReadHolders(s, o) <= {t})
    ensures t in s.words[o].gone
  {
    HoldersAreReaders(s, o);
    ReachableInv(s);
    assert SharedOk(t, s.txns[t], o, s.words[o]);
  }

  // ----- when exclusion holds over whole runs -----

  /** No request in the run is for the write lock of an object by an id that has released a read
      lock there, unless it has one again. */
  predicate RelocksSafely(s: State, es: seq<Action>)
    requires CanRun(s, es)
    decreases |es|
  {
    es == [] ||
    ((es[0].m.Request? && es[0].m.k.Wr? ==>
        es[0].t !in s.words[es[0].m.o].gone || es[0].m.o in s.txns[es[0].t].readLocks)
     && RelocksSafely(ApplyMove(s, es[0].t, es[0].m), es[1..]))
  }

  /** A transaction is asking for the write lock of `o`. */
  predicate AsksWrite(pc: Pc, o: Oid) {
    match pc
    case Ask(p, k) => p == o && k.Wr?
    case Test(p, k) => p == o && k.Wr?
    case Readers(p) => p == o
    case Take(p) => p == o
    case Upgrade(p) => p == o
    case Drain(p) => p == o
    case Yield(p) => p == o
    case Reply(p, k, a) => p == o && k.Wr? && !a.Yes?
    case _ => false
  }

  predicate SafePair(t: Tid, x: Txn, o: Oid, w: Word) {
    && (AsksWrite(x.pc, o) ==> t !in w.gone || o in x.readLocks)
    && (HoldsWrite(x, o) ==> w.readers <= {t})
  }

  ghost predicate Safe(s: State) {
    forall t, o :: t in s.txns && o in s.words ==> SafePair(t, s.txns[t], o, s.words[o])
  }

  lemma AsksOnRequest(s: State, t: Tid, m: Move, o: Oid)
    requires t in s.txns && CanMove(s, t, m) && RequestOk(s.txns[t])
    ensures AsksWrite(NextTxn(s, t, m).pc, o) && !AsksWrite(s.txns[t].pc, o) ==> m == Request(o, Wr)
    ensures AsksWrite(NextTxn(s, t, m).pc, o) ==> NextTxn(s, t, m).readLocks == s.txns[t].readLocks
    ensures ApplyMove(s, t, m).txns == s.txns[t := NextTxn(s, t, m)]
  {
  }

  lemma GoneMoves(s: State, t: Tid, m: Move, o: Oid)
    requires t in s.txns && CanMove(s, t, m) && o in s.words && o in ApplyMove(s, t, m).words
    ensures ApplyMove(s, t, m).words[o].gone != s.words[o].gone
            ==> (ApplyMove(s, t, m).words[o].gone == s.words[o].gone + {t} && s.txns[t].pc == Fall(o, Rd)
                 && !AsksWrite(NextTxn(s, t, m).pc, o))
  {
  }

  lemma AskStep(s: State, t: Tid, m: Move, u: Tid, o: Oid)
    requires t in s.txns && CanMove(s, t, m) && RequestOk(s.txns[t]) && u in s.txns && o in s.words && o in ApplyMove(s, t, m).words
    requires SafePair(u, s.txns[u], o, s.words[o])
    requires m.Request? && m.k.Wr? ==> t !in s.words[m.o].gone || m.o in s.txns[t].readLocks
    requires AsksWrite(ApplyMove(s, t, m).txns[u].pc, o)
    ensures u !in ApplyMove(s, t, m).words[o].gone || o in ApplyMove(s, t, m).txns[u].readLocks
  {
    AsksOnRequest(s, t, m, o);
    GoneMoves(s, t, m, o);
    hide NextTxn, CanMove, ApplyMove, HoldsWrite;
  }

  /** An upgrade that is asked for safely is granted exclusively. */
  lemma SafeGrant(s: State, t: Tid, m: Move, o: Oid)
    requires t in s.txns && CanMove(s, t, m) && RequestOk(s.txns[t]) && o in s.words && WordOk(s.words[o])
    requires PairOk(t, s.txns[t], o, s.words[o]) && SafePair(t, s.txns[t], o, s.words[o])
    requires HoldsWrite(NextTxn(s, t, m), o) && !HoldsWrite(s.txns[t], o)
    ensures s.words[o].readers <= {t} && (m.StoreWriter? || m.LoadCount?)
  {
    GainsWrite(s, t, m, o);
    hide NextTxn, CanMove;
    if m.StoreWriter? {
      NoReaders(s.words[o]);
    } else {
      assert t in s.words[o].readers;
      OneReader(s.words[o].readers, t);
    }
  }

  lemma HoldStep(s: State, t: Tid, m: Move, u: Tid, o: Oid)
    requires t in s.txns && CanMove(s, t, m) && u in s.txns && 0 !in s.txns && RequestOk(s.txns[t])
    requires o in s.words && o in ApplyMove(s, t, m).words && WordOk(s.words[o]) && SafePair(u, s.txns[u], o, s.words[o])
    requires PairOk(t, s.txns[t], o, s.words[o]) && PairOk(u, s.txns[u], o, s.words[o])
    requires HoldsWrite(ApplyMove(s, t, m).txns[u], o)
    ensures ApplyMove(s, t, m).words[o].readers <= {u}
  {
    if HoldsWrite(s.txns[u], o) {
      ReadersBesideWriter(s, t, m, u, o);
    } else {
      SafeGrant(s, t, m, o);
      GainsReader(s, t, m, o);
    }
  }

  lemma SafePairStep(s: State, t: Tid, m: Move, u: Tid, o: Oid)
    requires Inv(s) && Safe(s) && t in s.txns && CanMove(s, t, m) && u in s.txns && o in s.words && o in ApplyMove(s, t, m).words
    requires m.Request? && m.k.Wr? ==> t !in s.words[m.o].gone || m.o in s.txns[t].readLocks
    ensures SafePair(u, ApplyMove(s, t, m).txns[u], o, ApplyMove(s, t, m).words[o])
  {
    assert PairOk(t, s.txns[t], o, s.words[o]) && PairOk(u, s.txns[u], o, s.words[o]) && RequestOk(s.txns[t]) && WordOk(s.words[o]);
    assert SafePair(u, s.txns[u], o, s.words[o]);
    hide PairOk, RequestOk, WordOk, NextTxn, NextWord, Inv;
    if AsksWrite(ApplyMove(s, t, m).txns[u].pc, o) {
      AskStep(s, t, m, u, o);
    }
    if HoldsWrite(ApplyMove(s, t, m).txns[u], o) {
      HoldStep(s, t, m, u, o);
    }
  }

  lemma SafeStep(s: State, t: Tid, m: Move)
    requires Inv(s) && Safe(s) && t in s.txns && CanMove(s, t, m)
    requires m.Request? && m.k.Wr? ==> t !in s.words[m.o].gone || m.o in s.txns[t].readLocks
    ensures Safe(ApplyMove(s, t, m))
  {
    assert AboutOk(s.txns[t], s.words.Keys);
    AboutStep(s, t, m);
    hide Inv, SafePair, NextTxn, NextWord;
    var s' := ApplyMove(s, t, m);
    forall u, o | u in s'.txns && o in s'.words ensures SafePair(u, s'.txns[u], o, s'.words[o]) {
      SafePairStep(s, t, m, u, o);
    }
  }

  /** Then no attempt completes its locks beside somebody else's read lock. */
  lemma SafeIsNotExposed(s: State, t: Tid)
    requires Safe(s) && t in s.txns
    ensures !Exposed(s, t)
  {
    forall o | o in s.txns[t].writeLocks && o in s.words ensures s.words[o].readers <= {t} {
      assert SafePair(t, s.txns[t], o, s.words[o]);
    }
  }

  lemma {:induction false} SafeRelockingKeepsSafe(s: State, es: seq<Action>)
    requires CanRun(s, es) && Inv(s) && Safe(s) && RelocksSafely(s, es)
    ensures Safe(Run(s, es)) && Run(s, es).tainted == s.tainted
    decreases |es|
  {
    if es != [] {
      SafeIsNotExposed(s, es[0].t);
      InvStep(s, es[0].t, es[0].m);
      SafeStep(s, es[0].t, es[0].m);
      SafeRelockingKeepsSafe(ApplyMove(s, es[0].t, es[0].m), es[1..]);
    }
  }

  /** If no id that has released a read lock on an object asks for its write lock without a read
      lock, every write lock excludes all other readers and writers. */
  lemma SafeRelockingIsExclusive(s0: State, es: seq<Action>, o: Oid, t: Tid)
    requires Init(s0) && CanRun(s0, es) && RelocksSafely(s0, es)
    requires t in Run(s0, es).txns && o in Run(s0, es).words && HoldsWrite(Run(s0, es).txns[t], o)
    ensures ReadHolders(Run(s0, es), o) <= {t}
    ensures forall u :: u in Run(s0, es).txns && HoldsWrite(Run(s0, es).txns[u], o) ==> u == t
  {
    InvInit(s0);
    SafeRelockingKeepsSafe(s0, es);
    var s := Run(s0, es);
    assert Reachable(s);
    HoldersAreReaders(s, o);
    assert SafePair(t, s.txns[t], o, s.words[o]);
    forall u | u in s.txns && HoldsWrite(s.txns[u], o) ensures u == t {
      WritersExclude(s, o, t, u);
    }
  }

  /** No request in the run is for an object whose read lock the same id has released before. */
  predicate NeverRelocks(s: State, es: seq<Action>)
    requires CanRun(s, es)
    decreases |es|
  {
    es == [] ||
    ((es[0].m.Request? ==> es[0].t !in s.words[es[0].m.o].gone)
     && NeverRelocks(ApplyMove(s, es[0].t, es[0].m), es[1..]))
  }

  lemma {:induction false} NeverRelockingIsSafe(s: State, es: seq<Action>)
    requires CanRun(s, es) && NeverRelocks(s, es)
    ensures RelocksSafely(s, es)
    decreases |es|
  {
    if es != [] {
      NeverRelockingIsSafe(ApplyMove(s, es[0].t, es[0].m), es[1..]);
    }
  }

  /** In particular if no id ever locks an object again after releasing a read lock on it. */
  lemma NeverRelockingIsExclusive(s0: State, es: seq<Action>, o: Oid, t: Tid)
    requires Init(s0) && CanRun(s0, es) && NeverRelocks(s0, es)
    requires t in Run(s0, es).txns && o in Run(s0, es).words && HoldsWrite(Run(s0, es).txns[t], o)
    ensures ReadHolders(Run(s0, es), o) <= {t}
  {
    NeverRelockingIsSafe(s0, es);
    SafeRelockingIsExclusive(s0, es, o, t);
  }

  // ----- the transactions of the program -----

  /** Every attempt of an id takes its locks from the same lists: read locks only on `keys[t]`, and
      a write lock on one of those only once it has the read lock. */
  predicate ReadsBeforeWrites(s: State, es: seq<Action>, keys: map<Tid, set<Oid>>)
    requires CanRun(s, es)
    decreases |es|
  {
    es == [] ||
    ((es[0].m.Request? ==>
        es[0].t in keys && if es[0].m.k.Rd? then es[0].m.o in keys[es[0].t]
                           else es[0].m.o !in keys[es[0].t] || es[0].m.o in s.txns[es[0].t].readLocks)
     && ReadsBeforeWrites(ApplyMove(s, es[0].t, es[0].m), es[1..], keys))
  }

  /** A transaction is asking for a read lock on `o`. */
  predicate AsksRead(pc: Pc, o: Oid) {
    match pc
    case Ask(p, k) => p == o && k.Rd?
    case Test(p, k) => p == o && k.Rd?
    case Raise(p) => p == o
    case Count(p) => p == o
    case Reply(p, k, a) => p == o && k.Rd? && !a.Yes?
    case _ => false
  }

  /** Whoever reads, read or asks to read an object has it on its list. */
  predicate ListedPair(t: Tid, x: Txn, o: Oid, w: Word, keys: map<Tid, set<Oid>>) {
    t in w.gone || HoldsRead(x, o) || AsksRead(x.pc, o) ==> t in keys && o in keys[t]
  }

  ghost predicate Listed(s: State, keys: map<Tid, set<Oid>>) {
    forall t, o :: t in s.txns && o in s.words ==> ListedPair(t, s.txns[t], o, s.words[o], keys)
  }

  lemma ListedPairStep(s: State, t: Tid, m: Move, u: Tid, o: Oid, keys: map<Tid, set<Oid>>)
    requires t in s.txns && CanMove(s, t, m) && u in s.txns && o in s.words && o in ApplyMove(s, t, m).words
    requires ListedPair(u, s.txns[u], o, s.words[o], keys) && (m.Request? && m.k.Rd? ==> t in keys && m.o in keys[t])
    ensures ListedPair(u, ApplyMove(s, t, m).txns[u], o, ApplyMove(s, t, m).words[o], keys)
  {
    GoneMoves(s, t, m, o);
    ReadsOnRequest(s, t, m, o);
    hide NextTxn, CanMove, ApplyMove;
  }

  lemma ReadsOnRequest(s: State, t: Tid, m: Move, o: Oid)
    requires t in s.txns && CanMove(s, t, m)
    ensures HoldsRead(NextTxn(s, t, m), o) || AsksRead(NextTxn(s, t, m).pc, o)
            ==> HoldsRead(s.txns[t], o) || AsksRead(s.txns[t].pc, o) || m == Request(o, Rd)
    ensures ApplyMove(s, t, m).txns == s.txns[t := NextTxn(s, t, m)]
  {
  }

  lemma ListedStep(s: State, t: Tid, m: Move, keys: map<Tid, set<Oid>>)
    requires Inv(s) && t in s.txns && CanMove(s, t, m) && Listed(s, keys)
    requires m.Request? && m.k.Rd? ==> t in keys && m.o in keys[t]
    ensures Listed(ApplyMove(s, t, m), keys)
  {
    assert AboutOk(s.txns[t], s.words.Keys);
    AboutStep(s, t, m);
    hide Inv, ListedPair, NextTxn, NextWord;
    var s' := ApplyMove(s, t, m);
    forall u, o | u in s'.txns && o in s'.words ensures ListedPair(u, s'.txns[u], o, s'.words[o], keys) {
      assert ListedPair(u, s.txns[u], o, s.words[o], keys);
      ListedPairStep(s, t, m, u, o, keys);
    }
  }

  lemma {:induction false} ReadingFirstIsSafe(s: State, es: seq<Action>, keys: map<Tid, set<Oid>>)
    requires CanRun(s, es) && Inv(s) && Listed(s, keys) && ReadsBeforeWrites(s, es, keys)
    ensures RelocksSafely(s, es)
    decreases |es|
  {
    if es != [] {
      if es[0].m.Request? {
        assert ListedPair(es[0].t, s.txns[es[0].t], es[0].m.o, s.words[es[0].m.o], keys);
      }
      InvStep(s, es[0].t, es[0].m);
      ListedStep(s, es[0].t, es[0].m, keys);
      ReadingFirstIsSafe(ApplyMove(s, es[0].t, es[0].m), es[1..], keys);
    }
  }

  /** So every run of such transactions has exclusive write locks, however often they retry. */
  lemma ReadingFirstIsExclusive(s0: State, es: seq<Action>, keys: map<Tid, set<Oid>>, o: Oid, t: Tid)
    requires Init(s0) && CanRun(s0, es) && ReadsBeforeWrites(s0, es, keys)
    requires t in Run(s0, es).txns && o in Run(s0, es).words && HoldsWrite(Run(s0, es).txns[t], o)
    ensures ReadHolders(Run(s0, es), o) <= {t}
  {
    InvInit(s0);
    ReadingFirstIsSafe(s0, es, keys);
    SafeRelockingIsExclusive(s0, es, o, t);
  }

  // ----- pending upgrades -----

  /** While an upgrade of `t` is pending, no move of anybody adds a reader. */
  lemma UpgradeKeepsReadersOut(s: State, o: Oid, t: Tid, u: Tid, m: Move)
    requires Reachable(s) && o in s.words && t in s.txns && Upgrading(s.txns[t], o) && u in s.txns && CanMove(s, u, m)
    ensures var s' := ApplyMove(s, u, m);
            o in s'.words && s'.words[o].readers <= s.words[o].readers && s'.words[o].cnt <= s.words[o].cnt
  {
    PairAndRequest(s, t, o);
    PairAndRequest(s, u, o);
    WordsAreOk(s, o);
    AboutStep(s, u, m);
    GainsReader(s, u, m, o);
  }

  // ----- who is refused, and who waits -----

  /** `u` is the writer of `o`, or waits as its writer for readers to leave. */
  predicate IsWriter(s: State, u: Tid, o: Oid) {
    u in s.txns && (HoldsWrite(s.txns[u], o) || Upgrading(s.txns[u], o))
  }

  lemma WriterIs(s: State, o: Oid, u: Tid)
    requires Reachable(s) && o in s.words
    ensures IsWriter(s, u, o) <==> u != 0 && s.words[o].writer == u
  {
    ReachableInv(s);
    if u in s.txns {
      HolderIsReader(s, o, u);
    }
  }

  /** At the test of the writer a request is refused if and only if there is one with a smaller id,
      waits if and only if there is one with a larger id, and else goes on. */
  lemma WriterTestIff(s: State, t: Tid, u: Tid)
    requires Reachable(s) && t in s.txns && CanMove(s, t, LoadWriter)
    ensures var Test(o, k) := s.txns[t].pc; var pc := NextTxn(s, t, LoadWriter).pc;
            && (pc == Reply(o, k, No) <==> 0 < s.words[o].writer < t)
            && (pc == Reply(o, k, Again) <==> t < s.words[o].writer)
            && (pc == (if k.Rd? then Raise(o) else Readers(o)) <==> s.words[o].writer == 0 || s.words[o].writer == t)
            && (IsWriter(s, u, o) ==> (pc == Reply(o, k, No) <==> u < t) && (pc == Reply(o, k, Again) <==> t < u))
  {
    WriterIs(s, s.txns[t].pc.o, u);
  }

  /** At the test of the readers a write request is refused if and only if the maximum is larger
      than its id; it takes the lock if and only if there is no reader. */
  lemma ReaderTestIff(s: State, t: Tid)
    requires Reachable(s) && t in s.txns && CanMove(s, t, LoadReader)
    ensures var o := s.txns[t].pc.o; var pc := NextTxn(s, t, LoadReader).pc;
            && (pc == Reply(o, Wr, No) <==> t < s.words[o].max)
            && (pc == Reply(o, Wr, Again) <==> s.words[o].max < t && ReadHolders(s, o) != {})
            && (pc == Upgrade(o) <==> s.words[o].max == t)
            && (pc == Take(o) <==> ReadHolders(s, o) == {})
            && (forall u :: u in ReadHolders(s, o) && t < u ==> pc == Reply(o, Wr, No))
  {
    var o := s.txns[t].pc.o;
    PairAndRequest(s, t, o);
    WordsAreOk(s, o);
    HoldersAreReaders(s, o);
    if s.words[o].max == 0 {
      NoReaders(s.words[o]);
    }
  }

  /** A pending upgrade is granted if and only if there is one reader left. */
  lemma DrainTestIff(s: State, t: Tid)
    requires Reachable(s) && t in s.txns && CanMove(s, t, LoadCount)
    ensures var o := s.txns[t].pc.o; var pc := NextTxn(s, t, LoadCount).pc;
            && (pc == Reply(o, Wr, Yes) <==> |ReadHolders(s, o)| == 1)
            && (pc == Reply(o, Wr, More) <==> |ReadHolders(s, o)| != 1)
  {
    CountAndMaximum(s, s.txns[t].pc.o);
  }

  // ----- internal assertions -----

  /** The next step of `t` would be a failing assertion, `expect` or `panic`, or would take a
      count below 0.  Spin limits aside, these are all there are. */
  predicate Panics(s: State, t: Tid)
    requires t in s.txns
  {
    var pc := s.txns[t].pc;
    match pc
    case Test(o, k) => o !in s.words || (k.Wr? && s.words[o].writer == t)
    case Take(o) => o !in s.words || s.words[o].cnt != 0
    case Upgrade(o) => o !in s.words || s.words[o].writer != 0
    case Fall(o, k) => o !in s.words || (if k.Wr? then s.words[o].writer != t else s.words[o].cnt <= 0)
    case Reply(o, _, _) => o !in s.words || !s.words[o].cr
    case Left(o, _) => o !in s.words || !s.words[o].cr
    case _ => false
  }

  lemma NoPanicOn(s: State, t: Tid, o: Oid)
    requires Reachable(s) && t in s.txns && o in s.words && Inside(s.txns[t].pc, o)
    ensures !Panics(s, t)
  {
    WordsAreOk(s, o);
    PairAndRequest(s, t, o);
    var w := s.words[o];
    if w.max == 0 {
      NoReaders(w);
    }
    assert w.readers != {} ==> w.cnt > 0;
  }

  lemma PairAndRequest(s: State, t: Tid, o: Oid)
    requires Reachable(s) && t in s.txns && o in s.words
    ensures PairOk(t, s.txns[t], o, s.words[o]) && RequestOk(s.txns[t]) && AboutOk(s.txns[t], s.words.Keys)
  {
    ReachableInv(s);
  }

  lemma ObjectKnown(s: State, t: Tid)
    requires Reachable(s) && t in s.txns
    ensures AboutOk(s.txns[t], s.words.Keys)
  {
    ReachableInv(s);
  }

  /** No internal assertion of the lock ever fails. */
  lemma NoPanic(s: State, t: Tid)
    requires Reachable(s) && t in s.txns
    ensures !Panics(s, t)
  {
    ObjectKnown(s, t);
    var pc := s.txns[t].pc;
    if !pc.Body? && !pc.Done? && Inside(pc, pc.o) {
      NoPanicOn(s, t, pc.o);
    }
  }

  /** `t` spins on the flag of a critical section that somebody is in. */
  predicate AtGate(s: State, t: Tid)
    requires t in s.txns
  {
    var pc := s.txns[t].pc;
    (pc.Ask? || pc.Yield? || pc.Leave?) && pc.o in s.words && s.words[pc.o].cr
  }

  /** Everybody who is not at such a gate can take a step, those inside in particular. */
  lemma OnlyGatesHold(s: State, t: Tid) returns (m: Move)
    requires Reachable(s) && t in s.txns && !s.txns[t].pc.Done? && !AtGate(s, t)
    ensures CanMove(s, t, m)
  {
    ObjectKnown(s, t);
    NoPanic(s, t);
    var x := s.txns[t];
    match x.pc
    case Body =>
      if x.phase.Growing? {
        m := LocksDone;
      } else if x.phase.Working? {
        m := Commit;
      } else if x.readLocks != {} {
        var o :| o in x.readLocks;
        m := Release(o, Rd);
      } else if x.writeLocks != {} {
        var o :| o in x.writeLocks;
        m := Release(o, Wr);
      } else {
        m := Finish;
      }
    case Test(_, _) => m := LoadWriter;
    case Raise(_) => m := FetchMax;
    case Count(_) => m := FetchAdd;
    case Readers(_) => m := LoadReader;
    case Drain(_) => m := LoadCount;
    case Fall(_, k) => m := if k.Rd? then Subtract else ClearWriter;
    case Zero(_) => m := ClearMax;
    case _ => m := if x.pc.Take? || x.pc.Upgrade? then StoreWriter else if x.pc.Reply? || x.pc.Left? then Exit else Enter;
  }

  // ----- waits -----

  /** `t` is to spin because `u` is the writer of the object it asks for. */
  predicate WaitsForWriter(s: State, t: Tid, u: Tid)
    requires t in s.txns
  {
    var pc := s.txns[t].pc;
    && (pc.Ask? || pc.Test?) && pc.o in s.words && s.words[pc.o].writer == u && u != 0
    && AfterTest(t, pc.o, pc.k, u) == Reply(pc.o, pc.k, Again)
  }

  /** `t` is to spin because of readers of the object it wants to write, and `u` is one. */
  predicate WaitsForReader(s: State, t: Tid, u: Tid)
    requires t in s.txns
  {
    var pc := s.txns[t].pc;
    && u != t
    && ((((pc.Ask? && pc.k.Wr?) || (pc.Test? && pc.k.Wr?) || pc.Readers?)
         && pc.o in s.words && s.words[pc.o].writer == 0 && u in s.words[pc.o].readers
         && AfterReaders(t, pc.o, s.words[pc.o].max) == Reply(pc.o, Wr, Again))
        || ((pc.Drain? || pc.Yield?) && pc.o in s.words && u in s.words[pc.o].readers))
  }

  /** Waits on a writer go from smaller to larger ids, waits on readers from larger to smaller. */
  lemma WaitDirections(s: State, t: Tid, u: Tid)
    requires Reachable(s) && t in s.txns
    ensures WaitsForWriter(s, t, u) ==> t < u
    ensures WaitsForReader(s, t, u) ==> u < t
  {
    ObjectKnown(s, t);
    var pc := s.txns[t].pc;
    if WaitsForReader(s, t, u) || WaitsForWriter(s, t, u) {
      WordsAreOk(s, pc.o);
      PairAndRequest(s, t, pc.o);
    }
  }

  ghost predicate WaitChain(s: State, c: seq<Tid>) {
    && |c| > 0 && (forall i :: 0 <= i < |c| ==> c[i] in s.txns)
    && (forall i :: 0 < i < |c| ==> WaitsForWriter(s, c[i - 1], c[i]) || WaitsForReader(s, c[i - 1], c[i]))
  }

  lemma {:induction false} WriterWaitsAscend(s: State, c: seq<Tid>)
    requires Reachable(s) && WaitChain(s, c) && |c| > 1
    requires forall i :: 0 < i < |c| ==> !WaitsForReader(s, c[i - 1], c[i])
    ensures c[0] < c[|c| - 1]
    decreases |c|
  {
    WaitDirections(s, c[|c| - 2], c[|c| - 1]);
    if |c| > 2 {
      WriterWaitsAscend(s, c[..|c| - 1]);
    }
  }

  lemma {:induction false} ReaderWaitsDescend(s: State, c: seq<Tid>)
    requires Reachable(s) && WaitChain(s, c) && |c| > 1
    requires forall i :: 0 < i < |c| ==> !WaitsForWriter(s, c[i - 1], c[i])
    ensures c[0] > c[|c| - 1]
    decreases |c|
  {
    WaitDirections(s, c[|c| - 2], c[|c| - 1]);
    if |c| > 2 {
      ReaderWaitsDescend(s, c[..|c| - 1]);
    }
  }

  /** Waits on writers alone have no cycle, and neither have waits on readers: every cycle has a
      transaction that waits for a writer and one that waits for readers. */
  lemma WaitCyclesAreMixed(s: State, c: seq<Tid>)
    requires Reachable(s) && WaitChain(s, c) && |c| > 1 && c[0] == c[|c| - 1]
    ensures exists i :: 0 < i < |c| && WaitsForWriter(s, c[i - 1], c[i])
    ensures exists i :: 0 < i < |c| && WaitsForReader(s, c[i - 1], c[i])
  {
    if forall i :: 0 < i < |c| ==> !WaitsForReader(s, c[i - 1], c[i]) {
      WriterWaitsAscend(s, c);
    } else if forall i :: 0 < i < |c| ==> !WaitsForWriter(s, c[i - 1], c[i]) {
      ReaderWaitsDescend(s, c);
    }
  }

  ghost predicate Waits(s: State, t: Tid)
    requires t in s.txns
  {
    exists u :: WaitsForWriter(s, t, u) || WaitsForReader(s, t, u)
  }

  lemma BlockerKnown(s: State, t: Tid, u: Tid)
    requires Reachable(s) && t in s.txns && (WaitsForWriter(s, t, u) || WaitsForReader(s, t, u))
    ensures u in s.txns
  {
    ReachableInv(s);
  }

  lemma ChainFurther(s: State, t: Tid, u: Tid, c: seq<Tid>)
    requires t in s.txns && (WaitsForWriter(s, t, u) || WaitsForReader(s, t, u)) && WaitChain(s, c) && c[0] == u
    ensures WaitChain(s, [t] + c)
  {
  }

  /** If nobody waits for readers, every waiting transaction waits, directly or through others,
      for one that does not wait. */
  lemma {:induction false} WriterWaitsEnd(s: State, t: Tid) returns (c: seq<Tid>)
    requires Reachable(s) && t in s.txns
    requires forall a, b :: a in s.txns ==> !WaitsForReader(s, a, b)
    ensures WaitChain(s, c) && c[0] == t && !Waits(s, c[|c| - 1])
    decreases |Larger(s, t)|
  {
    if Waits(s, t) {
      var u :| WaitsForWriter(s, t, u) || WaitsForReader(s, t, u);
      BlockerKnown(s, t, u);
      WaitDirections(s, t, u);
      assert u in Larger(s, t) && u !in Larger(s, u);
      FiniteSets.SmallerSet(Larger(s, u), Larger(s, t), u);
      c := WriterWaitsEnd(s, u);
      ChainFurther(s, t, u, c);
      c := [t] + c;
    } else {
      c := [t];
    }
  }

  ghost function Larger(s: State, t: Tid): (r: set<Tid>) {
    set u | u in s.txns && u > t
  }

  /** The same if nobody waits for a writer. */
  lemma {:induction false} ReaderWaitsEnd(s: State, t: Tid) returns (c: seq<Tid>)
    requires Reachable(s) && t in s.txns
    requires forall a, b :: a in s.txns ==> !WaitsForWriter(s, a, b)
    ensures WaitChain(s, c) && c[0] == t && !Waits(s, c[|c| - 1])
    decreases t
  {
    if Waits(s, t) {
      var u :| WaitsForWriter(s, t, u) || WaitsForReader(s, t, u);
      BlockerKnown(s, t, u);
      WaitDirections(s, t, u);
      c := ReaderWaitsEnd(s, u);
      ChainFurther(s, t, u, c);
      c := [t] + c;
    } else {
      c := [t];
    }
  }

  /** So waits of one kind alone never deadlock: if anybody waits, somebody waits for a
      transaction that does not. */
  lemma OneKindOfWaitMovesOn(s: State, t: Tid) returns (a: Tid, b: Tid)
    requires Reachable(s) && t in s.txns && Waits(s, t)
    requires (forall a, b :: a in s.txns ==> !WaitsForReader(s, a, b)) || (forall a, b :: a in s.txns ==> !WaitsForWriter(s, a, b))
    ensures a in s.txns && b in s.txns && (WaitsForWriter(s, a, b) || WaitsForReader(s, a, b)) && !Waits(s, b)
  {
    var c;
    if forall a, b :: a in s.txns ==> !WaitsForReader(s, a, b) {
      c := WriterWaitsEnd(s, t);
    } else {
      c := ReaderWaitsEnd(s, t);
    }
    assert |c| > 1;
    a, b := c[|c| - 2], c[|c| - 1];
  }
}
