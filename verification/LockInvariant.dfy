/** What every step of the reader/writer lock keeps. */
module LockInvariant {
  import opened LockMachine

  /** In the critical section of `o`. */
  predicate Inside(pc: Pc, o: Oid) {
    match pc
    case Test(p, _) => p == o
    case Raise(p) => p == o
    case Count(p) => p == o
    case Readers(p) => p == o
    case Take(p) => p == o
    case Upgrade(p) => p == o
    case Drain(p) => p == o
    case Reply(p, _, _) => p == o
    case Fall(p, _) => p == o
    case Zero(p) => p == o
    case Left(p, _) => p == o
    case _ => false
  }

  /** Holds a read lock on `o`, from the count going up to its going down. */
  predicate HoldsRead(x: Txn, o: Oid) {
    o in x.readLocks || x.pc == Reply(o, Rd, Yes) || x.pc == Leave(o, Rd) || x.pc == Fall(o, Rd)
  }

  /** Was granted the write lock on `o` and has not given it back. */
  predicate HoldsWrite(x: Txn, o: Oid) {
    o in x.writeLocks || x.pc == Reply(o, Wr, Yes) || x.pc == Leave(o, Wr) || x.pc == Fall(o, Wr)
  }

  /** Is entered as the writer of `o` and waits for the other readers to leave. */
  predicate Upgrading(x: Txn, o: Oid) {
    x.pc == Drain(o) || x.pc == Yield(o) || x.pc == Reply(o, Wr, More)
  }

  /** A lock request is for a lock that is not in the map. */
  predicate RequestOk(x: Txn) {
    match x.pc
    case Ask(o, k) => !InMap(x, o, k)
    case Test(o, k) => !InMap(x, o, k)
    case Raise(o) => o !in x.readLocks
    case Count(o) => o !in x.readLocks
    case Readers(o) => o !in x.writeLocks
    case Take(o) => o !in x.writeLocks
    case Upgrade(o) => o !in x.writeLocks
    case Drain(o) => o !in x.writeLocks
    case Yield(o) => o !in x.writeLocks
    case Reply(o, k, a) => !InMap(x, o, k) && (a.More? ==> k.Wr?)
    case Leave(o, k) => !InMap(x, o, k)
    case Fall(o, k) => !InMap(x, o, k)
    case _ => true
  }

  /** The maximum is 0 when there is no reader, and is a reader or a former one. */
  predicate Tidy(w: Word) {
    (w.readers == {} ==> w.max == 0) && (w.max != 0 ==> w.max in w.readers + w.gone)
  }

  predicate WordOk(w: Word) {
    && w.cnt == |w.readers| && 0 !in w.readers
    && (forall u :: u in w.readers ==> u <= w.max)
    && (w.cr <==> w.user != 0)
    && (!w.cr ==> Tidy(w))
  }

  /** How a transaction and a lock word fit together. */
  predicate PairOk(t: Tid, x: Txn, o: Oid, w: Word) {
    && (Inside(x.pc, o) <==> w.user == t)
    && (HoldsRead(x, o) <==> t in w.readers)
    && (HoldsWrite(x, o) || Upgrading(x, o) <==> w.writer == t)
    && (Inside(x.pc, o) && !x.pc.Count? && !x.pc.Zero? ==> Tidy(w))
    && (x.pc == Raise(o) ==> w.writer == 0 || w.writer == t)
    && (x.pc == Count(o) ==> (w.writer == 0 || w.writer == t) && t <= w.max && (w.max == t || w.max in w.readers + w.gone))
    && (x.pc == Readers(o) || x.pc == Take(o) || x.pc == Upgrade(o) ==> w.writer == 0)
    && (x.pc == Take(o) ==> w.max == 0)
    && (x.pc == Upgrade(o) ==> w.max == t)
    && (x.pc == Zero(o) ==> w.readers == {})
    && (Upgrading(x, o) ==> w.max <= t && t in w.readers + w.gone)
  }

  /** Beside a write lock there is somebody else's read lock only if its holder has released a read
      lock there before. */
  predicate SharedOk(t: Tid, x: Txn, o: Oid, w: Word) {
    HoldsWrite(x, o) && !(w.readers <= {t}) ==> t in w.gone
  }

  /** A transaction only deals with objects there are. */
  predicate AboutOk(x: Txn, os: set<Oid>) {
    x.readLocks <= os && x.writeLocks <= os && (!x.pc.Body? && !x.pc.Done? ==> x.pc.o in os)
  }

  ghost predicate KnownOk(s: State) {
    && s.data.Keys == s.words.Keys
    && (forall o :: o in s.words ==> s.words[o].readers <= s.txns.Keys && (s.words[o].writer == 0 || s.words[o].writer in s.txns))
    && (forall t :: t in s.txns ==> AboutOk(s.txns[t], s.words.Keys))
  }

  ghost predicate Inv(s: State) {
    && 0 !in s.txns && KnownOk(s)
    && (forall t :: t in s.txns ==> RequestOk(s.txns[t]))
    && (forall o :: o in s.words ==> WordOk(s.words[o]))
    && (forall t, o :: t in s.txns && o in s.words ==> PairOk(t, s.txns[t], o, s.words[o]))
    && (forall t, o :: t in s.txns && o in s.words ==> SharedOk(t, s.txns[t], o, s.words[o]))
  }

  lemma RequestStep(s: State, t: Tid, m: Move)
    requires t in s.txns && CanMove(s, t, m) && RequestOk(s.txns[t])
    ensures RequestOk(NextTxn(s, t, m))
  {
  }

  lemma OneReader(r: set<Tid>, t: Tid)
    requires |r| == 1 && t in r
    ensures r == {t}
  {
    assert |r - {t}| == 0;
    assert r - {t} == {};
  }

  lemma NoReaders(w: Word)
    requires WordOk(w) && w.max == 0
    ensures w.readers == {} && w.cnt == 0
  {
    assert forall u :: u in w.readers ==> u == 0;
  }

  /** The word that a move is about. */
  lemma WordStep(s: State, t: Tid, m: Move)
    requires t in s.txns && t != 0 && CanMove(s, t, m) && TouchesWord(m) && RequestOk(s.txns[t])
    requires WordOk(s.words[s.txns[t].pc.o]) && PairOk(t, s.txns[t], s.txns[t].pc.o, s.words[s.txns[t].pc.o])
    ensures WordOk(NextWord(s.words[s.txns[t].pc.o], t, s.txns[t].pc, m))
  {
    var x := s.txns[t];
    var w := s.words[x.pc.o];
    if m.Subtract? {
      assert t in w.readers;
    }
  }

  /** The mover, on the object its move is about. */
  lemma PairSelf(s: State, t: Tid, m: Move)
    requires t in s.txns && t != 0 && CanMove(s, t, m) && TouchesWord(m) && RequestOk(s.txns[t])
    requires WordOk(s.words[s.txns[t].pc.o]) && PairOk(t, s.txns[t], s.txns[t].pc.o, s.words[s.txns[t].pc.o])
    ensures PairOk(t, NextTxn(s, t, m), s.txns[t].pc.o, NextWord(s.words[s.txns[t].pc.o], t, s.txns[t].pc, m))
  {
    if m.Subtract? {
      SubtractSelf(s, t);
    } else if m.Exit? {
      ExitSelf(s, t);
    } else if m.Enter? {
      EnterSelf(s, t);
    } else if m.StoreWriter? {
      StoreSelf(s, t);
    } else if m.FetchMax? || m.FetchAdd? {
      FetchSelf(s, t, m);
    }
  }

  lemma SubtractSelf(s: State, t: Tid)
    requires t in s.txns && t != 0 && CanMove(s, t, Subtract) && RequestOk(s.txns[t])
    requires WordOk(s.words[s.txns[t].pc.o]) && PairOk(t, s.txns[t], s.txns[t].pc.o, s.words[s.txns[t].pc.o])
    ensures PairOk(t, NextTxn(s, t, Subtract), s.txns[t].pc.o, NextWord(s.words[s.txns[t].pc.o], t, s.txns[t].pc, Subtract))
  {
    var w := s.words[s.txns[t].pc.o];
    assert t in w.readers;
    assert |w.readers - {t}| == w.cnt - 1;
  }

  lemma ExitSelf(s: State, t: Tid)
    requires t in s.txns && t != 0 && CanMove(s, t, Exit) && RequestOk(s.txns[t])
    requires WordOk(s.words[s.txns[t].pc.o]) && PairOk(t, s.txns[t], s.txns[t].pc.o, s.words[s.txns[t].pc.o])
    ensures PairOk(t, NextTxn(s, t, Exit), s.txns[t].pc.o, NextWord(s.words[s.txns[t].pc.o], t, s.txns[t].pc, Exit))
  {
  }

  lemma StoreSelf(s: State, t: Tid)
    requires t in s.txns && t != 0 && CanMove(s, t, StoreWriter) && RequestOk(s.txns[t])
    requires WordOk(s.words[s.txns[t].pc.o]) && PairOk(t, s.txns[t], s.txns[t].pc.o, s.words[s.txns[t].pc.o])
    ensures PairOk(t, NextTxn(s, t, StoreWriter), s.txns[t].pc.o, NextWord(s.words[s.txns[t].pc.o], t, s.txns[t].pc, StoreWriter))
  {
  }

  lemma FetchSelf(s: State, t: Tid, m: Move)
    requires m.FetchMax? || m.FetchAdd?
    requires t in s.txns && t != 0 && CanMove(s, t, m) && RequestOk(s.txns[t])
    requires WordOk(s.words[s.txns[t].pc.o]) && PairOk(t, s.txns[t], s.txns[t].pc.o, s.words[s.txns[t].pc.o])
    ensures PairOk(t, NextTxn(s, t, m), s.txns[t].pc.o, NextWord(s.words[s.txns[t].pc.o], t, s.txns[t].pc, m))
  {
  }

  lemma EnterSelf(s: State, t: Tid)
    requires t in s.txns && t != 0 && CanMove(s, t, Enter) && RequestOk(s.txns[t])
    requires WordOk(s.words[s.txns[t].pc.o]) && PairOk(t, s.txns[t], s.txns[t].pc.o, s.words[s.txns[t].pc.o])
    ensures PairOk(t, NextTxn(s, t, Enter), s.txns[t].pc.o, NextWord(s.words[s.txns[t].pc.o], t, s.txns[t].pc, Enter))
  {
  }

  /** The mover, on an object whose word it only looks at. */
  lemma PairLoad(s: State, t: Tid, m: Move, o: Oid)
    requires m.LoadWriter? || m.LoadReader? || m.LoadCount?
    requires t in s.txns && t != 0 && CanMove(s, t, m) && RequestOk(s.txns[t]) && o in s.words
    requires PairOk(t, s.txns[t], o, s.words[o]) && WordOk(s.words[o])
    ensures PairOk(t, NextTxn(s, t, m), o, s.words[o])
  {
  }

  /** The mover, on an object other than the one its move is about. */
  lemma ExitElsewhere(s: State, t: Tid, o: Oid)
    requires t in s.txns && t != 0 && CanMove(s, t, Exit) && RequestOk(s.txns[t]) && o in s.words
    requires PairOk(t, s.txns[t], o, s.words[o]) && s.txns[t].pc.o != o
    ensures PairOk(t, NextTxn(s, t, Exit), o, s.words[o])
  {
  }

  lemma PairElsewhere(s: State, t: Tid, m: Move, o: Oid)
    requires t in s.txns && t != 0 && CanMove(s, t, m) && RequestOk(s.txns[t]) && o in s.words
    requires PairOk(t, s.txns[t], o, s.words[o]) && TouchesWord(m) && s.txns[t].pc.o != o
    ensures PairOk(t, NextTxn(s, t, m), o, s.words[o])
  {
    if m.Exit? {
      ExitElsewhere(s, t, o);
    }
  }

  /** The mover, on an object whose word it leaves alone. */
  lemma PairAlone(s: State, t: Tid, m: Move, o: Oid)
    requires t in s.txns && t != 0 && CanMove(s, t, m) && RequestOk(s.txns[t]) && o in s.words
    requires PairOk(t, s.txns[t], o, s.words[o]) && WordOk(s.words[o])
    requires TouchesWord(m) ==> s.txns[t].pc.o != o
    ensures PairOk(t, NextTxn(s, t, m), o, s.words[o])
  {
    if m.LoadWriter? || m.LoadReader? || m.LoadCount? {
      PairLoad(s, t, m, o);
    } else if TouchesWord(m) {
      PairElsewhere(s, t, m, o);
    }
  }

  /** Anybody else, on the object the move is about. */
  lemma PairOther(s: State, t: Tid, m: Move, u: Tid, x: Txn)
    requires t in s.txns && t != 0 && CanMove(s, t, m) && TouchesWord(m) && RequestOk(s.txns[t]) && u != t && u != 0
    requires WordOk(s.words[s.txns[t].pc.o]) && PairOk(t, s.txns[t], s.txns[t].pc.o, s.words[s.txns[t].pc.o])
    requires PairOk(u, x, s.txns[t].pc.o, s.words[s.txns[t].pc.o])
    ensures PairOk(u, x, s.txns[t].pc.o, NextWord(s.words[s.txns[t].pc.o], t, s.txns[t].pc, m))
  {
  }

  lemma PairStep(s: State, t: Tid, m: Move, u: Tid, o: Oid)
    requires t in s.txns && CanMove(s, t, m) && 0 !in s.txns && RequestOk(s.txns[t])
    requires u in s.txns && o in s.words && WordOk(s.words[o]) && o in ApplyMove(s, t, m).words
    requires PairOk(t, s.txns[t], o, s.words[o]) && PairOk(u, s.txns[u], o, s.words[o])
    ensures PairOk(u, ApplyMove(s, t, m).txns[u], o, ApplyMove(s, t, m).words[o])
  {
    if TouchesWord(m) && s.txns[t].pc.o == o {
      if u == t {
        PairSelf(s, t, m);
      } else {
        PairOther(s, t, m, u, s.txns[u]);
      }
    } else if u == t {
      PairAlone(s, t, m, o);
    }
  }

  /** A write lock is granted at two places. */
  lemma GainsWrite(s: State, t: Tid, m: Move, o: Oid)
    requires t in s.txns && CanMove(s, t, m) && RequestOk(s.txns[t]) && o in s.words
    requires HoldsWrite(NextTxn(s, t, m), o) && !HoldsWrite(s.txns[t], o)
    ensures (m.StoreWriter? && s.txns[t].pc == Take(o)) || (m.LoadCount? && s.txns[t].pc == Drain(o) && s.words[o].cnt == 1)
  {
  }

  /** Only `fetch_add` adds a reader, who is the mover. */
  lemma GainsReader(s: State, t: Tid, m: Move, o: Oid)
    requires t in s.txns && CanMove(s, t, m) && o in s.words && o in ApplyMove(s, t, m).words
    ensures ApplyMove(s, t, m).words[o].readers <= s.words[o].readers + {t}
    ensures s.words[o].gone <= ApplyMove(s, t, m).words[o].gone
    ensures !(ApplyMove(s, t, m).words[o].readers <= s.words[o].readers && ApplyMove(s, t, m).words[o].cnt <= s.words[o].cnt)
            ==> m.FetchAdd? && s.txns[t].pc == Count(o)
  {
  }

  /** The writer's own step. */
  lemma SharedSelf(s: State, t: Tid, m: Move, o: Oid)
    requires t in s.txns && t != 0 && CanMove(s, t, m) && RequestOk(s.txns[t])
    requires o in s.words && WordOk(s.words[o]) && o in ApplyMove(s, t, m).words && PairOk(t, s.txns[t], o, s.words[o])
    requires SharedOk(t, s.txns[t], o, s.words[o])
    ensures SharedOk(t, NextTxn(s, t, m), o, ApplyMove(s, t, m).words[o])
  {
    GainsReader(s, t, m, o);
    if HoldsWrite(NextTxn(s, t, m), o) && !HoldsWrite(s.txns[t], o) {
      GainsWrite(s, t, m, o);
      if m.StoreWriter? {
        NoReaders(s.words[o]);
      } else if t in s.words[o].readers {
        OneReader(s.words[o].readers, t);
      }
    }
  }

  /** Nobody becomes a reader beside a writer. */
  lemma ReadersBesideWriter(s: State, t: Tid, m: Move, u: Tid, o: Oid)
    requires t in s.txns && t != 0 && CanMove(s, t, m) && u in s.txns && u != 0
    requires o in s.words && o in ApplyMove(s, t, m).words
    requires PairOk(t, s.txns[t], o, s.words[o]) && PairOk(u, s.txns[u], o, s.words[o]) && HoldsWrite(s.txns[u], o)
    ensures ApplyMove(s, t, m).words[o].readers <= s.words[o].readers + {u}
    ensures s.words[o].gone <= ApplyMove(s, t, m).words[o].gone
  {
    GainsReader(s, t, m, o);
  }

  lemma SharedStep(s: State, t: Tid, m: Move, u: Tid, o: Oid)
    requires t in s.txns && CanMove(s, t, m) && 0 !in s.txns && RequestOk(s.txns[t])
    requires u in s.txns && o in s.words && WordOk(s.words[o]) && o in ApplyMove(s, t, m).words
    requires PairOk(t, s.txns[t], o, s.words[o]) && PairOk(u, s.txns[u], o, s.words[o]) && SharedOk(u, s.txns[u], o, s.words[o])
    ensures SharedOk(u, ApplyMove(s, t, m).txns[u], o, ApplyMove(s, t, m).words[o])
  {
    if u == t {
      SharedSelf(s, t, m, o);
    } else if HoldsWrite(s.txns[u], o) {
      ReadersBesideWriter(s, t, m, u, o);
    }
  }

  lemma AboutStep(s: State, t: Tid, m: Move)
    requires t in s.txns && CanMove(s, t, m) && AboutOk(s.txns[t], s.words.Keys)
    ensures AboutOk(NextTxn(s, t, m), s.words.Keys) && ApplyMove(s, t, m).words.Keys == s.words.Keys
  {
  }

  lemma DomainStep(s: State, t: Tid, m: Move)
    requires t in s.txns && CanMove(s, t, m)
    ensures ApplyMove(s, t, m).data.Keys == s.data.Keys
  {
  }

  lemma KnownStep(s: State, t: Tid, m: Move)
    requires t in s.txns && CanMove(s, t, m) && KnownOk(s)
    ensures KnownOk(ApplyMove(s, t, m))
  {
    AboutStep(s, t, m);
    DomainStep(s, t, m);
  }

  lemma WordsStep(s: State, t: Tid, m: Move)
    requires t in s.txns && CanMove(s, t, m) && Inv(s)
    ensures forall o :: o in ApplyMove(s, t, m).words ==> WordOk(ApplyMove(s, t, m).words[o])
  {
    var s' := ApplyMove(s, t, m);
    forall o | o in s'.words ensures WordOk(s'.words[o]) {
      assert o in s.words;
      if TouchesWord(m) && s.txns[t].pc.o == o {
        WordStep(s, t, m);
      }
    }
  }

  lemma PairsStep(s: State, t: Tid, m: Move, u: Tid, o: Oid)
    requires t in s.txns && CanMove(s, t, m) && Inv(s) && u in s.txns && o in s.words && o in ApplyMove(s, t, m).words
    ensures var s' := ApplyMove(s, t, m);
            PairOk(u, s'.txns[u], o, s'.words[o]) && SharedOk(u, s'.txns[u], o, s'.words[o])
  {
    assert PairOk(u, s.txns[u], o, s.words[o]) && SharedOk(u, s.txns[u], o, s.words[o]);
    PairStep(s, t, m, u, o);
    SharedStep(s, t, m, u, o);
  }

  lemma InvStep(s: State, t: Tid, m: Move)
    requires t in s.txns && CanMove(s, t, m) && Inv(s)
    ensures Inv(ApplyMove(s, t, m))
  {
    hide PairOk, SharedOk, WordOk, RequestOk, NextTxn, NextWord, NextHist;
    var s' := ApplyMove(s, t, m);
    RequestStep(s, t, m);
    KnownStep(s, t, m);
    WordsStep(s, t, m);
    forall u, o | u in s'.txns && o in s'.words
      ensures PairOk(u, s'.txns[u], o, s'.words[o]) && SharedOk(u, s'.txns[u], o, s'.words[o])
    {
      PairsStep(s, t, m, u, o);
    }
  }

  lemma InvInit(s: State)
    requires Init(s)
    ensures Inv(s)
  {
  }

  lemma {:induction false} RunKeepsInv(s: State, es: seq<Action>)
    requires Inv(s) && CanRun(s, es)
    ensures Inv(Run(s, es))
    decreases |es|
  {
    if es != [] {
      InvStep(s, es[0].t, es[0].m);
      RunKeepsInv(ApplyMove(s, es[0].t, es[0].m), es[1..]);
    }
  }

  lemma ReachableInv(s: State)
    requires Reachable(s)
    ensures Inv(s)
  {
    var s0, es :| Init(s0) && CanRun(s0, es) && Run(s0, es) == s;
    InvInit(s0);
    RunKeepsInv(s0, es);
  }
}
