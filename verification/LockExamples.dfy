/** Three runs of the reader/writer lock: a write lock granted next to another's read lock, one that
    goes on from there to an order that is not serial, and a cycle of waits.  They show that the
    hypotheses of `LockTheorems` and `LockSerial` are needed. */
module LockExamples {
  import opened LockMachine
  import opened LockInvariant
  import opened LockTheorems
  import opened LockSerial

  const A: Oid := 0
  const B: Oid := 1
  const FREE: Word := Word(false, 0, 0, 0, 0, {}, {})

  function Start(): (s: State) {
    State(map[A := FREE, B := FREE], map[A := 0, B := 0], map[5 := FRESH, 9 := FRESH], [], false, map[A := 0, B := 0])
  }

  /** A run from the start and the state it ends in. */
  datatype Path = Path(acts: seq<Action>, end: State)

  predicate Valid(p: Path) {
    CanRun(Start(), p.acts) && Run(Start(), p.acts) == p.end
  }

  predicate At(p: Path, t: Tid, x: Txn, o: Oid, w: Word) {
    Valid(p) && t in p.end.txns && p.end.txns[t] == x && o in p.end.words && p.end.words[o] == w
  }

  /** `q` goes on from `p` with moves of `t` on `o` only. */
  ghost predicate Extends(p: Path, q: Path, t: Tid, o: Oid) {
    && (forall u :: u in p.end.txns && u != t ==> u in q.end.txns && q.end.txns[u] == p.end.txns[u])
    && (forall u :: u in p.end.words && u != o ==> u in q.end.words && q.end.words[u] == p.end.words[u])
    && q.end.hist == p.end.hist && q.end.data == p.end.data && q.end.init == p.end.init
  }

  lemma Hop(p: Path, t: Tid, m: Move, x: Txn, o: Oid, w: Word, x': Txn) returns (q: Path)
    requires At(p, t, x, o, w) && CanMove(p.end, t, m) && NextTxn(p.end, t, m) == x'
    requires (TouchesWord(m) ==> x.pc.o == o) && !m.LocksDone? && !m.Read? && !m.Write?
    ensures At(q, t, x', o, if TouchesWord(m) then NextWord(w, t, x.pc, m) else w) && Extends(p, q, t, o)
  {
    q := OneMore(p, t, m);
  }

  lemma OneMore(p: Path, t: Tid, m: Move) returns (q: Path)
    requires Valid(p) && t in p.end.txns && CanMove(p.end, t, m)
    ensures Valid(q) && q.end == ApplyMove(p.end, t, m)
  {
    RunThen(Start(), p.acts, Action(t, m));
    q := Path(p.acts + [Action(t, m)], ApplyMove(p.end, t, m));
  }

  /** The word as seen from inside. */
  function In(w: Word, t: Tid): (r: Word) {
    w.(cr := true, user := t)
  }

  predicate Resting(x: Txn, w: Word) {
    x.pc.Body? && x.phase.Growing? && !w.cr && w.user == 0 && w.writer == 0
  }

  lemma AskFor(p: Path, t: Tid, x: Txn, o: Oid, w: Word, k: Kind) returns (q: Path)
    requires t != 0 && At(p, t, x, o, w) && Resting(x, w) && !InMap(x, o, k)
    ensures At(q, t, x.(pc := if k.Rd? then Raise(o) else Readers(o)), o, In(w, t)) && Extends(p, q, t, o)
  {
    hide Valid;
    q := Hop(p, t, Request(o, k), x, o, w, x.(pc := Ask(o, k)));
    q := Hop(q, t, Enter, x.(pc := Ask(o, k)), o, w, x.(pc := Test(o, k)));
    q := Hop(q, t, LoadWriter, x.(pc := Test(o, k)), o, In(w, t), x.(pc := if k.Rd? then Raise(o) else Readers(o)));
  }

  /** A read lock, with no writer and no larger reader. */
  lemma ReadLock(p: Path, t: Tid, x: Txn, o: Oid, w: Word) returns (q: Path)
    requires t != 0 && At(p, t, x, o, w) && Resting(x, w) && o !in x.readLocks && w.max < t
    ensures At(q, t, x.(readLocks := x.readLocks + {o}), o, w.(max := t, cnt := w.cnt + 1, readers := w.readers + {t}))
    ensures Extends(p, q, t, o)
  {
    q := AskFor(p, t, x, o, w, Rd);
    hide Valid;
    q := Hop(q, t, FetchMax, x.(pc := Raise(o)), o, In(w, t), x.(pc := Count(o)));
    q := Hop(q, t, FetchAdd, x.(pc := Count(o)), o, In(w, t).(max := t), x.(pc := Reply(o, Rd, Yes)));
    q := Hop(q, t, Exit, x.(pc := Reply(o, Rd, Yes)), o, In(w, t).(max := t, cnt := w.cnt + 1, readers := w.readers + {t}),
             x.(readLocks := x.readLocks + {o}));
  }

  /** A write lock on a free object. */
  lemma WriteLock(p: Path, t: Tid, x: Txn, o: Oid) returns (q: Path)
    requires t != 0 && At(p, t, x, o, FREE) && Resting(x, FREE) && o !in x.writeLocks
    ensures At(q, t, x.(writeLocks := x.writeLocks + {o}), o, FREE.(writer := t)) && Extends(p, q, t, o)
  {
    q := AskFor(p, t, x, o, FREE, Wr);
    hide Valid;
    q := Hop(q, t, LoadReader, x.(pc := Readers(o)), o, In(FREE, t), x.(pc := Take(o)));
    q := Hop(q, t, StoreWriter, x.(pc := Take(o)), o, In(FREE, t), x.(pc := Reply(o, Wr, Yes)));
    q := Hop(q, t, Exit, x.(pc := Reply(o, Wr, Yes)), o, In(FREE, t).(writer := t), x.(writeLocks := x.writeLocks + {o}));
  }

  /** Transaction 9 gives its attempt up while 5 stays a reader: the maximum stays 9. */
  lemma GiveReadLockUp(p: Path) returns (q: Path)
    requires At(p, 9, FRESH.(readLocks := {A}), A, FREE.(max := 9, cnt := 2, readers := {5, 9}))
    ensures At(q, 9, FRESH, A, FREE.(max := 9, cnt := 1, readers := {5}, gone := {9})) && Extends(p, q, 9, A)
  {
    hide Valid;
    var w, e := FREE.(max := 9, cnt := 2, readers := {5, 9}), FRESH.(phase := Ending);
    q := Hop(p, 9, GiveUp, FRESH.(readLocks := {A}), A, w, e.(readLocks := {A}));
    q := Hop(q, 9, Release(A, Rd), e.(readLocks := {A}), A, w, e.(pc := Leave(A, Rd)));
    q := Hop(q, 9, Enter, e.(pc := Leave(A, Rd)), A, w, e.(pc := Fall(A, Rd)));
    q := Hop(q, 9, Subtract, e.(pc := Fall(A, Rd)), A, In(w, 9), e.(pc := Left(A, Rd)));
    assert {5, 9} - {9} == {5};
    q := Hop(q, 9, Exit, e.(pc := Left(A, Rd)), A, In(w, 9).(cnt := 1, readers := {5}, gone := {9}), e);
    q := Hop(q, 9, Finish, e, A, w.(cnt := 1, readers := {5}, gone := {9}), FRESH);
  }

  /** Its next attempt takes the count of 1 for its own. */
  lemma UpgradeOnStaleMaximum(p: Path) returns (q: Path)
    requires At(p, 9, FRESH, A, FREE.(max := 9, cnt := 1, readers := {5}, gone := {9}))
    ensures At(q, 9, FRESH.(writeLocks := {A}), A, FREE.(writer := 9, max := 9, cnt := 1, readers := {5}, gone := {9}))
    ensures Extends(p, q, 9, A)
  {
    var w := FREE.(max := 9, cnt := 1, readers := {5}, gone := {9});
    q := AskFor(p, 9, FRESH, A, w, Wr);
    hide Valid;
    q := Hop(q, 9, LoadReader, FRESH.(pc := Readers(A)), A, In(w, 9), FRESH.(pc := Upgrade(A)));
    q := Hop(q, 9, StoreWriter, FRESH.(pc := Upgrade(A)), A, In(w, 9), FRESH.(pc := Drain(A)));
    q := DrainToOne(q, w);
  }

  lemma DrainToOne(p: Path, w: Word) returns (q: Path)
    requires At(p, 9, FRESH.(pc := Drain(A)), A, In(w, 9).(writer := 9)) && w.cnt == 1 && w.user == 0 && !w.cr
    ensures At(q, 9, FRESH.(writeLocks := {A}), A, w.(writer := 9)) && Extends(p, q, 9, A)
  {
    hide Valid;
    q := Hop(p, 9, LoadCount, FRESH.(pc := Drain(A)), A, In(w, 9).(writer := 9), FRESH.(pc := Reply(A, Wr, Yes)));
    q := Hop(q, 9, Exit, FRESH.(pc := Reply(A, Wr, Yes)), A, In(w, 9).(writer := 9), FRESH.(writeLocks := {A}));
  }

  lemma StaleRun() returns (q: Path)
    ensures At(q, 9, FRESH.(writeLocks := {A}), A, FREE.(writer := 9, max := 9, cnt := 1, readers := {5}, gone := {9}))
    ensures 5 in q.end.txns && q.end.txns[5] == FRESH.(readLocks := {A})
    ensures q.end.hist == [] && q.end.data == q.end.init == map[A := 0, B := 0]
  {
    q := Path([], Start());
    q := ReadLock(q, 5, FRESH, A, FREE);
    q := ReadLock(q, 9, FRESH, A, FREE.(max := 5, cnt := 1, readers := {5}));
    q := GiveReadLockUp(q);
    q := UpgradeOnStaleMaximum(q);
  }

  /** Exclusion does not hold of every run: a write lock can be granted while another
      transaction holds a read lock. */
  lemma ExclusionCanFail()
    ensures exists s: State, o, t, u :: Reachable(s) && o in s.words && t in s.txns && u in s.txns && t != u
              && HoldsWrite(s.txns[t], o) && HoldsRead(s.txns[u], o)
  {
    var q := StaleRun();
    assert Init(Start());
    assert Reachable(q.end);
    assert HoldsWrite(q.end.txns[9], A) && HoldsRead(q.end.txns[5], A);
  }

  /** Transaction 5 reads, then 9 completes its locks and writes. */
  lemma ReadThenWrite() returns (q: Path)
    ensures Valid(q) && q.end.hist == [Attempt(9, {}, {A}, [Put(A, 1)])] && q.end.init == map[A := 0, B := 0]
    ensures 5 in q.end.txns && q.end.txns[5] == FRESH.(readLocks := {A}, seen := [Got(A, 0)])
  {
    q := StaleRun();
    hide Valid;
    q := OneMore(q, 5, Read(A));
    q := OneMore(q, 9, LocksDone);
    assert q.end.hist == [Attempt(9, {}, {A}, [])] && q.end.txns[9].slot == 0;
    q := OneMore(q, 9, Write(A, 1));
    assert q.end.hist[0].events == [Put(A, 1)];
  }

  /** Nor is every run serial: 9 completes its locks beside the read lock of 5, and writes before 5,
      which has read the value before, completes its own. */
  lemma SerialityCanFail()
    ensures exists s: State :: Reachable(s) && !SerialRun(s.init, s.hist)
  {
    var q := ReadThenWrite();
    q := OneMore(q, 5, LocksDone);
    var h := q.end.hist;
    assert h == [Attempt(9, {}, {A}, [Put(A, 1)]), Attempt(5, {A}, {}, [Got(A, 0)])];
    NotSerial(q.end.init, h);
    assert Init(Start());
    assert Reachable(q.end);
  }

  lemma NotSerial(init: map<Oid, Val>, h: seq<Attempt>)
    requires init == map[A := 0, B := 0] && |h| == 2 && h[0].events == [Put(A, 1)] && h[1].events == [Got(A, 0)]
    ensures !SerialRun(init, h)
  {
    assert h[1..][0] == h[1];
    assert [Put(A, 1)][1..] == [] && EffectAll(init[A := 1], []) == init[A := 1];
    assert EffectAll(init, h[0].events) == init[A := 1];
    assert !Legal(init[A := 1], h[1].events[0]);
  }

  lemma BothLocked() returns (q: Path)
    ensures At(q, 5, FRESH.(readLocks := {A}), B, FREE.(writer := 9))
    ensures At(q, 9, FRESH.(writeLocks := {B}), A, FREE.(max := 5, cnt := 1, readers := {5}))
  {
    q := Path([], Start());
    q := ReadLock(q, 5, FRESH, A, FREE);
    q := WriteLock(q, 9, FRESH, B);
  }

  lemma CrossRun() returns (q: Path)
    ensures At(q, 5, FRESH.(pc := Ask(B, Rd), readLocks := {A}), B, FREE.(writer := 9))
    ensures At(q, 9, FRESH.(pc := Ask(A, Wr), writeLocks := {B}), A, FREE.(max := 5, cnt := 1, readers := {5}))
  {
    q := BothLocked();
    hide Valid;
    var x, y := FRESH.(readLocks := {A}), FRESH.(writeLocks := {B});
    q := Hop(q, 5, Request(B, Rd), x, B, FREE.(writer := 9), x.(pc := Ask(B, Rd)));
    q := Hop(q, 9, Request(A, Wr), y, A, FREE.(max := 5, cnt := 1, readers := {5}), y.(pc := Ask(A, Wr)));
  }

  /** Waits can form a cycle: 5 waits for the writer 9, and 9 waits for the reader 5. */
  lemma WaitsCanDeadlock()
    ensures exists s: State :: Reachable(s) && WaitChain(s, [5, 9, 5]) && 5 in s.txns && 9 in s.txns
              && WaitsForWriter(s, 5, 9) && WaitsForReader(s, 9, 5)
  {
    var q := CrossRun();
    assert Init(Start());
    assert Reachable(q.end);
    assert WaitsForWriter(q.end, 5, 9) && WaitsForReader(q.end, 9, 5);
    assert WaitChain(q.end, [5, 9, 5]);
  }
}
