/** What the optimistic protocol does not validate: a tag that is both read and written.  Two
    transactions read one row and both write it, one after the other; the second commits although
    the value it read is gone. */
module OccLostUpdate {
  import opened OccMachine
  import opened OccInvariant
  import opened OccTheorems

  const R: Key := Row(0)
  const O: Obj := RowObj(0)

  function Start(): (s: State) {
    State(map[O := Cell(0, 0, 0)], map[R := 0], map[R := 0], [], {}, map[1 := FRESH, 2 := FRESH], [], map[R := 0])
  }

  /** A run from the start and the state it ends in. */
  datatype Path = Path(acts: seq<Action>, end: State)

  predicate Valid(p: Path) {
    CanRun(Start(), p.acts) && Run(Start(), p.acts) == p.end
  }

  /** `q` goes on from `p` with moves of `t` only. */
  ghost predicate Extends(p: Path, q: Path, t: Tid) {
    && Valid(q) && q.end.init == p.end.init && q.end.data.Keys == p.end.data.Keys
    && t in q.end.txns && q.end.txns.Keys == p.end.txns.Keys
    && forall u :: u in p.end.txns && u != t ==> q.end.txns[u] == p.end.txns[u]
  }

  lemma Hop(p: Path, t: Tid, m: Move, x: Txn, c: Cell) returns (q: Path)
    requires Valid(p) && t in p.end.txns && CanMove(p.end, t, m) && NextTxn(p.end, t, m) == x
    requires O in p.end.cells && NextCells(p.end, t, m) == p.end.cells[O := c]
    requires R in p.end.data && (m.Store? || m.Flush? || m.Evict? ==> m.k == R)
    ensures Extends(p, q, t) && q.end.txns[t] == x && O in q.end.cells && q.end.cells[O] == c
    ensures q.end.hist == NextHist(p.end, t, m) && (!m.Store? ==> q.end.data == p.end.data)
  {
    RunThen(Start(), p.acts, Action(t, m));
    q := Path(p.acts + [Action(t, m)], ApplyMove(p.end, t, m));
  }

  /** A transaction that has read 0 and buffered `v`. */
  function Ready(v: Val): (x: Txn) {
    FRESH.(tags := map[R := Tag(0, 0, true, true, v)], trace := [(R, 0)])
  }

  ghost predicate At(p: Path, t: Tid, x: Txn, c: Cell) {
    Valid(p) && t in p.end.txns && t != 0 && p.end.txns[t] == x && O in p.end.cells && p.end.cells[O] == c && R in p.end.data
  }

  lemma ReadWrite(p: Path, t: Tid) returns (q: Path)
    requires At(p, t, FRESH, Cell(0, 0, 0)) && p.end.data[R] == 0
    ensures Extends(p, q, t) && At(q, t, Ready(t), Cell(0, 0, 0)) && q.end.data == p.end.data && q.end.hist == p.end.hist
  {
    hide Valid;
    q := Hop(p, t, ReadVers(R), FRESH.(pc := Load(R, 0)), Cell(0, 0, 0));
    q := Hop(q, t, ReadData, FRESH.(tags := map[R := Tag(0, 0, true, false, 0)], trace := [(R, 0)]), Cell(0, 0, 0));
    q := Hop(q, t, Write(R, t), Ready(t), Cell(0, 0, 0));
  }

  /** From an unlocked row, a ready transaction takes its lock. */
  lemma LockIt(p: Path, t: Tid, v: Tid) returns (q: Path)
    requires At(p, t, Ready(t), Cell(v, 0, 0))
    ensures Extends(p, q, t) && At(q, t, Ready(t).(pc := Locking, held := {R}), Cell(v, t, 1)) && q.end.hist == p.end.hist
  {
    hide Valid;
    q := Hop(p, t, TryCommit, Ready(t).(pc := Locking), Cell(v, 0, 0));
    q := Hop(q, t, Cas(R), Ready(t).(pc := Bump(R)), Cell(v, t, 0));
    q := Hop(q, t, BumpCount, Ready(t).(pc := Locking, held := {R}), Cell(v, t, 1));
  }

  function Passing(t: Tid, n: nat): (x: Txn) {
    Ready(t).(pc := Writing, held := {R}, slot := n, ok := true)
  }

  /** With its lock it passes validation: it has no read-only tag. */
  lemma PassIt(p: Path, t: Tid, v: Tid) returns (q: Path)
    requires At(p, t, Ready(t).(pc := Locking, held := {R}), Cell(v, t, 1))
    ensures Extends(p, q, t) && At(q, t, Passing(t, |p.end.hist|), Cell(v, t, 1))
    ensures q.end.hist == p.end.hist + [Attempt(t, Ready(t).tags, Ready(t).trace, Passed)]
  {
    hide Valid;
    q := Hop(p, t, LocksDone, Ready(t).(pc := Checking, held := {R}, slot := |p.end.hist|), Cell(v, t, 1));
    q := Hop(q, t, Pass, Passing(t, |p.end.hist|), Cell(v, t, 1));
  }

  /** It logs the value before. */
  lemma LogIt(p: Path, t: Tid, n: nat, v: Tid) returns (q: Path)
    requires At(p, t, Passing(t, n), Cell(v, t, 1)) && n < |p.end.hist|
    ensures Extends(p, q, t) && At(q, t, Passing(t, n).(logged := {R}), Cell(v, t, 1)) && q.end.hist == p.end.hist
  {
    hide Valid;
    q := Hop(p, t, LogPre(R), Passing(t, n).(logged := {R}), Cell(v, t, 1));
  }

  /** It installs. */
  lemma InstallIt(p: Path, t: Tid, n: nat, v: Tid) returns (q: Path)
    requires At(p, t, Passing(t, n).(logged := {R}), Cell(v, t, 1)) && n < |p.end.hist|
    ensures Extends(p, q, t) && At(q, t, Passing(t, n).(logged := {R}, stored := {R}), Cell(t, t, 1)) && q.end.hist == p.end.hist
  {
    hide Valid;
    q := Hop(p, t, Store(R), Passing(t, n).(pc := SetVers(R), logged := {R}, stored := {R}), Cell(v, t, 1));
    q := Hop(q, t, SetVersion, Passing(t, n).(logged := {R}, stored := {R}), Cell(t, t, 1));
  }

  /** It flushes and records its commit. */
  lemma RecordIt(p: Path, t: Tid, n: nat) returns (q: Path)
    requires At(p, t, Passing(t, n).(logged := {R}, stored := {R}), Cell(t, t, 1)) && n < |p.end.hist|
    ensures Extends(p, q, t) && At(q, t, Recording(t, n), Cell(t, t, 1))
    ensures q.end.hist == p.end.hist[n := p.end.hist[n].(verdict := Recorded)]
  {
    hide Valid;
    q := Hop(p, t, Flush(R), Recording(t, n).(pc := Writing), Cell(t, t, 1));
    q := Hop(q, t, Record, Recording(t, n), Cell(t, t, 1));
  }

  function Recording(t: Tid, n: nat): (x: Txn) {
    Passing(t, n).(pc := Releasing, logged := {R}, stored := {R}, flushed := {R})
  }

  /** It lets go of its lock. */
  lemma ReleaseIt(p: Path, t: Tid, n: nat) returns (q: Path)
    requires At(p, t, Recording(t, n), Cell(t, t, 1))
    ensures Extends(p, q, t) && O in q.end.cells && q.end.cells[O] == Cell(t, 0, 0) && q.end.hist == p.end.hist
  {
    hide Valid;
    q := Hop(p, t, Drop(R), Recording(t, n).(pc := Free(R), held := {}), Cell(t, t, 0));
    q := Hop(q, t, FreeOwner, Recording(t, n).(held := {}), Cell(t, 0, 0));
  }

  lemma BothRead() returns (q: Path)
    ensures At(q, 1, Ready(1), Cell(0, 0, 0)) && At(q, 2, Ready(2), Cell(0, 0, 0))
    ensures q.end.init == map[R := 0] && q.end.hist == []
  {
    q := Path([], Start());
    q := ReadWrite(q, 1);
    q := ReadWrite(q, 2);
  }

  /** A ready transaction goes through its whole commit. */
  lemma CommitIt(p: Path, t: Tid) returns (q: Path)
    requires At(p, t, Ready(t), Cell(0, 0, 0)) && p.end.hist == []
    ensures Extends(p, q, t) && O in q.end.cells && q.end.cells[O] == Cell(t, 0, 0)
    ensures q.end.hist == [Attempt(t, Ready(t).tags, Ready(t).trace, Recorded)]
  {
    hide Valid, Ready, Passing, Recording;
    q := LockIt(p, t, 0);
    q := PassIt(q, t, 0);
    q := LogIt(q, t, 0, 0);
    q := InstallIt(q, t, 0, 0);
    q := RecordIt(q, t, 0);
    q := ReleaseIt(q, t, 0);
  }

  lemma FirstUpdate() returns (q: Path)
    ensures At(q, 2, Ready(2), Cell(1, 0, 0)) && q.end.init == map[R := 0]
    ensures q.end.hist == [Attempt(1, Ready(1).tags, Ready(1).trace, Recorded)]
  {
    q := BothRead();
    q := CommitIt(q, 1);
  }

  lemma TwoUpdates() returns (q: Path)
    ensures Valid(q) && |q.end.hist| == 2 && q.end.init == map[R := 0]
    ensures q.end.hist[0] == Attempt(1, Ready(1).tags, Ready(1).trace, Recorded)
    ensures q.end.hist[1] == Attempt(2, Ready(2).tags, Ready(2).trace, Passed)
  {
    q := FirstUpdate();
    q := LockIt(q, 2, 1);
    q := PassIt(q, 2, 1);
  }

  /** `ReadsAreSerial` does not extend to tags that are also written: there is a run in which a
      committed attempt read a value that the serial execution no longer has at its turn. */
  lemma UpdateCanBeLost()
    ensures exists s: State, i :: Reachable(s) && 0 <= i < |s.hist| && Committed(s.hist[i])
              && R in s.hist[i].tags && s.hist[i].tags[R].wasRead && R in s.init
              && s.hist[i].tags[R].seen != Replay(s.init, s.hist[..i])[R]
  {
    var q := TwoUpdates();
    assert Init(Start());
    ReplayIsValueAt(q.end.init, q.end.hist, 1, R);
    assert LastWriter(q.end.hist, 1, R) == 0;
    assert q.end.hist[1].tags[R].seen == 0;
    assert Reachable(q.end);
  }
}
