/** A run in which a row is also locked by itself: the delete of it leaves its bucket locked. */
module TwoLockLeak {
  import opened TwoLock

  const R: Obj := RowObj(0)
  const B: Obj := BucketObj(0)

  function Start(): (s: State) {
    State(map[R := Cell(0, 0), B := Cell(0, 0)], map[0 := 0], map[1 := FRESH, 2 := FRESH], true)
  }

  /** A run from the start and the state it ends in. */
  datatype Path = Path(acts: seq<Action>, end: State)

  predicate Valid(p: Path) {
    CanRun(Start(), p.acts) && Run(Start(), p.acts) == p.end
  }

  lemma {:induction false} RunThen(s: State, es: seq<Action>, a: Action)
    requires CanRun(s, es) && a.t in Run(s, es).txns && CanMove(Run(s, es), a.t, a.m)
    ensures CanRun(s, es + [a]) && Run(s, es + [a]) == ApplyMove(Run(s, es), a.t, a.m)
    decreases |es|
  {
    if es == [] {
      assert es + [a] == [a] && [a][1..] == [];
      assert CanRun(ApplyMove(s, a.t, a.m), []);
    } else {
      assert (es + [a])[0] == es[0] && (es + [a])[1..] == es[1..] + [a];
      RunThen(ApplyMove(s, es[0].t, es[0].m), es[1..], a);
    }
  }

  /** `t` is in state `x`, and the two locks are as given. */
  predicate At(p: Path, t: Tid, x: Txn, row: Cell, bucket: Cell) {
    && Valid(p) && t in p.end.txns && p.end.txns[t] == x && p.end.home == map[0 := 0] && p.end.direct
    && R in p.end.cells && p.end.cells[R] == row && B in p.end.cells && p.end.cells[B] == bucket
  }

  ghost predicate Extends(p: Path, q: Path, t: Tid) {
    forall u :: u in p.end.txns && u != t ==> u in q.end.txns && q.end.txns[u] == p.end.txns[u]
  }

  lemma Hop(p: Path, t: Tid, m: Move, x: Txn, row: Cell, bucket: Cell, x': Txn) returns (q: Path)
    requires At(p, t, x, row, bucket) && CanMove(p.end, t, m) && NextTxn(p.end, t, m) == x'
    ensures var o := ObjOf(map[0 := 0], PartOf(x, m));
            At(q, t, x', if TouchesCell(m) && o == R then NextCell(row, t, m) else row,
               if TouchesCell(m) && o == B then NextCell(bucket, t, m) else bucket)
    ensures Extends(p, q, t)
  {
    RunThen(Start(), p.acts, Action(t, m));
    q := Path(p.acts + [Action(t, m)], ApplyMove(p.end, t, m));
  }

  const WANTS: Txn := FRESH.(tags := {RWrite(0)})
  const WRITER: Txn := Txn(Locking, {RWrite(0)}, {RWrite(0)}, {Part(RWrite(0), true)}, Clean, map[])

  /** Transaction 1 locks the row. */
  lemma LockRow(p: Path) returns (q: Path)
    requires At(p, 1, FRESH, Cell(0, 0), Cell(0, 0))
    ensures At(q, 1, WRITER, Cell(1, 1), Cell(0, 0)) && Extends(p, q, 1)
  {
    hide Valid;
    q := Hop(p, 1, Add(RWrite(0)), FRESH, Cell(0, 0), Cell(0, 0), WANTS);
    q := Hop(q, 1, TryLock, WANTS, Cell(0, 0), Cell(0, 0), WANTS.(pc := Locking));
    q := Hop(q, 1, Cas(RWrite(0)), WANTS.(pc := Locking), Cell(0, 0), Cell(0, 0), WANTS.(pc := Bump(Part(RWrite(0), true))));
    q := Hop(q, 1, BumpCount, WANTS.(pc := Bump(Part(RWrite(0), true))), Cell(1, 0), Cell(0, 0), WRITER);
  }

  const DELETES: Txn := FRESH.(tags := {Delete(0)})
  const HALF: Txn := DELETES.(pc := Second(0), held := {Part(Delete(0), false)})
  const FAILED: Txn := HALF.(pc := Releasing, fail := Half(0))

  /** Transaction 2 locks the bucket to delete the row. */
  lemma LockBucket(p: Path) returns (q: Path)
    requires At(p, 2, FRESH, Cell(1, 1), Cell(0, 0))
    ensures At(q, 2, HALF, Cell(1, 1), Cell(2, 1))
  {
    hide Valid;
    var mid := DELETES.(pc := Bump(Part(Delete(0), false)));
    q := Hop(p, 2, Add(Delete(0)), FRESH, Cell(1, 1), Cell(0, 0), DELETES);
    q := Hop(q, 2, TryLock, DELETES, Cell(1, 1), Cell(0, 0), DELETES.(pc := Locking));
    q := Hop(q, 2, Cas(Delete(0)), DELETES.(pc := Locking), Cell(1, 1), Cell(0, 0), mid);
    q := Hop(q, 2, BumpCount, mid, Cell(1, 1), Cell(2, 0), HALF);
  }

  /** It cannot lock the row, and its attempt ends. */
  lemma FailRow(p: Path) returns (q: Path)
    requires At(p, 2, HALF, Cell(1, 1), Cell(2, 1))
    ensures At(q, 2, FRESH.(left := map[B := 1]), Cell(1, 1), Cell(2, 1))
  {
    hide Valid;
    q := Hop(p, 2, CasRowFail, HALF, Cell(1, 1), Cell(2, 1), FAILED);
    q := Hop(q, 2, Finish, FAILED, Cell(1, 1), Cell(2, 1), FRESH.(left := map[B := 1]));
  }

  /** `NothingLeftBehind` needs that rows are locked only by deletes: between attempts a
      transaction can own a bucket, which `TwoLock.LeakStays` says is for ever. */
  lemma LeakIsPossible()
    ensures exists s: State :: Reachable(s) && 2 in s.txns && s.txns[2].pc.Exec? && LeftOn(s.txns[2], B) > 0
              && B in s.cells && s.cells[B].owner == 2
  {
    var q := Path([], Start());
    q := LockRow(q);
    q := LockBucket(q);
    q := FailRow(q);
    assert Init(Start());
    assert Reachable(q.end);
  }
}
