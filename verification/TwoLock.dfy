/** The two-lock delete of `NewOrderRef`: `lock` takes the lock of the bucket and then that of the
    row, `unlock` releases the row and then the bucket.  A tag whose second lock fails does not
    count as locked, so its first lock is never released; the question is whether that happens. */
module TwoLock {

  type Tid = nat
  type RowId = nat

  datatype Obj = RowObj(r: RowId) | BucketObj(b: nat)

  /** `Push` locks the bucket, `Delete` the bucket and the row, `RWrite` the row. */
  datatype Tag = Push(r: RowId) | Delete(r: RowId) | RWrite(r: RowId)

  /** One of the locks of a tag. */
  datatype Part = Part(tag: Tag, onRow: bool)

  datatype Cell = Cell(owner: Tid, count: int)

  datatype Pc =
    | Exec
    | Locking            // lock(): between tags
    | Bump(p: Part)      // TVersion::lock: owner set, count not yet raised
    | Second(r: RowId)   // Delete: bucket locked, row not yet
    | Releasing          // clean_up(): between tags
    | Free(p: Part)      // TVersion::unlock: count is 0, owner not yet cleared
    | Rest(r: RowId)     // Delete: row unlocked, bucket not yet

  /** Whether the attempt has a delete whose second lock failed. */
  datatype Fail = Clean | Half(r: RowId)

  /** `locked` are the tags with `is_lock_` set; `left` counts the locks that earlier attempts of
      the transaction have left behind. */
  datatype Txn = Txn(pc: Pc, tags: set<Tag>, locked: set<Tag>, held: set<Part>, fail: Fail, left: map<Obj, nat>)

  const FRESH: Txn := Txn(Exec, {}, {}, {}, Clean, map[])

  function LeftOn(x: Txn, o: Obj): (n: nat) {
    if o in x.left then x.left[o] else 0
  }

  /** `home` is the bucket of each row; `direct` says whether rows are also locked by themselves. */
  datatype State = State(cells: map<Obj, Cell>, home: map<RowId, nat>, txns: map<Tid, Txn>, direct: bool)

  datatype Move =
    | Add(tag: Tag) | TryLock | Cas(tag: Tag) | CasFail(tag: Tag) | BumpCount | CasRow | CasRowFail
    | LocksDone | Drop(tag: Tag) | DropRest | FreeOwner | Finish

  datatype Action = Action(t: Tid, m: Move)

  ghost predicate Init(s: State) {
    && (forall o :: o in s.cells ==> s.cells[o] == Cell(0, 0))
    && (forall t :: t in s.txns ==> t != 0 && s.txns[t] == FRESH)
    && (forall r :: r in s.home ==> RowObj(r) in s.cells && BucketObj(s.home[r]) in s.cells)
  }

  function ObjOf(home: map<RowId, nat>, p: Part): Obj {
    if p.onRow || p.tag.r !in home then RowObj(p.tag.r) else BucketObj(home[p.tag.r])
  }

  /** The lock a tag takes first, and the one it releases first. */
  function First(tag: Tag): Part {
    Part(tag, tag.RWrite?)
  }

  function Top(tag: Tag): Part {
    Part(tag, !tag.Push?)
  }

  predicate Lockable(s: State, t: Tid, p: Part) {
    ObjOf(s.home, p) in s.cells && (s.cells[ObjOf(s.home, p)].owner == 0 || s.cells[ObjOf(s.home, p)].owner == t)
  }

  predicate Taken(s: State, t: Tid, p: Part) {
    ObjOf(s.home, p) in s.cells && s.cells[ObjOf(s.home, p)].owner != 0 && s.cells[ObjOf(s.home, p)].owner != t
  }

  predicate CanMove(s: State, t: Tid, m: Move)
    requires t in s.txns
  {
    var x := s.txns[t];
    match m
    case Add(tag) => x.pc.Exec? && tag.r in s.home && (tag.RWrite? ==> s.direct)
    case TryLock => x.pc.Exec?
    case Cas(tag) => x.pc.Locking? && tag in x.tags - x.locked && Lockable(s, t, First(tag))
    case CasFail(tag) => x.pc.Locking? && tag in x.tags - x.locked && Taken(s, t, First(tag))
    case BumpCount => x.pc.Bump? && ObjOf(s.home, x.pc.p) in s.cells
    case CasRow => x.pc.Second? && Lockable(s, t, Part(Delete(x.pc.r), true))
    case CasRowFail => x.pc.Second? && Taken(s, t, Part(Delete(x.pc.r), true))
    case LocksDone => x.pc.Locking? && x.tags <= x.locked
    case Drop(tag) => x.pc.Releasing? && tag in x.locked && ObjOf(s.home, Top(tag)) in s.cells
    case DropRest => x.pc.Rest? && ObjOf(s.home, Part(Delete(x.pc.r), false)) in s.cells
    case FreeOwner => x.pc.Free? && ObjOf(s.home, x.pc.p) in s.cells
    case Finish => x.pc.Releasing? && x.locked == {}
  }

  /** Where a transaction goes on once `p` is locked. */
  function AfterLock(x: Txn, p: Part): Txn {
    if p.tag.Delete? && !p.onRow then x.(pc := Second(p.tag.r), held := x.held + {p})
    else x.(pc := Locking, held := x.held + {p}, locked := x.locked + {p.tag})
  }

  /** Where it goes on once `p` is unlocked. */
  function AfterUnlock(p: Part): Pc {
    if p.tag.Delete? && p.onRow then Rest(p.tag.r) else Releasing
  }

  function Unlocked(s: State, x: Txn, p: Part): Txn
    requires ObjOf(s.home, p) in s.cells
  {
    x.(pc := if s.cells[ObjOf(s.home, p)].count == 1 then Free(p) else AfterUnlock(p), held := x.held - {p})
  }

  /** What is left behind after an attempt, which is then retried. */
  function LeftAfter(home: map<RowId, nat>, x: Txn): (left: map<Obj, nat>) {
    if x.fail.Clean? || x.fail.r !in home then x.left
    else x.left[BucketObj(home[x.fail.r]) := LeftOn(x, BucketObj(home[x.fail.r])) + 1]
  }

  function NextTxn(s: State, t: Tid, m: Move): Txn
    requires t in s.txns && CanMove(s, t, m)
  {
    var x := s.txns[t];
    match m
    case Add(tag) => x.(tags := x.tags + {tag})
    case TryLock => x.(pc := Locking)
    case Cas(tag) => x.(pc := Bump(First(tag)))
    case CasFail(_) => x.(pc := Releasing)
    case BumpCount => AfterLock(x, x.pc.p)
    case CasRow => x.(pc := Bump(Part(Delete(x.pc.r), true)))
    case CasRowFail => x.(pc := Releasing, fail := Half(x.pc.r))
    case LocksDone => x.(pc := Releasing)
    case Drop(tag) => Unlocked(s, x.(locked := x.locked - {tag}), Top(tag))
    case DropRest => Unlocked(s, x, Part(Delete(x.pc.r), false))
    case FreeOwner => x.(pc := AfterUnlock(x.pc.p))
    case Finish => FRESH.(left := LeftAfter(s.home, x))
  }

  /** The lock a move is about. */
  function PartOf(x: Txn, m: Move): (p: Part) {
    match m
    case Cas(tag) => First(tag)
    case Drop(tag) => Top(tag)
    case DropRest => if x.pc.Rest? then Part(Delete(x.pc.r), false) else First(Push(0))
    case CasRow => if x.pc.Second? then Part(Delete(x.pc.r), true) else First(Push(0))
    case _ => if x.pc.Bump? || x.pc.Free? then x.pc.p else First(Push(0))
  }

  predicate TouchesCell(m: Move) {
    m.Cas? || m.CasRow? || m.BumpCount? || m.Drop? || m.DropRest? || m.FreeOwner?
  }

  function NextCell(c: Cell, t: Tid, m: Move): Cell {
    match m
    case Cas(_) => c.(owner := t)
    case CasRow => c.(owner := t)
    case BumpCount => c.(count := c.count + 1)
    case Drop(_) => c.(count := c.count - 1)
    case DropRest => c.(count := c.count - 1)
    case FreeOwner => c.(owner := 0)
    case _ => c
  }

  function ApplyMove(s: State, t: Tid, m: Move): State
    requires t in s.txns && CanMove(s, t, m)
  {
    var o := ObjOf(s.home, PartOf(s.txns[t], m));
    s.(cells := if TouchesCell(m) && o in s.cells then s.cells[o := NextCell(s.cells[o], t, m)] else s.cells,
       txns := s.txns[t := NextTxn(s, t, m)])
  }

  predicate CanRun(s: State, es: seq<Action>)
    decreases |es|
  {
    es == [] || (es[0].t in s.txns && CanMove(s, es[0].t, es[0].m) && CanRun(ApplyMove(s, es[0].t, es[0].m), es[1..]))
  }

  function Run(s: State, es: seq<Action>): State
    requires CanRun(s, es)
    decreases |es|
  {
    if es == [] then s else Run(ApplyMove(s, es[0].t, es[0].m), es[1..])
  }

  ghost predicate Reachable(s: State) {
    exists s0, es :: Init(s0) && CanRun(s0, es) && Run(s0, es) == s
  }

  // ----- one transaction by itself -----

  /** The locks of a tag. */
  predicate IsPart(p: Part) {
    match p.tag
    case Push(_) => !p.onRow
    case RWrite(_) => p.onRow
    case Delete(_) => true
  }

  /** `p` belongs to a locked tag, to the tag being locked or unlocked, or to a failed delete. */
  predicate Accounted(x: Txn, p: Part) {
    || p.tag in x.locked
    || (!p.onRow && x.fail == Half(p.tag.r) && p.tag.Delete?)
    || (x.pc == Second(p.tag.r) && p == Part(Delete(p.tag.r), false))
    || (x.pc.Bump? && x.pc.p.onRow && p.tag == x.pc.p.tag && p.tag.Delete? && !p.onRow)
    || (x.pc.Free? && x.pc.p.onRow && p.tag == x.pc.p.tag && p.tag.Delete? && !p.onRow)
    || (x.pc == Rest(p.tag.r) && p == Part(Delete(p.tag.r), false))
  }

  /** The locks held are exactly those accounted for. */
  ghost predicate HeldOk(x: Txn) {
    && (forall p :: p in x.held <==> IsPart(p) && Accounted(x, p))
    && (x.fail.Half? ==> Delete(x.fail.r) !in x.locked && (x.pc.Releasing? || x.pc.Free? || x.pc.Rest?))
  }

  predicate PcOk(x: Txn) {
    match x.pc
    case Exec => x.locked == {}
    case Bump(p) => IsPart(p) && p.tag !in x.locked
    case Second(r) => Delete(r) !in x.locked
    case Free(p) => IsPart(p) && p.tag !in x.locked && !(p.tag.Delete? && x.fail == Half(p.tag.r))
    case Rest(r) => Delete(r) !in x.locked && x.fail != Half(r)
    case _ => true
  }

  lemma PcStep(s: State, t: Tid, m: Move)
    requires t in s.txns && CanMove(s, t, m) && PcOk(s.txns[t]) && HeldOk(s.txns[t])
    ensures PcOk(NextTxn(s, t, m))
  {
  }

  lemma HeldStep(s: State, t: Tid, m: Move)
    requires t in s.txns && CanMove(s, t, m) && PcOk(s.txns[t]) && HeldOk(s.txns[t])
    ensures HeldOk(NextTxn(s, t, m))
  {
  }

  /** Every tag in play is of a known row, and a row's own tag only when there are such. */
  predicate TagOk(s: State, tag: Tag) {
    tag.r in s.home && (tag.RWrite? ==> s.direct)
  }

  ghost predicate TagsOk(s: State, x: Txn) {
    && (forall tag :: tag in x.tags ==> TagOk(s, tag))
    && (forall p :: p in x.held ==> TagOk(s, p.tag))
    && (x.pc.Bump? || x.pc.Free? ==> TagOk(s, x.pc.p.tag))
    && (x.pc.Second? || x.pc.Rest? ==> x.pc.r in s.home)
    && (x.fail.Half? ==> x.fail.r in s.home)
    && (forall tag :: tag in x.locked ==> TagOk(s, tag))
  }

  lemma TagsStep(s: State, t: Tid, m: Move)
    requires t in s.txns && CanMove(s, t, m) && TagsOk(s, s.txns[t])
    ensures TagsOk(ApplyMove(s, t, m), NextTxn(s, t, m))
  {
  }

  // ----- transactions and locks -----

  /** The locks that a transaction holds on one object: those of several tags of one bucket. */
  function Parts(home: map<RowId, nat>, x: Txn, o: Obj): set<Part> {
    set p | p in x.held && ObjOf(home, p) == o
  }

  /** The transaction is between the two steps of taking or releasing a lock on `o`. */
  predicate Midway(home: map<RowId, nat>, x: Txn, o: Obj) {
    (x.pc.Bump? || x.pc.Free?) && ObjOf(home, x.pc.p) == o
  }

  predicate PairOk(home: map<RowId, nat>, t: Tid, x: Txn, o: Obj, c: Cell) {
    && (c.owner == t <==> Parts(home, x, o) != {} || Midway(home, x, o) || LeftOn(x, o) > 0)
    && (c.owner == t ==> c.count == |Parts(home, x, o)| + LeftOn(x, o))
    && (x.pc.Free? && Midway(home, x, o) ==> Parts(home, x, o) == {} && LeftOn(x, o) == 0)
  }

  predicate CellOk(c: Cell) {
    c.owner == 0 ==> c.count == 0
  }

  ghost predicate TxnOk(s: State, x: Txn) {
    PcOk(x) && HeldOk(x) && TagsOk(s, x)
  }

  ghost predicate OwnersKnown(s: State) {
    forall o :: o in s.cells ==> s.cells[o].owner == 0 || s.cells[o].owner in s.txns
  }

  ghost predicate Inv(s: State) {
    && 0 !in s.txns && OwnersKnown(s) && RowsFree(s)
    && (forall r :: r in s.home ==> RowObj(r) in s.cells && BucketObj(s.home[r]) in s.cells)
    && (forall t :: t in s.txns ==> TxnOk(s, s.txns[t]))
    && (forall o :: o in s.cells ==> CellOk(s.cells[o]))
    && (forall t, o :: t in s.txns && o in s.cells ==> PairOk(s.home, t, s.txns[t], o, s.cells[o]))
  }

  /** The mover, on the lock its move is about. */
  lemma PairTake(s: State, t: Tid, m: Move)
    requires t in s.txns && t != 0 && CanMove(s, t, m) && PcOk(s.txns[t]) && HeldOk(s.txns[t]) && (m.Cas? || m.CasRow? || m.BumpCount?)
    requires var o := ObjOf(s.home, PartOf(s.txns[t], m)); o in s.cells && PairOk(s.home, t, s.txns[t], o, s.cells[o]) && CellOk(s.cells[o])
    ensures var o := ObjOf(s.home, PartOf(s.txns[t], m)); PairOk(s.home, t, NextTxn(s, t, m), o, NextCell(s.cells[o], t, m))
  {
    var x, y, p := s.txns[t], NextTxn(s, t, m), PartOf(s.txns[t], m);
    var o := ObjOf(s.home, p);
    if m.BumpCount? {
      assert p !in x.held;
      assert Parts(s.home, y, o) == Parts(s.home, x, o) + {p};
    } else {
      assert Parts(s.home, y, o) == Parts(s.home, x, o);
    }
  }

  lemma PairDrop(s: State, t: Tid, m: Move)
    requires t in s.txns && t != 0 && CanMove(s, t, m) && PcOk(s.txns[t]) && HeldOk(s.txns[t]) && (m.Drop? || m.DropRest? || m.FreeOwner?)
    requires var o := ObjOf(s.home, PartOf(s.txns[t], m)); o in s.cells && PairOk(s.home, t, s.txns[t], o, s.cells[o]) && CellOk(s.cells[o])
    ensures var o := ObjOf(s.home, PartOf(s.txns[t], m)); PairOk(s.home, t, NextTxn(s, t, m), o, NextCell(s.cells[o], t, m))
  {
    var x, y, p := s.txns[t], NextTxn(s, t, m), PartOf(s.txns[t], m);
    var o := ObjOf(s.home, p);
    if m.FreeOwner? {
      assert Parts(s.home, y, o) == Parts(s.home, x, o) == {};
    } else {
      assert p in x.held && p in Parts(s.home, x, o);
      assert Parts(s.home, y, o) == Parts(s.home, x, o) - {p};
      assert |Parts(s.home, y, o)| == |Parts(s.home, x, o)| - 1;
    }
  }

  /** The mover, on any other lock. */
  lemma PairAlone(s: State, t: Tid, m: Move, o: Obj)
    requires t in s.txns && CanMove(s, t, m) && o in s.cells && PairOk(s.home, t, s.txns[t], o, s.cells[o])
    requires HeldOk(s.txns[t]) && TagsOk(s, s.txns[t]) && (TouchesCell(m) ==> ObjOf(s.home, PartOf(s.txns[t], m)) != o)
    ensures PairOk(s.home, t, NextTxn(s, t, m), o, s.cells[o])
  {
    if m.Finish? {
      PairFinish(s, t, o);
    } else {
      assert Parts(s.home, NextTxn(s, t, m), o) == Parts(s.home, s.txns[t], o);
    }
  }

  /** What an attempt still holds at its end is left behind, under the same id. */
  lemma PairFinish(s: State, t: Tid, o: Obj)
    requires t in s.txns && CanMove(s, t, Finish) && o in s.cells && PairOk(s.home, t, s.txns[t], o, s.cells[o])
    requires HeldOk(s.txns[t]) && TagsOk(s, s.txns[t])
    ensures PairOk(s.home, t, NextTxn(s, t, Finish), o, s.cells[o])
  {
    var x, y := s.txns[t], NextTxn(s, t, Finish);
    assert Parts(s.home, y, o) == {};
    if x.fail.Half? && o == BucketObj(s.home[x.fail.r]) {
      assert Part(Delete(x.fail.r), false) in x.held;
      assert Parts(s.home, x, o) == {Part(Delete(x.fail.r), false)};
    } else {
      assert Parts(s.home, x, o) == {};
    }
  }

  /** Anybody else, on the lock the move is about. */
  lemma PairOther(s: State, t: Tid, m: Move, u: Tid, x: Txn, o: Obj)
    requires t in s.txns && t != 0 && CanMove(s, t, m) && TouchesCell(m) && u != t && u != 0 && HeldOk(s.txns[t])
    requires o == ObjOf(s.home, PartOf(s.txns[t], m)) && o in s.cells && PairOk(s.home, t, s.txns[t], o, s.cells[o])
    requires PairOk(s.home, u, x, o, s.cells[o])
    ensures PairOk(s.home, u, x, o, NextCell(s.cells[o], t, m))
  {
    var p := PartOf(s.txns[t], m);
    assert p in s.txns[t].held ==> p in Parts(s.home, s.txns[t], o);
  }

  lemma CellStep(s: State, t: Tid, m: Move, o: Obj)
    requires t in s.txns && t != 0 && CanMove(s, t, m) && TouchesCell(m) && HeldOk(s.txns[t])
    requires o == ObjOf(s.home, PartOf(s.txns[t], m)) && o in s.cells && CellOk(s.cells[o])
    requires PairOk(s.home, t, s.txns[t], o, s.cells[o])
    ensures CellOk(NextCell(s.cells[o], t, m))
  {
    var p := PartOf(s.txns[t], m);
    assert p in s.txns[t].held ==> p in Parts(s.home, s.txns[t], o);
  }

  lemma PairStep(s: State, t: Tid, m: Move, u: Tid, o: Obj)
    requires t in s.txns && CanMove(s, t, m) && Inv(s) && u in s.txns && o in s.cells && o in ApplyMove(s, t, m).cells
    ensures PairOk(s.home, u, ApplyMove(s, t, m).txns[u], o, ApplyMove(s, t, m).cells[o])
    ensures CellOk(ApplyMove(s, t, m).cells[o])
  {
    assert PairOk(s.home, t, s.txns[t], o, s.cells[o]) && PairOk(s.home, u, s.txns[u], o, s.cells[o]);
    assert TxnOk(s, s.txns[t]) && CellOk(s.cells[o]);
    if TouchesCell(m) && ObjOf(s.home, PartOf(s.txns[t], m)) == o {
      CellStep(s, t, m, o);
      if u != t {
        PairOther(s, t, m, u, s.txns[u], o);
      } else if m.Cas? || m.CasRow? || m.BumpCount? {
        PairTake(s, t, m);
      } else {
        PairDrop(s, t, m);
      }
    } else if u == t {
      PairAlone(s, t, m, o);
    }
  }

  lemma TxnStep(s: State, t: Tid, m: Move, u: Tid)
    requires t in s.txns && CanMove(s, t, m) && u in s.txns && TxnOk(s, s.txns[t]) && TxnOk(s, s.txns[u])
    ensures TxnOk(ApplyMove(s, t, m), ApplyMove(s, t, m).txns[u])
  {
    if u == t {
      PcStep(s, t, m);
      HeldStep(s, t, m);
      TagsStep(s, t, m);
    }
  }

  lemma InvStep(s: State, t: Tid, m: Move)
    requires t in s.txns && CanMove(s, t, m) && Inv(s)
    ensures Inv(ApplyMove(s, t, m))
  {
    var s' := ApplyMove(s, t, m);
    forall u | u in s'.txns ensures TxnOk(s', s'.txns[u]) {
      TxnStep(s, t, m, u);
    }
    forall u, o | u in s'.txns && o in s'.cells ensures PairOk(s'.home, u, s'.txns[u], o, s'.cells[o]) {
      PairStep(s, t, m, u, o);
    }
    forall o | o in s'.cells ensures CellOk(s'.cells[o]) {
      PairStep(s, t, m, t, o);
    }
  }

  lemma {:induction false} RunKeepsInv(s: State, es: seq<Action>)
    requires Inv(s) && CanRun(s, es)
    ensures Inv(Run(s, es))
    decreases |es|
  {
    if es != [] {
      InvStep(s, es[0].t, es[0].m);
      RunKeepsInv(ApplyMove(s, es[0].t, es[0].m), es[1..]);
    }
  }

  lemma InvInit(s: State)
    requires Init(s)
    ensures Inv(s)
  {
    forall t, o | t in s.txns && o in s.cells ensures PairOk(s.home, t, s.txns[t], o, s.cells[o]) {
      assert Parts(s.home, FRESH, o) == {};
    }
  }

  lemma ReachableInv(s: State)
    requires Reachable(s)
    ensures Inv(s)
  {
    var s0, es :| Init(s0) && CanRun(s0, es) && Run(s0, es) == s;
    InvInit(s0);
    RunKeepsInv(s0, es);
  }

  // ----- what follows -----

  /** A lock's count is the number of its owner's tags that hold it, also when several pushes and
      deletes of one transaction share a bucket, and of the locks its attempts have left behind. */
  lemma CountIsTags(s: State, o: Obj, t: Tid)
    requires Reachable(s) && o in s.cells && t in s.txns && s.cells[o].owner == t
    ensures s.cells[o].count == |Parts(s.home, s.txns[t], o)| + LeftOn(s.txns[t], o)
  {
    ReachableInv(s);
    assert PairOk(s.home, t, s.txns[t], o, s.cells[o]);
  }

  lemma Ownership(s: State, o: Obj, t: Tid)
    requires Inv(s) && t in s.txns && o in s.cells
    ensures PairOk(s.home, t, s.txns[t], o, s.cells[o]) && TxnOk(s, s.txns[t])
  {
  }

  /** `u` has the lock of `o`: by a tag, on the way to or from one, or left behind. */
  predicate HasLock(s: State, u: Tid, o: Obj) {
    u in s.txns && (Parts(s.home, s.txns[u], o) != {} || Midway(s.home, s.txns[u], o) || LeftOn(s.txns[u], o) > 0)
  }

  /** The first lock of a tag fails if and only if another transaction has it, and else can be
      taken: again, if this one has it by another tag or has left it behind. */
  lemma FirstLockFailsIff(s: State, t: Tid, tag: Tag)
    requires Inv(s) && t in s.txns && s.txns[t].pc.Locking? && tag in s.txns[t].tags - s.txns[t].locked
    ensures CanMove(s, t, CasFail(tag)) <==> exists u :: u != t && HasLock(s, u, ObjOf(s.home, First(tag)))
    ensures CanMove(s, t, Cas(tag)) <==> !CanMove(s, t, CasFail(tag))
  {
    var o := ObjOf(s.home, First(tag));
    assert TxnOk(s, s.txns[t]) && TagOk(s, tag);
    assert o in s.cells;
    var w := s.cells[o].owner;
    LockIs(s, o, w);
    assert CanMove(s, t, CasFail(tag)) <==> w != 0 && w != t;
    hide Inv, HasLock, CanMove;
    forall u | u != t && HasLock(s, u, o) ensures CanMove(s, t, CasFail(tag)) {
      LockIs(s, o, u);
    }
  }

  lemma LockIs(s: State, o: Obj, u: Tid)
    requires Inv(s) && o in s.cells
    ensures HasLock(s, u, o) <==> u != 0 && s.cells[o].owner == u
  {
    if u in s.txns {
      Ownership(s, o, u);
    }
  }

  /** Rows are never left behind. */
  ghost predicate RowsFree(s: State) {
    forall t, r :: t in s.txns ==> LeftOn(s.txns[t], RowObj(r)) == 0
  }

  /** If rows are locked only by deletes, the owner of a row owns its bucket. */
  lemma RowOwnerOwnsBucket(s: State, r: RowId, t: Tid)
    requires Inv(s) && !s.direct && r in s.home && t in s.txns && s.cells[RowObj(r)].owner == t
    ensures s.cells[BucketObj(s.home[r])].owner == t
  {
    RowOwner(s, r, t);
    NobodyDirectly(s, t, r);
    FirstOwnsBucket(s, r, t);
  }

  lemma FirstOwnsBucket(s: State, r: RowId, t: Tid)
    requires Inv(s) && r in s.home && t in s.txns && Part(Delete(r), false) in s.txns[t].held
    ensures s.cells[BucketObj(s.home[r])].owner == t
  {
    Ownership(s, BucketObj(s.home[r]), t);
    assert Part(Delete(r), false) in Parts(s.home, s.txns[t], BucketObj(s.home[r]));
  }

  lemma SecondHasFirst(s: State, t: Tid)
    requires Inv(s) && t in s.txns && s.txns[t].pc.Second?
    ensures s.txns[t].pc.r in s.home && Part(Delete(s.txns[t].pc.r), false) in s.txns[t].held
  {
    assert TxnOk(s, s.txns[t]);
  }

  /** `u` has the row locked by a tag of the row itself. */
  predicate OwnsDirectly(s: State, u: Tid, r: RowId)
    requires u in s.txns
  {
    var x, p := s.txns[u], Part(RWrite(r), true);
    p in x.held || x.pc == Bump(p) || x.pc == Free(p)
  }

  /** Who owns a row has it locked by a tag of its own or by a delete, whose bucket it owns too. */
  lemma RowOwner(s: State, r: RowId, u: Tid)
    requires Inv(s) && r in s.home && u in s.txns && s.cells[RowObj(r)].owner == u
    ensures OwnsDirectly(s, u, r) || Part(Delete(r), false) in s.txns[u].held
  {
    var x := s.txns[u];
    Ownership(s, RowObj(r), u);
    assert LeftOn(x, RowObj(r)) == 0;
    if Parts(s.home, x, RowObj(r)) != {} {
      var p :| p in Parts(s.home, x, RowObj(r));
      assert p == Part(RWrite(r), true) || p == Part(Delete(r), true);
    } else {
      assert x.pc.p == Part(RWrite(r), true) || x.pc.p == Part(Delete(r), true);
    }
  }

  lemma DirectOwner(s: State, r: RowId, u: Tid)
    requires Inv(s) && r in s.home && u in s.txns && OwnsDirectly(s, u, r)
    ensures s.cells[RowObj(r)].owner == u
  {
    var p := Part(RWrite(r), true);
    Ownership(s, RowObj(r), u);
    assert p in s.txns[u].held ==> p in Parts(s.home, s.txns[u], RowObj(r));
  }

  /** The second lock of a delete fails, after the first has succeeded, if and only if another
      transaction has the row locked by a tag of the row itself. */
  lemma SecondLockFailsIff(s: State, t: Tid)
    requires Inv(s) && t in s.txns && s.txns[t].pc.Second?
    ensures CanMove(s, t, CasRowFail) <==> exists u :: u in s.txns && u != t && OwnsDirectly(s, u, s.txns[t].pc.r)
  {
    var r := s.txns[t].pc.r;
    SecondHasFirst(s, t);
    FirstOwnsBucket(s, r, t);
    var u := s.cells[RowObj(r)].owner;
    if u != 0 && u != t {
      RowOwner(s, r, u);
      if Part(Delete(r), false) in s.txns[u].held {
        FirstOwnsBucket(s, r, u);
      }
      assert OwnsDirectly(s, u, r);
    }
    forall v | v in s.txns && v != t && OwnsDirectly(s, v, r) ensures CanMove(s, t, CasRowFail) {
      DirectOwner(s, r, v);
    }
  }

  lemma NobodyDirectly(s: State, u: Tid, r: RowId)
    requires Inv(s) && !s.direct && u in s.txns
    ensures !OwnsDirectly(s, u, r)
  {
    assert TxnOk(s, s.txns[u]);
    var p := Part(RWrite(r), true);
    assert p in s.txns[u].held ==> TagOk(s, p.tag);
  }

  /** So if rows are locked only by deletes the second lock never fails. */
  lemma SecondLockSucceeds(s: State, t: Tid)
    requires Inv(s) && !s.direct && t in s.txns
    ensures !CanMove(s, t, CasRowFail)
  {
    if s.txns[t].pc.Second? {
      SecondLockFailsIff(s, t);
      forall u | u in s.txns ensures !OwnsDirectly(s, u, s.txns[t].pc.r) {
        NobodyDirectly(s, u, s.txns[t].pc.r);
      }
    }
  }

  ghost predicate NoneFailed(s: State) {
    forall t :: t in s.txns ==> s.txns[t].fail.Clean? && s.txns[t].left == map[]
  }

  lemma {:induction false} NothingFails(s: State, es: seq<Action>)
    requires Inv(s) && !s.direct && NoneFailed(s) && CanRun(s, es)
    ensures NoneFailed(Run(s, es))
    decreases |es|
  {
    if es != [] {
      SecondLockSucceeds(s, es[0].t);
      InvStep(s, es[0].t, es[0].m);
      NothingFails(ApplyMove(s, es[0].t, es[0].m), es[1..]);
    }
  }

  /** When an attempt has released its tags, what it still holds is the bucket lock of the delete
      whose second lock failed, if there is one. */
  lemma LeftBehind(s: State, t: Tid, p: Part)
    requires Reachable(s) && t in s.txns && CanMove(s, t, Finish)
    ensures p in s.txns[t].held <==> !p.onRow && p.tag.Delete? && s.txns[t].fail == Half(p.tag.r)
  {
    ReachableInv(s);
    assert TxnOk(s, s.txns[t]);
  }

  /** Between attempts a transaction owns exactly the locks that such attempts have left behind. */
  lemma OwnsWhatIsLeft(s: State, t: Tid, o: Obj)
    requires Reachable(s) && t in s.txns && s.txns[t].pc.Exec? && o in s.cells
    ensures s.cells[o].owner == t <==> LeftOn(s.txns[t], o) > 0
    ensures s.cells[o].owner == t ==> s.cells[o].count == LeftOn(s.txns[t], o)
  {
    ReachableInv(s);
    assert TxnOk(s, s.txns[t]);
    Ownership(s, o, t);
    NothingHeld(s.txns[t]);
    assert Parts(s.home, s.txns[t], o) == {};
  }

  lemma NothingHeld(x: Txn)
    requires PcOk(x) && HeldOk(x) && x.pc.Exec?
    ensures x.held == {}
  {
    assert forall p :: p !in x.held;
  }

  /** If rows are locked only by deletes, a transaction that is done releasing, after an abort at
      any point or a commit, owns nothing: locking two objects is all or nothing. */
  lemma NothingLeftBehind(s: State, t: Tid, o: Obj)
    requires Reachable(s) && !s.direct && t in s.txns && CanMove(s, t, Finish) && o in s.cells
    ensures s.txns[t].held == {} && s.cells[o].owner != t
  {
    NoneHasFailed(s);
    forall p ensures p !in s.txns[t].held {
      LeftBehind(s, t, p);
    }
    ReachableInv(s);
    Ownership(s, o, t);
    assert Parts(s.home, s.txns[t], o) == {};
  }

  lemma NoneHasFailed(s: State)
    requires Reachable(s) && !s.direct
    ensures NoneFailed(s)
  {
    var s0, es :| Init(s0) && CanRun(s0, es) && Run(s0, es) == s;
    InvInit(s0);
    KeepsDirect(s0, es);
    NothingFails(s0, es);
  }

  lemma {:induction false} KeepsDirect(s: State, es: seq<Action>)
    requires CanRun(s, es)
    ensures Run(s, es).direct == s.direct
    decreases |es|
  {
    if es != [] {
      KeepsDirect(ApplyMove(s, es[0].t, es[0].m), es[1..]);
    }
  }

  /** A bucket that has been left behind stays locked in every continuation, however often the
      transaction is retried under its id, for which the lock is recursive. */
  lemma {:induction false} LeakStays(s: State, es: seq<Action>, t: Tid, o: Obj)
    requires Inv(s) && CanRun(s, es) && t in s.txns && o in s.cells && LeftOn(s.txns[t], o) > 0
    ensures var s' := Run(s, es); o in s'.cells && s'.cells[o].owner == t
    decreases |es|
  {
    if es == [] {
      Ownership(s, o, t);
    } else {
      InvStep(s, es[0].t, es[0].m);
      LeakStays(ApplyMove(s, es[0].t, es[0].m), es[1..], t, o);
    }
  }
}
