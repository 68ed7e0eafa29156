/** Why `PipeInstall` stops at an installer that found a reader's access info: a piece that only
    reads becomes the last accessor without following the writer before it, and hides that writer
    from the next one. */
module PipeReadOnly {
  import opened PipeMachine
  import opened PipeWaits

  const O: Oid := 0
  const ONE: Txn := Fresh([1])

  function Start(): (s: State) {
    State(map[O := 0], map[O := 0], map[O := 1], map[1 := ONE, 2 := ONE, 3 := ONE], 0, map[O := []], {}, map[])
  }

  /** A run from the start and the state it ends in. */
  datatype Path = Path(acts: seq<Action>, end: State)

  predicate Valid(p: Path) {
    CanRun(Start(), p.acts) && Run(Start(), p.acts) == p.end
  }

  /** What the object looks like to all. */
  datatype View = View(owner: Tid, access: Tid, log: seq<Entry>, veiled: bool, peeks: nat)

  function ViewOf(s: State): (v: View)
    requires O in s.owner && O in s.access && O in s.wlog
  {
    View(s.owner[O], s.access[O], s.wlog[O], O in s.veiled, Peeks(s, O))
  }

  predicate At(p: Path, t: Tid, x: Txn, v: View, c: nat) {
    && Valid(p) && O in p.end.owner && O in p.end.access && O in p.end.wlog && p.end.rankOf == map[O := 1]
    && ViewOf(p.end) == v && p.end.clock == c && t in p.end.txns && p.end.txns[t] == x
  }

  /** `q` goes on from `p` with moves of `t` only. */
  ghost predicate Extends(p: Path, q: Path, t: Tid) {
    && q.end.txns.Keys == p.end.txns.Keys
    && forall u :: u in p.end.txns && u != t ==> q.end.txns[u] == p.end.txns[u]
  }

  /** What `t` sees: its own progress and the object. */
  function Local(t: Tid, x: Txn, v: View, c: nat): (s: State) {
    State(map[O := v.owner], map[O := v.access], map[O := 1], map[t := x], c, map[O := v.log],
          if v.veiled then {O} else {}, map[O := v.peeks])
  }

  /** The move is about the object. */
  predicate OnObject(x: Txn, m: Move) {
    match m
    case Lock(o) => o == O
    case Unlock(o) => o == O
    case LoadAccess(o) => o == O
    case Install(o) => o == O
    case Touch(o, _) => o == O
    case AddDep => x.pc.Seen? && x.pc.o == O
    case SetAccess => x.pc.Mark? && x.pc.o == O
    case PassStart(_) => false
    case PassCommit(_) => false
    case PassPersist(_) => false
    case LockFail(_) => false
    case _ => true
  }

  function NextView(t: Tid, x: Txn, v: View, m: Move): View
    requires (m.Install? || m.SetAccess? ==> O in x.tags)
  {
    View(if m.Lock? then t else if m.Unlock? then 0 else v.owner,
         if m.SetAccess? then t else v.access,
         if m.Install? && x.tags[O] then v.log + [Entry(t, O in x.hid, v.peeks)] else v.log,
         if m.SetAccess? then !x.tags[O] else v.veiled,
         if m.SetAccess? && !x.tags[O] then v.peeks + 1 else v.peeks)
  }

  lemma LocalMove(p: Path, t: Tid, m: Move, x: Txn, v: View, c: nat)
    requires At(p, t, x, v, c) && OnObject(x, m) && CanMove(Local(t, x, v, c), t, m)
    requires m.AddDep? && O in x.tags && x.tags[O] ==> x.pc.Seen? && HasCommit(p.end.txns, x.pc.d)
    ensures CanMove(p.end, t, m)
    ensures !(m.AddDep? && O in x.tags && x.tags[O] && x.pc.d == t) ==> NextTxn(p.end, t, m) == NextTxn(Local(t, x, v, c), t, m)
  {
  }

  lemma Hop(p: Path, t: Tid, m: Move, x: Txn, v: View, c: nat, x': Txn, v': View) returns (q: Path)
    requires At(p, t, x, v, c) && OnObject(x, m) && CanMove(Local(t, x, v, c), t, m)
    requires NextTxn(Local(t, x, v, c), t, m) == x' && (m.Install? || m.SetAccess? ==> O in x.tags) && v' == NextView(t, x, v, m)
    requires m.AddDep? && O in x.tags && x.tags[O] ==> x.pc.Seen? && x.pc.d != t && HasCommit(p.end.txns, x.pc.d)
    ensures At(q, t, x', v', if m.ScanDone? || m.Commit? || m.EarlyAbort? then c + 1 else c) && Extends(p, q, t)
  {
    LocalMove(p, t, m, x, v, c);
    q := OneMore(p, t, m);
    hide Valid;
  }

  lemma OneMore(p: Path, t: Tid, m: Move) returns (q: Path)
    requires Valid(p) && t in p.end.txns && CanMove(p.end, t, m)
    ensures Valid(q) && q.end == ApplyMove(p.end, t, m)
  {
    RunThen(Start(), p.acts, Action(t, m));
    q := Path(p.acts + [Action(t, m)], ApplyMove(p.end, t, m));
  }

  /** A transaction with the one piece that touches the object: `n` is 1 once it has started. */
  function X(pc: Pc, n: nat, tags: map<Oid, bool>, held: set<Oid>, scanned: set<Oid>, installed: set<Oid>,
             stamped: bool, stamp: nat, hid: set<Oid>): Txn {
    Txn([1], n, pc, n, false, false, false, {}, {}, tags, held, scanned, installed, stamped, stamp, 0, hid)
  }

  function Tags(w: bool): map<Oid, bool> {
    map[O := w]
  }

  function OIf(b: bool): set<Oid> {
    if b then {O} else {}
  }

  lemma Begin(p: Path, t: Tid, v: View, c: nat) returns (q: Path)
    requires At(p, t, ONE, v, c)
    ensures At(q, t, X(Exec, 1, map[], {}, {}, {}, false, 0, {}), v, c) && Extends(p, q, t)
  {
    hide Valid, At;
    var x := X(WaitStart, 0, map[], {}, {}, {}, false, 0, {});
    q := Hop(p, t, NextPiece, ONE, v, c, x, v);
    q := Hop(q, t, StartPiece, x, v, c, X(Exec, 1, map[], {}, {}, {}, false, 0, {}), v);
  }

  lemma RunBody(p: Path, t: Tid, w: bool, v: View, c: nat) returns (q: Path)
    requires At(p, t, X(Exec, 1, map[], {}, {}, {}, false, 0, {}), v, c)
    ensures At(q, t, X(Locking, 1, Tags(w), {}, {}, {}, false, 0, {}), v, c) && Extends(p, q, t)
  {
    hide Valid, At;
    var x := X(Exec, 1, Tags(w), {}, {}, {}, false, 0, {});
    q := Hop(p, t, Touch(O, w), X(Exec, 1, map[], {}, {}, {}, false, 0, {}), v, c, x, v);
    q := Hop(q, t, TryCommit, x, v, c, X(Locking, 1, Tags(w), {}, {}, {}, false, 0, {}), v);
  }

  lemma LockWrite(p: Path, t: Tid, v: View, c: nat) returns (q: Path)
    requires At(p, t, X(Locking, 1, Tags(true), {}, {}, {}, false, 0, {}), v, c) && v.owner == 0
    ensures At(q, t, X(Locking, 1, Tags(true), {O}, {}, {}, false, 0, {}), v.(owner := t), c) && Extends(p, q, t)
  {
    hide Valid, At;
    q := Hop(p, t, Lock(O), X(Locking, 1, Tags(true), {}, {}, {}, false, 0, {}), v, c,
             X(Locking, 1, Tags(true), {O}, {}, {}, false, 0, {}), v.(owner := t));
  }

  lemma Validate(p: Path, t: Tid, w: bool, v: View, c: nat) returns (q: Path)
    requires At(p, t, X(Locking, 1, Tags(w), OIf(w), {}, {}, false, 0, {}), v, c)
    ensures At(q, t, X(Scanning, 1, Tags(w), OIf(w), {}, {}, false, 0, {}), v, c) && Extends(p, q, t)
  {
    hide Valid, At;
    assert Written(X(Locking, 1, Tags(w), OIf(w), {}, {}, false, 0, {})) == OIf(w);
    var x := X(Checking, 1, Tags(w), OIf(w), {}, {}, false, 0, {});
    q := Hop(p, t, LocksDone, X(Locking, 1, Tags(w), OIf(w), {}, {}, false, 0, {}), v, c, x, v);
    q := Hop(q, t, CheckPass, x, v, c, X(Scanning, 1, Tags(w), OIf(w), {}, {}, false, 0, {}), v);
  }

  lemma LoadIt(p: Path, t: Tid, w: bool, v: View, c: nat) returns (q: Path)
    requires At(p, t, X(Scanning, 1, Tags(w), OIf(w), {}, {}, false, 0, {}), v, c)
    ensures At(q, t, X(Seen(O, v.access), 1, Tags(w), OIf(w), {}, {}, false, 0, OIf(v.veiled)), v, c) && Extends(p, q, t)
  {
    hide Valid, At;
    q := Hop(p, t, LoadAccess(O), X(Scanning, 1, Tags(w), OIf(w), {}, {}, false, 0, {}), v, c,
             X(Seen(O, v.access), 1, Tags(w), OIf(w), {}, {}, false, 0, OIf(v.veiled)), v);
  }

  /** `add_dep` records nothing: the last accessor has committed, or the tag is only read. */
  lemma PassBy(p: Path, t: Tid, w: bool, h: bool, d: Tid, v: View, c: nat) returns (q: Path)
    requires At(p, t, X(Seen(O, d), 1, Tags(w), OIf(w), {}, {}, false, 0, OIf(h)), v, c)
    requires (w ==> HasCommit(p.end.txns, d)) && d != t
    ensures At(q, t, X(Scanning, 1, Tags(w), OIf(w), {O}, {}, false, 0, OIf(h)), v, c) && Extends(p, q, t)
  {
    hide Valid, At;
    q := Hop(p, t, AddDep, X(Seen(O, d), 1, Tags(w), OIf(w), {}, {}, false, 0, OIf(h)), v, c,
             X(Scanning, 1, Tags(w), OIf(w), {O}, {}, false, 0, OIf(h)), v);
  }

  lemma Scan(p: Path, t: Tid, w: bool, v: View, c: nat) returns (q: Path)
    requires At(p, t, X(Scanning, 1, Tags(w), OIf(w), {}, {}, false, 0, {}), v, c)
    requires (w ==> HasCommit(p.end.txns, v.access)) && v.access != t
    ensures At(q, t, X(Scanning, 1, Tags(w), OIf(w), {O}, {}, false, 0, OIf(v.veiled)), v, c) && Extends(p, q, t)
  {
    hide Valid, X, ViewOf;
    q := LoadIt(p, t, w, v, c);
    q := PassBy(q, t, w, v.veiled, v.access, v, c);
  }

  /** The transaction decides and installs: the data, then the access info. */
  lemma Decide(p: Path, t: Tid, w: bool, h: bool, v: View, c: nat) returns (q: Path)
    requires At(p, t, X(Scanning, 1, Tags(w), OIf(w), {O}, {}, false, 0, OIf(h)), v, c)
    ensures At(q, t, X(Mark(O), 1, Tags(w), OIf(w), {O}, {}, true, c, OIf(h)), Half(v, t, w, h), c + 1) && Extends(p, q, t)
  {
    hide Valid, At;
    var x := X(Installing, 1, Tags(w), OIf(w), {O}, {}, true, c, OIf(h));
    q := Hop(p, t, ScanDone, X(Scanning, 1, Tags(w), OIf(w), {O}, {}, false, 0, OIf(h)), v, c, x, v);
    q := Hop(q, t, Install(O), x, v, c + 1, X(Mark(O), 1, Tags(w), OIf(w), {O}, {}, true, c, OIf(h)), Half(v, t, w, h));
  }

  /** What the object looks like after an install, and after the access info is set. */
  function Half(v: View, t: Tid, w: bool, h: bool): View {
    v.(log := if w then v.log + [Entry(t, h, v.peeks)] else v.log)
  }

  function Marked(v: View, t: Tid, w: bool): View {
    v.(access := t, veiled := !w, peeks := if w then v.peeks else v.peeks + 1)
  }

  lemma SetIt(p: Path, t: Tid, w: bool, h: bool, n: nat, v: View, c: nat) returns (q: Path)
    requires At(p, t, X(Mark(O), 1, Tags(w), OIf(w), {O}, {}, true, n, OIf(h)), v, c)
    ensures At(q, t, X(Unlocking(false), 1, Tags(w), OIf(w), {O}, {O}, true, n, OIf(h)), Marked(v, t, w), c) && Extends(p, q, t)
  {
    hide Valid, At;
    var x := X(Installing, 1, Tags(w), OIf(w), {O}, {O}, true, n, OIf(h));
    q := Hop(p, t, SetAccess, X(Mark(O), 1, Tags(w), OIf(w), {O}, {}, true, n, OIf(h)), v, c, x, Marked(v, t, w));
    q := Hop(q, t, InstallDone, x, Marked(v, t, w), c, X(Unlocking(false), 1, Tags(w), OIf(w), {O}, {O}, true, n, OIf(h)), Marked(v, t, w));
  }

  /** The piece is over. */
  function Over(n: nat, h: bool): (x: Txn) {
    X(Idle, 1, map[], {}, {O}, {O}, true, n, OIf(h))
  }

  lemma Release(p: Path, t: Tid, w: bool, h: bool, n: nat, v: View, c: nat) returns (q: Path)
    requires At(p, t, X(Unlocking(false), 1, Tags(w), OIf(w), {O}, {O}, true, n, OIf(h)), v, c)
    ensures At(q, t, X(Unlocking(false), 1, Tags(w), {}, {O}, {O}, true, n, OIf(h)), v.(owner := if w then 0 else v.owner), c)
    ensures Extends(p, q, t)
  {
    hide Valid, At;
    if w {
      q := Hop(p, t, Unlock(O), X(Unlocking(false), 1, Tags(w), OIf(w), {O}, {O}, true, n, OIf(h)), v, c,
               X(Unlocking(false), 1, Tags(w), {}, {O}, {O}, true, n, OIf(h)), v.(owner := 0));
    } else {
      q := p;
    }
  }

  lemma EndPiece(p: Path, t: Tid, w: bool, h: bool, n: nat, v: View, c: nat) returns (q: Path)
    requires At(p, t, X(Unlocking(false), 1, Tags(w), {}, {O}, {O}, true, n, OIf(h)), v, c)
    ensures At(q, t, Over(n, h), v, c) && Extends(p, q, t)
  {
    hide Valid, At;
    q := Hop(p, t, UnlockDone, X(Unlocking(false), 1, Tags(w), {}, {O}, {O}, true, n, OIf(h)), v, c, Over(n, h), v);
  }

  /** From the validated piece to its end. */
  lemma InstallIt(p: Path, t: Tid, w: bool, v: View, c: nat) returns (q: Path)
    requires At(p, t, X(Scanning, 1, Tags(w), OIf(w), {}, {}, false, 0, {}), v, c)
    requires (w ==> HasCommit(p.end.txns, v.access)) && v.access != t
    ensures At(q, t, Over(c, v.veiled), Marked(Half(v, t, w, v.veiled), t, w).(owner := if w then 0 else v.owner), c + 1)
    ensures Extends(p, q, t)
  {
    hide Valid, At, X, ViewOf;
    q := Scan(p, t, w, v, c);
    q := Decide(q, t, w, v.veiled, v, c);
    q := SetIt(q, t, w, v.veiled, c, Half(v, t, w, v.veiled), c + 1);
    q := Release(q, t, w, v.veiled, c, Marked(Half(v, t, w, v.veiled), t, w), c + 1);
    q := EndPiece(q, t, w, v.veiled, c, Marked(Half(v, t, w, v.veiled), t, w).(owner := if w then 0 else v.owner), c + 1);
  }

  /** A whole writing piece. */
  lemma WritePiece(p: Path, t: Tid, v: View, c: nat) returns (q: Path)
    requires At(p, t, ONE, v, c) && v.owner == 0 && v.access != t && HasCommit(p.end.txns, v.access)
    ensures At(q, t, Over(c, v.veiled), View(0, t, v.log + [Entry(t, v.veiled, v.peeks)], false, v.peeks), c + 1) && Extends(p, q, t)
  {
    hide Valid, ViewOf;
    q := Begin(p, t, v, c);
    q := RunBody(q, t, true, v, c);
    q := LockWrite(q, t, v, c);
    q := Validate(q, t, true, v.(owner := t), c);
    q := InstallIt(q, t, true, v.(owner := t), c);
  }

  /** A whole reading piece. */
  lemma ReadPiece(p: Path, t: Tid, v: View, c: nat) returns (q: Path)
    requires At(p, t, ONE, v, c) && v.access != t
    ensures At(q, t, Over(c, v.veiled), v.(access := t, veiled := true, peeks := v.peeks + 1), c + 1) && Extends(p, q, t)
  {
    hide Valid, ViewOf;
    q := Begin(p, t, v, c);
    q := RunBody(q, t, false, v, c);
    q := Validate(q, t, false, v, c);
    q := InstallIt(q, t, false, v, c);
  }

  lemma CommitIt(p: Path, t: Tid, h: bool, n: nat, v: View, c: nat) returns (q: Path)
    requires At(p, t, Over(n, h), v, c)
    ensures At(q, t, Over(n, h).(pc := WaitPersist, committed := true, ctime := c), v, c + 1) && Extends(p, q, t)
  {
    hide Valid, At;
    var x := Over(n, h);
    q := Hop(p, t, EndPieces, x, v, c, x.(pc := WaitCommit), v);
    q := Hop(q, t, Commit, x.(pc := WaitCommit), v, c, x.(pc := WaitPersist, committed := true, ctime := c), v);
  }

  lemma WriteThenRead() returns (q: Path)
    ensures At(q, 2, Over(1, false), View(0, 2, [Entry(1, false, 0)], true, 1), 2)
    ensures 1 in q.end.txns && q.end.txns[1] == Over(0, false) && 3 in q.end.txns && q.end.txns[3] == ONE
  {
    q := Path([], Start());
    q := WritePiece(q, 1, View(0, 0, [], false, 0), 0);
    hide Valid;
    q := ReadPiece(q, 2, View(0, 1, [Entry(1, false, 0)], false, 0), 1);
  }

  lemma WriteReadWrite() returns (q: Path)
    ensures Valid(q) && O in q.end.wlog && q.end.wlog[O] == [Entry(1, false, 0), Entry(3, true, 1)]
    ensures 1 in q.end.txns && 3 in q.end.txns && !q.end.txns[1].committed && q.end.txns[3].committed
    ensures !q.end.txns[1].aborted && !q.end.txns[3].aborted
  {
    hide Valid;
    var v := View(0, 2, [Entry(1, false, 0)], true, 1);
    q := WriteThenRead();
    q := CommitIt(q, 2, false, 1, v, 2);
    q := WritePiece(q, 3, v, 3);
    q := CommitIt(q, 3, true, 3, View(0, 3, [Entry(1, false, 0), Entry(3, true, 1)], false, 1), 4);
  }

  /** `InstallOrderIsCommitOrder` does not extend to an installer that found a reader's access
      info: one read-only access between two writers, and the second commits before the first. */
  lemma ReaderHidesWriter()
    ensures exists s: State :: Reachable(s) && O in s.wlog && s.wlog[O] == [Entry(1, false, 0), Entry(3, true, 1)]
              && 1 in s.txns && 3 in s.txns && s.txns[3].committed && !s.txns[3].aborted && !s.txns[1].committed
  {
    var q := WriteReadWrite();
    assert Init(Start());
    assert Reachable(q.end);
  }
}
