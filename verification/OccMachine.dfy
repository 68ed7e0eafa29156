/** The optimistic protocol of `TransactionOCC` as a machine of atomic steps.

    One step is one atomic load, store or compare-exchange on a shared `TVersion` or data
    pointer, or one purely local move of a transaction.  Any number of transactions interleave
    their steps in any order. */
module OccMachine {

  type Tid = nat
  type Val = int

  /** Everything that carries a `TVersion`: rows and the table buckets that hold them. */
  datatype Obj = RowObj(id: nat) | BucketObj(id: nat)

  /** What a tag stands for.  `Row` is an `RWrite` tag; `Slot` is the presence of a row in a
      bucket, written by a push (or by the bucket half of a delete); `Mark` is the row half of a
      delete, which locks the row and leaves its value and version alone. */
  datatype Key = Row(row: nat) | Mark(row: nat) | Slot(bucket: nat, row: nat)

  function LockOf(k: Key): Obj {
    match k
    case Row(r) => RowObj(r)
    case Mark(r) => RowObj(r)
    case Slot(b, _) => BucketObj(b)
  }

  /** `TVersion` as far as the optimistic protocol uses it. */
  datatype Cell = Cell(vers: Tid, owner: Tid, count: int)

  /** `TTag`: the version and value of the last read, and the buffered write. */
  datatype Tag = Tag(vers: Tid, seen: Val, wasRead: bool, hasWrite: bool, val: Val)

  datatype Pc =
    | Exec                 // running the transaction body
    | Load(k: Key, v: Tid) // read(): version loaded, data not yet
    | Locking              // lock(): between tags
    | Bump(k: Key)         // TVersion::lock: owner set, count not yet raised
    | Checking             // check(): between tags
    | Again(k: Key)        // check_version: first owner load was not 0
    | Vers(k: Key)         // check_version: owner accepted, version not yet loaded
    | Writing              // log, install and flush, between tags
    | SetVers(k: Key)      // install: data stored, version not yet
    | Releasing            // clean_up(): between tags
    | Free(k: Key)         // TVersion::unlock: count is 0, owner not yet cleared
    | Done

  datatype Txn = Txn(pc: Pc, tags: map<Key, Tag>, trace: seq<(Key, Val)>, held: set<Key>, marked: set<Key>,
                     logged: set<Key>, stored: set<Key>, flushed: set<Key>, slot: int, ok: bool)

  const FRESH: Txn := Txn(Exec, map[], [], {}, {}, {}, {}, {}, -1, false)

  function Written(tags: map<Key, Tag>): (ks: set<Key>) {
    set k | k in tags && tags[k].hasWrite
  }

  /** Tags with `has_read()`, which is `!has_write()`. */
  function ReadOnly(tags: map<Key, Tag>): (ks: set<Key>) {
    set k | k in tags && !tags[k].hasWrite
  }

  datatype Verdict = Pending | Aborted | Passed | Recorded

  /** An attempt, entered in the history when its last write lock has been taken. */
  datatype Attempt = Attempt(tid: Tid, tags: map<Key, Tag>, trace: seq<(Key, Val)>, verdict: Verdict)

  /** A persistent undo record: who, what, and the value before. */
  datatype LogRec = LogRec(tid: Tid, key: Key, pre: Val)

  /** `cells` and `data` are shared memory; `dur`, `log` and `recs` survive a crash; `hist` and
      `init` are history that no step of the protocol reads. */
  datatype State = State(cells: map<Obj, Cell>, data: map<Key, Val>,
                         dur: map<Key, Val>, log: seq<LogRec>, recs: set<Tid>,
                         txns: map<Tid, Txn>,
                         hist: seq<Attempt>, init: map<Key, Val>)

  /** An atomic step of a transaction; `Evict` is its processor writing a cache line back. */
  datatype Move =
    | ReadVers(k: Key) | ReadData | Write(k: Key, x: Val)
    | GiveUp | TryCommit
    | Cas(k: Key) | CasFail(k: Key) | BumpCount | LocksDone
    | OwnerLoad(k: Key) | OwnerAgain | OwnerFail | VersLoad | VersFail | Pass
    | LogPre(k: Key) | Store(k: Key) | SetVersion | Flush(k: Key) | Record
    | Drop(k: Key) | FreeOwner | Finish
    | Evict(k: Key)

  datatype Action = Action(t: Tid, m: Move)

  /** Nothing is locked or written; `txns` has every transaction that will ever run, unstarted. */
  ghost predicate Init(s: State) {
    && (forall k :: k in s.data ==> LockOf(k) in s.cells)
    && (forall o :: o in s.cells ==> s.cells[o] == Cell(0, 0, 0))
    && (forall t :: t in s.txns ==> t != 0 && s.txns[t] == FRESH)
    && s.data == s.dur == s.init && s.log == [] && s.recs == {} && s.hist == []
  }

  /** The tag that `retrieve_tag` returns: the present one, or a new empty one. */
  function TagFor(x: Txn, k: Key): Tag {
    if k in x.tags then x.tags[k] else Tag(0, 0, false, false, 0)
  }

  predicate CanMove(s: State, t: Tid, m: Move)
    requires t in s.txns
  {
    var x := s.txns[t];
    match m
    case ReadVers(k) => x.pc == Exec && k.Row? && k in s.data && LockOf(k) in s.cells
    case ReadData => x.pc.Load? && x.pc.k in s.data
    case Write(k, _) => x.pc == Exec && k in s.data
    case GiveUp => x.pc == Exec
    case TryCommit => x.pc == Exec
    case Cas(k) => x.pc == Locking && k in Written(x.tags) - x.held && LockOf(k) in s.cells
                   && (s.cells[LockOf(k)].owner == 0 || s.cells[LockOf(k)].owner == t)
    case CasFail(k) => x.pc == Locking && k in Written(x.tags) - x.held && LockOf(k) in s.cells
                       && s.cells[LockOf(k)].owner != 0 && s.cells[LockOf(k)].owner != t
    case BumpCount => x.pc.Bump? && LockOf(x.pc.k) in s.cells
    case LocksDone => x.pc == Locking && Written(x.tags) <= x.held
    case OwnerLoad(k) => x.pc == Checking && k in ReadOnly(x.tags) - x.marked && LockOf(k) in s.cells
    case OwnerAgain => x.pc.Again? && LockOf(x.pc.k) in s.cells && s.cells[LockOf(x.pc.k)].owner == t
    case OwnerFail => x.pc.Again? && LockOf(x.pc.k) in s.cells && s.cells[LockOf(x.pc.k)].owner != t
    case VersLoad => x.pc.Vers? && x.pc.k in x.tags && LockOf(x.pc.k) in s.cells
                     && s.cells[LockOf(x.pc.k)].vers == x.tags[x.pc.k].vers
    case VersFail => x.pc.Vers? && x.pc.k in x.tags && LockOf(x.pc.k) in s.cells
                     && s.cells[LockOf(x.pc.k)].vers != x.tags[x.pc.k].vers
    case Pass => x.pc == Checking && ReadOnly(x.tags) <= x.marked
    case LogPre(k) => x.pc == Writing && k in Written(x.tags) - x.logged && k in s.data
    case Store(k) => x.pc == Writing && Written(x.tags) <= x.logged && k in Written(x.tags) - x.stored && k in s.data
    case SetVersion => x.pc.SetVers? && LockOf(x.pc.k) in s.cells
    case Flush(k) => x.pc == Writing && Written(x.tags) <= x.stored && k in Written(x.tags) - x.flushed && k in s.data
    case Record => x.pc == Writing && Written(x.tags) <= x.flushed
    case Drop(k) => x.pc == Releasing && k in x.held && LockOf(k) in s.cells
    case FreeOwner => x.pc.Free? && LockOf(x.pc.k) in s.cells
    case Finish => x.pc == Releasing && x.held == {}
    case Evict(k) => k in s.data
  }

  /** What a move does to the transaction that makes it. */
  function NextTxn(s: State, t: Tid, m: Move): Txn
    requires t in s.txns && CanMove(s, t, m)
  {
    var x := s.txns[t];
    match m
    case ReadVers(k) => x.(pc := Load(k, s.cells[LockOf(k)].vers))
    case ReadData =>
      var k := x.pc.k;
      var tag := TagFor(x, k).(vers := x.pc.v, seen := s.data[k], wasRead := true);
      x.(pc := Exec, tags := x.tags[k := tag], trace := x.trace + [(k, s.data[k])])
    case Write(k, v) => x.(tags := x.tags[k := TagFor(x, k).(hasWrite := true, val := v)])
    case GiveUp => x.(pc := Releasing)
    case TryCommit => x.(pc := Locking)
    case Cas(k) => x.(pc := Bump(k))
    case CasFail(_) => x.(pc := Releasing)
    case BumpCount => x.(pc := Locking, held := x.held + {x.pc.k})
    case LocksDone => x.(pc := Checking, slot := |s.hist|)
    case OwnerLoad(k) => x.(pc := if s.cells[LockOf(k)].owner == 0 then Vers(k) else Again(k))
    case OwnerAgain => x.(pc := Vers(x.pc.k))
    case OwnerFail => x.(pc := Releasing)
    case VersLoad => x.(pc := Checking, marked := x.marked + {x.pc.k})
    case VersFail => x.(pc := Releasing)
    case Pass => x.(pc := Writing, ok := true)
    case LogPre(k) => x.(logged := x.logged + {k})
    case Store(k) => x.(pc := if k.Mark? then Writing else SetVers(k), stored := x.stored + {k})
    case SetVersion => x.(pc := Writing)
    case Flush(k) => x.(flushed := x.flushed + {k})
    case Record => x.(pc := Releasing)
    case Drop(k) => x.(pc := if s.cells[LockOf(k)].count == 1 then Free(k) else Releasing, held := x.held - {k})
    case FreeOwner => x.(pc := Releasing)
    case Finish => if x.ok then x.(pc := Done) else FRESH
    case Evict(_) => x
  }

  /** The version an install sets: the transaction's id, also for a pushed row, which carries it;
      a delete passes the version of the row on to the bucket. */
  function VersionFor(s: State, t: Tid, k: Key): Tid
    requires t in s.txns
  {
    if k.Slot? && Mark(k.row) in s.txns[t].tags && RowObj(k.row) in s.cells then s.cells[RowObj(k.row)].vers else t
  }

  /** What it does to the `TVersion`s. */
  function NextCells(s: State, t: Tid, m: Move): map<Obj, Cell>
    requires t in s.txns && CanMove(s, t, m)
  {
    var x := s.txns[t];
    match m
    case Cas(k) => s.cells[LockOf(k) := s.cells[LockOf(k)].(owner := t)]
    case BumpCount => s.cells[LockOf(x.pc.k) := s.cells[LockOf(x.pc.k)].(count := s.cells[LockOf(x.pc.k)].count + 1)]
    case SetVersion => s.cells[LockOf(x.pc.k) := s.cells[LockOf(x.pc.k)].(vers := VersionFor(s, t, x.pc.k))]
    case Drop(k) => s.cells[LockOf(k) := s.cells[LockOf(k)].(count := s.cells[LockOf(k)].count - 1)]
    case FreeOwner => s.cells[LockOf(x.pc.k) := s.cells[LockOf(x.pc.k)].(owner := 0)]
    case _ => s.cells
  }

  /** What it does to the history of attempts. */
  function NextHist(s: State, t: Tid, m: Move): seq<Attempt>
    requires t in s.txns && CanMove(s, t, m)
  {
    var x := s.txns[t];
    if m.LocksDone? then s.hist + [Attempt(t, x.tags, x.trace, Pending)]
    else if !(0 <= x.slot < |s.hist|) then s.hist
    else if m.OwnerFail? || m.VersFail? then s.hist[x.slot := s.hist[x.slot].(verdict := Aborted)]
    else if m.Pass? then s.hist[x.slot := s.hist[x.slot].(verdict := Passed)]
    else if m.Record? then s.hist[x.slot := s.hist[x.slot].(verdict := Recorded)]
    else s.hist
  }

  function ApplyMove(s: State, t: Tid, m: Move): State
    requires t in s.txns && CanMove(s, t, m)
  {
    State(
      NextCells(s, t, m),
      if m.Store? then s.data[m.k := s.txns[t].tags[m.k].val] else s.data,
      if m.Flush? || m.Evict? then s.dur[m.k := s.data[m.k]] else s.dur,
      if m.LogPre? then s.log + [LogRec(t, m.k, s.data[m.k])] else s.log,
      if m.Record? then s.recs + {t} else s.recs,
      s.txns[t := NextTxn(s, t, m)],
      NextHist(s, t, m),
      s.init)
  }

  /** The actions `es` can be taken from `s`, one after another. */
  predicate CanRun(s: State, es: seq<Action>)
    decreases |es|
  {
    es == [] || (es[0].t in s.txns && CanMove(s, es[0].t, es[0].m) && CanRun(ApplyMove(s, es[0].t, es[0].m), es[1..]))
  }

  function Run(s: State, es: seq<Action>): State
    requires CanRun(s, es)
    decreases |es|
  {
    if es == [] then s else Run(ApplyMove(s, es[0].t, es[0].m), es[1..])
  }
}
