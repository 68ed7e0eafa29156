/** The piece pipeline of `TransactionParOCC` as a machine of atomic steps.

    A transaction runs its pieces in order; each piece commits by itself and records which
    unfinished transactions it follows.  Three busy-waits hold a transaction back behind those. */
module PipeMachine {

  type Tid = nat
  type Oid = nat

  datatype Pc =
    | Idle                    // top of the loop in execute_txn
    | WaitStart               // wait_deps_start
    | Exec                    // the body of the current piece
    | Locking                 // lock()
    | Checking                // check()
    | Scanning                // add_dep(), between tags
    | Seen(o: Oid, d: Tid)    // add_dep(): access info of `o` loaded, its commit flag not yet
    | Installing              // install_data(), between tags
    | Mark(o: Oid)            // install_data(): data installed, access info not yet set
    | Unlocking(retry: bool)  // clean_up(), after an abort or a commit of the piece
    | WaitCommit              // wait_deps_commit
    | WaitPersist             // wait_deps_persist
    | Aborting                // abort(): commit flag set, persist flag not yet
    | Finished

  /** A transaction and its `TxnInfo`.  `pieces` are the ranks of the pieces, in order, and
      `next` of them have been started.  `tags` says for each object of the running attempt
      whether it is written.  `passed` are the dependencies a wait loop is done with.
      `stamp` (once `stamped`) and `ctime` are history: when the latest piece began to install
      and when the commit flag was set; so is `hid`, the objects whose access info, when the
      running attempt loaded it, had been left by a piece that only read them. */
  datatype Txn = Txn(pieces: seq<nat>, next: nat, pc: Pc,
                     rank: nat, committed: bool, persisted: bool, aborted: bool,
                     deps: set<Tid>, passed: set<Tid>,
                     tags: map<Oid, bool>, held: set<Oid>, scanned: set<Oid>, installed: set<Oid>,
                     stamped: bool, stamp: nat, ctime: nat, hid: set<Oid>)

  /** `owner` and `access` are the lock owner and the access info of each object; owner 0 is free
      and access 0 is the default info, which counts as committed and persisted.  `rankOf` is the
      rank at which an object is accessed.  The rest is history: `clock`; the log `wlog` of
      installs; `veiled`, the objects whose present access info was left by a piece that only read
      them; and `peeks`, how often that has happened to each object. */
  datatype State = State(owner: map<Oid, Tid>, access: map<Oid, Tid>, rankOf: map<Oid, nat>, txns: map<Tid, Txn>,
                         clock: nat, wlog: map<Oid, seq<Entry>>, veiled: set<Oid>, peeks: map<Oid, nat>)

  /** An install: by whom, whether the last accessor that it found had only read, and how many
      read-only accesses there had been. */
  datatype Entry = Entry(t: Tid, hidden: bool, peeks: nat)

  datatype Move =
    | NextPiece | PassStart(d: Tid) | StartPiece
    | Touch(o: Oid, w: bool) | TryCommit
    | Lock(o: Oid) | LockFail(o: Oid) | LocksDone
    | CheckPass | CheckFail
    | LoadAccess(o: Oid) | AddDep | ScanDone
    | Install(o: Oid) | SetAccess | InstallDone
    | Unlock(o: Oid) | UnlockDone
    | EarlyAbort | AbortPersist
    | EndPieces | PassCommit(d: Tid) | Commit | PassPersist(d: Tid) | Persist

  datatype Action = Action(t: Tid, m: Move)

  predicate Increasing(ranks: seq<nat>) {
    forall i, j :: 0 <= i < j < |ranks| ==> ranks[i] < ranks[j]
  }

  function Fresh(pieces: seq<nat>): Txn {
    Txn(pieces, 0, Idle, 0, false, false, false, {}, {}, map[], {}, {}, {}, false, 0, 0, {})
  }

  /** Every transaction that will ever run is there, unstarted; its ranks strictly increase. */
  ghost predicate Init(s: State) {
    && s.owner.Keys == s.access.Keys == s.rankOf.Keys == s.wlog.Keys
    && (forall o :: o in s.owner ==> s.owner[o] == 0 && s.access[o] == 0 && s.wlog[o] == [])
    && (forall t :: t in s.txns ==> t != 0 && s.txns[t] == Fresh(s.txns[t].pieces) && Increasing(s.txns[t].pieces))
    && s.veiled == {} && s.peeks == map[] && s.clock == 0
  }

  function Peeks(s: State, o: Oid): (n: nat) {
    if o in s.peeks then s.peeks[o] else 0
  }

  function Written(x: Txn): (os: set<Oid>) {
    set o | o in x.tags && x.tags[o]
  }

  predicate HasCommit(txns: map<Tid, Txn>, d: Tid) {
    d !in txns || txns[d].committed
  }

  predicate HasStarted(txns: map<Tid, Txn>, d: Tid, rank: nat) {
    d in txns && txns[d].rank > rank
  }

  predicate HasPersist(txns: map<Tid, Txn>, d: Tid) {
    d !in txns || txns[d].persisted
  }

  predicate CanMove(s: State, t: Tid, m: Move)
    requires t in s.txns
  {
    var x := s.txns[t];
    match m
    case NextPiece => x.pc == Idle && x.next < |x.pieces|
    case PassStart(d) => x.pc == WaitStart && x.next < |x.pieces| && d in x.deps
                         && (HasCommit(s.txns, d) || HasStarted(s.txns, d, x.pieces[x.next]))
    case StartPiece => x.pc == WaitStart && x.next < |x.pieces| && x.deps <= x.passed
    case Touch(o, _) => x.pc == Exec && o in s.rankOf && s.rankOf[o] == x.rank
    case TryCommit => x.pc == Exec
    case Lock(o) => x.pc == Locking && o in Written(x) && o !in x.held && o in s.owner && s.owner[o] == 0
    case LockFail(o) => x.pc == Locking && o in Written(x) && o !in x.held && o in s.owner && s.owner[o] != 0
    case LocksDone => x.pc == Locking && Written(x) <= x.held
    case CheckPass => x.pc == Checking
    case CheckFail => x.pc == Checking && Written(x) != x.tags.Keys
    case LoadAccess(o) => x.pc == Scanning && o in x.tags && o !in x.scanned && o in s.access
    case AddDep => x.pc.Seen? && x.pc.o in x.tags
    case ScanDone => x.pc == Scanning && x.tags.Keys <= x.scanned
    case Install(o) => x.pc == Installing && o in x.tags && o !in x.installed && o in s.wlog
    case SetAccess => x.pc.Mark? && x.pc.o in x.tags
    case InstallDone => x.pc == Installing && x.tags.Keys <= x.installed
    case Unlock(o) => x.pc.Unlocking? && o in x.held
    case UnlockDone => x.pc.Unlocking? && x.held == {}
    case EarlyAbort => x.pc == Idle && x.next > 0
    case AbortPersist => x.pc == Aborting
    case EndPieces => x.pc == Idle && x.next == |x.pieces|
    case PassCommit(d) => x.pc == WaitCommit && d in x.deps && HasCommit(s.txns, d)
    case Commit => x.pc == WaitCommit && x.deps <= x.passed
    case PassPersist(d) => x.pc == WaitPersist && d in x.deps && HasPersist(s.txns, d)
    case Persist => x.pc == WaitPersist && x.deps <= x.passed
  }

  /** What a move does to the transaction that makes it. */
  function NextTxn(s: State, t: Tid, m: Move): Txn
    requires t in s.txns && CanMove(s, t, m)
  {
    var x := s.txns[t];
    match m
    case NextPiece => x.(pc := WaitStart, passed := {})
    case PassStart(d) => x.(passed := x.passed + {d})
    case StartPiece => x.(pc := Exec, rank := x.pieces[x.next], next := x.next + 1, tags := map[], stamped := false)
    case Touch(o, w) => x.(tags := x.tags[o := w || (o in x.tags && x.tags[o])])
    case TryCommit => x.(pc := Locking)
    case Lock(o) => x.(held := x.held + {o})
    case LockFail(_) => x.(pc := Unlocking(true))
    case LocksDone => x.(pc := Checking)
    case CheckPass => x.(pc := Scanning, scanned := {}, installed := {}, hid := {})
    case CheckFail => x.(pc := Unlocking(true))
    case LoadAccess(o) => x.(pc := Seen(o, s.access[o]), hid := if o in s.veiled then x.hid + {o} else x.hid)
    case AddDep =>
      var Seen(o, d) := x.pc;
      x.(pc := Scanning, scanned := x.scanned + {o},
         deps := if !HasCommit(s.txns, d) && d != t && x.tags[o] then x.deps + {d} else x.deps)
    case ScanDone => x.(pc := Installing, stamped := true, stamp := s.clock)
    case Install(o) => x.(pc := Mark(o))
    case SetAccess => x.(pc := Installing, installed := x.installed + {x.pc.o})
    case InstallDone => x.(pc := Unlocking(false))
    case Unlock(o) => x.(held := x.held - {o})
    case UnlockDone => x.(pc := if x.pc.retry then Exec else Idle, tags := map[])
    case EarlyAbort => x.(pc := Aborting, committed := true, aborted := true, ctime := s.clock)
    case AbortPersist => x.(pc := Finished, persisted := true)
    case EndPieces => x.(pc := WaitCommit, passed := {})
    case PassCommit(d) => x.(passed := x.passed + {d})
    case Commit => x.(pc := WaitPersist, committed := true, ctime := s.clock, passed := {})
    case PassPersist(d) => x.(passed := x.passed + {d})
    case Persist => x.(pc := Finished, persisted := true)
  }

  function ApplyMove(s: State, t: Tid, m: Move): State
    requires t in s.txns && CanMove(s, t, m)
  {
    var x := s.txns[t];
    State(
      if m.Lock? then s.owner[m.o := t] else if m.Unlock? then s.owner[m.o := 0] else s.owner,
      if m.SetAccess? then s.access[x.pc.o := t] else s.access,
      s.rankOf,
      s.txns[t := NextTxn(s, t, m)],
      if m.ScanDone? || m.Commit? || m.EarlyAbort? then s.clock + 1 else s.clock,
      if m.Install? && x.tags[m.o] then s.wlog[m.o := s.wlog[m.o] + [Entry(t, m.o in x.hid, Peeks(s, m.o))]] else s.wlog,
      if !m.SetAccess? then s.veiled else if x.tags[x.pc.o] then s.veiled - {x.pc.o} else s.veiled + {x.pc.o},
      if m.SetAccess? && !x.tags[x.pc.o] then s.peeks[x.pc.o := Peeks(s, x.pc.o) + 1] else s.peeks)
  }

  /** The actions `es` can be taken from `s`, one after another. */
  predicate CanRun(s: State, es: seq<Action>)
    decreases |es|
  {
    es == [] || (es[0].t in s.txns && CanMove(s, es[0].t, es[0].m) && CanRun(ApplyMove(s, es[0].t, es[0].m), es[1..]))
  }

  function Run(s: State, es: seq<Action>): State
    requires CanRun(s, es)
    decreases |es|
  {
    if es == [] then s else Run(ApplyMove(s, es[0].t, es[0].m), es[1..])
  }

  ghost predicate Reachable(s: State) {
    exists s0, es :: Init(s0) && CanRun(s0, es) && Run(s0, es) == s
  }
}
