/** Strict two-phase locking (`Transaction2PL`) over the reader/writer lock of `TVersion`, as a
    machine of atomic steps: one load, store, fetch-and-add or compare-exchange each.

    A transaction asks for locks through its lock map, one at a time, and may read what it has
    locked already; once it has all its locks it reads and writes, then releases.  A refused
    request ends the attempt, which is then retried under the same id. */
module LockMachine {

  type Tid = nat
  type Oid = nat
  type Val = int

  datatype Kind = Rd | Wr

  /** How a lock operation leaves the critical section: granted, refused, to start over, or to
      look at the reader count again. */
  datatype Answer = Yes | No | Again | More

  datatype Pc =
    | Body                               // transaction code
    | Ask(o: Oid, k: Kind)               // read_lock, write_lock: before enter_cr
    | Test(o: Oid, k: Kind)              // before loading tpl_writer_
    | Raise(o: Oid)                      // read_lock: before fetch_max on tpl_reader_
    | Count(o: Oid)                      // read_lock: before fetch_add on tpl_reader_cnt_
    | Readers(o: Oid)                    // write_lock: before loading tpl_reader_
    | Take(o: Oid)                       // write_lock: no reader, before storing tpl_writer_
    | Upgrade(o: Oid)                    // write_lock: the maximal reader is me, before storing tpl_writer_
    | Drain(o: Oid)                      // write_lock: before loading tpl_reader_cnt_
    | Yield(o: Oid)                      // write_lock: outside, before enter_cr in the drain loop
    | Reply(o: Oid, k: Kind, a: Answer)  // before exit_cr
    | Leave(o: Oid, k: Kind)             // read_unlock, write_unlock: before enter_cr
    | Fall(o: Oid, k: Kind)              // before fetch_sub, or the compare-exchange to 0
    | Zero(o: Oid)                       // read_unlock: last reader, before storing 0 to tpl_reader_
    | Left(o: Oid, k: Kind)              // unlock: before exit_cr
    | Done

  datatype Phase = Growing | Working | Ending

  datatype Event = Got(o: Oid, v: Val) | Put(o: Oid, v: Val)

  /** `readLocks` and `writeLocks` are the lock map; `slot` is the transaction's place in the history,
      -1 before it has all its locks, and `seen` what the attempt has read until then. */
  datatype Txn = Txn(pc: Pc, readLocks: set<Oid>, writeLocks: set<Oid>, phase: Phase, slot: int, seen: seq<Event>)

  const FRESH: Txn := Txn(Body, {}, {}, Growing, -1, [])

  /** The four `tpl_` fields.  Who is in the critical section, who holds read locks and who has
      ever released one are history. */
  datatype Word = Word(cr: bool, writer: Tid, max: Tid, cnt: int, user: Tid, readers: set<Tid>, gone: set<Tid>)

  /** An attempt that has all its locks, and what it has read and written so far. */
  datatype Attempt = Attempt(tid: Tid, readLocks: set<Oid>, writeLocks: set<Oid>, events: seq<Event>)

  /** `hist` lists the attempts in the order in which they completed their locks; `tainted` says
      whether one of them did so with a write lock beside somebody else's read lock.  Both are
      history. */
  datatype State = State(words: map<Oid, Word>, data: map<Oid, Val>, txns: map<Tid, Txn>,
                         hist: seq<Attempt>, tainted: bool, init: map<Oid, Val>)

  datatype Move =
    | Request(o: Oid, k: Kind)
    | Enter | LoadWriter | FetchMax | FetchAdd | LoadReader | StoreWriter | LoadCount | Exit
    | Subtract | ClearWriter | ClearMax
    | LocksDone | Read(o: Oid) | Write(o: Oid, v: Val) | Commit | GiveUp
    | Release(o: Oid, k: Kind) | Finish

  datatype Action = Action(t: Tid, m: Move)

  ghost predicate Init(s: State) {
    && (forall o :: o in s.words ==> s.words[o] == Word(false, 0, 0, 0, 0, {}, {}))
    && (forall t :: t in s.txns ==> t != 0 && s.txns[t] == FRESH)
    && s.data == s.init && s.data.Keys == s.words.Keys && s.hist == [] && !s.tainted
  }

  predicate InMap(x: Txn, o: Oid, k: Kind) {
    match k
    case Rd => o in x.readLocks
    case Wr => o in x.writeLocks
  }

  predicate CanMove(s: State, t: Tid, m: Move)
    requires t in s.txns
  {
    var x := s.txns[t];
    match m
    case Request(o, k) => x.pc.Body? && x.phase.Growing? && o in s.words && !InMap(x, o, k)
    case Enter => (x.pc.Ask? || x.pc.Yield? || x.pc.Leave?) && x.pc.o in s.words && !s.words[x.pc.o].cr
    case LoadWriter => x.pc.Test? && x.pc.o in s.words && (x.pc.k.Wr? ==> s.words[x.pc.o].writer != t)
    case FetchMax => x.pc.Raise? && x.pc.o in s.words
    case FetchAdd => x.pc.Count? && x.pc.o in s.words
    case LoadReader => x.pc.Readers? && x.pc.o in s.words
    case StoreWriter => (x.pc.Take? && x.pc.o in s.words && s.words[x.pc.o].cnt == 0)
                     || (x.pc.Upgrade? && x.pc.o in s.words && s.words[x.pc.o].writer == 0)
    case LoadCount => x.pc.Drain? && x.pc.o in s.words
    case Exit => (x.pc.Reply? || x.pc.Left?) && x.pc.o in s.words && s.words[x.pc.o].cr
    case Subtract => x.pc.Fall? && x.pc.k.Rd? && x.pc.o in s.words
    case ClearWriter => x.pc.Fall? && x.pc.k.Wr? && x.pc.o in s.words && s.words[x.pc.o].writer == t
    case ClearMax => x.pc.Zero? && x.pc.o in s.words
    case LocksDone => x.pc.Body? && x.phase.Growing?
    case Read(o) => x.pc.Body? && !x.phase.Ending? && o in x.readLocks + x.writeLocks && o in s.data
    case Write(o, _) => x.pc.Body? && x.phase.Working? && o in x.writeLocks && o in s.data
    case Commit => x.pc.Body? && x.phase.Working?
    case GiveUp => x.pc.Body? && x.phase.Growing?
    case Release(o, k) => x.pc.Body? && x.phase.Ending? && InMap(x, o, k)
    case Finish => x.pc.Body? && x.phase.Ending? && x.readLocks == {} && x.writeLocks == {}
  }

  /** What the test of `tpl_writer_` leads to: wait-die, smaller ids win. */
  function AfterTest(t: Tid, o: Oid, k: Kind, writer: Tid): (pc: Pc) {
    if writer == 0 || (k.Rd? && writer == t) then (if k.Rd? then Raise(o) else Readers(o))
    else Reply(o, k, if writer < t then No else Again)
  }

  /** What the test of `tpl_reader_` leads to: wait-die, larger ids win. */
  function AfterReaders(t: Tid, o: Oid, max: Tid): (pc: Pc) {
    if max == 0 then Take(o)
    else if max == t then Upgrade(o)
    else Reply(o, Wr, if max > t then No else Again)
  }

  function AfterExit(x: Txn): Txn
    requires x.pc.Reply?
  {
    match x.pc.a
    case Yes => if x.pc.k.Rd? then x.(pc := Body, readLocks := x.readLocks + {x.pc.o}) else x.(pc := Body, writeLocks := x.writeLocks + {x.pc.o})
    case No => x.(pc := Body, phase := Ending)
    case Again => x.(pc := Ask(x.pc.o, x.pc.k))
    case More => x.(pc := Yield(x.pc.o))
  }

  /** What a move does to the transaction that makes it. */
  function NextTxn(s: State, t: Tid, m: Move): Txn
    requires t in s.txns && CanMove(s, t, m)
  {
    var x := s.txns[t];
    match m
    case Request(o, k) => x.(pc := Ask(o, k))
    case Enter => x.(pc := if x.pc.Ask? then Test(x.pc.o, x.pc.k) else if x.pc.Yield? then Drain(x.pc.o) else Fall(x.pc.o, x.pc.k))
    case LoadWriter => x.(pc := AfterTest(t, x.pc.o, x.pc.k, s.words[x.pc.o].writer))
    case FetchMax => x.(pc := Count(x.pc.o))
    case FetchAdd => x.(pc := Reply(x.pc.o, Rd, Yes))
    case LoadReader => x.(pc := AfterReaders(t, x.pc.o, s.words[x.pc.o].max))
    case StoreWriter => x.(pc := if x.pc.Take? then Reply(x.pc.o, Wr, Yes) else Drain(x.pc.o))
    case LoadCount => x.(pc := Reply(x.pc.o, Wr, if s.words[x.pc.o].cnt == 1 then Yes else More))
    case Exit => if x.pc.Left? then x.(pc := Body) else AfterExit(x)
    case Subtract => x.(pc := if s.words[x.pc.o].cnt == 1 then Zero(x.pc.o) else Left(x.pc.o, Rd))
    case ClearWriter => x.(pc := Left(x.pc.o, Wr))
    case ClearMax => x.(pc := Left(x.pc.o, Rd))
    case LocksDone => x.(phase := Working, slot := |s.hist|)
    case Read(o) => if x.phase.Growing? then x.(seen := x.seen + [Got(o, s.data[o])]) else x
    case Write(_, _) => x
    case Commit => x.(phase := Ending)
    case GiveUp => x.(phase := Ending)
    case Release(o, k) => if k.Rd? then x.(pc := Leave(o, k), readLocks := x.readLocks - {o}) else x.(pc := Leave(o, k), writeLocks := x.writeLocks - {o})
    case Finish => if x.slot >= 0 then x.(pc := Done) else FRESH
  }

  /** What a move does to the lock word it is about. */
  function NextWord(w: Word, t: Tid, pc: Pc, m: Move): Word {
    match m
    case Enter => w.(cr := true, user := t)
    case FetchMax => w.(max := if w.max < t then t else w.max)
    case FetchAdd => w.(cnt := w.cnt + 1, readers := w.readers + {t})
    case StoreWriter => w.(writer := t)
    case Exit => w.(cr := false, user := 0)
    case Subtract => w.(cnt := w.cnt - 1, readers := w.readers - {t}, gone := w.gone + {t})
    case ClearWriter => w.(writer := 0)
    case ClearMax => w.(max := 0)
    case _ => w
  }

  predicate TouchesWord(m: Move) {
    m.Enter? || m.FetchMax? || m.FetchAdd? || m.StoreWriter? || m.Exit? || m.Subtract? || m.ClearWriter? || m.ClearMax?
  }

  function NextHist(s: State, t: Tid, m: Move): seq<Attempt>
    requires t in s.txns && CanMove(s, t, m)
  {
    var x := s.txns[t];
    if m.LocksDone? then s.hist + [Attempt(t, x.readLocks, x.writeLocks, x.seen)]
    else if !(0 <= x.slot < |s.hist|) then s.hist
    else if m.Read? then s.hist[x.slot := s.hist[x.slot].(events := s.hist[x.slot].events + [Got(m.o, s.data[m.o])])]
    else if m.Write? then s.hist[x.slot := s.hist[x.slot].(events := s.hist[x.slot].events + [Put(m.o, m.v)])]
    else s.hist
  }

  /** `t` has a write lock on an object on which somebody else has a read lock. */
  predicate Exposed(s: State, t: Tid)
    requires t in s.txns
  {
    exists o :: o in s.txns[t].writeLocks && o in s.words && !(s.words[o].readers <= {t})
  }

  function ApplyMove(s: State, t: Tid, m: Move): State
    requires t in s.txns && CanMove(s, t, m)
  {
    var x := s.txns[t];
    State(
      if TouchesWord(m) then s.words[x.pc.o := NextWord(s.words[x.pc.o], t, x.pc, m)] else s.words,
      if m.Write? then s.data[m.o := m.v] else s.data,
      s.txns[t := NextTxn(s, t, m)],
      NextHist(s, t, m),
      s.tainted || (m.LocksDone? && Exposed(s, t)),
      s.init)
  }

  /** The actions `es` can be taken from `s`, one after another. */
  predicate CanRun(s: State, es: seq<Action>)
    decreases |es|
  {
    es == [] || (es[0].t in s.txns && CanMove(s, es[0].t, es[0].m) && CanRun(ApplyMove(s, es[0].t, es[0].m), es[1..]))
  }

  function Run(s: State, es: seq<Action>): State
    requires CanRun(s, es)
    decreases |es|
  {
    if es == [] then s else Run(ApplyMove(s, es[0].t, es[0].m), es[1..])
  }

  ghost predicate Reachable(s: State) {
    exists s0, es :: Init(s0) && CanRun(s0, es) && Run(s0, es) == s
  }
}
