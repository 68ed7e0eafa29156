/** What every reachable state of the optimistic protocol satisfies. */
module OccInvariant {
  import opened OccMachine

  predicate Committed(a: Attempt) {
    a.verdict == Passed || a.verdict == Recorded
  }

  predicate Writes(a: Attempt, k: Key) {
    k in a.tags && a.tags[k].hasWrite
  }

  /** The last committed attempt below `n` that writes `k`, or -1. */
  function LastWriter(h: seq<Attempt>, n: int, k: Key): (r: int)
    ensures -1 <= r < |h| && (r >= 0 ==> r < n && Committed(h[r]) && Writes(h[r], k))
    ensures n <= |h| ==> forall j :: r < j < n ==> !(Committed(h[j]) && Writes(h[j], k))
  {
    if n <= 0 || n > |h| then -1
    else if Committed(h[n - 1]) && Writes(h[n - 1], k) then n - 1
    else LastWriter(h, n - 1, k)
  }

  /** The value of `k` after the committed attempts among the first `n`, in history order. */
  function ValueAt(init: map<Key, Val>, h: seq<Attempt>, n: int, k: Key): Val {
    var i := LastWriter(h, n, k);
    if i >= 0 then h[i].tags[k].val else if k in init then init[k] else 0
  }

  /** The version that goes with `ValueAt`. */
  function VersAt(h: seq<Attempt>, n: int, k: Key): Tid {
    var i := LastWriter(h, n, k);
    if i >= 0 then h[i].tid else 0
  }

  // ----- structure -----

  predicate IsChecking(x: Txn) { x.pc == Checking || x.pc.Again? || x.pc.Vers? }
  predicate IsWriting(x: Txn) { x.pc == Writing || x.pc.SetVers? }

  predicate TagsOk(tags: map<Key, Tag>) {
    forall k :: k in tags ==> (tags[k].wasRead ==> k.Row?) && (tags[k].hasWrite || tags[k].wasRead)
  }

  /** What a transaction knows of its own progress. */
  predicate PcOk(x: Txn) {
    var w := Written(x.tags);
    && TagsOk(x.tags)
    && x.held <= w && x.marked <= ReadOnly(x.tags)
    && x.logged <= w && x.stored <= w && x.flushed <= x.stored
    && (x.stored != {} ==> x.logged == w) && (x.flushed != {} ==> x.stored == w)
    && (!x.ok ==> x.logged == {})
    && (x.ok ==> x.marked == ReadOnly(x.tags) && x.slot >= 0)
    && (x.slot < 0 ==> x.marked == {} && !x.ok)
    && match x.pc
       case Exec => x.held == {} && x.slot < 0
       case Load(k, _) => x.held == {} && x.slot < 0 && k.Row?
       case Locking => x.slot < 0
       case Bump(k) => x.slot < 0 && k in w - x.held
       case Checking => x.slot >= 0 && x.held == w && !x.ok
       case Again(k) => x.slot >= 0 && x.held == w && !x.ok && k in ReadOnly(x.tags) - x.marked
       case Vers(k) => x.slot >= 0 && x.held == w && !x.ok && k in ReadOnly(x.tags) - x.marked
       case Writing => x.ok && x.held == w
       case SetVers(k) => x.ok && x.held == w && k in x.stored && !k.Mark? && x.flushed == {}
       case Releasing => x.ok ==> x.flushed == w
       case Free(k) => x.ok ==> x.flushed == w
       case Done => x.ok && x.flushed == w && x.held == {}
  }

  /** `keys` are the locations that exist. */
  predicate TxnOk(keys: set<Key>, x: Txn) {
    x.tags.Keys <= keys && PcOk(x) && (x.pc.Load? ==> x.pc.k in keys)
  }

  ghost predicate Shape(s: State) {
    && s.data.Keys == s.dur.Keys == s.init.Keys
    && (forall k :: k in s.data ==> LockOf(k) in s.cells)
    && 0 !in s.txns
    && (forall t :: t in s.txns ==> TxnOk(s.data.Keys, s.txns[t]))
  }

  function VerdictOf(x: Txn): Verdict {
    if x.ok then (if IsWriting(x) then Passed else Recorded)
    else if IsChecking(x) then Pending else Aborted
  }

  /** The history has the attempt of a running transaction at its slot. */
  predicate LinkOk(h: seq<Attempt>, t: Tid, x: Txn) {
    x.slot >= 0 ==> x.slot < |h| && h[x.slot] == Attempt(t, x.tags, x.trace, VerdictOf(x))
  }

  /** The transaction of a live history entry is at that entry. */
  predicate EntryOk(txns: map<Tid, Txn>, i: int, a: Attempt) {
    a.verdict != Aborted ==> a.tid in txns && txns[a.tid].slot == i
  }

  ghost predicate Linked(s: State) {
    && (forall t :: t in s.txns ==> LinkOk(s.hist, t, s.txns[t]))
    && (forall i :: 0 <= i < |s.hist| ==> EntryOk(s.txns, i, s.hist[i]))
  }

  /** The commit records are those of the transactions that have passed and finished writing. */
  ghost predicate Receipts(s: State) {
    && s.recs <= s.txns.Keys
    && (forall t :: t in s.txns ==> (t in s.recs <==> s.txns[t].ok && !IsWriting(s.txns[t])))
  }

  // ----- locks -----

  function HeldOn(x: Txn, o: Obj): (ks: set<Key>) {
    set k | k in x.held && LockOf(k) == o
  }

  /** The two-step windows of acquire and release. */
  predicate InWindow(x: Txn, o: Obj) {
    (x.pc.Bump? || x.pc.Free?) && LockOf(x.pc.k) == o
  }

  function OwnerIn(cells: map<Obj, Cell>, o: Obj): Tid {
    if o in cells then cells[o].owner else 0
  }

  function VersIn(cells: map<Obj, Cell>, o: Obj): Tid {
    if o in cells then cells[o].vers else 0
  }

  /** The objects of a transaction's locked tags are owned by it. */
  ghost predicate HoldsOk(cells: map<Obj, Cell>, t: Tid, x: Txn) {
    && (forall k :: k in x.held ==> OwnerIn(cells, LockOf(k)) == t)
    && (x.pc.Bump? || x.pc.Free? ==> OwnerIn(cells, LockOf(x.pc.k)) == t)
    && (x.pc.Free? ==> HeldOn(x, LockOf(x.pc.k)) == {})
  }

  /** An owned object has a locked tag of its owner, and its count is the number of them. */
  predicate OwnedOk(txns: map<Tid, Txn>, o: Obj, c: Cell) {
    if c.owner == 0 then c.count == 0
    else c.owner in txns && c.count == |HeldOn(txns[c.owner], o)| && (c.count == 0 ==> InWindow(txns[c.owner], o))
  }

  ghost predicate Locks(s: State) {
    && (forall t :: t in s.txns ==> HoldsOk(s.cells, t, s.txns[t]))
    && (forall o :: o in s.cells ==> OwnedOk(s.txns, o, s.cells[o]))
  }

  /** While an attempt holds a lock, no attempt after it in the history writes under that lock. */
  ghost predicate OrderOk(h: seq<Attempt>, x: Txn) {
    x.slot >= 0 ==>
      forall k, j, k' :: k in x.held && x.slot < j < |h| && Writes(h[j], k') ==> LockOf(k') != LockOf(k)
  }

  ghost predicate Ordered(s: State) {
    forall t :: t in s.txns ==> OrderOk(s.hist, s.txns[t])
  }

  // ----- data and versions -----

  /** `x` will still store `k`. */
  predicate Unstored(x: Txn, k: Key) {
    IsWriting(x) && k in Written(x.tags) && k !in x.stored
  }

  /** `x` will still set the version of the row of `k`. */
  predicate Unversioned(x: Txn, k: Key) {
    IsWriting(x) && k in Written(x.tags) && (k !in x.stored || x.pc == SetVers(k))
  }

  /** The owner of the lock of `k`, if it is a transaction. */
  function Owner(s: State, k: Key): (t: Tid) {
    OwnerIn(s.cells, LockOf(k))
  }

  /** How much of the history the data of `k` shows: all, unless its owner is yet to store. */
  function Front(s: State, k: Key): int {
    if Owner(s, k) in s.txns && Unstored(s.txns[Owner(s, k)], k) then s.txns[Owner(s, k)].slot else |s.hist|
  }

  predicate DataOk(s: State, k: Key) {
    k in s.data && s.data[k] == ValueAt(s.init, s.hist, Front(s, k), k)
  }

  ghost predicate Data(s: State) {
    forall k :: k in s.data ==> DataOk(s, k)
  }

  /** The same for the version of the row of `k`. */
  function VersFront(s: State, k: Key): int {
    if Owner(s, k) in s.txns && Unversioned(s.txns[Owner(s, k)], k) then s.txns[Owner(s, k)].slot else |s.hist|
  }

  predicate VersOk(s: State, k: Key) {
    VersIn(s.cells, LockOf(k)) == VersAt(s.hist, VersFront(s, k), k)
  }

  ghost predicate Versions(s: State) {
    forall k :: k in s.data && k.Row? ==> VersOk(s, k)
  }

  // ----- reads -----

  /** `x` has set the version of `k` and is at a history position below `n`. */
  predicate Versioned(x: Txn, n: int, k: Key) {
    x.ok && x.slot < n && k in x.stored && x.pc != SetVers(k)
  }

  /** `v` is a version that `k` had before history position `n`. */
  predicate Known(txns: map<Tid, Txn>, n: int, k: Key, v: Tid) {
    v == 0 || (v in txns && Versioned(txns[v], n, k))
  }

  /** The end of the history that a transaction's reads can have seen. */
  function Horizon(h: seq<Attempt>, x: Txn): int {
    if x.slot < 0 then |h| else x.slot
  }

  predicate WasRead(x: Txn, k: Key) {
    k in x.tags && x.tags[k].wasRead
  }

  ghost predicate KnownOk(txns: map<Tid, Txn>, h: seq<Attempt>, x: Txn) {
    && (forall k :: k in x.tags && x.tags[k].wasRead ==> Known(txns, Horizon(h, x), k, x.tags[k].vers))
    && (x.pc.Load? ==> Known(txns, |h|, x.pc.k, x.pc.v))
  }

  ghost predicate KnownReads(s: State) {
    && (forall t :: t in s.txns ==> KnownOk(s.txns, s.hist, s.txns[t]))
    && (forall k :: k in s.data && k.Row? ==> Known(s.txns, |s.hist|, k, VersIn(s.cells, LockOf(k))))
  }

  /** A writer has stored `k` and not yet its version. */
  predicate Torn(s: State, k: Key) {
    Owner(s, k) in s.txns && s.txns[Owner(s, k)].pc == SetVers(k)
  }

  /** A value read under a version that is still current is the current value. */
  ghost predicate FreshOk(s: State, x: Txn) {
    forall k :: k in x.tags && x.tags[k].wasRead && k in s.data && VersIn(s.cells, LockOf(k)) == x.tags[k].vers && !Torn(s, k)
      ==> x.tags[k].seen == s.data[k]
  }

  ghost predicate FreshReads(s: State) {
    forall t :: t in s.txns ==> FreshOk(s, s.txns[t])
  }

  /** `check_version` has accepted the owner of the row of `k`. */
  predicate Accepted(x: Txn, k: Key) {
    k in x.marked || x.pc == Vers(k)
  }

  /** Once that has happened, every earlier writer of the row is decided. */
  ghost predicate SettledOk(h: seq<Attempt>, x: Txn) {
    forall k, i {:trigger Writes(h[i], k)} :: Accepted(x, k) && 0 <= i < x.slot && i < |h| && Writes(h[i], k) ==> h[i].verdict != Pending
  }

  ghost predicate Settled(s: State) {
    forall t :: t in s.txns ==> SettledOk(s.hist, s.txns[t])
  }

  /** A validated read returned the value at the reader's place in the history; one whose owner
      was accepted did so if its version is still current. */
  ghost predicate ValidOk(init: map<Key, Val>, h: seq<Attempt>, cells: map<Obj, Cell>, x: Txn) {
    forall k :: k in x.tags && Accepted(x, k) && (k in x.marked || VersIn(cells, LockOf(k)) == x.tags[k].vers)
      ==> x.tags[k].seen == ValueAt(init, h, x.slot, k)
  }

  ghost predicate Validated(s: State) {
    forall t :: t in s.txns ==> ValidOk(s.init, s.hist, s.cells, s.txns[t])
  }

  /** A key that is both read and written is not validated; its read returned the value at the
      reader's place if the version it saw is the one at that place. */
  ghost predicate UpdateOk(init: map<Key, Val>, h: seq<Attempt>, x: Txn) {
    forall k :: k in x.tags && x.tags[k].wasRead && x.tags[k].hasWrite && x.slot >= 0 && x.tags[k].vers == VersAt(h, x.slot, k)
      ==> x.tags[k].seen == ValueAt(init, h, x.slot, k)
  }

  ghost predicate Updates(s: State) {
    forall t :: t in s.txns ==> UpdateOk(s.init, s.hist, s.txns[t])
  }

  /** The tag of a key holds what the last read of it returned. */
  ghost predicate TraceOk(x: Txn) {
    forall j :: 0 <= j < |x.trace| ==>
      var k := x.trace[j].0;
      WasRead(x, k) && ((forall j' :: j < j' < |x.trace| ==> x.trace[j'].0 != k) ==> x.tags[k].seen == x.trace[j].1)
  }

  ghost predicate Traced(s: State) {
    forall t :: t in s.txns ==> TraceOk(s.txns[t])
  }

  // ----- durability -----

  predicate RecOk(init: map<Key, Val>, h: seq<Attempt>, txns: map<Tid, Txn>, e: LogRec) {
    e.tid in txns && e.key in txns[e.tid].logged && e.pre == ValueAt(init, h, txns[e.tid].slot, e.key)
  }

  ghost predicate LoggedOk(init: map<Key, Val>, h: seq<Attempt>, log: seq<LogRec>, t: Tid, x: Txn) {
    forall k :: k in x.logged ==> LogRec(t, k, ValueAt(init, h, x.slot, k)) in log
  }

  ghost predicate Logged(s: State) {
    && (forall e :: e in s.log ==> RecOk(s.init, s.hist, s.txns, e))
    && (forall t :: t in s.txns ==> LoggedOk(s.init, s.hist, s.log, t, s.txns[t]))
  }

  /** `x` has stored `k` and not yet flushed it. */
  predicate Unflushed(x: Txn, k: Key) {
    IsWriting(x) && k in x.stored && k !in x.flushed
  }

  /** Durable and cached value differ only there. */
  predicate DurableOk(s: State, k: Key) {
    k in s.data && k in s.dur && s.dur[k] != s.data[k] ==> Owner(s, k) in s.txns && Unflushed(s.txns[Owner(s, k)], k)
  }

  ghost predicate Durable(s: State) {
    forall k :: k in s.data ==> DurableOk(s, k)
  }

  ghost predicate Inv(s: State) {
    && Shape(s) && Linked(s) && Receipts(s) && Locks(s) && Ordered(s)
    && Data(s) && Versions(s) && KnownReads(s) && FreshReads(s) && Settled(s) && Validated(s) && Updates(s) && Traced(s)
    && Logged(s) && Durable(s)
  }
}
