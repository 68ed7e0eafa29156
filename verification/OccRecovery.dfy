/** Undo recovery from a crash at any point of any run. */
module OccRecovery {
  import opened OccMachine
  import opened OccInvariant
  import opened OccHistory
  import opened OccStructure
  import opened OccData
  import opened OccValidation
  import opened OccTheorems

  /** Recovery writes the saved values back, in the order given. */
  function Restore(store: map<Key, Val>, undo: seq<LogRec>): (r: map<Key, Val>)
    ensures store.Keys <= r.Keys
  {
    if undo == [] then store
    else Restore(store, undo[..|undo| - 1])[undo[|undo| - 1].key := undo[|undo| - 1].pre]
  }

  /** `undo` lists the log records of the transactions without a commit record, in some order
      and each any positive number of times. */
  ghost predicate UndoOf(s: State, undo: seq<LogRec>) {
    forall e :: e in undo <==> e in s.log && e.tid !in s.recs
  }

  /** The history as the commit records know it. */
  function RecordedOnly(h: seq<Attempt>): (r: seq<Attempt>)
    ensures |r| == |h|
    ensures forall i :: 0 <= i < |h| ==> r[i] == if h[i].verdict == Recorded then h[i] else h[i].(verdict := Aborted)
  {
    seq(|h|, i requires 0 <= i < |h| => if h[i].verdict == Recorded then h[i] else h[i].(verdict := Aborted))
  }

  lemma {:induction false} RestoreAt(store: map<Key, Val>, undo: seq<LogRec>, k: Key, v: Val)
    requires forall e :: e in undo && e.key == k ==> e.pre == v
    ensures (exists e :: e in undo && e.key == k) ==> k in Restore(store, undo) && Restore(store, undo)[k] == v
    ensures !(exists e :: e in undo && e.key == k) && k in store ==> Restore(store, undo)[k] == store[k]
  {
    if undo != [] {
      var last := undo[|undo| - 1];
      assert undo == undo[..|undo| - 1] + [last];
      RestoreAt(store, undo[..|undo| - 1], k, v);
      assert last in undo;
    }
  }

  lemma {:induction false} RestoreKeys(store: map<Key, Val>, undo: seq<LogRec>)
    requires forall e :: e in undo ==> e.key in store
    ensures Restore(store, undo).Keys == store.Keys
  {
    if undo != [] {
      assert undo[|undo| - 1] in undo;
      RestoreKeys(store, undo[..|undo| - 1]);
    }
  }

  /** A passed attempt without a record is in flight and has its writes locked. */
  lemma InFlightOwns(s: State, i: int, k: Key)
    requires Shape(s) && Linked(s) && Locks(s)
    requires 0 <= i < |s.hist| && s.hist[i].verdict == Passed && Writes(s.hist[i], k)
    ensures var u := s.hist[i].tid; u in s.txns && s.txns[u].slot == i && IsWriting(s.txns[u]) && Owner(s, k) == u
  {
    var u := s.hist[i].tid;
    assert EntryOk(s.txns, i, s.hist[i]);
    assert LinkOk(s.hist, u, s.txns[u]) && TxnOk(s.data.Keys, s.txns[u]) && HoldsOk(s.cells, u, s.txns[u]);
    assert k in s.txns[u].held;
  }

  /** The owner of the lock of `k` will still write or has written `k`, without a commit record. */
  predicate InFlight(s: State, k: Key) {
    var w := Owner(s, k);
    w in s.txns && IsWriting(s.txns[w]) && k in Written(s.txns[w].tags)
  }

  lemma PassedIsInFlight(s: State, j: int, k: Key)
    requires Shape(s) && Linked(s) && Locks(s)
    requires 0 <= j < |s.hist| && s.hist[j].verdict == Passed && Writes(s.hist[j], k)
    ensures InFlight(s, k) && s.txns[Owner(s, k)].slot == j
  {
    InFlightOwns(s, j, k);
    assert LinkOk(s.hist, s.hist[j].tid, s.txns[s.hist[j].tid]);
  }

  /** If the only passed attempt without a record that writes `k` is at `n`, the recorded replay
      of `k` is the replay below `n`. */
  lemma RecordedLast(h: seq<Attempt>, n: int, k: Key)
    requires 0 <= n <= |h|
    requires forall j :: 0 <= j < |h| && h[j].verdict == Passed && Writes(h[j], k) ==> j == n
    requires forall j :: n < j < |h| ==> !Writes(h[j], k)
    requires n < |h| ==> h[n].verdict == Passed
    ensures LastWriter(RecordedOnly(h), |h|, k) == LastWriter(h, n, k)
  {
    if |h| > 0 {
      LastIs(RecordedOnly(h), |h|, k, LastWriter(h, n, k));
    }
  }

  lemma InFlightIsLast(s: State, k: Key)
    requires Shape(s) && Linked(s) && Locks(s) && Ordered(s) && InFlight(s, k)
    ensures var n := s.txns[Owner(s, k)].slot;
            0 <= n < |s.hist| && s.hist[n].verdict == Passed && forall j :: n < j < |s.hist| ==> !Writes(s.hist[j], k)
  {
    SoundOf(s, Owner(s, k));
    NoLaterWriter(s, Owner(s, k), k);
  }

  /** The recorded replay of `k` stops at the attempt in flight on it, if there is one. */
  lemma RecordedValue(s: State, k: Key)
    requires Shape(s) && Linked(s) && Locks(s) && Ordered(s)
    ensures var n := if InFlight(s, k) then s.txns[Owner(s, k)].slot else |s.hist|;
            ValueAt(s.init, RecordedOnly(s.hist), |s.hist|, k) == ValueAt(s.init, s.hist, n, k)
  {
    var n := if InFlight(s, k) then s.txns[Owner(s, k)].slot else |s.hist|;
    if InFlight(s, k) {
      InFlightIsLast(s, k);
    }
    forall j | 0 <= j < |s.hist| && s.hist[j].verdict == Passed && Writes(s.hist[j], k)
      ensures j == n
    {
      PassedIsInFlight(s, j, k);
    }
    RecordedLast(s.hist, n, k);
  }

  /** Only the in-flight writer of `k` can have a log record of it without a commit record. */
  lemma UndoRecord(s: State, e: LogRec)
    requires Reachable(s) && e in s.log && e.tid !in s.recs
    ensures e.key in s.data && InFlight(s, e.key) && e.tid == Owner(s, e.key)
    ensures e.pre == ValueAt(s.init, s.hist, s.txns[e.tid].slot, e.key)
  {
    ReachableInv(s);
    assert RecOk(s.init, s.hist, s.txns, e);
    SoundOf(s, e.tid);
    InFlightOwns(s, s.txns[e.tid].slot, e.key);
  }

  /** Where an attempt is in flight, it has logged the value before, or not touched the store. */
  lemma InFlightStore(s: State, k: Key)
    requires Reachable(s) && k in s.data && k in s.dur && InFlight(s, k)
    ensures var w := Owner(s, k);
            var v := ValueAt(s.init, s.hist, s.txns[w].slot, k);
            (w !in s.recs && LogRec(w, k, v) in s.log) || s.dur[k] == v
  {
    ReachableInv(s);
    var w := Owner(s, k);
    SoundOf(s, w);
    assert DataOk(s, k) && DurableOk(s, k) && LoggedOk(s.init, s.hist, s.log, w, s.txns[w]);
  }

  lemma QuietStore(s: State, k: Key)
    requires Reachable(s) && k in s.data && k in s.dur && !InFlight(s, k)
    ensures s.dur[k] == ValueAt(s.init, s.hist, |s.hist|, k)
  {
    ReachableInv(s);
    assert DataOk(s, k) && DurableOk(s, k);
    if Owner(s, k) in s.txns {
      SoundOf(s, Owner(s, k));
    }
  }

  lemma RecoveredValue(s: State, undo: seq<LogRec>, k: Key)
    requires Reachable(s) && UndoOf(s, undo) && k in s.data && k in s.dur
    ensures k in Restore(s.dur, undo) && Restore(s.dur, undo)[k] == ValueAt(s.init, RecordedOnly(s.hist), |s.hist|, k)
  {
    RecordedReplay(s, k);
    forall e | e in undo && e.key == k
      ensures InFlight(s, k) && e.tid == Owner(s, k) && e.pre == ValueAt(s.init, s.hist, s.txns[Owner(s, k)].slot, k)
    {
      UndoRecord(s, e);
    }
    if InFlight(s, k) {
      var v := ValueAt(s.init, s.hist, s.txns[Owner(s, k)].slot, k);
      InFlightStore(s, k);
      RestoreAt(s.dur, undo, k, v);
      assert LogRec(Owner(s, k), k, v) in s.log && Owner(s, k) !in s.recs ==> LogRec(Owner(s, k), k, v) in undo;
    } else {
      QuietStore(s, k);
      RestoreAt(s.dur, undo, k, 0);
    }
  }

  lemma RecordedReplay(s: State, k: Key)
    requires Reachable(s)
    ensures var n := if InFlight(s, k) then s.txns[Owner(s, k)].slot else |s.hist|;
            ValueAt(s.init, RecordedOnly(s.hist), |s.hist|, k) == ValueAt(s.init, s.hist, n, k)
    ensures s.data.Keys == s.dur.Keys == s.init.Keys
  {
    ReachableInv(s);
    RecordedValue(s, k);
  }

  /** After a crash in any reachable state, whatever part of the in-flight installs has become
      durable, writing back the saved values of every transaction without a commit record, in
      any order, leaves exactly the serial execution of those with one. */
  lemma RecoveryIsExact(s: State, undo: seq<LogRec>)
    requires Reachable(s) && UndoOf(s, undo)
    ensures Restore(s.dur, undo) == Replay(s.init, RecordedOnly(s.hist))
  {
    var h' := RecordedOnly(s.hist);
    assert h'[..|h'|] == h';
    RecordedReplay(s, Row(0));
    forall e | e in undo
      ensures e.key in s.dur
    {
      UndoRecord(s, e);
    }
    RestoreKeys(s.dur, undo);
    forall k | k in s.data
      ensures Restore(s.dur, undo)[k] == Replay(s.init, h')[k]
    {
      RecoveredValue(s, undo, k);
      ReplayIsValueAt(s.init, h', |h'|, k);
    }
  }

  /** The commit records name exactly the recorded attempts. */
  lemma RecordsAreHistory(s: State, t: Tid)
    requires Reachable(s)
    ensures t in s.recs <==> exists i :: 0 <= i < |s.hist| && s.hist[i].tid == t && s.hist[i].verdict == Recorded
  {
    ReachableInv(s);
    if t in s.recs {
      SoundOf(s, t);
      assert s.hist[s.txns[t].slot].tid == t;
    }
    if i :| 0 <= i < |s.hist| && s.hist[i].tid == t && s.hist[i].verdict == Recorded {
      assert EntryOk(s.txns, i, s.hist[i]);
      SoundOf(s, t);
    }
  }
}
