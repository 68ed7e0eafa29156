/** What the optimistic protocol guarantees in every reachable state. */
module OccTheorems {
  import opened OccMachine
  import opened OccInvariant
  import opened OccHistory
  import opened OccStructure
  import opened OccData
  import opened OccReads
  import opened OccValidation
  import opened OccDurability

  // ----- the invariant holds along every run -----

  lemma InitInv(s: State)
    requires Init(s)
    ensures Inv(s)
  {
  }

  lemma MoveKeepsInv(s: State, t: Tid, m: Move)
    requires Inv(s) && t in s.txns && CanMove(s, t, m)
    ensures Inv(ApplyMove(s, t, m))
  {
    ShapeKept(s, t, m);
    LinkedKept(s, t, m);
    ReceiptsKept(s, t, m);
    LocksKept(s, t, m);
    OrderedKept(s, t, m);
    DataKept(s, t, m);
    VersionsKept(s, t, m);
    KnownKept(s, t, m);
    FreshReadsKept(s, t, m);
    SettledKept(s, t, m);
    ValidatedKept(s, t, m);
    UpdatesKept(s, t, m);
    TracedKept(s, t, m);
    LoggedKept(s, t, m);
    DurableKept(s, t, m);
  }

  lemma {:induction false} RunKeepsInv(s: State, es: seq<Action>)
    requires Inv(s) && CanRun(s, es)
    ensures Inv(Run(s, es))
    decreases |es|
  {
    if es != [] {
      MoveKeepsInv(s, es[0].t, es[0].m);
      RunKeepsInv(ApplyMove(s, es[0].t, es[0].m), es[1..]);
    }
  }

  /** `s` can be reached from some start. */
  ghost predicate Reachable(s: State) {
    exists s0, es :: Init(s0) && CanRun(s0, es) && Run(s0, es) == s
  }

  lemma {:induction false} RunThen(s: State, es: seq<Action>, a: Action)
    requires CanRun(s, es) && a.t in Run(s, es).txns && CanMove(Run(s, es), a.t, a.m)
    ensures CanRun(s, es + [a]) && Run(s, es + [a]) == ApplyMove(Run(s, es), a.t, a.m)
    decreases |es|
  {
    if es == [] {
      assert es + [a] == [a] && [a][1..] == [];
      assert CanRun(ApplyMove(s, a.t, a.m), []);
    } else {
      assert (es + [a])[0] == es[0] && (es + [a])[1..] == es[1..] + [a];
      RunThen(ApplyMove(s, es[0].t, es[0].m), es[1..], a);
    }
  }

  lemma ReachableStep(s: State, t: Tid, m: Move)
    requires Reachable(s) && t in s.txns && CanMove(s, t, m)
    ensures Reachable(ApplyMove(s, t, m))
  {
    var s0, es :| Init(s0) && CanRun(s0, es) && Run(s0, es) == s;
    RunThen(s0, es, Action(t, m));
    assert CanRun(s0, es + [Action(t, m)]) && Run(s0, es + [Action(t, m)]) == ApplyMove(s, t, m);
  }

  /** Some run takes `a` to `b`. */
  ghost predicate LeadsTo(a: State, b: State) {
    exists es :: CanRun(a, es) && Run(a, es) == b
  }

  lemma {:induction false} RunConcat(s: State, es: seq<Action>, fs: seq<Action>)
    requires CanRun(s, es) && CanRun(Run(s, es), fs)
    ensures CanRun(s, es + fs) && Run(s, es + fs) == Run(Run(s, es), fs)
    decreases |es|
  {
    if es == [] {
      assert es + fs == fs;
    } else {
      assert (es + fs)[0] == es[0] && (es + fs)[1..] == es[1..] + fs;
      RunConcat(ApplyMove(s, es[0].t, es[0].m), es[1..], fs);
    }
  }

  lemma LeadsFurther(a: State, b: State, c: State)
    requires LeadsTo(a, b) && LeadsTo(b, c)
    ensures LeadsTo(a, c)
  {
    var es :| CanRun(a, es) && Run(a, es) == b;
    var fs :| CanRun(b, fs) && Run(b, fs) == c;
    RunConcat(a, es, fs);
  }

  lemma LeadsToSelf(s: State)
    ensures LeadsTo(s, s)
  {
    assert CanRun(s, []) && Run(s, []) == s;
  }

  lemma LeadsByStep(s: State, t: Tid, m: Move)
    requires t in s.txns && CanMove(s, t, m)
    ensures LeadsTo(s, ApplyMove(s, t, m))
  {
    var es := [Action(t, m)];
    assert es[1..] == [] && CanRun(ApplyMove(s, t, m), []);
    assert CanRun(s, es) && Run(s, es) == ApplyMove(s, t, m);
  }

  lemma ReachableInv(s: State)
    requires Reachable(s)
    ensures Inv(s)
  {
    var s0, es :| Init(s0) && CanRun(s0, es) && Run(s0, es) == s;
    InitInv(s0);
    RunKeepsInv(s0, es);
  }

  lemma ReachableSound(s: State, t: Tid)
    requires Reachable(s) && t in s.txns
    ensures Sound(s, t) && s.data.Keys == s.dur.Keys == s.init.Keys
    ensures forall k :: k in s.data ==> LockOf(k) in s.cells
    ensures forall k :: k in s.txns[t].tags ==> k in s.data && LockOf(k) in s.cells
  {
    ReachableInv(s);
    SoundOf(s, t);
  }

  // ----- serializability -----

  /** One committed attempt executed alone: its writes replace the values they name. */
  function Install(store: map<Key, Val>, a: Attempt): (r: map<Key, Val>) {
    if Committed(a) then map k | k in store :: if Writes(a, k) then a.tags[k].val else store[k] else store
  }

  /** The committed attempts executed one after another in history order. */
  function Replay(init: map<Key, Val>, h: seq<Attempt>): (r: map<Key, Val>)
    ensures r.Keys == init.Keys
  {
    if h == [] then init else Install(Replay(init, h[..|h| - 1]), h[|h| - 1])
  }

  lemma {:induction false} ReplayIsValueAt(init: map<Key, Val>, h: seq<Attempt>, n: nat, k: Key)
    requires n <= |h| && k in init
    ensures Replay(init, h[..n])[k] == ValueAt(init, h, n, k)
  {
    if n > 0 {
      assert h[..n][..n - 1] == h[..n - 1];
      ReplayIsValueAt(init, h, n - 1, k);
    }
  }

  /** Every tag that a committed attempt read and did not write holds what the serial execution
      has there when the attempt's turn comes. */
  lemma ReadsAreSerial(s: State, i: nat, k: Key)
    requires Reachable(s) && i < |s.hist| && Committed(s.hist[i]) && k in ReadOnly(s.hist[i].tags)
    ensures k in s.init && s.hist[i].tags[k].seen == Replay(s.init, s.hist[..i])[k]
  {
    ReachableInv(s);
    var t := s.hist[i].tid;
    assert EntryOk(s.txns, i, s.hist[i]);
    SoundOf(s, t);
    assert ValidOk(s.init, s.hist, s.cells, s.txns[t]);
    assert k in s.txns[t].marked;
    ReplayIsValueAt(s.init, s.hist, i, k);
  }

  /** A tag that was also written is not validated.  Its read is serial when the validation that
      is skipped would have passed: the version read is the one the serial execution has there. */
  lemma UpdateIsSerial(s: State, i: nat, k: Key)
    requires Reachable(s) && i < |s.hist| && Committed(s.hist[i]) && Writes(s.hist[i], k) && s.hist[i].tags[k].wasRead
    requires s.hist[i].tags[k].vers == VersAt(s.hist, i, k)
    ensures k in s.init && s.hist[i].tags[k].seen == Replay(s.init, s.hist[..i])[k]
  {
    ReachableInv(s);
    var t := s.hist[i].tid;
    assert EntryOk(s.txns, i, s.hist[i]);
    SoundOf(s, t);
    assert UpdateOk(s.init, s.hist, s.txns[t]);
    ReplayIsValueAt(s.init, s.hist, i, k);
  }

  lemma ReadTagFacts(s: State, t: Tid, k: Key)
    requires Reachable(s) && t in s.txns && k in s.txns[t].tags && s.txns[t].tags[k].wasRead
    ensures Sound(s, t) && DataOk(s, k) && VersOk(s, k) && FreshOk(s, s.txns[t]) && k in s.init
  {
    ReachableInv(s);
    SoundOf(s, t);
    assert k.Row?;
  }

  lemma LockedVersion(s: State, t: Tid, k: Key)
    requires t in s.txns && Sound(s, t) && CanMove(s, t, LocksDone) && k in Written(s.txns[t].tags) && VersOk(s, k)
    ensures VersIn(s.cells, LockOf(k)) == VersAt(s.hist, |s.hist|, k)
  {
    assert k in s.txns[t].held;
  }

  /** At the moment an attempt takes its place, the test that is skipped for a tag that was also
      written decides exactly: it would pass if and only if the version read is the one that the
      serial execution has there, and then the value read is the serial one too. */
  lemma SkippedTestDecides(s: State, t: Tid, k: Key)
    requires Reachable(s) && t in s.txns && CanMove(s, t, LocksDone)
    requires k in Written(s.txns[t].tags) && s.txns[t].tags[k].wasRead
    ensures var tag := s.txns[t].tags[k];
            && k in s.init
            && (VersIn(s.cells, LockOf(k)) == tag.vers <==> tag.vers == VersAt(s.hist, |s.hist|, k))
            && (VersIn(s.cells, LockOf(k)) == tag.vers ==> tag.seen == Replay(s.init, s.hist)[k])
  {
    ReadTagFacts(s, t, k);
    LockedVersion(s, t, k);
    if s.txns[t].tags[k].vers == VersAt(s.hist, |s.hist|, k) {
      LockedReadIsCurrent(s, t, k);
    }
    ReplayIsValueAt(s.init, s.hist, |s.hist|, k);
    assert s.hist[..|s.hist|] == s.hist;
  }

  lemma IdleStore(s: State, k: Key)
    requires Reachable(s) && k in s.data && forall t :: t in s.txns ==> !IsWriting(s.txns[t])
    ensures s.data[k] == ValueAt(s.init, s.hist, |s.hist|, k) && k in s.init
  {
    ReachableInv(s);
    assert DataOk(s, k);
  }

  /** With no commit in flight the store is the serial execution. */
  lemma StoreIsSerial(s: State)
    requires Reachable(s) && forall t :: t in s.txns ==> !IsWriting(s.txns[t])
    ensures s.data == Replay(s.init, s.hist)
  {
    assert s.hist[..|s.hist|] == s.hist;
    assert s.data.Keys == s.init.Keys by {
      ReachableInv(s);
    }
    forall k | k in s.data
      ensures s.data[k] == Replay(s.init, s.hist)[k]
    {
      IdleStore(s, k);
      ReplayIsValueAt(s.init, s.hist, |s.hist|, k);
    }
  }

  /** An attempt that reads each key at most once and writes none of the keys it reads. */
  predicate ReadsOnce(a: Attempt) {
    && (forall i, j :: 0 <= i < j < |a.trace| ==> a.trace[i].0 != a.trace[j].0)
    && (forall i :: 0 <= i < |a.trace| ==> a.trace[i].0 !in Written(a.tags))
  }

  /** Then every read of it, not only the last, returned the serial value. */
  lemma EveryReadIsSerial(s: State, i: nat, j: nat)
    requires Reachable(s) && i < |s.hist| && Committed(s.hist[i]) && ReadsOnce(s.hist[i]) && j < |s.hist[i].trace|
    ensures var (k, v) := s.hist[i].trace[j]; k in s.init && v == Replay(s.init, s.hist[..i])[k]
  {
    ReachableInv(s);
    var t := s.hist[i].tid;
    assert EntryOk(s.txns, i, s.hist[i]);
    SoundOf(s, t);
    assert TraceOk(s.txns[t]);
    ReadsAreSerial(s, i, s.hist[i].trace[j].0);
  }
}
