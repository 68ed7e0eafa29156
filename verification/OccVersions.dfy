/** Versions never recur: with one transaction for each id, no row carries the same version for
    two different installs. */
module OccVersions {
  import opened OccMachine
  import opened OccInvariant
  import opened OccStructure
  import opened OccHistory
  import opened OccReads
  import opened OccTheorems

  /** `v` is, or has been, the version of `k`. */
  predicate Carried(s: State, k: Key, v: Tid) {
    Known(s.txns, |s.hist|, k, v)
  }

  /** The version of a row. */
  function Version(s: State, k: Key): Tid {
    VersIn(s.cells, LockOf(k))
  }

  lemma VersionIsCarried(s: State, k: Key)
    requires Reachable(s) && k in s.data && k.Row?
    ensures Carried(s, k, Version(s, k))
  {
    ReachableInv(s);
  }

  lemma CarriedStep(s: State, t: Tid, m: Move, k: Key, v: Tid)
    requires Reachable(s) && t in s.txns && CanMove(s, t, m) && k.Row? && Carried(s, k, v)
    ensures Carried(ApplyMove(s, t, m), k, v)
    ensures Version(ApplyMove(s, t, m), k) == v ==> Version(s, k) == v
    ensures m.SetVersion? && s.txns[t].pc.k == k ==> Version(ApplyMove(s, t, m), k) != v
  {
    ReachableSound(s, t);
    HistFrame(s, t, m);
    KnownMono(s, t, m, |s.hist|, |NextHist(s, t, m)|, k, v);
    NewVersion(s, t, m, |s.hist|, k, v);
  }

  lemma {:induction false} CarriedForEver(s: State, es: seq<Action>, k: Key, v: Tid)
    requires Reachable(s) && CanRun(s, es) && k.Row? && Carried(s, k, v)
    ensures Carried(Run(s, es), k, v) && Reachable(Run(s, es))
    ensures Version(Run(s, es), k) == v ==> Version(s, k) == v
    decreases |es|
  {
    if es != [] {
      CarriedStep(s, es[0].t, es[0].m, k, v);
      ReachableStep(s, es[0].t, es[0].m);
      CarriedForEver(ApplyMove(s, es[0].t, es[0].m), es[1..], k, v);
    }
  }

  /** Once the version of a row has left `v`, no run brings it back. */
  lemma VersionNeverReturns(s: State, es: seq<Action>, later: seq<Action>, k: Key)
    requires Reachable(s) && CanRun(s, es) && CanRun(Run(s, es), later) && k in s.data && k.Row?
    requires Version(Run(s, es), k) != Version(s, k)
    ensures Version(Run(Run(s, es), later), k) != Version(s, k)
  {
    VersionIsCarried(s, k);
    CarriedForEver(s, es, k, Version(s, k));
    CarriedForEver(Run(s, es), later, k, Version(s, k));
  }

  /** An install sets a version that the row has had in no state before. */
  lemma InstallIsNew(s: State, es: seq<Action>, t: Tid, k: Key)
    requires Reachable(s) && CanRun(s, es) && k in s.data && k.Row?
    requires t in Run(s, es).txns && CanMove(Run(s, es), t, SetVersion) && Run(s, es).txns[t].pc.k == k
    ensures Version(ApplyMove(Run(s, es), t, SetVersion), k) != Version(s, k)
  {
    VersionIsCarried(s, k);
    CarriedForEver(s, es, k, Version(s, k));
    CarriedStep(Run(s, es), t, SetVersion, k, Version(s, k));
  }

  /** No id commits twice. */
  lemma IdsCommitOnce(s: State, i: nat, j: nat)
    requires Reachable(s) && i < |s.hist| && j < |s.hist| && Committed(s.hist[i]) && Committed(s.hist[j])
    requires s.hist[i].tid == s.hist[j].tid
    ensures i == j
  {
    ReachableInv(s);
    assert EntryOk(s.txns, i, s.hist[i]) && EntryOk(s.txns, j, s.hist[j]);
  }

  /** So the version at a place in the serial order names the install it is of. */
  lemma VersionNamesInstall(s: State, m: nat, n: nat, k: Key)
    requires Reachable(s) && m <= |s.hist| && n <= |s.hist| && VersAt(s.hist, m, k) == VersAt(s.hist, n, k)
    ensures LastWriter(s.hist, m, k) == LastWriter(s.hist, n, k)
  {
    var i, j := LastWriter(s.hist, m, k), LastWriter(s.hist, n, k);
    IdsAreNotZero(s);
    if i >= 0 && j >= 0 {
      IdsCommitOnce(s, i, j);
    }
  }

  lemma IdsAreNotZero(s: State)
    requires Reachable(s)
    ensures forall i :: 0 <= i < |s.hist| && Committed(s.hist[i]) ==> s.hist[i].tid != 0
  {
    ReachableInv(s);
    forall i | 0 <= i < |s.hist| && Committed(s.hist[i]) ensures s.hist[i].tid != 0 {
      assert EntryOk(s.txns, i, s.hist[i]);
    }
  }
}
