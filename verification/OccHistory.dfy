/** How the replay of a history changes when the history does. */
module OccHistory {
  import opened OccMachine
  import opened OccInvariant

  /** A committed writer with none after it is the last; without any writer there is none. */
  lemma {:induction false} LastIs(h: seq<Attempt>, n: int, k: Key, r: int)
    requires -1 <= r < n <= |h|
    requires r >= 0 ==> Committed(h[r]) && Writes(h[r], k)
    requires forall j :: r < j < n ==> !(Committed(h[j]) && Writes(h[j], k))
    ensures LastWriter(h, n, k) == r
  {
    if r < n - 1 {
      LastIs(h, n - 1, k, r);
    }
  }

  /** `h'` decides the same attempts as `h` and may have more, uncommitted ones behind. */
  ghost predicate SameCommits(h: seq<Attempt>, h': seq<Attempt>) {
    && |h| <= |h'|
    && (forall i :: 0 <= i < |h| ==> h'[i].tid == h[i].tid && h'[i].tags == h[i].tags && Committed(h'[i]) == Committed(h[i]))
    && (forall i :: |h| <= i < |h'| ==> !Committed(h'[i]))
  }

  lemma SameReplay(init: map<Key, Val>, h: seq<Attempt>, h': seq<Attempt>)
    requires SameCommits(h, h')
    ensures forall n, k :: n <= |h| ==> ValueAt(init, h', n, k) == ValueAt(init, h, n, k) && VersAt(h', n, k) == VersAt(h, n, k)
    ensures forall k :: ValueAt(init, h', |h'|, k) == ValueAt(init, h, |h|, k) && VersAt(h', |h'|, k) == VersAt(h, |h|, k)
  {
    forall n, k | n <= |h|
      ensures LastWriter(h', n, k) == LastWriter(h, n, k)
    {
      if n > 0 {
        LastIs(h', n, k, LastWriter(h, n, k));
      }
    }
    forall k
      ensures LastWriter(h', |h'|, k) == LastWriter(h, |h|, k)
    {
      LastIs(h', |h'|, k, LastWriter(h, |h|, k));
    }
  }

  /** When a pending attempt passes, only the keys it writes change, and only above it. */
  lemma PassLast(h: seq<Attempt>, i: nat, n: int, k: Key)
    requires i < |h| && n <= |h| && (n <= i || !Writes(h[i], k))
    ensures LastWriter(h[i := h[i].(verdict := Passed)], n, k) == LastWriter(h, n, k)
  {
    if n > 0 {
      LastIs(h[i := h[i].(verdict := Passed)], n, k, LastWriter(h, n, k));
    }
  }

  /** Without writers of `k` from `i` on, the replay below `i` is the whole replay. */
  lemma NoneAfter(h: seq<Attempt>, i: int, n: int, k: Key)
    requires 0 <= i <= n <= |h|
    requires forall j :: i <= j < n ==> !(Committed(h[j]) && Writes(h[j], k))
    ensures LastWriter(h, n, k) == LastWriter(h, i, k)
  {
    LastIs(h, n, k, LastWriter(h, i, k));
  }

  /** A move changes at most its own transaction's entry, and adds at most one. */
  lemma HistFrame(s: State, t: Tid, m: Move)
    requires t in s.txns && CanMove(s, t, m) && TxnOk(s.data.Keys, s.txns[t]) && LinkOk(s.hist, t, s.txns[t])
    ensures var h, h' := s.hist, NextHist(s, t, m);
            && |h| <= |h'| <= |h| + 1
            && (forall i :: 0 <= i < |h| ==> h'[i].tid == h[i].tid && h'[i].tags == h[i].tags && h'[i].trace == h[i].trace)
            && (forall i :: 0 <= i < |h| && (i != s.txns[t].slot || m.LocksDone?) ==> h'[i] == h[i])
            && (|h'| > |h| ==> m.LocksDone? && h' == h + [Attempt(t, s.txns[t].tags, s.txns[t].trace, Pending)])
    ensures !m.Pass? ==> SameCommits(s.hist, NextHist(s, t, m))
    ensures m.Pass? ==> s.hist[s.txns[t].slot].verdict == Pending
                        && NextHist(s, t, m) == s.hist[s.txns[t].slot := s.hist[s.txns[t].slot].(verdict := Passed)]
  {
  }
}
