/** Write order in the pipeline.  Transactions install on an object in the order in which they
    commit, except where a read-only access comes between: a writer that finds the access info of
    a reader does not follow the writer before.  Together with the recorded dependencies this
    order has no cycle. */
module PipeInstall {
  import opened PipeMachine
  import opened PipeInvariant
  import opened PipeWaits

  function LastT(w: seq<Entry>): Tid {
    if w == [] then 0 else w[|w| - 1].t
  }

  function LastPeeks(w: seq<Entry>): nat {
    if w == [] then 0 else w[|w| - 1].peeks
  }

  /** `a` installed right before `b` and stays before it. */
  predicate Linked(txns: map<Tid, Txn>, a: Tid, b: Tid) {
    && a in txns && b in txns && a != b
    && (a in txns[b].deps || (txns[a].committed && (txns[b].committed ==> txns[a].ctime < txns[b].ctime)))
  }

  /** The owner of `o` has installed its data but is not yet its last accessor. */
  predicate HalfInstalled(s: State, o: Oid)
    requires o in s.owner
  {
    s.owner[o] in s.txns && s.txns[s.owner[o]].pc == Mark(o)
  }

  predicate HeldBy(s: State, o: Oid, t: Tid) {
    o in s.owner && s.owner[o] == t
  }

  /** The last accessor is the last installer, or there has been a read-only access since. */
  predicate LogOk(s: State, o: Oid)
    requires o in s.owner && o in s.access && o in s.wlog
  {
    var w := s.wlog[o];
    && LastPeeks(w) <= Peeks(s, o)
    && if HalfInstalled(s, o) then |w| > 0 && LastT(w) == s.owner[o]
       else if o in s.veiled then LastPeeks(w) < Peeks(s, o)
       else s.access[o] == LastT(w)
  }

  /** Neighbours in the log are linked, unless a read-only access came between. */
  ghost predicate LinksOk(txns: map<Tid, Txn>, w: seq<Entry>) {
    && (forall i :: 0 <= i < |w| ==> w[i].t in txns)
    && (forall i :: 0 < i < |w| ==> if w[i].hidden then w[i - 1].peeks < w[i].peeks
                                    else w[i - 1].peeks <= w[i].peeks && Linked(txns, w[i - 1].t, w[i].t))
  }

  /** The transaction is to write `o`, has scanned it and not yet installed it. */
  predicate Scanned(x: Txn, o: Oid) {
    && HoldsAll(x.pc) && !x.pc.Checking? && x.pc != Mark(o)
    && o in x.tags && x.tags[o] && o in x.scanned && o !in x.installed
  }

  /** It is looking at `o` to that end. */
  predicate Looking(x: Txn, o: Oid) {
    x.pc.Seen? && x.pc.o == o && o in x.tags && x.tags[o]
  }

  predicate Follows(txns: map<Tid, Txn>, x: Txn, d: Tid) {
    HasCommit(txns, d) || d in x.deps
  }

  /** A writer that has scanned `o` follows the last installer of `o`, unless it found the access
      info of a piece that only read. */
  predicate ScanOk(s: State, t: Tid, o: Oid)
    requires t in s.txns && o in s.wlog
  {
    var x, d := s.txns[t], LastT(s.wlog[o]);
    if o in x.hid then Scanned(x, o) || Looking(x, o) ==> LastPeeks(s.wlog[o]) < Peeks(s, o)
    else (Scanned(x, o) ==> d != t && Follows(s.txns, x, d)) && (Looking(x, o) ==> x.pc.d == d != t)
  }

  ghost predicate LocksOk(s: State) {
    && (forall o :: o in s.owner && s.owner[o] != 0 ==> s.owner[o] in s.txns && o in s.txns[s.owner[o]].held)
    && (forall t, o :: t in s.txns && o in s.txns[t].held ==> HeldBy(s, o, t))
  }

  ghost predicate ObjectOk(s: State, o: Oid)
    requires KeysOk(s) && o in s.access
  {
    LogOk(s, o) && LinksOk(s.txns, s.wlog[o]) && forall t :: t in s.txns ==> ScanOk(s, t, o)
  }

  ghost predicate InstallInv(s: State) {
    && KeysOk(s) && LocksOk(s)
    && (forall o :: o in s.access ==> ObjectOk(s, o))
  }

  lemma HeldFrame(s: State, t: Tid, m: Move)
    requires t in s.txns && CanMove(s, t, m)
    ensures var x, y := s.txns[t], NextTxn(s, t, m);
            && y.held == (if m.Lock? then x.held + {m.o} else if m.Unlock? then x.held - {m.o} else x.held)
            && (m.Lock? ==> m.o in s.owner && s.owner[m.o] == 0) && (m.Unlock? ==> m.o in x.held)
  {
  }

  lemma LocksStep(s: State, t: Tid, m: Move)
    requires t in s.txns && CanMove(s, t, m) && LocksOk(s) && TagsOk(s.txns[t], s.rankOf) && 0 !in s.txns
    ensures LocksOk(ApplyMove(s, t, m))
  {
    var s' := ApplyMove(s, t, m);
    forall u, o | u in s'.txns && o in s'.txns[u].held ensures HeldBy(s', o, u) {
      HeldStep(s, t, m, u, o);
    }
    forall o | o in s'.owner && s'.owner[o] != 0
      ensures s'.owner[o] in s'.txns && o in s'.txns[s'.owner[o]].held
    {
      OwnerStep(s, t, m, o);
    }
  }

  lemma HeldStep(s: State, t: Tid, m: Move, u: Tid, o: Oid)
    requires t in s.txns && CanMove(s, t, m) && LocksOk(s) && 0 !in s.txns
    requires u in s.txns && o in ApplyMove(s, t, m).txns[u].held
    ensures HeldBy(ApplyMove(s, t, m), o, u)
  {
    HeldFrame(s, t, m);
    hide NextTxn, CanMove;
    if o in s.txns[u].held {
      assert HeldBy(s, o, u);
      assert m.Unlock? ==> HeldBy(s, m.o, t);
    }
  }

  lemma OwnerStep(s: State, t: Tid, m: Move, o: Oid)
    requires t in s.txns && CanMove(s, t, m) && LocksOk(s) && 0 !in s.txns
    requires o in ApplyMove(s, t, m).owner && ApplyMove(s, t, m).owner[o] != 0
    ensures var s' := ApplyMove(s, t, m); s'.owner[o] in s'.txns && o in s'.txns[s'.owner[o]].held
  {
    HeldFrame(s, t, m);
    hide NextTxn, CanMove;
    if m.Unlock? {
      assert HeldBy(s, m.o, t);
    }
  }

  /** Only the owner installs `o`. */
  lemma OnlyOwnerInstalls(s: State, t: Tid, m: Move, o: Oid)
    requires t in s.txns && CanMove(s, t, m) && LocksOk(s) && TagsOk(s.txns[t], s.rankOf)
    requires o in s.wlog && ApplyMove(s, t, m).wlog[o] != s.wlog[o]
    ensures m == Install(o) && o in s.txns[t].tags && s.txns[t].tags[o] && HeldBy(s, o, t)
  {
    assert o in Written(s.txns[t]);
    assert o in s.txns[t].held;
  }

  lemma LinkedKept(s: State, t: Tid, m: Move, a: Tid, b: Tid)
    requires t in s.txns && CanMove(s, t, m) && RecordOk(s.txns[t], s.clock)
    requires Linked(s.txns, a, b) && RecordOk(s.txns[a], s.clock)
    ensures Linked(ApplyMove(s, t, m).txns, a, b)
  {
    Forward(s, t, m);
    hide NextTxn, CanMove;
  }

  /** Who installs is not in the log yet, and is linked to the last in it. */
  lemma InstallLinks(s: State, t: Tid, o: Oid)
    requires t in s.txns && CanMove(s, t, Install(o)) && o in s.wlog && o in s.txns[t].tags && s.txns[t].tags[o]
    requires Inv(s) && InstallInv(s)
    ensures HeldBy(s, o, t) && !HalfInstalled(s, o) && o in s.access && LogOk(s, o)
    ensures var w := s.wlog[o];
            if o in s.txns[t].hid then LastPeeks(w) < Peeks(s, o) else w != [] ==> Linked(s.txns, LastT(w), t)
  {
    var x := s.txns[t];
    assert TagsOk(x, s.rankOf) && RecordOk(x, s.clock);
    assert o in Written(x) && o in x.held;
    assert HeldBy(s, o, t);
    assert o in s.access && ObjectOk(s, o) && ScanOk(s, t, o) && Scanned(x, o);
    if s.wlog[o] != [] {
      assert LinksOk(s.txns, s.wlog[o]);
    }
  }

  lemma LogStep(s: State, t: Tid, m: Move, o: Oid)
    requires t in s.txns && CanMove(s, t, m) && KeysOk(s) && LocksOk(s) && TagsOk(s.txns[t], s.rankOf) && 0 !in s.txns
    requires o in s.access && LogOk(s, o) && KeysOk(ApplyMove(s, t, m))
    ensures LogOk(ApplyMove(s, t, m), o)
  {
    if ApplyMove(s, t, m).wlog[o] != s.wlog[o] {
      LogInstall(s, t, m, o);
    } else if m.SetAccess? && s.txns[t].pc == Mark(o) && s.txns[t].tags[o] {
      LogSet(s, t, o);
    } else {
      LogQuiet(s, t, m, o);
    }
  }

  lemma LogInstall(s: State, t: Tid, m: Move, o: Oid)
    requires t in s.txns && CanMove(s, t, m) && KeysOk(s) && LocksOk(s) && TagsOk(s.txns[t], s.rankOf)
    requires o in s.access && LogOk(s, o) && KeysOk(ApplyMove(s, t, m)) && ApplyMove(s, t, m).wlog[o] != s.wlog[o]
    ensures LogOk(ApplyMove(s, t, m), o)
  {
    OnlyOwnerInstalls(s, t, m, o);
  }

  lemma LogSet(s: State, t: Tid, o: Oid)
    requires t in s.txns && CanMove(s, t, SetAccess) && KeysOk(s) && LocksOk(s) && TagsOk(s.txns[t], s.rankOf)
    requires o in s.access && LogOk(s, o) && KeysOk(ApplyMove(s, t, SetAccess)) && s.txns[t].pc == Mark(o) && s.txns[t].tags[o]
    ensures LogOk(ApplyMove(s, t, SetAccess), o)
  {
    assert o in Written(s.txns[t]) && o in s.txns[t].held;
    assert HeldBy(s, o, t);
  }

  /** A step that neither installs `o` nor makes its owner the last accessor. */
  lemma LogQuiet(s: State, t: Tid, m: Move, o: Oid)
    requires t in s.txns && CanMove(s, t, m) && KeysOk(s) && LocksOk(s) && TagsOk(s.txns[t], s.rankOf) && 0 !in s.txns
    requires o in s.access && LogOk(s, o) && KeysOk(ApplyMove(s, t, m))
    requires ApplyMove(s, t, m).wlog[o] == s.wlog[o] && !(m.SetAccess? && s.txns[t].pc == Mark(o) && s.txns[t].tags[o])
    ensures LogOk(ApplyMove(s, t, m), o)
  {
    InstallIsNoted(s, t, m, o);
    MarkersKept(s, t, m, o);
    AccessMoves(s, t, m, o);
  }

  lemma InstallIsNoted(s: State, t: Tid, m: Move, o: Oid)
    requires t in s.txns && CanMove(s, t, m) && o in s.wlog && ApplyMove(s, t, m).wlog[o] == s.wlog[o]
    ensures m == Install(o) ==> !s.txns[t].tags[o]
  {
  }

  /** What a step can do to the access info of `o` when its owner is not the one who sets it. */
  lemma AccessMoves(s: State, t: Tid, m: Move, o: Oid)
    requires t in s.txns && CanMove(s, t, m) && o in s.access
    requires !(m.SetAccess? && s.txns[t].pc == Mark(o) && s.txns[t].tags[o])
    ensures var s' := ApplyMove(s, t, m);
            && o in s'.access && Peeks(s, o) <= Peeks(s', o) && (o in s.veiled ==> o in s'.veiled)
            && (o !in s'.veiled ==> s'.access[o] == s.access[o])
            && (o in s'.veiled && o !in s.veiled ==> Peeks(s, o) < Peeks(s', o))
  {
  }

  lemma OwnerMoves(s: State, t: Tid, m: Move, o: Oid)
    requires t in s.txns && CanMove(s, t, m) && LocksOk(s) && KeysOk(s) && o in s.access && KeysOk(ApplyMove(s, t, m))
    ensures ApplyMove(s, t, m).owner[o] != s.owner[o]
            ==> (m == Lock(o) && s.owner[o] == 0) || (m == Unlock(o) && s.owner[o] == t)
  {
    if m.Unlock? {
      assert HeldBy(s, m.o, t);
    }
  }

  lemma MarkMoves(s: State, t: Tid, m: Move, o: Oid)
    requires t in s.txns && CanMove(s, t, m)
    ensures NextTxn(s, t, m).pc == Mark(o) ==> m == Install(o)
    ensures s.txns[t].pc == Mark(o) ==> m.SetAccess?
  {
  }

  lemma MarkersKept(s: State, t: Tid, m: Move, o: Oid)
    requires t in s.txns && CanMove(s, t, m) && KeysOk(s) && LocksOk(s) && TagsOk(s.txns[t], s.rankOf) && 0 !in s.txns
    requires o in s.access && KeysOk(ApplyMove(s, t, m))
    requires !(m.SetAccess? && s.txns[t].pc == Mark(o) && s.txns[t].tags[o])
    requires m == Install(o) ==> !s.txns[t].tags[o]
    ensures HalfInstalled(ApplyMove(s, t, m), o) <==> HalfInstalled(s, o)
    ensures HalfInstalled(s, o) ==> ApplyMove(s, t, m).owner[o] == s.owner[o]
  {
    hide TagsOk;
    OwnerMoves(s, t, m, o);
    MarkMoves(s, t, m, o);
    ReaderHoldsNot(s, t, o);
  }

  lemma ReaderHoldsNot(s: State, t: Tid, o: Oid)
    requires t in s.txns && LocksOk(s) && TagsOk(s.txns[t], s.rankOf) && o in s.owner && 0 !in s.txns
    ensures o in s.txns[t].tags && !s.txns[t].tags[o] ==> s.owner[o] != t
    ensures s.txns[t].pc == Mark(o) ==> o in s.txns[t].tags
  {
    assert o in s.txns[t].held ==> o in Written(s.txns[t]);
    assert s.owner[o] == t ==> o in s.txns[t].held;
  }

  /** Neighbours as one step leaves them. */
  predicate NeighboursOk(txns: map<Tid, Txn>, a: Entry, b: Entry) {
    if b.hidden then a.peeks < b.peeks else a.peeks <= b.peeks && Linked(txns, a.t, b.t)
  }

  lemma NeighboursKept(s: State, t: Tid, m: Move, a: Entry, b: Entry)
    requires t in s.txns && CanMove(s, t, m) && TxnsOk(s) && a.t in s.txns && NeighboursOk(s.txns, a, b)
    ensures NeighboursOk(ApplyMove(s, t, m).txns, a, b)
  {
    assert RecordOk(s.txns[t], s.clock) && RecordOk(s.txns[a.t], s.clock);
    hide NextTxn, CanMove, RecordOk, Linked;
    if !b.hidden {
      LinkedKept(s, t, m, a.t, b.t);
    }
  }

  lemma LogGrows(s: State, t: Tid, m: Move, o: Oid)
    requires t in s.txns && CanMove(s, t, m) && o in s.wlog
    ensures o in ApplyMove(s, t, m).wlog
    ensures ApplyMove(s, t, m).wlog[o] == s.wlog[o]
         || (m == Install(o) && o in s.txns[t].tags && s.txns[t].tags[o]
             && ApplyMove(s, t, m).wlog[o] == s.wlog[o] + [Entry(t, o in s.txns[t].hid, Peeks(s, o))])
  {
  }

  lemma LinksStep(s: State, t: Tid, m: Move, o: Oid)
    requires t in s.txns && CanMove(s, t, m) && TxnsOk(s) && KeysOk(s) && o in s.wlog && LinksOk(s.txns, s.wlog[o])
    requires m == Install(o) && s.txns[t].tags[o] && s.wlog[o] != []
             ==> NeighboursOk(s.txns, s.wlog[o][|s.wlog[o]| - 1], Entry(t, o in s.txns[t].hid, Peeks(s, o)))
    ensures o in ApplyMove(s, t, m).wlog && LinksOk(ApplyMove(s, t, m).txns, ApplyMove(s, t, m).wlog[o])
  {
    LogGrows(s, t, m, o);
    hide NextTxn, CanMove, TxnsOk, Linked;
    var s' := ApplyMove(s, t, m);
    var w, w' := s.wlog[o], s'.wlog[o];
    forall i | 0 < i < |w'| ensures NeighboursOk(s'.txns, w'[i - 1], w'[i]) {
      assert NeighboursOk(s.txns, w'[i - 1], w'[i]);
      NeighboursKept(s, t, m, w'[i - 1], w'[i]);
    }
  }

  lemma FollowsKept(s: State, t: Tid, m: Move, x: Txn, d: Tid)
    requires t in s.txns && CanMove(s, t, m) && RecordOk(s.txns[t], s.clock)
    requires Follows(s.txns, x, d)
    ensures Follows(ApplyMove(s, t, m).txns, x, d)
  {
    Forward(s, t, m);
  }

  /** Somebody else's step. */
  lemma ScanOther(s: State, t: Tid, m: Move, u: Tid, o: Oid)
    requires t in s.txns && CanMove(s, t, m) && LocksOk(s) && RecordOk(s.txns[t], s.clock)
    requires TagsOk(s.txns[t], s.rankOf) && o in s.wlog && o in ApplyMove(s, t, m).wlog
    requires u in s.txns && u != t && TagsOk(s.txns[u], s.rankOf) && ScanOk(s, u, o)
    ensures ScanOk(ApplyMove(s, t, m), u, o)
  {
    var x := s.txns[u];
    if Scanned(x, o) || Looking(x, o) {
      assert o in Written(x) && o in x.held;
      assert HeldBy(s, o, u);
      if ApplyMove(s, t, m).wlog[o] != s.wlog[o] {
        OnlyOwnerInstalls(s, t, m, o);
        assert false;
      }
      PeeksGrow(s, t, m, o);
      if Scanned(x, o) && o !in x.hid {
        FollowsKept(s, t, m, x, LastT(s.wlog[o]));
      }
    }
  }

  lemma PeeksGrow(s: State, t: Tid, m: Move, o: Oid)
    requires t in s.txns && CanMove(s, t, m)
    ensures Peeks(s, o) <= Peeks(ApplyMove(s, t, m), o)
  {
  }

  lemma ScanLoad(s: State, t: Tid, o: Oid)
    requires t in s.txns && CanMove(s, t, LoadAccess(o)) && RecordOk(s.txns[t], s.clock) && 0 !in s.txns
    requires TagsOk(s.txns[t], s.rankOf) && AccessOk(s.access[o], s.txns, s.rankOf[o])
    ensures s.access[o] != t
  {
  }

  /** Who loads the access info of an object it writes finds the last installer, or a reader. */
  lemma ScanNew(s: State, t: Tid, o: Oid)
    requires t in s.txns && CanMove(s, t, LoadAccess(o)) && TagsOk(s.txns[t], s.rankOf) && LocksOk(s) && KeysOk(s)
    requires o in s.access && LogOk(s, o) && s.access[o] != t
    ensures ScanOk(ApplyMove(s, t, LoadAccess(o)), t, o)
  {
    var x := s.txns[t];
    if x.tags[o] {
      assert o in Written(x) && o in x.held;
      assert HeldBy(s, o, t);
    }
  }

  /** One's own step, other than that. */
  lemma ScanSelf(s: State, t: Tid, m: Move, o: Oid)
    requires t in s.txns && CanMove(s, t, m) && RecordOk(s.txns[t], s.clock) && m != LoadAccess(o)
    requires TagsOk(s.txns[t], s.rankOf) && o in s.wlog && o in ApplyMove(s, t, m).wlog && ScanOk(s, t, o)
    ensures ScanOk(ApplyMove(s, t, m), t, o)
  {
    var x, y := s.txns[t], NextTxn(s, t, m);
    PeeksGrow(s, t, m, o);
    if Scanned(y, o) {
      if Scanned(x, o) {
        ScannedKept(s, t, m, o);
      } else {
        ScannedNow(s, t, m, o);
      }
    } else {
      LookingStarts(s, t, m, o);
    }
  }

  lemma LookingStarts(s: State, t: Tid, m: Move, o: Oid)
    requires t in s.txns && CanMove(s, t, m) && m != LoadAccess(o)
    ensures !Looking(NextTxn(s, t, m), o)
  {
  }

  /** `add_dep` makes a writer follow the one it has looked at. */
  lemma AddDepFollows(s: State, t: Tid)
    requires t in s.txns && CanMove(s, t, AddDep) && !s.txns[t].committed && s.txns[t].tags[s.txns[t].pc.o] && s.txns[t].pc.d != t
    ensures var s' := ApplyMove(s, t, AddDep);
            s'.wlog == s.wlog && s'.txns[t].hid == s.txns[t].hid && Follows(s'.txns, s'.txns[t], s.txns[t].pc.d)
  {
  }

  lemma ScannedNow(s: State, t: Tid, m: Move, o: Oid)
    requires t in s.txns && CanMove(s, t, m) && RecordOk(s.txns[t], s.clock) && TagsOk(s.txns[t], s.rankOf)
    requires o in s.wlog && o in ApplyMove(s, t, m).wlog && ScanOk(s, t, o)
    requires Scanned(NextTxn(s, t, m), o) && !Scanned(s.txns[t], o)
    ensures ScanOk(ApplyMove(s, t, m), t, o)
  {
    assert m.AddDep? && s.txns[t].pc.o == o;
    if o !in s.txns[t].hid {
      AddDepFollows(s, t);
    }
  }

  lemma ScanFrame(s: State, t: Tid, m: Move, o: Oid)
    requires t in s.txns && CanMove(s, t, m) && o in s.wlog && o in ApplyMove(s, t, m).wlog
    requires Scanned(s.txns[t], o) && Scanned(NextTxn(s, t, m), o) && m != LoadAccess(o)
    ensures ApplyMove(s, t, m).wlog[o] == s.wlog[o] && (o in NextTxn(s, t, m).hid <==> o in s.txns[t].hid)
  {
  }

  lemma ScannedKept(s: State, t: Tid, m: Move, o: Oid)
    requires t in s.txns && CanMove(s, t, m) && RecordOk(s.txns[t], s.clock) && o in s.wlog && o in ApplyMove(s, t, m).wlog
    requires Scanned(s.txns[t], o) && Scanned(NextTxn(s, t, m), o) && ScanOk(s, t, o) && m != LoadAccess(o)
    ensures var s' := ApplyMove(s, t, m);
            s'.wlog[o] == s.wlog[o] && (o in s'.txns[t].hid <==> o in s.txns[t].hid)
            && (Follows(s.txns, s.txns[t], LastT(s.wlog[o])) ==> Follows(s'.txns, s'.txns[t], LastT(s.wlog[o])))
  {
    ScanFrame(s, t, m, o);
    Forward(s, t, m);
    hide NextTxn, CanMove, RecordOk;
  }

  lemma ScanStep(s: State, t: Tid, m: Move, u: Tid, o: Oid)
    requires t in s.txns && CanMove(s, t, m) && Inv(s) && InstallInv(s)
    requires u in s.txns && o in s.access && o in ApplyMove(s, t, m).wlog
    ensures ScanOk(ApplyMove(s, t, m), u, o)
  {
    assert ObjectOk(s, o) && ScanOk(s, u, o);
    assert RecordOk(s.txns[t], s.clock) && TagsOk(s.txns[t], s.rankOf) && TagsOk(s.txns[u], s.rankOf);
    if u != t {
      ScanOther(s, t, m, u, o);
    } else if m == LoadAccess(o) {
      assert o in s.rankOf.Keys;
      ScanLoad(s, t, o);
      ScanNew(s, t, o);
    } else {
      ScanSelf(s, t, m, o);
    }
  }

  lemma ObjectStep(s: State, t: Tid, m: Move, o: Oid)
    requires t in s.txns && CanMove(s, t, m) && Inv(s) && InstallInv(s)
    requires o in s.access && KeysOk(ApplyMove(s, t, m)) && o in ApplyMove(s, t, m).access
    ensures ObjectOk(ApplyMove(s, t, m), o)
  {
    hide LogOk, LinksOk, ScanOk, NextTxn, TagsOk, RecordOk;
    var s' := ApplyMove(s, t, m);
    assert ObjectOk(s, o) && TagsOk(s.txns[t], s.rankOf);
    if m == Install(o) && s.txns[t].tags[o] && s.wlog[o] != [] {
      InstallNeighbour(s, t, o);
    }
    LogStep(s, t, m, o);
    LinksStep(s, t, m, o);
    forall u | u in s'.txns ensures ScanOk(s', u, o) {
      ScanStep(s, t, m, u, o);
    }
  }

  lemma InstallNeighbour(s: State, t: Tid, o: Oid)
    requires t in s.txns && CanMove(s, t, Install(o)) && o in s.wlog && s.wlog[o] != [] && o in s.txns[t].tags && s.txns[t].tags[o]
    requires Inv(s) && InstallInv(s)
    ensures NeighboursOk(s.txns, s.wlog[o][|s.wlog[o]| - 1], Entry(t, o in s.txns[t].hid, Peeks(s, o)))
  {
    InstallLinks(s, t, o);
  }

  lemma InstallInvStep(s: State, t: Tid, m: Move)
    requires t in s.txns && CanMove(s, t, m) && Inv(s) && InstallInv(s)
    ensures InstallInv(ApplyMove(s, t, m))
  {
    var s' := ApplyMove(s, t, m);
    assert TagsOk(s.txns[t], s.rankOf);
    KeysStep(s, t, m);
    LocksStep(s, t, m);
    forall o | o in s'.access ensures ObjectOk(s', o) {
      assert o in s'.rankOf.Keys && o in s.access;
      ObjectStep(s, t, m, o);
    }
  }

  lemma {:induction false} RunKeepsInstallInv(s: State, es: seq<Action>)
    requires Inv(s) && InstallInv(s) && CanRun(s, es)
    ensures InstallInv(Run(s, es))
    decreases |es|
  {
    if es != [] {
      InvStep(s, es[0].t, es[0].m);
      InstallInvStep(s, es[0].t, es[0].m);
      RunKeepsInstallInv(ApplyMove(s, es[0].t, es[0].m), es[1..]);
    }
  }

  lemma InstallInvInit(s: State)
    requires Init(s)
    ensures InstallInv(s)
  {
    forall o | o in s.access ensures ObjectOk(s, o) {
      assert o in s.owner.Keys;
    }
  }

  lemma ReachableInstallInv(s: State)
    requires Reachable(s)
    ensures InstallInv(s)
  {
    var s0, es :| Init(s0) && CanRun(s0, es) && Run(s0, es) == s;
    InvInit(s0);
    InstallInvInit(s0);
    RunKeepsInstallInv(s0, es);
  }

  // ----- locks and waits -----

  lemma LockFacts(s: State, o: Oid)
    requires Reachable(s) && o in s.owner
    ensures s.owner[o] != 0 ==> s.owner[o] in s.txns && o in s.txns[s.owner[o]].held
    ensures forall t :: t in s.txns && o in s.txns[t].held ==> t == s.owner[o]
  {
    ReachableInstallInv(s);
    forall t | t in s.txns && o in s.txns[t].held ensures t == s.owner[o] {
      assert HeldBy(s, o, t);
    }
  }

  lemma TagsFacts(s: State, t: Tid)
    requires Reachable(s) && t in s.txns
    ensures TagsOk(s.txns[t], s.rankOf)
  {
    ReachableInv(s);
  }

  /** A lock is held by one transaction, which is running a piece: nobody waits with a lock. */
  lemma HoldersAreRunning(s: State, o: Oid)
    requires Reachable(s) && o in s.owner && s.owner[o] != 0
    ensures s.owner[o] in s.txns && Running(s.txns[s.owner[o]].pc) && o in Written(s.txns[s.owner[o]])
    ensures !Blocked(s, s.owner[o])
    ensures forall t :: t in s.txns && o in s.txns[t].held ==> t == s.owner[o]
  {
    hide Reachable;
    LockFacts(s, o);
    TagsFacts(s, s.owner[o]);
  }

  // ----- the order of installs -----

  /** `b` installed on an object right after `a`, and found no reader's access info there. */
  ghost predicate InstallsAfter(s: State, b: Tid, a: Tid) {
    exists o, i :: o in s.wlog && 0 < i < |s.wlog[o]| && !s.wlog[o][i].hidden && s.wlog[o][i].t == b && s.wlog[o][i - 1].t == a
  }

  ghost predicate Conflicts(s: State, b: Tid, a: Tid) {
    b in s.txns && (a in s.txns[b].deps || InstallsAfter(s, b, a))
  }

  lemma LogKnown(s: State, o: Oid)
    requires Reachable(s) && o in s.wlog
    ensures LinksOk(s.txns, s.wlog[o])
  {
    ReachableInstallInv(s);
    assert o in s.access && ObjectOk(s, o);
  }

  /** Whoever installs next follows the one before, unless it found a reader's access info. */
  lemma AdjacentAreLinked(s: State, o: Oid, i: nat)
    requires Reachable(s) && o in s.wlog && 0 < i < |s.wlog[o]| && !s.wlog[o][i].hidden
    ensures Linked(s.txns, s.wlog[o][i - 1].t, s.wlog[o][i].t)
  {
    LogKnown(s, o);
  }

  /** It can have found one only if there was a read-only access since the install before. */
  lemma HiddenByReader(s: State, o: Oid, i: nat)
    requires Reachable(s) && o in s.wlog && 0 < i < |s.wlog[o]|
    ensures s.wlog[o][i - 1].peeks <= s.wlog[o][i].peeks
    ensures s.wlog[o][i].hidden ==> s.wlog[o][i - 1].peeks < s.wlog[o][i].peeks
  {
    LogKnown(s, o);
  }

  lemma LinkPrecedes(s: State, a: Tid, b: Tid)
    requires Reachable(s) && Linked(s.txns, a, b) && !s.txns[b].aborted
    ensures Precedes(s.txns[a], s.txns[b])
  {
    if a in s.txns[b].deps {
      DependencyPrecedes(s, b, a);
    }
  }

  lemma InstallPrecedes(s: State, o: Oid, i: nat)
    requires Reachable(s) && o in s.wlog && 0 < i < |s.wlog[o]| && !s.wlog[o][i].hidden
    ensures s.wlog[o][i - 1].t in s.txns && s.wlog[o][i].t in s.txns
    ensures !s.txns[s.wlog[o][i].t].aborted ==> Precedes(s.txns[s.wlog[o][i - 1].t], s.txns[s.wlog[o][i].t])
  {
    hide Reachable;
    AdjacentAreLinked(s, o, i);
    if !s.txns[s.wlog[o][i].t].aborted {
      LinkPrecedes(s, s.wlog[o][i - 1].t, s.wlog[o][i].t);
    }
  }

  lemma ConflictPrecedes(s: State, b: Tid, a: Tid)
    requires Reachable(s) && Conflicts(s, b, a) && !s.txns[b].aborted
    ensures a in s.txns && Precedes(s.txns[a], s.txns[b])
  {
    hide Reachable, Precedes;
    if a in s.txns[b].deps {
      DependencyPrecedes(s, b, a);
    } else {
      var o, i :| o in s.wlog && 0 < i < |s.wlog[o]| && !s.wlog[o][i].hidden && s.wlog[o][i].t == b && s.wlog[o][i - 1].t == a;
      InstallPrecedes(s, o, i);
    }
  }

  ghost predicate ConflictChain(s: State, c: seq<Tid>) {
    && |c| > 0 && (forall i :: 0 <= i < |c| ==> c[i] in s.txns)
    && (forall i :: 0 < i < |c| ==> Conflicts(s, c[i - 1], c[i]))
  }

  lemma {:induction false} ConflictChainPrecedes(s: State, c: seq<Tid>)
    requires Reachable(s) && ConflictChain(s, c) && |c| > 1
    requires forall i :: 0 <= i < |c| - 1 ==> !s.txns[c[i]].aborted
    ensures Precedes(s.txns[c[|c| - 1]], s.txns[c[0]])
    decreases |c|
  {
    hide Reachable, Precedes;
    var n := |c| - 1;
    ConflictPrecedes(s, c[n - 1], c[n]);
    if n > 1 {
      ConflictChainPrecedes(s, c[..n]);
      PrecedesIsStrictOrder(s.txns[c[n]], s.txns[c[n - 1]], s.txns[c[0]]);
    }
  }

  /** The graph of recorded dependencies and install order is acyclic, except through a
      transaction that gave up. */
  lemma ConflictsAreAcyclic(s: State, c: seq<Tid>)
    requires Reachable(s) && ConflictChain(s, c) && |c| > 1 && c[0] == c[|c| - 1]
    ensures exists i :: 0 <= i < |c| && s.txns[c[i]].aborted
  {
    if forall i :: 0 <= i < |c| ==> !s.txns[c[i]].aborted {
      ConflictChainPrecedes(s, c);
      PrecedesIsStrictOrder(s.txns[c[0]], s.txns[c[0]], s.txns[c[0]]);
    }
  }

  /** From the `i`-th install on `o` to the `j`-th, no installer found a reader's access info, and
      none of those after the `i`-th gave up. */
  ghost predicate Unbroken(s: State, o: Oid, i: int, j: int)
    requires o in s.wlog && 0 <= i <= j < |s.wlog[o]|
  {
    forall k :: i < k <= j ==> !s.wlog[o][k].hidden && (s.wlog[o][k].t in s.txns ==> !s.txns[s.wlog[o][k].t].aborted)
  }

  lemma {:induction false} InstallOrderPrecedes(s: State, o: Oid, i: nat, j: nat)
    requires Reachable(s) && o in s.wlog && i < j < |s.wlog[o]| && Unbroken(s, o, i, j)
    ensures s.wlog[o][i].t in s.txns && s.wlog[o][j].t in s.txns
    ensures Precedes(s.txns[s.wlog[o][i].t], s.txns[s.wlog[o][j].t])
    decreases j
  {
    hide Reachable, Precedes;
    var w := s.wlog[o];
    InstallPrecedes(s, o, j);
    if i < j - 1 {
      InstallOrderPrecedes(s, o, i, j - 1);
      PrecedesIsStrictOrder(s.txns[w[i].t], s.txns[w[j - 1].t], s.txns[w[j].t]);
    }
  }

  /** Of two installs on an object, the later one is by another transaction, which commits later:
      over every stretch of the log in which no installer found a reader's access info and nobody
      gave up. */
  lemma InstallOrderIsCommitOrder(s: State, o: Oid, i: nat, j: nat)
    requires Reachable(s) && o in s.wlog && i < j < |s.wlog[o]| && Unbroken(s, o, i, j)
    ensures s.wlog[o][i].t in s.txns && s.wlog[o][j].t in s.txns && s.wlog[o][i].t != s.wlog[o][j].t
    ensures var a, b := s.txns[s.wlog[o][i].t], s.txns[s.wlog[o][j].t];
            b.committed ==> a.committed && a.ctime < b.ctime
  {
    InstallOrderPrecedes(s, o, i, j);
    var a := s.txns[s.wlog[o][i].t];
    PrecedesIsStrictOrder(a, a, a);
  }

  lemma {:induction false} PeeksAscend(s: State, o: Oid, i: nat, j: nat)
    requires Reachable(s) && o in s.wlog && i <= j < |s.wlog[o]|
    ensures s.wlog[o][i].peeks <= s.wlog[o][j].peeks
    ensures s.wlog[o][i].peeks == s.wlog[o][j].peeks ==> forall k :: i < k <= j ==> !s.wlog[o][k].hidden
    decreases j
  {
    hide Reachable;
    if i < j {
      PeeksAscend(s, o, i, j - 1);
      HiddenByReader(s, o, j);
    }
  }

  /** In particular over every stretch without a read-only access, such as the whole log of an
      object whose every access is a write. */
  lemma WithoutReadersInstallOrderIsCommitOrder(s: State, o: Oid, i: nat, j: nat)
    requires Reachable(s) && o in s.wlog && i < j < |s.wlog[o]| && s.wlog[o][i].peeks == s.wlog[o][j].peeks
    requires forall t :: t in s.txns ==> !s.txns[t].aborted
    ensures s.wlog[o][i].t in s.txns && s.wlog[o][j].t in s.txns && s.wlog[o][i].t != s.wlog[o][j].t
    ensures var a, b := s.txns[s.wlog[o][i].t], s.txns[s.wlog[o][j].t];
            b.committed ==> a.committed && a.ctime < b.ctime
  {
    PeeksAscend(s, o, i, j);
    InstallOrderIsCommitOrder(s, o, i, j);
  }

  /** Pipelined transactions keep one order across ranks: on any two objects two transactions
      install in the same order, over stretches in which no installer found a reader's access
      info and nobody gave up. */
  lemma OneOrderAcrossObjects(s: State, o: Oid, i: nat, j: nat, p: Oid, k: nat, l: nat)
    requires Reachable(s) && o in s.wlog && i < j < |s.wlog[o]| && Unbroken(s, o, i, j)
    requires p in s.wlog && k < |s.wlog[p]| && l < |s.wlog[p]| && (l < k ==> Unbroken(s, p, l, k))
    requires s.wlog[p][k].t == s.wlog[o][i].t && s.wlog[p][l].t == s.wlog[o][j].t
    ensures k < l
  {
    InstallOrderPrecedes(s, o, i, j);
    var a, b := s.txns[s.wlog[o][i].t], s.txns[s.wlog[o][j].t];
    if l <= k {
      if l < k {
        InstallOrderPrecedes(s, p, l, k);
      }
      PrecedesIsStrictOrder(a, b, a);
      PrecedesIsStrictOrder(a, a, a);
    }
  }
}
