/** `NewOrderTable`: undelivered orders, with a queue of them for each district. */
module NewOrders {
  import opened Tables

  datatype District = District(w: nat, d: nat)
  datatype Key = Key(w: nat, d: nat, o: int)

  function DistrictOf(k: Key): District {
    District(k.w, k.d)
  }

  ghost predicate NoRepeats<T>(q: seq<T>) {
    forall i, j :: 0 <= i < j < |q| ==> q[i] != q[j]
  }

  /** Order ids ascend along the queue. */
  ghost predicate Ascending(q: seq<Key>) {
    forall i, j :: 0 <= i < j < |q| ==> q[i].o < q[j].o
  }

  /** `r` is `q` without its first key with order id `o`; `found` says whether there is one. */
  ghost predicate Removed(q: seq<Key>, r: seq<Key>, o: int, found: bool) {
    if found
    then exists i :: 0 <= i < |q| && q[i].o == o && r == q[..i] + q[i + 1..]
    else r == q && forall k :: k in q ==> k.o != o
  }

  /** Removing one of the places of a queue without repeats removes exactly its key. */
  lemma RemovingKeeps(q: seq<Key>, i: nat)
    requires i < |q| && NoRepeats(q)
    ensures var r := q[..i] + q[i + 1..];
            && NoRepeats(r) && (forall k :: k in r <==> k in q && k != q[i])
            && (Ascending(q) ==> Ascending(r))
  {
    var r := q[..i] + q[i + 1..];
    forall k ensures k in r <==> k in q && k != q[i] {
      if k in q && k != q[i] {
        var j :| 0 <= j < |q| && q[j] == k;
        assert r[if j < i then j else j - 1] == k;
      }
    }
  }

  /** The queue lists exactly the live keys of district `d`, without repeats. */
  ghost predicate Lists(q: seq<Key>, d: District, live: iset<Key>) {
    NoRepeats(q) && forall k :: k in q <==> DistrictOf(k) == d && k in live
  }

  /** The order id is larger than every live one of the district. */
  ghost predicate Newest(key: Key, live: iset<Key>) {
    forall k :: k in live && DistrictOf(k) == DistrictOf(key) ==> k.o < key.o
  }

  /** Appending a key keeps its queue right if and only if the key was not live. */
  lemma AppendingLists(q: seq<Key>, live: iset<Key>, key: Key)
    requires Lists(q, DistrictOf(key), live)
    ensures Lists(q + [key], DistrictOf(key), live + iset{key}) <==> key !in live
    ensures Ascending(q) && Newest(key, live) ==> Ascending(q + [key])
  {
    var r := q + [key];
    assert r[|q|] == key;
    assert forall k :: k in r <==> k in q || k == key;
    if key in live {
      var i :| 0 <= i < |q| && q[i] == key;
      assert r[i] == r[|q|];
    } else {
      assert forall i :: 0 <= i < |q| ==> q[i] in q;
    }
    if Ascending(q) && Newest(key, live) {
      assert forall i :: 0 <= i < |q| ==> q[i] in q;
    }
  }

  /** Queues of other districts do not notice. */
  lemma OthersList(q: seq<Key>, d: District, live: iset<Key>, key: Key)
    requires Lists(q, d, live) && DistrictOf(key) != d
    ensures Lists(q, d, live + iset{key}) && Lists(q, d, live - iset{key})
  {
  }

  /** Removing a key from its queue and from the table leaves them agreeing, whether it was live
      or not. */
  lemma RemovalLists(q: seq<Key>, r: seq<Key>, live: iset<Key>, key: Key, found: bool)
    requires Lists(q, DistrictOf(key), live) && Removed(q, r, key.o, found)
    ensures Lists(r, DistrictOf(key), live - iset{key}) && (found <==> key in live) && (Ascending(q) ==> Ascending(r))
  {
    if found {
      var i :| 0 <= i < |q| && q[i].o == key.o && r == q[..i] + q[i + 1..];
      assert q[i] in q;
      assert q[i] == key;
      RemovingKeeps(q, i);
    }
  }

  /** The head of a queue. */
  lemma HeadIs(q: seq<Key>, d: District, live: iset<Key>)
    requires Lists(q, d, live)
    ensures q == [] <==> forall k :: k in live ==> DistrictOf(k) != d
    ensures q != [] ==> q[0] in live && DistrictOf(q[0]) == d
    ensures q != [] && Ascending(q) ==> forall k :: k in live && DistrictOf(k) == d ==> q[0].o <= k.o
  {
    if q != [] {
      assert q[0] in q;
      forall k | Ascending(q) && k in live && DistrictOf(k) == d ensures q[0].o <= k.o {
        assert k in q;
      }
    }
  }

  class NewOrderTable {
    const buckets: seq<Bucket<Key>>
    const wd: SecIndex<District, Key>
    const numDis: nat

    ghost predicate Shaped()
      reads this, wd
    {
      |buckets| > 0 && wd.Valid() && forall i, j :: 0 <= i < j < |buckets| ==> buckets[i] != buckets[j]
    }

    /** The partition of a row. */
    function Home(d: District): (i: nat)
      requires |buckets| > 0
      ensures i < |buckets|
    {
      (d.w * numDis + d.d) % |buckets|
    }

    ghost predicate Live(k: Key)
      reads this, wd, buckets
      requires Shaped()
    {
      k in buckets[Home(DistrictOf(k))].index
    }

    ghost function RowOf(k: Key): Row<Key>
      reads this, wd, buckets
      requires Sound() && Live(k)
    {
      buckets[Home(DistrictOf(k))].At(k)
    }

    ghost predicate Sound()
      reads this, wd, buckets
    {
      && Shaped() && (forall b :: b in buckets ==> b.Valid())
      && (forall i, k :: 0 <= i < |buckets| && k in buckets[i].index ==> Home(DistrictOf(k)) == i)
    }

    /** Between operations all spin locks are released. */
    ghost predicate Valid()
      reads this, wd, buckets
    {
      Sound() && wd.Unlocked()
    }

    ghost function LiveKeys(): iset<Key>
      reads this, wd, buckets
      requires Shaped()
    {
      iset k: Key | Live(k)
    }

    /** Every queue lists exactly the live keys of its district, without repeats. */
    ghost predicate Agrees()
      reads this, wd, buckets
      requires Shaped()
    {
      forall d :: Lists(wd.Queue(d), d, LiveKeys())
    }

    constructor (num: nat, numWhs: nat, numDis: nat)
      requires num > 0 && numWhs * numDis > 0
      ensures Valid() && Agrees() && fresh(wd) && (forall b :: b in buckets ==> fresh(b))
      ensures (forall k :: !Live(k)) && forall d :: !wd.Has(d)
    {
      var total := numWhs * numDis;
      var made: seq<Bucket<Key>> := [];
      while |made| < num
        invariant |made| <= num && (forall b :: b in made ==> fresh(b) && b.Valid() && b.index == map[])
        invariant forall i, j :: 0 <= i < j < |made| ==> made[i] != made[j]
      {
        var b := new Bucket();
        made := made + [b];
      }
      buckets := made;
      wd := new SecIndex(total, (d: District) => (d.w * numDis + d.d) % total);
      this.numDis := numDis;
    }

    method PushRow(row: Row<Key>)
      requires Sound()
      modifies buckets
      ensures Sound() && LiveKeys() == old(LiveKeys()) + iset{row.key}
      ensures RowOf(row.key) == row && forall k :: k in old(LiveKeys()) && k != row.key ==> k in LiveKeys() && RowOf(k) == old(RowOf(k))
    {
      ghost var live := LiveKeys();
      var i := Home(DistrictOf(row.key));
      buckets[i].Push(row);
      forall k ensures Live(k) <==> k in live || k == row.key {
        assert Home(DistrictOf(k)) != i ==> buckets[Home(DistrictOf(k))] != buckets[i];
      }
    }

    method UpdateWdIndex(key: Key)
      requires Valid()
      modifies wd
      ensures Valid() && LiveKeys() == old(LiveKeys())
      ensures wd.Queue(DistrictOf(key)) == old(wd.Queue(DistrictOf(key))) + [key]
      ensures forall d :: d != DistrictOf(key) ==> wd.Queue(d) == old(wd.Queue(d))
      ensures forall d :: old(wd.Has(d)) ==> wd.Has(d)
    {
      wd.InsertIndex(DistrictOf(key), key);
      wd.UnlockBucket(DistrictOf(key));
    }

    /** `install` of a push: the row, then its index entry.  The index goes on agreeing with the
        table if and only if the key was not live. */
    method InstallPush(row: Row<Key>)
      requires Valid() && Agrees()
      modifies buckets, wd
      ensures Valid() && (Agrees() <==> row.key !in old(LiveKeys()))
      ensures LiveKeys() == old(LiveKeys()) + iset{row.key} && RowOf(row.key) == row
      ensures forall k :: k in old(LiveKeys()) && k != row.key ==> k in LiveKeys() && RowOf(k) == old(RowOf(k))
      ensures wd.Queue(DistrictOf(row.key)) == old(wd.Queue(DistrictOf(row.key))) + [row.key]
      ensures forall d :: d != DistrictOf(row.key) ==> wd.Queue(d) == old(wd.Queue(d))
      ensures Ascending(old(wd.Queue(DistrictOf(row.key)))) && Newest(row.key, old(LiveKeys())) ==> Ascending(wd.Queue(DistrictOf(row.key)))
      ensures forall d :: old(wd.Has(d)) ==> wd.Has(d)
    {
      PushRow(row);
      UpdateWdIndex(row.key);
      AppendingLists(old(wd.Queue(DistrictOf(row.key))), old(LiveKeys()), row.key);
      forall d | d != DistrictOf(row.key) ensures Lists(wd.Queue(d), d, LiveKeys()) {
        OthersList(old(wd.Queue(d)), d, old(LiveKeys()), row.key);
      }
    }

    /** Both halves of `push_raw`, with the queue still locked. */
    method InsertThenPush(row: Row<Key>)
      requires Valid()
      modifies buckets, wd
      ensures Sound() && LiveKeys() == old(LiveKeys()) + iset{row.key} && RowOf(row.key) == row
      ensures forall k :: k in old(LiveKeys()) && k != row.key ==> k in LiveKeys() && RowOf(k) == old(RowOf(k))
      ensures wd.locked == old(wd.locked)[wd.part(DistrictOf(row.key)) := true]
      ensures wd.Queue(DistrictOf(row.key)) == old(wd.Queue(DistrictOf(row.key))) + [row.key]
      ensures forall d :: d != DistrictOf(row.key) ==> wd.Queue(d) == old(wd.Queue(d))
    {
      wd.InsertIndex(DistrictOf(row.key), row.key);
      assert LiveKeys() == old(LiveKeys());
      PushRow(row);
    }

    /** `push_raw`, used while loading: the index entry first, under its lock, then the row. */
    method PushRaw(row: Row<Key>)
      requires Valid() && Agrees()
      modifies buckets, wd
      ensures Valid() && (Agrees() <==> row.key !in old(LiveKeys()))
      ensures LiveKeys() == old(LiveKeys()) + iset{row.key} && RowOf(row.key) == row
      ensures forall k :: k in old(LiveKeys()) && k != row.key ==> k in LiveKeys() && RowOf(k) == old(RowOf(k))
      ensures wd.Queue(DistrictOf(row.key)) == old(wd.Queue(DistrictOf(row.key))) + [row.key]
      ensures forall d :: d != DistrictOf(row.key) ==> wd.Queue(d) == old(wd.Queue(d))
      ensures Ascending(old(wd.Queue(DistrictOf(row.key)))) && Newest(row.key, old(LiveKeys())) ==> Ascending(wd.Queue(DistrictOf(row.key)))
    {
      hide Lists, Ascending, Newest;
      InsertThenPush(row);
      wd.UnlockBucket(DistrictOf(row.key));
      AppendingLists(old(wd.Queue(DistrictOf(row.key))), old(LiveKeys()), row.key);
      assert LiveKeys() == old(LiveKeys()) + iset{row.key};
      forall d | d != DistrictOf(row.key) ensures Lists(wd.Queue(d), d, LiveKeys()) {
        OthersList(old(wd.Queue(d)), d, old(LiveKeys()), row.key);
      }
    }

    /** `delete_index`: takes the key out of its queue, if it is there.  Fails (the source
        panics) when the district never had a queue. */
    method DeleteIndex(key: Key) returns (ok: Option<bool>)
      requires Valid()
      modifies wd
      ensures wd.Valid() && LiveKeys() == old(LiveKeys()) && (forall d :: wd.Has(d) == old(wd.Has(d)))
      ensures forall d :: d != DistrictOf(key) ==> wd.Queue(d) == old(wd.Queue(d))
      ensures ok.Some? <==> old(wd.Has(DistrictOf(key)))
      ensures ok.Some? ==> Valid() && Removed(old(wd.Queue(DistrictOf(key))), wd.Queue(DistrictOf(key)), key.o, ok.value)
    {
      var d := DistrictOf(key);
      var found := wd.FindOneBucket(d);
      if found.None? {
        return None;
      }
      var q := found.value;
      var i := 0;
      while i < |q| && q[i].o != key.o
        invariant 0 <= i <= |q| && forall j :: 0 <= j < i ==> q[j].o != key.o
      {
        i := i + 1;
      }
      ok := Some(i < |q|);
      if i < |q| {
        wd.RemoveAt(d, i);
      }
      wd.UnlockBucket(d);
    }

    method DeleteRow(key: Key)
      requires Valid()
      modifies buckets
      ensures Valid() && LiveKeys() == old(LiveKeys()) - iset{key}
      ensures forall k :: k in LiveKeys() ==> RowOf(k) == old(RowOf(k))
    {
      ghost var live := LiveKeys();
      var i := Home(DistrictOf(key));
      buckets[i].Delete(key);
      forall k ensures Live(k) <==> k in live && k != key {
        assert Home(DistrictOf(k)) != i ==> buckets[Home(DistrictOf(k))] != buckets[i];
      }
    }

    /** `install` of a delete: a key that is not live any more is left alone, so a row may be
        deleted twice.  Fails only when the district never had a row. */
    method InstallDelete(key: Key) returns (ok: bool)
      requires Valid() && Agrees()
      modifies buckets, wd
      ensures ok <==> old(wd.Has(DistrictOf(key)))
      ensures ok ==> Valid() && Agrees() && LiveKeys() == old(LiveKeys()) - iset{key}
      ensures ok ==> forall k :: k in LiveKeys() ==> RowOf(k) == old(RowOf(k))
      ensures ok ==> forall d :: Ascending(old(wd.Queue(d))) ==> Ascending(wd.Queue(d))
      ensures ok ==> forall d :: wd.Has(d) == old(wd.Has(d))
    {
      hide Lists, Ascending, Removed;
      ghost var live, d := LiveKeys(), DistrictOf(key);
      ghost var q := wd.Queue(d);
      var found := DeleteIndex(key);
      if found.None? {
        return false;
      }
      RemovalLists(q, wd.Queue(d), live, key, found.value);
      if found.value {
        DeleteRow(key);
      }
      assert LiveKeys() == live - iset{key};
      forall e | e != d ensures Lists(wd.Queue(e), e, LiveKeys()) {
        OthersList(old(wd.Queue(e)), e, live, key);
      }
      ok := true;
    }

    /** `retrieve_min_oid`: the head of the queue, which is the row with the least order id when
        the queue ascends. */
    method RetrieveMinOid(d: District) returns (r: Option<Row<Key>>)
      requires Valid() && Agrees()
      modifies wd
      ensures Valid() && Agrees() && LiveKeys() == old(LiveKeys()) && forall e :: wd.Queue(e) == old(wd.Queue(e))
      ensures r.None? <==> forall k :: k in LiveKeys() ==> DistrictOf(k) != d
      ensures r.Some? <==> wd.Queue(d) != []
      ensures r.Some? ==> r.value.key == wd.Queue(d)[0]
      ensures r.Some? ==> r.value.key in LiveKeys() && DistrictOf(r.value.key) == d && r.value == RowOf(r.value.key)
      ensures r.Some? && Ascending(wd.Queue(d)) ==> forall k :: k in LiveKeys() && DistrictOf(k) == d ==> r.value.key.o <= k.o
    {
      hide Lists, Ascending;
      ghost var q, live := wd.Queue(d), LiveKeys();
      HeadIs(q, d, live);
      var found := wd.FindOneBucket(d);
      if found.None? || |found.value| == 0 {
        wd.UnlockBucket(d);
        assert LiveKeys() == live;
        return None;
      }
      var least := found.value[0];
      r := buckets[Home(DistrictOf(least))].Retrieve(least);
      wd.UnlockBucket(d);
      assert LiveKeys() == live;
    }
  }
}
