/** `OrderLineTable`: order lines, with a queue of them for each order. */
module OrderLines {
  import opened Tables

  datatype Order = Order(w: nat, d: nat, o: int)
  datatype Key = Key(w: nat, d: nat, o: int, n: int)

  function OrderOf(k: Key): Order {
    Order(k.w, k.d, k.o)
  }

  /** The rows of one order, in the order of `rows`: a scan. */
  function Lines(rows: seq<Row<Key>>, ord: Order): (r: seq<Row<Key>>) {
    if rows == [] then []
    else
      var last := rows[|rows| - 1];
      Lines(rows[..|rows| - 1], ord) + (if OrderOf(last.key) == ord then [last] else [])
  }

  /** The rows of a district with order id in an interval, by ascending order id: a scan. */
  function Scan(rows: seq<Row<Key>>, w: nat, d: nat, low: int, high: int): (r: seq<Row<Key>>)
    decreases high - low
  {
    if low > high then [] else Scan(rows, w, d, low, high - 1) + Lines(rows, Order(w, d, high))
  }

  function Keys(rows: seq<Row<Key>>): (ks: seq<Key>)
    ensures |ks| == |rows| && forall i :: 0 <= i < |rows| ==> ks[i] == rows[i].key
  {
    seq(|rows|, i requires 0 <= i < |rows| => rows[i].key)
  }

  /** What a scan returns: all rows asked for and no others. */
  lemma {:induction false} LinesAreExactly(rows: seq<Row<Key>>, ord: Order, row: Row<Key>)
    ensures row in Lines(rows, ord) <==> row in rows && OrderOf(row.key) == ord
  {
    if rows != [] {
      LinesAreExactly(rows[..|rows| - 1], ord, row);
      assert rows == rows[..|rows| - 1] + [rows[|rows| - 1]];
    }
  }

  lemma {:induction false} ScanIsExactly(rows: seq<Row<Key>>, w: nat, d: nat, low: int, high: int, row: Row<Key>)
    ensures row in Scan(rows, w, d, low, high)
       <==> row in rows && row.key.w == w && row.key.d == d && low <= row.key.o <= high
    decreases high - low
  {
    if low <= high {
      ScanIsExactly(rows, w, d, low, high - 1, row);
      LinesAreExactly(rows, Order(w, d, high), row);
    }
  }

  /** A scan is grouped by ascending order id. */
  lemma {:induction false} ScanAscends(rows: seq<Row<Key>>, w: nat, d: nat, low: int, high: int, i: nat, j: nat)
    requires i <= j < |Scan(rows, w, d, low, high)|
    ensures Scan(rows, w, d, low, high)[i].key.o <= Scan(rows, w, d, low, high)[j].key.o
    decreases high - low
  {
    var s, last := Scan(rows, w, d, low, high - 1), Lines(rows, Order(w, d, high));
    if j < |s| {
      ScanAscends(rows, w, d, low, high - 1, i, j);
    } else {
      assert last[j - |s|] in last;
      LinesAreExactly(rows, Order(w, d, high), last[j - |s|]);
      if i < |s| {
        assert s[i] in s;
        ScanIsExactly(rows, w, d, low, high - 1, s[i]);
      } else {
        assert last[i - |s|] in last;
        LinesAreExactly(rows, Order(w, d, high), last[i - |s|]);
      }
    }
  }

  predicate Asked(k: Key, w: nat, d: nat, low: int, high: int) {
    k.w == w && k.d == d && low <= k.o <= high
  }

  /** Places in `rows`, by ascending order id, and as in `rows` within an order. */
  ghost predicate InOrder(at: seq<nat>, rows: seq<Row<Key>>) {
    && (forall i :: 0 <= i < |at| ==> at[i] < |rows|)
    && (forall i, j :: 0 <= i < j < |at| ==>
          rows[at[i]].key.o < rows[at[j]].key.o || (rows[at[i]].key.o == rows[at[j]].key.o && at[i] < at[j]))
  }

  /** The places of the rows of a district with order id in an interval. */
  ghost predicate AllAsked(at: seq<nat>, rows: seq<Row<Key>>, w: nat, d: nat, low: int, high: int) {
    forall k :: 0 <= k < |rows| ==> (k in at <==> Asked(rows[k].key, w, d, low, high))
  }

  ghost predicate RowsAt(at: seq<nat>, r: seq<Row<Key>>, rows: seq<Row<Key>>) {
    |at| == |r| && forall i :: 0 <= i < |r| ==> at[i] < |rows| && r[i] == rows[at[i]]
  }

  /** `at` lists the places in `rows` of the rows `r`: one place each, all the rows asked for and
      no others, by ascending order id, and as in `rows` within an order. */
  ghost predicate Places(at: seq<nat>, r: seq<Row<Key>>, rows: seq<Row<Key>>, w: nat, d: nat, low: int, high: int) {
    RowsAt(at, r, rows) && InOrder(at, rows) && AllAsked(at, rows, w, d, low, high)
  }

  /** The lines of an order are its rows, once each and as pushed. */
  lemma {:induction false} LinesInPlace(rows: seq<Row<Key>>, ord: Order) returns (at: seq<nat>)
    ensures Places(at, Lines(rows, ord), rows, ord.w, ord.d, ord.o, ord.o)
  {
    at := [];
    if rows != [] {
      hide InOrder, AllAsked, RowsAt;
      var fewer, last := rows[..|rows| - 1], rows[|rows| - 1];
      at := LinesInPlace(fewer, ord);
      MoreRows(at, Lines(fewer, ord), fewer, last, ord);
      assert rows == fewer + [last];
      if OrderOf(last.key) == ord {
        LastPlace(at, Lines(fewer, ord), fewer, last, ord);
        at := at + [|fewer|];
      }
    }
  }

  /** A row of another order changes no place. */
  lemma MoreRows(at: seq<nat>, r: seq<Row<Key>>, fewer: seq<Row<Key>>, last: Row<Key>, ord: Order)
    requires Places(at, r, fewer, ord.w, ord.d, ord.o, ord.o)
    ensures RowsAt(at, r, fewer + [last]) && InOrder(at, fewer + [last])
    ensures OrderOf(last.key) != ord ==> AllAsked(at, fewer + [last], ord.w, ord.d, ord.o, ord.o)
  {
    var rows := fewer + [last];
    assert forall k :: 0 <= k < |fewer| ==> rows[k] == fewer[k];
    if OrderOf(last.key) != ord {
      forall k | 0 <= k < |rows| ensures k in at <==> Asked(rows[k].key, ord.w, ord.d, ord.o, ord.o) {
        assert k == |fewer| ==> k !in at;
      }
    }
  }

  /** One of the order has the last place. */
  lemma LastPlace(at: seq<nat>, r: seq<Row<Key>>, fewer: seq<Row<Key>>, last: Row<Key>, ord: Order)
    requires Places(at, r, fewer, ord.w, ord.d, ord.o, ord.o) && OrderOf(last.key) == ord
    ensures Places(at + [|fewer|], r + [last], fewer + [last], ord.w, ord.d, ord.o, ord.o)
  {
    var bt, rows := at + [|fewer|], fewer + [last];
    SameOrder(at, fewer, ord);
    assert forall k :: 0 <= k < |fewer| ==> rows[k] == fewer[k];
    assert InOrder(bt, rows) && RowsAt(bt, r + [last], rows);
    hide InOrder, RowsAt;
    forall k | 0 <= k < |rows| ensures k in bt <==> Asked(rows[k].key, ord.w, ord.d, ord.o, ord.o) {
      assert k in bt <==> k in at || k == |fewer|;
    }
  }

  lemma SameOrder(at: seq<nat>, rows: seq<Row<Key>>, ord: Order)
    requires InOrder(at, rows) && AllAsked(at, rows, ord.w, ord.d, ord.o, ord.o)
    ensures forall i :: 0 <= i < |at| ==> rows[at[i]].key.o == ord.o
  {
    forall i | 0 <= i < |at| ensures rows[at[i]].key.o == ord.o {
      assert at[i] in at;
    }
  }

  /** A scan is every row asked for, once each, by ascending order id and as pushed within an
      order. */
  lemma {:induction false} ScanInPlace(rows: seq<Row<Key>>, w: nat, d: nat, low: int, high: int) returns (at: seq<nat>)
    ensures Places(at, Scan(rows, w, d, low, high), rows, w, d, low, high)
    decreases high - low
  {
    at := [];
    if low <= high {
      hide InOrder, AllAsked, RowsAt;
      var a := ScanInPlace(rows, w, d, low, high - 1);
      var b := LinesInPlace(rows, Order(w, d, high));
      PlacesAppend(a, b, rows, w, d, low, high);
      RowsAppend(a, b, Scan(rows, w, d, low, high - 1), Lines(rows, Order(w, d, high)), rows);
      at := a + b;
    }
  }

  lemma RowsAppend(a: seq<nat>, b: seq<nat>, r: seq<Row<Key>>, q: seq<Row<Key>>, rows: seq<Row<Key>>)
    requires RowsAt(a, r, rows) && RowsAt(b, q, rows)
    ensures RowsAt(a + b, r + q, rows)
  {
  }

  lemma PlacesAppend(a: seq<nat>, b: seq<nat>, rows: seq<Row<Key>>, w: nat, d: nat, low: int, high: int)
    requires InOrder(a, rows) && AllAsked(a, rows, w, d, low, high - 1)
    requires InOrder(b, rows) && AllAsked(b, rows, w, d, high, high) && low <= high
    ensures InOrder(a + b, rows) && AllAsked(a + b, rows, w, d, low, high)
  {
    assert forall i :: 0 <= i < |a| ==> a[i] in a;
    assert forall i :: 0 <= i < |b| ==> b[i] in b;
  }

  /** There is only one such sequence. */
  lemma PlacesDecide(at: seq<nat>, bt: seq<nat>, r: seq<Row<Key>>, q: seq<Row<Key>>,
                     rows: seq<Row<Key>>, w: nat, d: nat, low: int, high: int)
    requires Places(at, r, rows, w, d, low, high) && Places(bt, q, rows, w, d, low, high)
    ensures r == q
  {
    forall k ensures k in at <==> k in bt {
      assert k in at ==> k < |rows|;
      assert k in bt ==> k < |rows|;
    }
    PlacesAgree(at, bt, rows);
  }

  lemma PlacesAgree(at: seq<nat>, bt: seq<nat>, rows: seq<Row<Key>>)
    requires InOrder(at, rows) && InOrder(bt, rows) && forall k :: k in at <==> k in bt
    ensures at == bt
  {
    hide InOrder;
    var k := 0;
    while k < |at| && k < |bt|
      invariant k <= |at| && k <= |bt| && at[..k] == bt[..k]
    {
      PlacesMeet(at, bt, rows, k);
      PlacesMeet(bt, at, rows, k);
      assert at[..k + 1] == at[..k] + [at[k]] && bt[..k + 1] == bt[..k] + [bt[k]];
      k := k + 1;
    }
    if k == |bt| {
      Exhausted(at, bt, rows);
    } else {
      Exhausted(bt, at, rows);
    }
  }

  lemma PlacesMeet(at: seq<nat>, bt: seq<nat>, rows: seq<Row<Key>>, k: nat)
    requires InOrder(at, rows) && InOrder(bt, rows) && forall k :: k in at ==> k in bt
    requires k < |at| && k < |bt| && at[..k] == bt[..k]
    ensures at[k] < |rows| && bt[k] < |rows|
    ensures rows[bt[k]].key.o < rows[at[k]].key.o || (rows[bt[k]].key.o == rows[at[k]].key.o && bt[k] <= at[k])
  {
    assert at[k] in at;
    var j :| 0 <= j < |bt| && bt[j] == at[k];
    assert forall i :: 0 <= i < k ==> at[i] == at[..k][i] == bt[..k][i] == bt[i];
  }

  lemma Exhausted(at: seq<nat>, bt: seq<nat>, rows: seq<Row<Key>>)
    requires InOrder(at, rows) && (forall k :: k in at ==> k in bt) && |bt| <= |at| && at[..|bt|] == bt
    ensures at == bt
  {
    var n := |at|;
    if n > 0 {
      assert at[n - 1] in at;
      var j :| 0 <= j < |bt| && bt[j] == at[n - 1];
      assert at[j] == bt[j];
    }
  }

  /** It has each row asked for as often as the table does. */
  lemma {:induction false} LinesCount(rows: seq<Row<Key>>, ord: Order, row: Row<Key>)
    ensures multiset(Lines(rows, ord))[row] == if OrderOf(row.key) == ord then multiset(rows)[row] else 0
  {
    if rows != [] {
      assert rows == rows[..|rows| - 1] + [rows[|rows| - 1]];
      LinesCount(rows[..|rows| - 1], ord, row);
    }
  }

  lemma {:induction false} ScanCounts(rows: seq<Row<Key>>, w: nat, d: nat, low: int, high: int, row: Row<Key>)
    ensures multiset(Scan(rows, w, d, low, high))[row] == if Asked(row.key, w, d, low, high) then multiset(rows)[row] else 0
    decreases high - low
  {
    if low <= high {
      ScanCounts(rows, w, d, low, high - 1, row);
      LinesCount(rows, Order(w, d, high), row);
    }
  }

  lemma LinesSnoc(rows: seq<Row<Key>>, row: Row<Key>, ord: Order)
    ensures Lines(rows + [row], ord) == Lines(rows, ord) + (if OrderOf(row.key) == ord then [row] else [])
  {
    assert (rows + [row])[..|rows|] == rows;
  }

  /** No two rows have the same key. */
  ghost predicate Distinct(rows: seq<Row<Key>>) {
    forall i, j :: 0 <= i < j < |rows| ==> rows[i].key != rows[j].key
  }

  /** Another row keeps the keys distinct if and only if its key is new. */
  lemma DistinctSnoc(rows: seq<Row<Key>>, row: Row<Key>)
    ensures Distinct(rows + [row]) <==> Distinct(rows) && forall r :: r in rows ==> r.key != row.key
  {
    var more := rows + [row];
    assert more[|rows|] == row && forall i :: 0 <= i < |rows| ==> more[i] == rows[i] && rows[i] in rows;
    if r :| r in rows && r.key == row.key {
      var i :| 0 <= i < |rows| && rows[i] == r;
      assert more[i].key == more[|rows|].key;
    }
  }

  /** The last row with key `k`. */
  function Latest(rows: seq<Row<Key>>, k: Key): (r: Option<Row<Key>>) {
    if rows == [] then None
    else if rows[|rows| - 1].key == k then Some(rows[|rows| - 1])
    else Latest(rows[..|rows| - 1], k)
  }

  lemma LatestSnoc(rows: seq<Row<Key>>, row: Row<Key>, k: Key)
    ensures Latest(rows + [row], k) == if row.key == k then Some(row) else Latest(rows, k)
  {
    assert (rows + [row])[..|rows|] == rows;
  }

  /** A key pushed once has one row. */
  lemma {:induction false} LatestIsOnly(rows: seq<Row<Key>>, row: Row<Key>)
    requires Distinct(rows) && row in rows
    ensures Latest(rows, row.key) == Some(row)
  {
    var i :| 0 <= i < |rows| && rows[i] == row;
    if i < |rows| - 1 {
      var fewer := rows[..|rows| - 1];
      assert fewer[i] == row;
      assert rows[|rows| - 1].key != row.key;
      LatestIsOnly(fewer, row);
    }
  }

  lemma KeysSplit(a: seq<Row<Key>>, b: seq<Row<Key>>)
    ensures Keys(a + b) == Keys(a) + Keys(b)
  {
  }

  lemma KeysAfterPush(rows: seq<Row<Key>>, row: Row<Key>, ord: Order)
    ensures Keys(Lines(rows + [row], ord)) == Keys(Lines(rows, ord)) + (if ord == OrderOf(row.key) then [row.key] else [])
  {
    var more := if OrderOf(row.key) == ord then [row] else [];
    LinesSnoc(rows, row, ord);
    KeysSplit(Lines(rows, ord), more);
    assert Keys(more) == if ord == OrderOf(row.key) then [row.key] else [];
  }

  class OrderLineTable {
    const buckets: seq<Bucket<Key>>
    const orders: SecIndex<Order, Key>
    const numDis: nat

    ghost predicate Shaped()
      reads this, orders
    {
      |buckets| > 0 && orders.Valid() && forall i, j :: 0 <= i < j < |buckets| ==> buckets[i] != buckets[j]
    }

    function Home(w: nat, d: nat): (i: nat)
      requires |buckets| > 0
      ensures i < |buckets|
    {
      (w * numDis + d) % |buckets|
    }

    /** The rows of the partition of a district, in the order in which they were pushed. */
    ghost function Stored(w: nat, d: nat): seq<Row<Key>>
      reads this, orders, buckets
      requires Shaped()
    {
      buckets[Home(w, d)].rows
    }

    /** A partition holds its own rows, indexed. */
    ghost predicate BucketOk(i: nat)
      reads this, buckets
      requires i < |buckets|
    {
      var b := buckets[i];
      && b.Valid() && (forall k :: k in b.index ==> Latest(b.rows, k) == Some(b.At(k)))
      && (forall j :: 0 <= j < |b.rows| ==> b.rows[j].key in b.index && Home(b.rows[j].key.w, b.rows[j].key.d) == i)
    }

    ghost predicate Sound()
      reads this, orders, buckets
    {
      Shaped() && forall i :: 0 <= i < |buckets| ==> BucketOk(i)
    }

    /** No key has been pushed twice. */
    ghost predicate Unique()
      reads this, buckets
    {
      forall i :: 0 <= i < |buckets| ==> Distinct(buckets[i].rows)
    }

    /** `r` has for every row found the last one pushed with its key. */
    ghost predicate Resolves(r: seq<Row<Key>>, found: seq<Row<Key>>)
      reads this, orders, buckets
      requires Shaped()
    {
      |r| == |found|
      && forall i :: 0 <= i < |r| ==> Latest(Stored(found[i].key.w, found[i].key.d), found[i].key) == Some(r[i])
    }

    /** When no key has been pushed twice, those are the rows found. */
    lemma ResolvesToItself(r: seq<Row<Key>>, found: seq<Row<Key>>)
      requires Sound() && Resolves(r, found) && Unique()
      requires forall row :: row in found ==> row in Stored(row.key.w, row.key.d)
      ensures r == found
    {
      forall i | 0 <= i < |r| ensures r[i] == found[i] {
        assert found[i] in found;
        LatestIsOnly(Stored(found[i].key.w, found[i].key.d), found[i]);
      }
    }

    ghost predicate IsStored(k: Key)
      reads this, orders, buckets
      requires Shaped()
    {
      exists r :: r in Stored(k.w, k.d) && r.key == k
    }

    /** The queue of an order lists the keys of its lines as pushed. */
    ghost predicate Agrees()
      reads this, orders, buckets
      requires Shaped()
    {
      forall ord :: orders.Queue(ord) == Keys(Lines(Stored(ord.w, ord.d), ord))
    }

    ghost predicate Valid()
      reads this, orders, buckets
    {
      Sound() && orders.Unlocked() && Agrees()
    }

    constructor (num: nat, numWhs: nat, numDis: nat)
      requires num > 0 && numWhs * numDis > 0
      ensures Valid() && Unique() && fresh(orders) && (forall b :: b in buckets ==> fresh(b))
      ensures forall w, d :: Stored(w, d) == []
    {
      var total := numWhs * numDis;
      var made: seq<Bucket<Key>> := [];
      while |made| < num
        invariant |made| <= num && (forall b :: b in made ==> fresh(b) && b.Valid() && b.rows == [] && b.index == map[])
        invariant forall i, j :: 0 <= i < j < |made| ==> made[i] != made[j]
      {
        var b := new Bucket();
        made := made + [b];
      }
      buckets := made;
      orders := new SecIndex(total, (ord: Order) => (ord.w * numDis + ord.d) % total);
      this.numDis := numDis;
    }

    method PushRow(row: Row<Key>)
      requires Sound()
      modifies buckets
      ensures Sound() && Stored(row.key.w, row.key.d) == old(Stored(row.key.w, row.key.d)) + [row]
      ensures forall w, d :: Home(w, d) != Home(row.key.w, row.key.d) ==> Stored(w, d) == old(Stored(w, d))
      ensures old(Unique()) ==> (Unique() <==> !old(IsStored(row.key)))
    {
      var i := Home(row.key.w, row.key.d);
      ghost var was := buckets[i].rows;
      assert BucketOk(i);
      buckets[i].Push(row);
      forall k | k in buckets[i].index ensures Latest(buckets[i].rows, k) == Some(buckets[i].At(k)) {
        LatestSnoc(was, row, k);
      }
      forall j | 0 <= j < |buckets| ensures BucketOk(j) && (j != i ==> buckets[j].rows == old(buckets[j].rows)) {
        assert old(BucketOk(j));
        assert j != i ==> buckets[j] != buckets[i];
      }
      DistinctSnoc(was, row);
    }

    /** `install` of a push: the row, then its index entry. */
    method InstallPush(row: Row<Key>)
      requires Valid()
      modifies buckets, orders
      ensures Valid() && Stored(row.key.w, row.key.d) == old(Stored(row.key.w, row.key.d)) + [row]
      ensures forall w, d :: Home(w, d) != Home(row.key.w, row.key.d) ==> Stored(w, d) == old(Stored(w, d))
      ensures old(Unique()) ==> (Unique() <==> !old(IsStored(row.key)))
    {
      PushRow(row);
      UpdateOrderIndex(row.key);
      PushedAgrees(row);
    }

    method UpdateOrderIndex(key: Key)
      requires Sound() && orders.Unlocked()
      modifies orders
      ensures Sound() && orders.Unlocked() && forall w, d :: Stored(w, d) == old(Stored(w, d))
      ensures forall ord :: orders.Queue(ord) == old(orders.Queue(ord)) + (if ord == OrderOf(key) then [key] else [])
    {
      orders.InsertIndex(OrderOf(key), key);
      orders.UnlockBucket(OrderOf(key));
    }

    /** `push_raw`, used while loading: the index entry first, under its lock, then the row. */
    method PushRaw(row: Row<Key>)
      requires Valid()
      modifies buckets, orders
      ensures Valid() && Stored(row.key.w, row.key.d) == old(Stored(row.key.w, row.key.d)) + [row]
      ensures forall w, d :: Home(w, d) != Home(row.key.w, row.key.d) ==> Stored(w, d) == old(Stored(w, d))
      ensures old(Unique()) ==> (Unique() <==> !old(IsStored(row.key)))
    {
      hide Latest, Distinct, Lines, Keys;
      InsertThenPush(row);
      orders.UnlockBucket(OrderOf(row.key));
      PushedAgrees(row);
    }

    method InsertThenPush(row: Row<Key>)
      requires Valid()
      modifies buckets, orders
      ensures Sound() && Stored(row.key.w, row.key.d) == old(Stored(row.key.w, row.key.d)) + [row]
      ensures forall w, d :: Home(w, d) != Home(row.key.w, row.key.d) ==> Stored(w, d) == old(Stored(w, d))
      ensures forall ord :: orders.Queue(ord) == old(orders.Queue(ord)) + (if ord == OrderOf(row.key) then [row.key] else [])
      ensures orders.locked == old(orders.locked)[orders.part(OrderOf(row.key)) := true]
      ensures old(Unique()) ==> (Unique() <==> !old(IsStored(row.key)))
    {
      orders.InsertIndex(OrderOf(row.key), row.key);
      assert forall w, d :: Stored(w, d) == old(Stored(w, d));
      PushRow(row);
    }

    /** With both halves of a push done the index agrees again. */
    twostate lemma PushedAgrees(new row: Row<Key>)
      requires old(Sound()) && old(Agrees()) && Sound()
      requires Stored(row.key.w, row.key.d) == old(Stored(row.key.w, row.key.d)) + [row]
      requires forall w, d :: Home(w, d) != Home(row.key.w, row.key.d) ==> Stored(w, d) == old(Stored(w, d))
      requires forall ord :: orders.Queue(ord) == old(orders.Queue(ord)) + (if ord == OrderOf(row.key) then [row.key] else [])
      ensures Agrees()
    {
      forall ord ensures orders.Queue(ord) == Keys(Lines(Stored(ord.w, ord.d), ord)) {
        var was := old(Stored(ord.w, ord.d));
        if Home(ord.w, ord.d) == Home(row.key.w, row.key.d) {
          assert Stored(ord.w, ord.d) == was + [row];
          KeysAfterPush(was, row, ord);
        } else {
          assert Stored(ord.w, ord.d) == was;
        }
      }
    }

    /** The rows of given keys, leaving out what is not there. */
    method RetrieveAll(ids: seq<Key>, ghost rows: seq<Row<Key>>) returns (r: seq<Row<Key>>)
      requires Sound() && ids == Keys(rows)
      requires forall row :: row in rows ==> row in Stored(row.key.w, row.key.d)
      ensures Resolves(r, rows) && (Unique() ==> r == rows)
    {
      r := [];
      for i := 0 to |ids|
        invariant Resolves(r, rows[..i])
      {
        var home := Home(ids[i].w, ids[i].d);
        assert BucketOk(home) && rows[i] in rows;
        var found := buckets[home].Retrieve(ids[i]);
        if found.Some? {
          r := r + [found.value];
        }
      }
      assert rows[..|ids|] == rows;
      if Unique() {
        ResolvesToItself(r, rows);
      }
    }

    /** `find_by_oid`: the lines of an order, as pushed; of a key pushed twice, the last each time. */
    method FindByOid(ord: Order) returns (r: seq<Row<Key>>)
      requires Valid()
      modifies orders
      ensures Valid() && forall w, d :: Stored(w, d) == old(Stored(w, d))
      ensures Resolves(r, Lines(Stored(ord.w, ord.d), ord))
      ensures Unique() ==> r == Lines(Stored(ord.w, ord.d), ord)
    {
      var found := orders.FindOneBucket(ord);
      ghost var rows := Lines(Stored(ord.w, ord.d), ord);
      r := [];
      if found.Some? {
        forall row | row in rows ensures row in Stored(row.key.w, row.key.d) {
          LinesAreExactly(Stored(ord.w, ord.d), ord, row);
        }
        r := RetrieveAll(found.value, rows);
      }
      orders.UnlockBucket(ord);
    }

    /** `find_range`: the lines of a district with order ids from `low` to `high`, likewise. */
    method FindRange(w: nat, d: nat, low: int, high: int) returns (r: seq<Row<Key>>)
      requires Valid()
      modifies orders
      ensures Valid() && forall w, d :: Stored(w, d) == old(Stored(w, d))
      ensures Resolves(r, Scan(Stored(w, d), w, d, low, high))
      ensures Unique() ==> r == Scan(Stored(w, d), w, d, low, high)
    {
      ghost var rows := Stored(w, d);
      var ids := CollectIds(w, d, low, high);
      forall row | row in Scan(rows, w, d, low, high) ensures row in Stored(row.key.w, row.key.d) {
        ScanIsExactly(rows, w, d, low, high, row);
      }
      r := RetrieveAll(ids, Scan(rows, w, d, low, high));
    }

    /** The queue of one order, locked and released; nothing when there is none. */
    method IdsOf(ord: Order) returns (ids: seq<Key>)
      requires Valid()
      modifies orders
      ensures Valid() && forall w, d :: Stored(w, d) == old(Stored(w, d))
      ensures ids == Keys(Lines(Stored(ord.w, ord.d), ord))
    {
      var found := orders.FindOneBucket(ord);
      ids := if found.Some? then found.value else [];
      orders.UnlockBucket(ord);
    }

    method CollectIds(w: nat, d: nat, low: int, high: int) returns (ids: seq<Key>)
      requires Valid()
      modifies orders
      ensures Valid() && forall w, d :: Stored(w, d) == old(Stored(w, d))
      ensures ids == Keys(Scan(Stored(w, d), w, d, low, high))
    {
      ghost var rows := Stored(w, d);
      ids := [];
      var o := low;
      while o <= high
        invariant low <= o && (low <= high ==> o <= high + 1) && (low > high ==> o == low)
        invariant Valid() && forall w, d :: Stored(w, d) == old(Stored(w, d))
        invariant ids == Keys(Scan(rows, w, d, low, o - 1))
      {
        var more := IdsOf(Order(w, d, o));
        KeysSplit(Scan(rows, w, d, low, o - 1), Lines(rows, Order(w, d, o)));
        ids := ids + more;
        o := o + 1;
      }
    }
  }
}
