/** The in-memory side of a table partition (`Bucket`) and of a secondary index (`SecIndex`). */
module Tables {

  datatype Option<T> = None | Some(value: T)

  datatype Row<K> = Row(key: K, data: int)

  /** `Bucket`: rows are only ever appended; the index says where a live key's row is. */
  class Bucket<K(==)> {
    var rows: seq<Row<K>>
    var index: map<K, nat>

    ghost predicate Valid()
      reads this
    {
      forall k :: k in index ==> index[k] < |rows| && rows[index[k]].key == k
    }

    constructor ()
      ensures Valid() && rows == [] && index == map[]
    {
      rows, index := [], map[];
    }

    /** The row of a live key. */
    ghost function At(k: K): (r: Row<K>)
      reads this
      requires Valid() && k in index
      ensures r.key == k
    {
      rows[index[k]]
    }

    method Push(row: Row<K>)
      requires Valid()
      modifies this
      ensures Valid() && rows == old(rows) + [row]
      ensures index.Keys == old(index.Keys) + {row.key} && At(row.key) == row
      ensures forall k :: k in old(index) && k != row.key ==> At(k) == old(At(k))
    {
      rows := rows + [row];
      index := index[row.key := |rows| - 1];
    }

    method Delete(k: K)
      requires Valid()
      modifies this
      ensures Valid() && rows == old(rows) && index == old(index) - {k}
    {
      index := index - {k};
    }

    method Retrieve(k: K) returns (r: Option<Row<K>>)
      requires Valid()
      ensures r.Some? <==> k in index
      ensures r.Some? ==> r.value == At(k) && r.value.key == k && r.value in rows
    {
      if k in index {
        r := Some(rows[index[k]]);
      } else {
        r := None;
      }
    }
  }

  /** `SecIndex`: partitions, each a map to queues behind a spin lock.  Looking a key up or
      inserting leaves the lock taken for the caller to release.  Partitions belong to the
      numbers `part` gives for a key's district. */
  class SecIndex<K(==,!new), V(==)> {
    var maps: seq<map<K, seq<V>>>
    var locked: seq<bool>
    const part: K -> nat

    ghost predicate Valid()
      reads this
    {
      && |maps| == |locked| > 0 && (forall k :: part(k) < |maps|)
      && (forall i, k :: 0 <= i < |maps| && k in maps[i] ==> part(k) == i)
    }

    ghost predicate Unlocked()
      reads this
    {
      forall i :: 0 <= i < |locked| ==> !locked[i]
    }

    predicate Has(k: K)
      reads this
      requires Valid()
    {
      k in maps[part(k)]
    }

    function Queue(k: K): (q: seq<V>)
      reads this
      requires Valid()
    {
      if Has(k) then maps[part(k)][k] else []
    }

    constructor (n: nat, part: K -> nat)
      requires n > 0 && forall k :: part(k) < n
      ensures Valid() && Unlocked() && this.part == part && forall k :: !Has(k)
    {
      this.part := part;
      maps := seq(n, _ => map[]);
      locked := seq(n, _ => false);
    }

    /** Takes the spin lock; with it taken already the loop would not end. */
    method Lock(k: K)
      requires Valid() && !locked[part(k)]
      modifies this`locked
      ensures Valid() && locked == old(locked)[part(k) := true]
      ensures forall j :: Has(j) == old(Has(j)) && Queue(j) == old(Queue(j))
    {
      locked := locked[part(k) := true];
    }

    method UnlockBucket(k: K)
      requires Valid()
      modifies this`locked
      ensures Valid() && locked == old(locked)[part(k) := false]
      ensures forall j :: Has(j) == old(Has(j)) && Queue(j) == old(Queue(j))
    {
      locked := locked[part(k) := false];
    }

    method InsertIndex(k: K, v: V)
      requires Valid() && !locked[part(k)]
      modifies this
      ensures Valid() && locked == old(locked)[part(k) := true]
      ensures Has(k) && Queue(k) == old(Queue(k)) + [v]
      ensures forall j :: j != k ==> Has(j) == old(Has(j)) && Queue(j) == old(Queue(j))
    {
      Lock(k);
      maps := maps[part(k) := maps[part(k)][k := Queue(k) + [v]]];
    }

    method FindOneBucket(k: K) returns (q: Option<seq<V>>)
      requires Valid() && !locked[part(k)]
      modifies this`locked
      ensures Valid() && locked == old(locked)[part(k) := true]
      ensures forall j :: Has(j) == old(Has(j)) && Queue(j) == old(Queue(j))
      ensures q.Some? <==> Has(k)
      ensures if q.Some? then q.value == Queue(k) else Queue(k) == []
    {
      Lock(k);
      q := if Has(k) then Some(Queue(k)) else None;
    }

    /** What a caller does through the mutable reference that `find_one_bucket_mut` hands out. */
    method RemoveAt(k: K, i: nat)
      requires Valid() && Has(k) && i < |Queue(k)|
      modifies this`maps
      ensures Valid() && Has(k) && Queue(k) == old(Queue(k)[..i] + Queue(k)[i + 1..])
      ensures forall j :: j != k ==> Has(j) == old(Has(j)) && Queue(j) == old(Queue(j))
    {
      maps := maps[part(k) := maps[part(k)][k := Queue(k)[..i] + Queue(k)[i + 1..]]];
    }
  }
}
