/** The map from row numbers to persistent addresses in `Bucket`: chunks that double in size,
    found through the bit length of the page number. */
module PmemMap {

  import opened Powers

  /** The number of bits of `n`. */
  function Bits(n: nat): (b: nat) {
    if n == 0 then 0 else 1 + Bits(n / 2)
  }

  lemma {:induction false} BitsBound(n: nat)
    ensures n < Pow2(Bits(n)) && (n > 0 ==> Pow2(Bits(n) - 1) <= n)
  {
    if n > 0 {
      BitsBound(n / 2);
    }
  }

  lemma {:induction false} BitsUnique(n: nat, b: nat)
    requires if b == 0 then n == 0 else Pow2(b - 1) <= n < Pow2(b)
    ensures Bits(n) == b
  {
    if b == 1 {
      assert n == 1 && Bits(1 / 2) == 0;
    } else if b > 1 {
      BitsUnique(n / 2, b - 1);
    }
  }

  /** `(1 << chunk) >> 1` pages come before a chunk. */
  function PagesBefore(chunk: nat): (p: nat) {
    Pow2(chunk) / 2
  }

  /** Rows in a chunk: what the bucket could hold before the chunk was mapped, or `per` at first. */
  function ChunkSize(per: nat, chunk: nat): nat {
    if chunk == 0 then per else per * Pow2(chunk - 1)
  }

  function ChunkOf(per: nat, idx: nat): (c: nat)
    requires per > 0
  {
    Bits(idx / per)
  }

  function OffsetOf(per: nat, idx: nat): (o: int)
    requires per > 0
  {
    idx - PagesBefore(ChunkOf(per, idx)) * per
  }

  lemma DivTimes(idx: nat, per: nat, n: nat)
    requires per > 0
    ensures idx / per < n <==> idx < n * per
    ensures n <= idx / per <==> n * per <= idx
  {
    var q := idx / per;
    assert idx == q * per + idx % per;
    if q < n {
      assert (q + 1) * per <= n * per;
    } else {
      assert n * per <= q * per;
    }
  }

  lemma PagesBeforeIs(chunk: nat)
    ensures PagesBefore(chunk) == if chunk == 0 then 0 else Pow2(chunk - 1)
  {
  }

  /** A chunk ends where the capacity with it ends. */
  lemma ChunkEnds(per: nat, chunk: nat)
    ensures PagesBefore(chunk) * per + ChunkSize(per, chunk) == Pow2(chunk) * per
  {
    PagesBeforeIs(chunk);
    if chunk > 0 {
      Double(Pow2(chunk - 1), per);
    }
  }

  lemma Double(p: nat, per: nat)
    ensures (2 * p) * per == p * per + per * p
  {
  }

  lemma PageIs(page: nat, chunk: nat)
    ensures Bits(page) == chunk <==> PagesBefore(chunk) <= page < Pow2(chunk)
  {
    PagesBeforeIs(chunk);
    BitsBound(page);
    if PagesBefore(chunk) <= page < Pow2(chunk) {
      BitsUnique(page, chunk);
    }
  }

  /** A row is in a chunk when it is not before it and not after it. */
  lemma ChunkIs(per: nat, idx: nat, chunk: nat)
    requires per > 0
    ensures ChunkOf(per, idx) == chunk <==> PagesBefore(chunk) * per <= idx < Pow2(chunk) * per
  {
    DivTimes(idx, per, PagesBefore(chunk));
    DivTimes(idx, per, Pow2(chunk));
    PageIs(idx / per, chunk);
  }

  /** Every row is inside its chunk. */
  lemma InsideChunk(per: nat, idx: nat)
    requires per > 0
    ensures 0 <= OffsetOf(per, idx) < ChunkSize(per, ChunkOf(per, idx))
  {
    var c := ChunkOf(per, idx);
    ChunkIs(per, idx, c);
    ChunkEnds(per, c);
  }

  /** Every place of a chunk is the place of exactly one row. */
  lemma PlaceOfRow(per: nat, chunk: nat, offset: nat)
    requires per > 0 && offset < ChunkSize(per, chunk)
    ensures var idx := PagesBefore(chunk) * per + offset; ChunkOf(per, idx) == chunk && OffsetOf(per, idx) == offset
  {
    ChunkEnds(per, chunk);
    ChunkIs(per, PagesBefore(chunk) * per + offset, chunk);
  }

  lemma FewBits(page: nat, root: nat)
    ensures page < Pow2(root) <==> Bits(page) <= root
  {
    BitsBound(page);
    if Bits(page) <= root {
      Pow2Grows(Bits(page), root);
    } else {
      Pow2Grows(root, Bits(page) - 1);
    }
  }

  /** The rows below the capacity are those whose chunk is one of the first. */
  lemma BelowCapacity(per: nat, idx: nat, root: nat)
    requires per > 0
    ensures idx < Pow2(root) * per <==> ChunkOf(per, idx) <= root
  {
    DivTimes(idx, per, Pow2(root));
    FewBits(idx / per, root);
  }

  lemma CapDoubles(per: nat, root: nat)
    ensures 2 * (Pow2(root) * per) == Pow2(root + 1) * per
    ensures ChunkSize(per, root + 1) == Pow2(root) * per
  {
    Double(Pow2(root), per);
  }

  /** An address is a mapped region and an offset in it; region 0 is the null pointer. */
  datatype Address = Address(region: nat, offset: nat)

  datatype Result = Ok(addr: Address) | OutOfRoots

  const ROOTS: nat := 16

  class PmemBucket {
    const per: nat            // pmem_per_size_
    var cap: nat              // pmem_cap_
    var root: nat             // pmem_root_idx_
    const roots: array<nat>   // pmem_root_
    var offset: nat           // pmem_offset_
    var sizes: seq<nat>       // the sizes of the regions mapped so far, region 0 standing for null

    /** Chunk `c` is mapped to a region of its own, of the right size. */
    ghost predicate Mapped(c: nat)
      reads this, roots
      requires c < roots.Length
    {
      && 0 < roots[c] < |sizes| && sizes[roots[c]] == ChunkSize(per, c)
      && forall b :: 0 <= b < c ==> roots[b] != roots[c]
    }

    ghost predicate Valid()
      reads this, roots
    {
      && per > 0 && roots.Length == ROOTS && |sizes| > 0
      && cap == Pow2(root) * per
      && (forall c :: 0 <= c < ROOTS ==> if c <= root then Mapped(c) else roots[c] == 0)
    }

    /** The address of a row below the capacity. */
    ghost function AddressAt(idx: nat): Address
      reads this, roots
      requires Valid() && ChunkOf(per, idx) < ROOTS
    {
      InsideChunk(per, idx);
      Address(roots[ChunkOf(per, idx)], OffsetOf(per, idx))
    }

    constructor (cap: nat)
      requires cap > 0
      ensures Valid() && this.cap == this.per == cap && root == 0 && offset == 0 && fresh(roots)
    {
      per, this.cap, root, offset := cap, cap, 0, 0;
      var a := new nat[ROOTS](_ => 0);
      a[0] := 1;
      roots := a;
      sizes := [0, cap];
    }

    /** Two rows never share an address, and an address is inside its region. */
    lemma AddressesDiffer(i: nat, j: nat)
      requires Valid() && i < cap && j < cap && ChunkOf(per, i) < ROOTS && ChunkOf(per, j) < ROOTS
      ensures 0 < AddressAt(i).region < |sizes| && AddressAt(i).offset < sizes[AddressAt(i).region]
      ensures i != j ==> AddressAt(i) != AddressAt(j)
    {
      BelowCapacity(per, i, root);
      BelowCapacity(per, j, root);
      InsideChunk(per, i);
      assert Mapped(ChunkOf(per, i)) && Mapped(ChunkOf(per, j));
    }

    method NextPmemOffset() returns (o: nat)
      modifies this`offset
      ensures o == old(offset) && offset == o + 1
    {
      o := offset;
      offset := offset + 1;
    }

    /** The growth part of `get_pmem_addr`: one more chunk, as large as all before together. */
    method Grow() returns (ok: bool)
      requires Valid()
      modifies this`cap, this`root, this`sizes, roots
      ensures Valid() && cap == 2 * old(cap) && root == old(root) + 1
      ensures ok <==> root < ROOTS
      ensures |old(sizes)| <= |sizes| && forall i :: 0 <= i < |old(sizes)| ==> sizes[i] == old(sizes)[i]
      ensures forall c :: 0 <= c < ROOTS && c <= old(root) ==> roots[c] == old(roots[c])
    {
      CapDoubles(per, root);
      sizes := sizes + [cap];
      cap := 2 * cap;
      root := root + 1;
      ok := root < ROOTS;
      if ok {
        roots[root] := |sizes| - 1;
      }
      forall c | 0 <= c < ROOTS && c < root ensures Mapped(c) {
        assert old(Mapped(c));
      }
    }

    /** The chunk of a row, by shifting its page number right until nothing is left. */
    method ChunkId(idx: nat) returns (chunk: nat)
      requires per > 0
      ensures chunk == ChunkOf(per, idx)
    {
      DivTimes(idx, per, 0);
      var page: nat := idx / per;
      chunk := 0;
      while page > 0
        invariant Bits(idx / per) == chunk + Bits(page)
      {
        chunk := chunk + 1;
        page := page / 2;
      }
    }

    /** `get_pmem_addr`, by one caller at a time.  The result is the null region for a row that is
        still not below the capacity, and running out of roots is an index out of bounds. */
    method GetPmemAddr(idx: nat) returns (r: Result)
      requires Valid()
      modifies this`cap, this`root, this`sizes, roots
      ensures Valid() && cap == (if idx < old(cap) then old(cap) else 2 * old(cap))
      ensures root == if idx < old(cap) then old(root) else old(root) + 1
      ensures forall i: nat :: i < old(cap) && ChunkOf(per, i) < ROOTS ==> AddressAt(i) == old(AddressAt(i))
      ensures |old(sizes)| <= |sizes| && forall i :: 0 <= i < |old(sizes)| ==> sizes[i] == old(sizes)[i]
      ensures r.OutOfRoots? <==> ChunkOf(per, idx) >= ROOTS || (idx >= old(cap) && root >= ROOTS)
      ensures r.Ok? ==> ChunkOf(per, idx) < ROOTS && r.addr == AddressAt(idx) && (r.addr.region != 0 <==> idx < cap)
    {
      if idx >= cap {
        var ok := Grow();
        FramedAddresses();
        if !ok {
          return OutOfRoots;
        }
      }
      var chunk := ChunkId(idx);
      if chunk >= ROOTS {
        return OutOfRoots;
      }
      InsideChunk(per, idx);
      BelowCapacity(per, idx, root);
      r := Ok(Address(roots[chunk], idx - PagesBefore(chunk) * per));
    }

    twostate lemma FramedAddresses()
      requires old(Valid()) && Valid()
      requires forall c :: 0 <= c < ROOTS && c <= old(root) ==> roots[c] == old(roots[c])
      ensures forall i: nat :: i < old(cap) && ChunkOf(per, i) < ROOTS ==> AddressAt(i) == old(AddressAt(i))
    {
      forall i: nat | i < old(cap) && ChunkOf(per, i) < ROOTS ensures AddressAt(i) == old(AddressAt(i)) {
        BelowCapacity(per, i, old(root));
      }
    }

    /** A row gets the next place: inside its region, not that of any earlier row, and none of
        those moves.  There are places for 2^15 times the first capacity. */
    method NextAddr() returns (r: Result)
      requires Valid() && offset <= cap
      modifies this, roots
      ensures Valid() && offset <= cap && offset == old(offset) + 1
      ensures r.OutOfRoots? <==> old(offset) >= Pow2(ROOTS - 1) * per
      ensures r.Ok? ==> 0 < r.addr.region < |sizes| && r.addr.offset < sizes[r.addr.region]
      ensures r.Ok? ==> forall i: nat :: i < old(offset) ==> ChunkOf(per, i) < ROOTS && AddressAt(i) == old(AddressAt(i)) != r.addr
    {
      var idx := NextPmemOffset();
      BelowCapacity(per, idx, ROOTS - 1);
      BelowCapacity(per, idx, root);
      r := GetPmemAddr(idx);
      if r.Ok? {
        PlacesSoFar(idx);
      }
    }

    lemma PlacesSoFar(idx: nat)
      requires Valid() && idx < cap && ChunkOf(per, idx) < ROOTS
      ensures 0 < AddressAt(idx).region < |sizes| && AddressAt(idx).offset < sizes[AddressAt(idx).region]
      ensures forall i: nat :: i < idx ==> ChunkOf(per, i) < ROOTS && AddressAt(i) != AddressAt(idx)
    {
      AddressesDiffer(idx, idx);
      BelowCapacity(per, idx, ROOTS - 1);
      forall i: nat | i < idx ensures ChunkOf(per, i) < ROOTS && AddressAt(i) != AddressAt(idx) {
        BelowCapacity(per, i, ROOTS - 1);
        AddressesDiffer(i, idx);
      }
    }
  }
}
