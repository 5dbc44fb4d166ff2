/** The byte-packed Bloom filter of src/export/exporter.py. */
module Bloom {

  /** `1 << offset` on a byte. */
  function Mask(offset: nat): bv8
    requires offset < 8
  {
    if offset == 0 then 1 else if offset == 1 then 2 else if offset == 2 then 4 else if offset == 3 then 8
    else if offset == 4 then 16 else if offset == 5 then 32 else if offset == 6 then 64 else 128
  }

  lemma MaskIsShift(offset: nat)
    requires offset < 8
    ensures Mask(offset) == 1 << offset
  {
  }

  predicate BitAt(bytes: seq<bv8>, i: nat)
    requires i < 8 * |bytes|
  {
    bytes[i / 8] & Mask(i % 8) != 0
  }

  /** The bit indices a byte array stands for. */
  ghost function Bits(bytes: seq<bv8>): set<nat> {
    set i | 0 <= i < 8 * |bytes| && BitAt(bytes, i)
  }

  lemma OrSetsOneBit(b: bv8, i: nat, j: nat)
    requires i < 8 && j < 8
    ensures (b | Mask(i)) & Mask(j) != 0 <==> i == j || b & Mask(j) != 0
  {
  }

  /** Or-ing one mask into one byte adds exactly that bit index and clears nothing. */
  lemma SetBit(bytes: seq<bv8>, i: nat)
    requires i < 8 * |bytes|
    ensures Bits(bytes[i / 8 := bytes[i / 8] | Mask(i % 8)]) == Bits(bytes) + {i}
  {
    var after := bytes[i / 8 := bytes[i / 8] | Mask(i % 8)];
    forall j: nat | j < 8 * |bytes|
      ensures BitAt(after, j) <==> j == i || BitAt(bytes, j)
    {
      if j / 8 == i / 8 {
        OrSetsOneBit(bytes[i / 8], i % 8, j % 8);
      }
    }
  }

  /** Python's `hash((item, seed)) % size` for some hash function. */
  function Position(hash: (int, nat) -> int, size: nat, item: int, seed: nat): nat
    requires size > 0
  {
    hash(item, seed) % size
  }

  /** The positions of an item for the first `n` seeds. */
  ghost function Positions(hash: (int, nat) -> int, size: nat, item: int, n: nat): set<nat>
    requires size > 0 || n == 0
  {
    set seed | 0 <= seed < n :: Position(hash, size, item, seed)
  }

  lemma NextPosition(hash: (int, nat) -> int, size: nat, item: int, i: nat)
    requires size > 0
    ensures Positions(hash, size, item, i + 1) == Positions(hash, size, item, i) + {Position(hash, size, item, i)}
  {
  }

  /** An item's positions are the hashes of the item with each seed, modulo the size. */
  lemma PositionsIff(hash: (int, nat) -> int, size: nat, item: int, n: nat, i: nat)
    requires size > 0
    ensures i in Positions(hash, size, item, n) <==> exists seed: nat :: seed < n && i == hash(item, seed) % size
  {
    if i in Positions(hash, size, item, n) {
      var seed: nat :| seed < n && i == Position(hash, size, item, seed);
      assert seed < n && i == hash(item, seed) % size;
    }
    forall seed: nat | seed < n && i == hash(item, seed) % size
      ensures i in Positions(hash, size, item, n)
    {
      assert i == Position(hash, size, item, seed);
    }
  }

  ghost function AllPositions(hash: (int, nat) -> int, size: nat, n: nat, items: seq<int>): set<nat>
    requires size > 0 || n == 0
  {
    if items == [] then {}
    else AllPositions(hash, size, n, items[..|items| - 1]) + Positions(hash, size, items[|items| - 1], n)
  }

  lemma {:induction false} AddedPositions(hash: (int, nat) -> int, size: nat, n: nat, items: seq<int>, k: nat)
    requires size > 0 || n == 0
    requires k < |items|
    ensures Positions(hash, size, items[k], n) <= AllPositions(hash, size, n, items)
  {
    if k < |items| - 1 {
      AddedPositions(hash, size, n, items[..|items| - 1], k);
    }
  }

  /** The text codec of the saved bytes. */
  datatype Base64 = Base64(encode: seq<bv8> -> string, decode: string -> seq<bv8>)

  ghost predicate Inverse(k: Base64) {
    forall bytes: seq<bv8> :: k.decode(k.encode(bytes)) == bytes
  }

  datatype Saved = Saved(size: nat, hashCount: nat, itemsAdded: nat, text: string)

  /** A saved filter that stands for exactly `items`. */
  ghost predicate StandsFor(hash: (int, nat) -> int, k: Base64, d: Saved, items: seq<int>) {
    && (d.size > 0 || d.hashCount == 0)
    && |k.decode(d.text)| == (d.size + 7) / 8
    && Bits(k.decode(d.text)) == AllPositions(hash, d.size, d.hashCount, items)
  }

  class BloomFilter {
    const hash: (int, nat) -> int
    const size: nat
    const hashCount: nat
    const bitArray: array<bv8>
    var itemsAdded: nat
    ghost var added: seq<int>

    /** The bits set are exactly the positions of the items added. */
    ghost predicate Valid()
      reads this, bitArray
    {
      && (size > 0 || hashCount == 0)
      && bitArray.Length == (size + 7) / 8
      && Bits(bitArray[..]) == AllPositions(hash, size, hashCount, added)
    }

    constructor (h: (int, nat) -> int, bits: nat, hashes: nat)
      requires bits > 0 || hashes == 0
      ensures Valid() && added == [] && itemsAdded == 0 && fresh(bitArray)
      ensures hash == h && size == bits && hashCount == hashes
    {
      hash, size, hashCount, itemsAdded, added := h, bits, hashes, 0, [];
      bitArray := new bv8[(bits + 7) / 8](_ => 0);
      new;
      assert forall i :: 0 <= i < 8 * bitArray.Length ==> !BitAt(bitArray[..], i);
    }

    /** Every position is inside the byte array. */
    lemma InRange(item: int, seed: nat)
      requires size > 0
      ensures Position(hash, size, item, seed) < 8 * ((size + 7) / 8)
    {
    }

    method OrBit(bitIndex: nat)
      requires bitIndex < 8 * bitArray.Length
      modifies bitArray
      ensures Bits(bitArray[..]) == old(Bits(bitArray[..])) + {bitIndex}
    {
      SetBit(bitArray[..], bitIndex);
      ghost var bytes := bitArray[..];
      bitArray[bitIndex / 8] := bitArray[bitIndex / 8] | Mask(bitIndex % 8);
      assert bitArray[..] == bytes[bitIndex / 8 := bytes[bitIndex / 8] | Mask(bitIndex % 8)];
    }

    /** Or-ing in the positions of one item. */
    method OrPositions(item: int)
      requires (size > 0 || hashCount == 0) && bitArray.Length == (size + 7) / 8
      modifies bitArray
      ensures Bits(bitArray[..]) == old(Bits(bitArray[..])) + Positions(hash, size, item, hashCount)
    {
      ghost var before := Bits(bitArray[..]);
      var i := 0;
      while i < hashCount
        invariant 0 <= i <= hashCount
        invariant Bits(bitArray[..]) == before + Positions(hash, size, item, i)
      {
        var bitIndex := Position(hash, size, item, i);
        InRange(item, i);
        OrBit(bitIndex);
        NextPosition(hash, size, item, i);
        i := i + 1;
      }
    }

    method Add(item: int)
      requires Valid()
      modifies this`itemsAdded, this`added, bitArray
      ensures Valid() && added == old(added) + [item] && itemsAdded == old(itemsAdded) + 1
      ensures Bits(bitArray[..]) == Bits(old(bitArray[..])) + Positions(hash, size, item, hashCount)
    {
      OrPositions(item);
      itemsAdded := itemsAdded + 1;
      added := added + [item];
      assert added[..|added| - 1] == old(added);
    }

    /** Membership, false positives included: all of the item's positions are positions of items added. */
    method Contains(item: int) returns (found: bool)
      requires Valid()
      ensures found <==> Positions(hash, size, item, hashCount) <= AllPositions(hash, size, hashCount, added)
      ensures item in added ==> found
    {
      if item in added {
        ghost var k :| 0 <= k < |added| && added[k] == item;
        AddedPositions(hash, size, hashCount, added, k);
      }
      var i := 0;
      while i < hashCount
        invariant 0 <= i <= hashCount
        invariant forall seed :: 0 <= seed < i ==> Position(hash, size, item, seed) in Bits(bitArray[..])
      {
        var bitIndex := Position(hash, size, item, i);
        InRange(item, i);
        if bitArray[bitIndex / 8] & Mask(bitIndex % 8) == 0 {
          assert !BitAt(bitArray[..], bitIndex);
          assert bitIndex in Positions(hash, size, item, hashCount);
          return false;
        }
        assert BitAt(bitArray[..], bitIndex);
        i := i + 1;
      }
      return true;
    }

    /** The saved form holds the filter's numbers and stands for exactly the items added. */
    method ToDict(k: Base64) returns (d: Saved)
      requires Valid() && Inverse(k)
      ensures d.size == size && d.hashCount == hashCount && d.itemsAdded == itemsAdded
      ensures k.decode(d.text) == bitArray[..] && StandsFor(hash, k, d, added)
    {
      d := Saved(size, hashCount, itemsAdded, k.encode(bitArray[..]));
    }

    /** Rebuilding a saved filter: it answers for everything that was added before the save. */
    constructor FromDict(h: (int, nat) -> int, k: Base64, d: Saved, ghost items: seq<int>)
      requires StandsFor(h, k, d, items)
      ensures Valid() && added == items && itemsAdded == d.itemsAdded && fresh(bitArray)
      ensures hash == h && size == d.size && hashCount == d.hashCount && bitArray[..] == k.decode(d.text)
    {
      hash, size, hashCount, itemsAdded, added := h, d.size, d.hashCount, d.itemsAdded, items;
      var bytes := k.decode(d.text);
      bitArray := new bv8[|bytes|](i requires 0 <= i < |bytes| => bytes[i]);
      new;
      assert bitArray[..] == bytes;
    }
  }

  /** No false negatives, across any additions and a save and restore between them. */
  method RoundTripKeepsItems(
      h: (int, nat) -> int, k: Base64, bits: nat, hashes: nat, first: seq<int>, second: seq<int>, item: int)
      returns (found: bool)
    requires (bits > 0 || hashes == 0) && Inverse(k)
    ensures item in first + second ==> found
  {
    var filter := new BloomFilter(h, bits, hashes);
    var i := 0;
    while i < |first|
      invariant 0 <= i <= |first| && filter.Valid() && fresh(filter) && fresh(filter.bitArray)
      invariant filter.hash == h && filter.added == first[..i]
    {
      filter.Add(first[i]);
      i := i + 1;
    }
    var saved := filter.ToDict(k);
    var restored := new BloomFilter.FromDict(h, k, saved, filter.added);
    i := 0;
    while i < |second|
      invariant 0 <= i <= |second| && restored.Valid() && fresh(restored) && fresh(restored.bitArray)
      invariant restored.added == first + second[..i]
    {
      restored.Add(second[i]);
      i := i + 1;
    }
    found := restored.Contains(item);
  }
}
