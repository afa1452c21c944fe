/** The compact bit array of multi-signatures (solo-machine-core/src/cosmos/bit_array.rs). */
module BitArray {
  import opened Wrappers

  const MASK: bv8 := 0x80

  // ----- lists of booleans -----

  function Count(bits: seq<bool>): nat {
    if bits == [] then 0 else Count(bits[..|bits| - 1]) + (if bits[|bits| - 1] then 1 else 0)
  }

  /** The number of bits set before a position. */
  function Rank(bits: seq<bool>, i: nat): nat
    requires i <= |bits|
  {
    Count(bits[..i])
  }

  lemma RankNext(bits: seq<bool>, i: nat)
    requires i < |bits|
    ensures Rank(bits, i + 1) == Rank(bits, i) + (if bits[i] then 1 else 0)
  {
    assert bits[..i + 1][..i] == bits[..i];
  }

  lemma {:induction false} RankMonotone(bits: seq<bool>, i: nat, j: nat)
    requires i <= j <= |bits|
    ensures Rank(bits, i) <= Rank(bits, j)
    ensures i < j && bits[i] ==> Rank(bits, i) < Rank(bits, j)
    decreases j
  {
    if i == j {
    } else {
      RankNext(bits, j - 1);
      if i < j - 1 {
        RankMonotone(bits, i, j - 1);
      }
    }
  }

  // ----- the array -----

  /** The bits of a byte, most significant first. */
  function ByteBits(b: bv8): seq<bool> {
    [(b >> 7) & 1 == 1, (b >> 6) & 1 == 1, (b >> 5) & 1 == 1, (b >> 4) & 1 == 1,
     (b >> 3) & 1 == 1, (b >> 2) & 1 == 1, (b >> 1) & 1 == 1, b & 1 == 1]
  }

  function Unpack(elems: seq<bv8>): (bits: seq<bool>)
    ensures |bits| == 8 * |elems|
  {
    if elems == [] then [] else ByteBits(elems[0]) + Unpack(elems[1..])
  }

  datatype CompactBitArray = CompactBitArray(extraBitsStored: nat, elems: seq<bv8>) {

    /** `len` subtracts one from the number of bytes when extra bits are stored. */
    predicate HasLength() {
      extraBitsStored == 0 || elems != []
    }

    /** Every position below the length lies in a byte of the array. */
    predicate Readable() {
      HasLength() && extraBitsStored <= 8
    }

    function Len(): nat
      requires HasLength()
    {
      if extraBitsStored == 0 then |elems| * 8 else (|elems| - 1) * 8 + extraBitsStored
    }

    /** A position below the length lies in a byte of the array. */
    predicate HasByte(index: nat)
      requires HasLength()
    {
      index < Len() ==> index / 8 < |elems|
    }

    /** How many of the first positions are below the length. */
    function Covered(index: nat): nat {
      if !HasLength() then 0 else if index <= Len() then index else Len()
    }

    predicate Get(index: nat)
      requires HasLength() && HasByte(index)
    {
      index < Len() && (elems[index / 8] & (MASK >> (index % 8))) > 0
    }

    /** The list of booleans that the array stands for. */
    function Bits(): (bits: seq<bool>)
      requires Readable()
      ensures |bits| == Len()
    {
      Unpack(elems)[..Len()]
    }
  }

  lemma MaskSelects(b: bv8, k: nat)
    requires k < 8
    ensures ByteBits(b)[k] <==> (b & (MASK >> k)) > 0
  {
    assert k == 0 || k == 1 || k == 2 || k == 3 || k == 4 || k == 5 || k == 6 || k == 7;
  }

  lemma {:induction false} UnpackAt(elems: seq<bv8>, i: nat)
    requires i < 8 * |elems|
    ensures Unpack(elems)[i] == ByteBits(elems[i / 8])[i % 8]
  {
    if i < 8 {
    } else {
      UnpackAt(elems[1..], i - 8);
      assert elems[1..][(i - 8) / 8] == elems[i / 8];
    }
  }

  /** Reading a position through the mask is indexing the list of all bits; beyond the length it reads false. */
  lemma GetIsIndexing(a: CompactBitArray, i: nat)
    requires a.HasLength() && a.HasByte(i)
    ensures a.Get(i) <==> i < a.Len() && Unpack(a.elems)[i]
  {
    if i < a.Len() {
      UnpackAt(a.elems, i);
      MaskSelects(a.elems[i / 8], i % 8);
    }
  }

  /** In a readable array that is the list the array stands for. */
  lemma ReadableBit(a: CompactBitArray, i: nat)
    requires a.Readable() && i < a.Len()
    ensures a.HasByte(i) && (a.Get(i) <==> a.Bits()[i])
  {
    GetIsIndexing(a, i);
  }

  /** The first bit is the highest of the first byte, and extra bits count from the top of the last byte. */
  lemma HighestBitFirst(b: bv8, extra: nat)
    requires 1 <= extra <= 8
    ensures var a := CompactBitArray(extra, [0x80, b]);
      a.Len() == 8 + extra && a.Get(0) && (forall i | 1 <= i < 8 :: !a.Get(i)) && (a.Get(8) <==> b >= 0x80)
  {
    var a := CompactBitArray(extra, [0x80, b]);
    forall i | 0 <= i < 8
      ensures a.Get(i) <==> i == 0
    {
      assert i == 0 || i == 1 || i == 2 || i == 3 || i == 4 || i == 5 || i == 6 || i == 7;
    }
  }

  /** Counts the set bits below a position; the loop reads one position at a time and stops at one that has no byte. */
  method NumTrueBitsBefore(a: CompactBitArray, index: nat) returns (numTrueValues: Option<nat>)
    ensures numTrueValues.None? <==> (index > 0 && !a.HasLength()) || a.Covered(index) > 8 * |a.elems|
    ensures numTrueValues.Some? ==> numTrueValues.value == Count(Unpack(a.elems)[..a.Covered(index)])
  {
    var count := 0;
    for i := 0 to index
      invariant a.HasLength() || i == 0
      invariant a.Covered(i) <= 8 * |a.elems| && count == Count(Unpack(a.elems)[..a.Covered(i)])
    {
      if !a.HasLength() || !a.HasByte(i) {
        return None;
      }
      GetIsIndexing(a, i);
      if i < a.Len() {
        RankNext(Unpack(a.elems), i);
      }
      if a.Get(i) {
        count := count + 1;
      }
    }
    return Some(count);
  }
}
