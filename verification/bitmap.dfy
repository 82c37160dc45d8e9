/** The packed bitmap: bit `p` is bit `7 - p % 8` of byte `p / 8`. It stands for a set of positions. */
module Bitmap {
  /** The byte with only bit `7 - offset` set. */
  function Mask(offset: nat): bv8
    requires offset < 8
  {
    0x80 >> offset
  }

  predicate Bit(bits: seq<bv8>, p: nat)
    requires p < 8 * |bits|
  {
    bits[p / 8] & Mask(p % 8) != 0
  }

  /** The positions whose bit is set. */
  ghost function Positions(bits: seq<bv8>): set<nat> {
    set p: nat | p < 8 * |bits| && Bit(bits, p)
  }

  lemma MaskTable(offset: nat)
    requires offset < 8
    ensures Mask(offset) == [0x80, 0x40, 0x20, 0x10, 0x08, 0x04, 0x02, 0x01 as bv8][offset]
  {
    if offset == 0 {} else if offset == 1 {} else if offset == 2 {} else if offset == 3 {}
    else if offset == 4 {} else if offset == 5 {} else if offset == 6 {} else {}
  }

  lemma OrKeepsOtherBits(b: bv8, m: bv8, n: bv8)
    ensures (b | m) & n == (b & n) | (m & n)
  {
  }

  lemma MasksDiffer(i: nat, j: nat)
    requires i < 8 && j < 8
    ensures Mask(i) & Mask(j) != 0 <==> i == j
  {
    MaskTable(i);
    MaskTable(j);
  }

  lemma OrIsZero(a: bv8, b: bv8)
    ensures a | b == 0 <==> a == 0 && b == 0
  {
  }

  /** ORing a mask into a byte adds one position and takes none away. */
  lemma SetOneBit(bits: seq<bv8>, p: nat, q: nat)
    requires p < 8 * |bits| && q < 8 * |bits|
    ensures Bit(bits[p / 8 := bits[p / 8] | Mask(p % 8)], q) <==> q == p || Bit(bits, q)
  {
    if q / 8 == p / 8 {
      OrKeepsOtherBits(bits[p / 8], Mask(p % 8), Mask(q % 8));
      OrIsZero(bits[p / 8] & Mask(q % 8), Mask(p % 8) & Mask(q % 8));
      MasksDiffer(p % 8, q % 8);
      assert q == p <==> q % 8 == p % 8;
    }
  }

  lemma SetAddsPosition(bits: seq<bv8>, p: nat)
    requires p < 8 * |bits|
    ensures Positions(bits[p / 8 := bits[p / 8] | Mask(p % 8)]) == Positions(bits) + {p}
  {
    var bits1 := bits[p / 8 := bits[p / 8] | Mask(p % 8)];
    forall q: nat | q < 8 * |bits|
      ensures Bit(bits1, q) <==> q == p || Bit(bits, q)
    {
      SetOneBit(bits, p, q);
    }
  }

  lemma ClearedIsEmpty(bits: seq<bv8>)
    requires forall k | 0 <= k < |bits| :: bits[k] == 0
    ensures Positions(bits) == {}
  {
  }

  /**
   `set_bitmap`: adds a position, or returns -1 and leaves the bitmap alone when the position is out of
   the bound it was given. That bound need not be the bitmap's size; the caller answers for the byte written.
   */
  method SetBitmap(position: nat, bitmap: array<bv8>, bitmapSize: nat) returns (r: int)
    requires position < 8 * bitmapSize ==> position < 8 * bitmap.Length
    modifies bitmap
    ensures r == (if position < 8 * bitmapSize then position else -1)
    ensures Positions(bitmap[..]) == old(Positions(bitmap[..])) + (if r >= 0 then {position} else {})
  {
    if position >= bitmapSize * 8 {
      return -1;
    }
    var arrayIndex := position / 8;
    var offset := position % 8;
    var mask := Mask(offset);
    SetAddsPosition(bitmap[..], position);
    ghost var before := bitmap[..];
    bitmap[arrayIndex] := bitmap[arrayIndex] | mask;
    assert bitmap[..] == before[arrayIndex := before[arrayIndex] | mask];
    return position;
  }

  /** `get_bitmap`: whether a position is set, or -1 when it is out of bounds. */
  function GetBitmap(position: nat, bitmap: seq<bv8>, bitmapSize: nat): (r: int)
    requires bitmapSize <= |bitmap|
    ensures r == -1 <==> position >= 8 * bitmapSize
    ensures r == 1 <==> position < 8 * bitmapSize && position in Positions(bitmap)
    ensures r == -1 || r == 0 || r == 1
  {
    if position >= bitmapSize * 8 then -1
    else if bitmap[position / 8] & Mask(position % 8) == 0 then 0
    else 1
  }

  /** `memset(bitmap, 0, bitmap_size)`. */
  method Clear(bitmap: array<bv8>)
    modifies bitmap
    ensures Positions(bitmap[..]) == {}
  {
    forall k | 0 <= k < bitmap.Length {
      bitmap[k] := 0;
    }
    ClearedIsEmpty(bitmap[..]);
  }

  /** The bytes needed for `n` positions, as `bench_poll` computes them. */
  function BytesFor(n: nat): (r: nat)
    ensures n <= 8 * r < n + 8
  {
    n / 8 + if n % 8 != 0 then 1 else 0
  }
}
