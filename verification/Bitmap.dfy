/** The byte-packed chunk bitmap: what each operation does to the set of chunk indices it stands for. */
module Bitmap {

  type Bytes = seq<bv8>

  /** 1 << k for a bit position k within a byte. */
  function Mask(k: nat): bv8
    requires k < 8
  {
    match k
    case 0 => 0x01
    case 1 => 0x02
    case 2 => 0x04
    case 3 => 0x08
    case 4 => 0x10
    case 5 => 0x20
    case 6 => 0x40
    case _ => 0x80
  }

  predicate Get(b: Bytes, index: nat) {
    index < |b| * 8 && On(b[index / 8], index % 8)
  }

  /** The indices whose bit is set. */
  function Ones(b: Bytes): (ones: set<nat>)
    ensures forall i: nat :: i in ones <==> Get(b, i)
  {
    set i: nat | i < |b| * 8 && Get(b, i)
  }

  function DivCeil(n: nat, d: nat): nat
    requires d > 0
  {
    (n + d - 1) / d
  }

  // ---------------------------------------------------------------------------
  // One bit of one byte
  // ---------------------------------------------------------------------------

  predicate On(x: bv8, k: nat)
    requires k < 8
  {
    x & Mask(k) != 0
  }

  function SetBit(x: bv8, k: nat): bv8
    requires k < 8
  {
    x | Mask(k)
  }

  function ClearBit(x: bv8, k: nat): bv8
    requires k < 8
  {
    x & !Mask(k)
  }

  lemma SetBitOn(x: bv8, j: nat, z: bv8, k: nat)
    requires j < 8 && k < 8 && z == SetBit(x, j)
    ensures On(z, k) <==> j == k || On(x, k)
  {
  }

  lemma ClearBitOn(x: bv8, j: nat, z: bv8, k: nat)
    requires j < 8 && k < 8 && z == ClearBit(x, j)
    ensures On(z, k) <==> j != k && On(x, k)
  {
  }

  lemma OrByte(x: bv8, y: bv8, z: bv8, k: nat)
    requires k < 8 && z == x | y
    ensures On(z, k) <==> On(x, k) || On(y, k)
  {
  }

  // ---------------------------------------------------------------------------
  // Bitmaps as values
  // ---------------------------------------------------------------------------

  function Zeros(n: nat): (b: Bytes)
    ensures |b| == DivCeil(n, 8) && n <= |b| * 8
    ensures Ones(b) == {}
  {
    seq(DivCeil(n, 8), _ => 0)
  }

  lemma SamePlace(i: nat, j: nat)
    requires i / 8 == j / 8 && i % 8 == j % 8
    ensures i == j
  {
  }

  /** r differs from b at most in one byte, where bit k was set or cleared. */
  lemma GetAfterSet(b: Bytes, r: Bytes, index: nat, i: nat)
    requires index < |b| * 8 && r == b[index / 8 := SetBit(b[index / 8], index % 8)]
    ensures Get(r, i) <==> i == index || Get(b, i)
  {
    var m, k := index / 8, index % 8;
    if i < |b| * 8 && i / 8 == m {
      SetBitOn(b[m], k, r[m], i % 8);
      if i % 8 == k {
        SamePlace(i, index);
      }
    }
  }

  lemma GetAfterClear(b: Bytes, r: Bytes, index: nat, i: nat)
    requires index < |b| * 8 && r == b[index / 8 := ClearBit(b[index / 8], index % 8)]
    ensures Get(r, i) <==> i != index && Get(b, i)
  {
    var m, k := index / 8, index % 8;
    if i < |b| * 8 && i / 8 == m {
      ClearBitOn(b[m], k, r[m], i % 8);
      if i % 8 == k {
        SamePlace(i, index);
      }
    }
  }

  /** An index past the end is ignored. */
  function WithBit(b: Bytes, index: nat): Bytes {
    if index >= |b| * 8 then b else b[index / 8 := SetBit(b[index / 8], index % 8)]
  }

  lemma WithBitOnes(b: Bytes, index: nat)
    ensures |WithBit(b, index)| == |b|
    ensures Ones(WithBit(b, index)) == if index < |b| * 8 then Ones(b) + {index} else Ones(b)
  {
    if index < |b| * 8 {
      forall i: nat
        ensures Get(WithBit(b, index), i) <==> i == index || Get(b, i)
      {
        GetAfterSet(b, WithBit(b, index), index, i);
      }
    }
  }

  function WithoutBit(b: Bytes, index: nat): Bytes {
    if index >= |b| * 8 then b else b[index / 8 := ClearBit(b[index / 8], index % 8)]
  }

  lemma WithoutBitOnes(b: Bytes, index: nat)
    ensures |WithoutBit(b, index)| == |b|
    ensures Ones(WithoutBit(b, index)) == Ones(b) - {index}
  {
    if index < |b| * 8 {
      forall i: nat
        ensures Get(WithoutBit(b, index), i) <==> i != index && Get(b, i)
      {
        GetAfterClear(b, WithoutBit(b, index), index, i);
      }
    }
  }

  /** Only the bytes both have are combined. */
  function OrBytes(b: Bytes, other: Bytes): (r: Bytes)
    ensures |r| == |b|
    ensures forall i :: 0 <= i < |b| ==> r[i] == if i < |other| then b[i] | other[i] else b[i]
  {
    seq(|b|, i requires 0 <= i < |b| => if i < |other| then b[i] | other[i] else b[i])
  }

  lemma OrBytesGet(b: Bytes, other: Bytes, i: nat)
    ensures Get(OrBytes(b, other), i) <==> Get(b, i) || (i < |b| * 8 && Get(other, i))
  {
    var m := i / 8;
    if m < |b| && m < |other| {
      OrByte(b[m], other[m], OrBytes(b, other)[m], i % 8);
    }
  }

  lemma OrBytesOnes(b: Bytes, other: Bytes)
    ensures Ones(OrBytes(b, other)) == Ones(b) + (set i | i in Ones(other) && i < |b| * 8)
  {
    forall i: nat {
      OrBytesGet(b, other, i);
    }
  }

  // ---------------------------------------------------------------------------
  // The slice operations
  // ---------------------------------------------------------------------------

  method Set(b: array<bv8>, index: nat)
    modifies b
    ensures b[..] == WithBit(old(b[..]), index)
  {
    if index >= b.Length * 8 {
      return;
    }
    b[index / 8] := SetBit(b[index / 8], index % 8);
  }

  method Unset(b: array<bv8>, index: nat)
    modifies b
    ensures b[..] == WithoutBit(old(b[..]), index)
  {
    if index >= b.Length * 8 {
      return;
    }
    b[index / 8] := ClearBit(b[index / 8], index % 8);
  }

  method Or(b: array<bv8>, other: array<bv8>)
    modifies b
    ensures b[..] == OrBytes(old(b[..]), old(other[..]))
  {
    var n := if b.Length < other.Length then b.Length else other.Length;
    for i := 0 to n
      invariant forall j :: 0 <= j < i ==> b[j] == old(b[j]) | old(other[j])
      invariant forall j :: i <= j < b.Length ==> b[j] == old(b[j])
      invariant b != other ==> forall j :: 0 <= j < other.Length ==> other[j] == old(other[j])
    {
      b[i] := b[i] | other[i];
    }
  }

  method AllOnes(n: nat) returns (b: array<bv8>)
    ensures fresh(b) && b.Length == DivCeil(n, 8)
    ensures forall i: nat :: i in Ones(b[..]) <==> i < n
  {
    b := new bv8[DivCeil(n, 8)](_ => 0);
    assert b[..] == Zeros(n);
    for i := 0 to n
      invariant forall j: nat :: j in Ones(b[..]) <==> j < i
    {
      ghost var before := b[..];
      Set(b, i);
      WithBitOnes(before, i);
    }
  }

  // ---------------------------------------------------------------------------
  // Counting
  // ---------------------------------------------------------------------------

  function Bit(x: bv8, k: nat): nat
    requires k < 8
  {
    if On(x, k) then 1 else 0
  }

  /** The number of one bits in a byte. */
  function OnesCount8(x: bv8): nat {
    Bit(x, 0) + Bit(x, 1) + Bit(x, 2) + Bit(x, 3) + Bit(x, 4) + Bit(x, 5) + Bit(x, 6) + Bit(x, 7)
  }

  ghost function OnesBelow(b: Bytes, n: nat): set<nat> {
    set i: nat | i < n && Get(b, i)
  }

  lemma OnesBelowBit(b: Bytes, m: nat, k: nat)
    requires m < |b| && k < 8
    ensures |OnesBelow(b, 8 * m + k + 1)| == |OnesBelow(b, 8 * m + k)| + Bit(b[m], k)
  {
    OnesBelowNext(b, 8 * m + k);
    GetBit(b, m, k, 8 * m + k);
  }

  lemma GetBit(b: Bytes, m: nat, k: nat, n: nat)
    requires m < |b| && k < 8 && n == 8 * m + k
    ensures Get(b, n) == On(b[m], k)
  {
    assert n / 8 == m && n % 8 == k;
  }

  lemma OnesBelowNext(b: Bytes, n: nat)
    ensures |OnesBelow(b, n + 1)| == |OnesBelow(b, n)| + (if Get(b, n) then 1 else 0)
  {
    var before := OnesBelow(b, n);
    assert OnesBelow(b, n + 1) == if Get(b, n) then before + {n} else before;
  }

  lemma OnesBelowByte(b: Bytes, m: nat)
    requires m < |b|
    ensures |OnesBelow(b, 8 * m + 8)| == |OnesBelow(b, 8 * m)| + OnesCount8(b[m])
  {
    OnesBelowBit(b, m, 0);
    OnesBelowBit(b, m, 1);
    OnesBelowBit(b, m, 2);
    OnesBelowBit(b, m, 3);
    OnesBelowBit(b, m, 4);
    OnesBelowBit(b, m, 5);
    OnesBelowBit(b, m, 6);
    OnesBelowBit(b, m, 7);
  }

  /** Summing byte by byte counts the indices. */
  method OnesCount(b: Bytes) returns (count: nat)
    ensures count == |Ones(b)|
  {
    count := 0;
    assert OnesBelow(b, 0) == {};
    for i := 0 to |b|
      invariant count == |OnesBelow(b, 8 * i)|
    {
      OnesBelowByte(b, i);
      count := count + OnesCount8(b[i]);
    }
    assert OnesBelow(b, 8 * |b|) == Ones(b);
  }
}
