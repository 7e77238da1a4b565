/** The non-membership accumulator: a sparse Merkle tree with a slot for every 32-byte key. */
module Smt {
  import opened ByteStrings
  import opened FieldHash
  import opened Merkle

  const DEPTH: nat := 256

  // ----- bits ---------------------------------------------------------------

  function Shr(n: nat, k: nat): nat {
    if k == 0 then n else Shr(n / 2, k - 1)
  }

  /** Level 0 is the leaf; the root splits on the most significant bit. */
  function Bit(key: Digest, level: nat): bool
    requires level < DEPTH
  {
    var idx := DEPTH - 1 - level;
    Shr(key[idx / 8], 7 - idx % 8) % 2 == 1
  }

  /** Most significant bit first. */
  function FromBits(bits: seq<bool>): (n: nat)
    ensures n < Pow2(|bits|)
  {
    if bits == [] then 0 else 2 * FromBits(bits[..|bits| - 1]) + if bits[|bits| - 1] then 1 else 0
  }

  function ByteFrom(bits: seq<bool>): byte
    requires |bits| == 8
  {
    assert Pow2(8) == 256 by { Powers(); }
    FromBits(bits)
  }

  function KeyOf(prefix: seq<bool>): Digest
    requires |prefix| == DEPTH
  {
    seq(32, j requires 0 <= j < 32 => ByteFrom(prefix[8 * j..8 * j + 8]))
  }

  /** The first `n` bits from the root down. */
  function PrefixOf(key: Digest, n: nat): (p: seq<bool>)
    requires n <= DEPTH
    ensures |p| == n
  {
    seq(n, i requires 0 <= i < n => Bit(key, DEPTH - 1 - i))
  }

  predicate HasPrefix(key: Digest, prefix: seq<bool>) {
    |prefix| <= DEPTH && forall i :: 0 <= i < |prefix| ==> Bit(key, DEPTH - 1 - i) == prefix[i]
  }

  lemma PrefixIs(key: Digest, prefix: seq<bool>)
    requires HasPrefix(key, prefix)
    ensures prefix == PrefixOf(key, |prefix|)
  {
  }

  lemma Powers()
    ensures Pow2(8) == 256
  {
    assert Pow2(3) == 2 * Pow2(2);
    assert Pow2(5) == 2 * Pow2(4);
    assert Pow2(7) == 2 * Pow2(6);
  }

  /** A number is made of its bits. */
  lemma {:induction false} NumberFromBits(n: nat, bits: seq<bool>)
    requires n < Pow2(|bits|)
    requires forall i :: 0 <= i < |bits| ==> bits[i] == (Shr(n, |bits| - 1 - i) % 2 == 1)
    ensures FromBits(bits) == n
  {
    if bits != [] {
      var front := bits[..|bits| - 1];
      forall i | 0 <= i < |front|
        ensures front[i] == (Shr(n / 2, |front| - 1 - i) % 2 == 1)
      {
        assert front[i] == bits[i];
      }
      NumberFromBits(n / 2, front);
      assert bits[|bits| - 1] == (Shr(n, 0) % 2 == 1);
    }
  }

  lemma {:induction false} BitsOfNumber(bits: seq<bool>, i: nat)
    requires i < |bits|
    ensures (Shr(FromBits(bits), |bits| - 1 - i) % 2 == 1) == bits[i]
  {
    var front := bits[..|bits| - 1];
    assert FromBits(bits) / 2 == FromBits(front);
    if i < |front| {
      BitsOfNumber(front, i);
    }
  }

  lemma BitPosition(key: Digest, j: nat, i: nat)
    requires j < 32 && i < 8
    ensures Bit(key, DEPTH - 1 - (8 * j + i)) == (Shr(key[j], 7 - i) % 2 == 1)
  {
    assert (8 * j + i) / 8 == j && (8 * j + i) % 8 == i;
  }

  /** All 256 bits determine the key. */
  lemma KeyFromBits(key: Digest)
    ensures KeyOf(PrefixOf(key, DEPTH)) == key
  {
    var p := PrefixOf(key, DEPTH);
    forall j | 0 <= j < 32
      ensures KeyOf(p)[j] == key[j]
    {
      var bits := p[8 * j..8 * j + 8];
      forall i | 0 <= i < 8
        ensures bits[i] == (Shr(key[j], 7 - i) % 2 == 1)
      {
        BitPosition(key, j, i);
        assert bits[i] == p[8 * j + i];
      }
      Powers();
      NumberFromBits(key[j], bits);
    }
  }

  // ----- the full tree ------------------------------------------------------

  /** What sits in the slot a full prefix names. */
  function Slot(perm: Permutation, keys: set<Digest>, prefix: seq<bool>): Field
    requires |prefix| == DEPTH
  {
    if KeyOf(prefix) in keys then HashLeaf(perm, KeyOf(prefix)) else 0
  }

  /** The node covering a prefix in the complete tree of 2^256 slots. */
  function FullTree(perm: Permutation, keys: set<Digest>, level: nat, prefix: seq<bool>): Field
    requires level + |prefix| == DEPTH
    decreases DEPTH - |prefix|
  {
    if level == 0 then Slot(perm, keys, prefix)
    else HashNode(perm, FullTree(perm, keys, level - 1, prefix + [false]),
                  FullTree(perm, keys, level - 1, prefix + [true]))
  }

  /** The root of the complete tree: the node of the empty prefix, at height 256. */
  function TreeRoot(perm: Permutation, keys: set<Digest>): Field {
    var prefix := PrefixOf(Zeros(32), 0);
    FullTree(perm, keys, DEPTH - |prefix|, prefix)
  }

  lemma {:induction false} EmptySubtree(perm: Permutation, keys: set<Digest>, empties: seq<Field>, level: nat,
                                        prefix: seq<bool>)
    requires level + |prefix| == DEPTH && EmptiesRight(perm, empties, DEPTH)
    requires forall k :: k in keys ==> !HasPrefix(k, prefix)
    ensures FullTree(perm, keys, level, prefix) == empties[level]
    decreases level
  {
    hide HashNode, HashLeaf, Bit, KeyOf, EmptyLeaf;
    if level == 0 {
      if KeyOf(prefix) in keys {
        BitsOfKey(prefix);
      }
    } else {
      forall k, b | k in keys
        ensures !HasPrefix(k, prefix + [b])
      {
        if HasPrefix(k, prefix + [b]) {
          LongerPrefix(k, prefix, b);
        }
      }
      EmptySubtree(perm, keys, empties, level - 1, prefix + [false]);
      EmptySubtree(perm, keys, empties, level - 1, prefix + [true]);
    }
  }

  lemma LongerPrefix(k: Digest, prefix: seq<bool>, b: bool)
    requires HasPrefix(k, prefix + [b])
    ensures HasPrefix(k, prefix)
  {
    hide Bit;
    assert forall i :: 0 <= i < |prefix| ==> (prefix + [b])[i] == prefix[i];
  }

  lemma BitsOfKey(prefix: seq<bool>)
    requires |prefix| == DEPTH
    ensures HasPrefix(KeyOf(prefix), prefix)
  {
    hide Shr, FromBits, Bit;
    var key := KeyOf(prefix);
    forall i | 0 <= i < DEPTH
      ensures Bit(key, DEPTH - 1 - i) == prefix[i]
    {
      var j, k := i / 8, i % 8;
      var bits := prefix[8 * j..8 * j + 8];
      assert key[j] == FromBits(bits);
      BitPosition(key, j, k);
      BitsOfNumber(bits, k);
      assert bits[k] == prefix[i];
    }
  }
}
