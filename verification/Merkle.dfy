/** The membership accumulator: a Merkle tree over sorted, de-duplicated leaf hashes, either padded
    to a fixed depth while hashing only the occupied prefix, or of minimal depth. */
module Merkle {
  import opened ByteStrings
  import opened FieldHash
  import opened Canonical

  datatype MerkleTree = MerkleTree(levels: seq<seq<Field>>, leaves: seq<Field>, empties: seq<Field>)

  datatype MerkleProof = MerkleProof(leafIndex: nat, siblings: seq<Field>)

  function Pow2(n: nat): (p: nat)
    ensures p > 0
  {
    if n == 0 then 1 else 2 * Pow2(n - 1)
  }

  function LeafHashes(perm: Permutation, values: seq<Bytes>): seq<Field> {
    seq(|values|, i requires 0 <= i < |values| => HashLeaf(perm, values[i]))
  }

  function SortedLeaves(perm: Permutation, key: Field -> int, values: seq<Bytes>): seq<Field> {
    SortDedup(key, LeafHashes(perm, values))
  }

  // ----- levels -------------------------------------------------------------

  /** The right child of pair `i`: the next node, or what fills the gap. */
  function Partner(level: seq<Field>, filler: Option<Field>, i: nat): Field
    requires 2 * i < |level|
  {
    if 2 * i + 1 < |level| then level[2 * i + 1]
    else match filler case Some(f) => f case None => level[2 * i]
  }

  function NextLevel(perm: Permutation, level: seq<Field>, filler: Option<Field>): (next: seq<Field>)
    ensures |next| == (|level| + 1) / 2
  {
    seq((|level| + 1) / 2, i requires 0 <= i < (|level| + 1) / 2 =>
      HashNode(perm, level[2 * i], Partner(level, filler, i)))
  }

  /** The fixed-depth step also materialises the root of an empty level. */
  function FixedNext(perm: Permutation, level: seq<Field>, filler: Field): seq<Field> {
    if level == [] then [HashNode(perm, filler, filler)] else NextLevel(perm, level, Some(filler))
  }

  predicate EmptiesRight(perm: Permutation, empties: seq<Field>, depth: nat) {
    && |empties| == depth + 1 && empties[0] == EmptyLeaf(perm)
    && forall k :: 0 <= k < depth ==> empties[k + 1] == HashNode(perm, empties[k], empties[k])
  }

  predicate IsFixed(perm: Permutation, t: MerkleTree, leaves: seq<Field>, depth: nat) {
    && t.leaves == leaves && |leaves| <= Pow2(depth)
    && EmptiesRight(perm, t.empties, depth)
    && |t.levels| == depth + 1 && t.levels[0] == leaves
    && forall k :: 0 <= k < depth ==> t.levels[k + 1] == FixedNext(perm, t.levels[k], t.empties[k])
  }

  predicate IsMinimal(perm: Permutation, t: MerkleTree, leaves: seq<Field>) {
    && t.leaves == leaves && t.empties == []
    && t.levels != [] && t.levels[0] == leaves && |t.levels[|t.levels| - 1]| <= 1
    && forall k :: 0 <= k < |t.levels| - 1 ==>
         |t.levels[k]| > 1 && t.levels[k + 1] == NextLevel(perm, t.levels[k], None)
  }

  function Root(t: MerkleTree): Option<Field> {
    if t.levels == [] || t.levels[|t.levels| - 1] == [] then None else Some(t.levels[|t.levels| - 1][0])
  }

  /** One pass over a level in pairs. */
  method PairUp(perm: Permutation, prev: seq<Field>, filler: Option<Field>) returns (next: seq<Field>)
    ensures next == NextLevel(perm, prev, filler)
  {
    next := [];
    var i := 0;
    while i < |prev|
      invariant 0 <= i <= |prev| + 1 && i % 2 == 0 && |next| == i / 2
      invariant i == |prev| + 1 ==> |prev| % 2 == 1
      invariant forall j :: 0 <= j < |next| ==>
        2 * j < |prev| && next[j] == HashNode(perm, prev[2 * j], Partner(prev, filler, j))
    {
      var right;
      if i + 1 < |prev| {
        right := prev[i + 1];
      } else {
        match filler
        case Some(f) => right := f;
        case None => right := prev[i];
      }
      assert right == Partner(prev, filler, i / 2) && i == 2 * (i / 2);
      next := next + [HashNode(perm, prev[i], right)];
      i := i + 2;
    }
  }

  method HashAll(perm: Permutation, values: seq<Bytes>) returns (leaves: seq<Field>)
    ensures leaves == LeafHashes(perm, values)
  {
    leaves := [];
    for i := 0 to |values|
      invariant leaves == LeafHashes(perm, values)[..i]
    {
      leaves := leaves + [HashLeaf(perm, values[i])];
    }
  }

  /** The hash of an empty subtree at each height, computed once. */
  method BuildEmpties(perm: Permutation, depth: nat) returns (empties: seq<Field>)
    ensures EmptiesRight(perm, empties, depth)
  {
    hide HashNode, EmptyLeaf;
    empties := [EmptyLeaf(perm)];
    for level := 0 to depth
      invariant EmptiesRight(perm, empties, level)
    {
      var below := empties[level];
      empties := empties + [HashNode(perm, below, below)];
    }
  }

  /** `None` where the source asserts that the leaves fit. */
  method BuildFixedDepth(perm: Permutation, key: Field -> int, values: seq<Bytes>, depth: nat)
    returns (t: Option<MerkleTree>)
    ensures t.None? <==> |SortedLeaves(perm, key, values)| > Pow2(depth)
    ensures t.Some? ==> IsFixed(perm, t.value, SortedLeaves(perm, key, values), depth)
  {
    hide HashNode, HashLeaf, EmptyLeaf, SortDedup, NextLevel;
    var leaves := HashAll(perm, values);
    leaves := SortDedup(key, leaves);
    if |leaves| > Pow2(depth) {
      return None;
    }
    var empties := BuildEmpties(perm, depth);
    var levels := [leaves];
    for level := 0 to depth
      invariant |levels| == level + 1 && levels[0] == leaves
      invariant forall k :: 0 <= k < level ==> levels[k + 1] == FixedNext(perm, levels[k], empties[k])
    {
      var next := PairUp(perm, levels[level], Some(empties[level]));
      if next == [] {
        next := [empties[level + 1]];
      }
      assert next == FixedNext(perm, levels[level], empties[level]);
      levels := levels + [next];
    }
    t := Some(MerkleTree(levels, leaves, empties));
  }

  method Build(perm: Permutation, key: Field -> int, values: seq<Bytes>) returns (t: MerkleTree)
    ensures IsMinimal(perm, t, SortedLeaves(perm, key, values))
  {
    hide HashNode, HashLeaf, SortDedup, NextLevel;
    var leaves := HashAll(perm, values);
    leaves := SortDedup(key, leaves);
    if leaves == [] {
      return MerkleTree([[]], leaves, []);
    }
    var levels := [leaves];
    while |levels[|levels| - 1]| > 1
      invariant levels != [] && levels[0] == leaves && levels[|levels| - 1] != []
      invariant forall k :: 0 <= k < |levels| - 1 ==>
        |levels[k]| > 1 && levels[k + 1] == NextLevel(perm, levels[k], None)
      decreases |levels[|levels| - 1]|
    {
      var next := PairUp(perm, levels[|levels| - 1], None);
      levels := levels + [next];
    }
    t := MerkleTree(levels, leaves, []);
  }

  // ----- the padded tree ----------------------------------------------------

  function Repeat(x: Field, n: nat): (r: seq<Field>)
    ensures |r| == n && forall i :: 0 <= i < n ==> r[i] == x
  {
    seq(n, _ => x)
  }

  function Up(perm: Permutation, slots: seq<Field>): (r: seq<Field>)
    requires |slots| % 2 == 0
    ensures |r| == |slots| / 2
  {
    seq(|slots| / 2, i requires 0 <= i < |slots| / 2 => HashNode(perm, slots[2 * i], slots[2 * i + 1]))
  }

  /** The root of a complete tree over 2^depth slots, hashing every one of them. */
  function FullRoot(perm: Permutation, slots: seq<Field>, depth: nat): Field
    requires |slots| == Pow2(depth)
    decreases depth
  {
    if depth == 0 then slots[0] else FullRoot(perm, Up(perm, slots), depth - 1)
  }

  function Padded(level: seq<Field>, filler: Field, size: nat): (r: seq<Field>)
    requires |level| <= size
    ensures |r| == size
  {
    level + Repeat(filler, size - |level|)
  }

  /** Hashing the occupied prefix hashes the whole level: the rest has one known value. */
  lemma PaddedUp(perm: Permutation, level: seq<Field>, filler: Field, depth: nat)
    requires depth > 0 && |level| <= Pow2(depth)
    ensures |FixedNext(perm, level, filler)| <= Pow2(depth - 1)
    ensures Up(perm, Padded(level, filler, Pow2(depth))) ==
            Padded(FixedNext(perm, level, filler), HashNode(perm, filler, filler), Pow2(depth - 1))
  {
    hide HashNode;
    var slots := Padded(level, filler, Pow2(depth));
    var next := FixedNext(perm, level, filler);
    var up, padded := Up(perm, slots), Padded(next, HashNode(perm, filler, filler), Pow2(depth - 1));
    forall i | 0 <= i < |up|
      ensures up[i] == padded[i]
    {
      assert up[i] == HashNode(perm, slots[2 * i], slots[2 * i + 1]);
      if 2 * i < |level| {
        assert slots[2 * i] == level[2 * i] && slots[2 * i + 1] == Partner(level, Some(filler), i);
      }
    }
  }

  /** The fixed-depth root is the root of the fully padded tree. The one exception is a depth-0 tree
      with no leaves, which has no root at all. */
  lemma FixedRootIsPaddedRoot(perm: Permutation, t: MerkleTree, leaves: seq<Field>, depth: nat)
    requires IsFixed(perm, t, leaves, depth)
    ensures Root(t).None? <==> depth == 0 && leaves == []
    ensures Root(t).Some? ==> Root(t).value == FullRoot(perm, Padded(leaves, EmptyLeaf(perm), Pow2(depth)), depth)
  {
    hide HashNode;
    if depth > 0 || leaves != [] {
      PaddedRootFrom(perm, t, leaves, depth, 0);
    }
  }

  lemma {:induction false} PaddedRootFrom(perm: Permutation, t: MerkleTree, leaves: seq<Field>, depth: nat, k: nat)
    requires IsFixed(perm, t, leaves, depth) && k <= depth && (depth > 0 || leaves != [])
    requires |t.levels[k]| <= Pow2(depth - k) && (k == 0 || t.levels[k] != [])
    ensures Root(t) == Some(FullRoot(perm, Padded(t.levels[k], t.empties[k], Pow2(depth - k)), depth - k))
    decreases depth - k
  {
    hide HashNode, EmptyLeaf;
    if k < depth {
      PaddedUp(perm, t.levels[k], t.empties[k], depth - k);
      assert t.levels[k + 1] == FixedNext(perm, t.levels[k], t.empties[k]);
      PaddedRootFrom(perm, t, leaves, depth, k + 1);
    } else {
      assert Pow2(0) == 1;
    }
  }
}
