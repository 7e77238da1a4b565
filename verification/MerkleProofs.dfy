/** Merkle paths: every member proves, and whatever proves is a member, or the hash is broken. */
module MerkleProofs {
  import opened ByteStrings
  import opened FieldHash
  import opened Canonical
  import opened Merkle

  // ----- walking a path -----------------------------------------------------

  function Combine(perm: Permutation, node: Field, sibling: Field, index: nat): Field {
    if index % 2 == 0 then HashNode(perm, node, sibling) else HashNode(perm, sibling, node)
  }

  function FoldPath(perm: Permutation, node: Field, index: nat, siblings: seq<Field>): Field
    decreases |siblings|
  {
    if siblings == [] then node
    else FoldPath(perm, Combine(perm, node, siblings[0], index), index / 2, siblings[1..])
  }

  predicate Verifies(perm: Permutation, root: Field, value: Bytes, proof: MerkleProof) {
    FoldPath(perm, HashLeaf(perm, value), proof.leafIndex, proof.siblings) == root
  }

  method Verify(perm: Permutation, root: Field, value: Bytes, proof: MerkleProof) returns (ok: bool)
    ensures ok <==> Verifies(perm, root, value, proof)
  {
    hide HashNode, HashLeaf;
    var node: Field := HashLeaf(perm, value);
    var index: nat := proof.leafIndex;
    for i := 0 to |proof.siblings|
      invariant FoldPath(perm, node, index, proof.siblings[i..]) ==
                FoldPath(perm, HashLeaf(perm, value), proof.leafIndex, proof.siblings)
    {
      var sibling := proof.siblings[i];
      assert proof.siblings[i..][1..] == proof.siblings[i + 1..];
      node := if index % 2 == 0 then HashNode(perm, node, sibling) else HashNode(perm, sibling, node);
      index := index / 2;
    }
    ok := node == root;
  }

  /** The index after `n` halvings. */
  function Shift(index: nat, n: nat): nat {
    if n == 0 then index else Shift(index / 2, n - 1)
  }

  lemma {:induction false} ShiftNext(index: nat, n: nat)
    ensures Shift(index, n + 1) == Shift(index, n) / 2
  {
    if n > 0 {
      ShiftNext(index / 2, n - 1);
    }
  }

  lemma {:induction false} FoldSnoc(perm: Permutation, node: Field, index: nat, siblings: seq<Field>, last: Field)
    ensures FoldPath(perm, node, index, siblings + [last]) ==
            Combine(perm, FoldPath(perm, node, index, siblings), last, Shift(index, |siblings|))
    decreases |siblings|
  {
    hide Combine;
    if siblings == [] {
      assert (siblings + [last])[1..] == [];
    } else {
      FoldSnoc(perm, Combine(perm, node, siblings[0], index), index / 2, siblings[1..], last);
      assert (siblings + [last])[1..] == siblings[1..] + [last];
    }
  }

  lemma {:induction false} FoldSplit(perm: Permutation, node: Field, index: nat, a: seq<Field>, b: seq<Field>)
    ensures FoldPath(perm, node, index, a + b) ==
            FoldPath(perm, FoldPath(perm, node, index, a), Shift(index, |a|), b)
    decreases |a|
  {
    hide Combine;
    if a == [] {
      assert a + b == b;
    } else {
      FoldSplit(perm, Combine(perm, node, a[0], index), index / 2, a[1..], b);
      assert (a + b)[1..] == a[1..] + b;
    }
  }

  // ----- trees of either shape ----------------------------------------------

  /** What fills gaps at height `k`: the empty subtree, or nothing. */
  function FillerAt(t: MerkleTree, k: nat): Option<Field> {
    if k < |t.empties| then Some(t.empties[k]) else None
  }

  /** Each level hashes the one below it in pairs, whichever way its gaps are filled. */
  predicate Linked(perm: Permutation, t: MerkleTree) {
    && t.levels != [] && |t.levels[|t.levels| - 1]| == 1 && t.levels[0] == t.leaves
    && (t.empties == [] || |t.empties| == |t.levels|)
    && (forall k :: 0 <= k < |t.levels| - 1 && t.levels[k] != [] ==>
          t.levels[k + 1] == NextLevel(perm, t.levels[k], FillerAt(t, k)))
    && (forall k :: 0 <= k < |t.levels| - 1 && t.levels[k] == [] ==>
          t.empties != [] && t.levels[k + 1] == [t.empties[k + 1]])
    && (forall k :: 0 <= k < |t.empties| - 1 ==> t.empties[k + 1] == HashNode(perm, t.empties[k], t.empties[k]))
    && (t.empties != [] ==> t.empties[0] == 0)
  }

  lemma {:induction false} FixedLevelsShrink(perm: Permutation, t: MerkleTree, leaves: seq<Field>, depth: nat, k: nat)
    requires IsFixed(perm, t, leaves, depth) && k <= depth
    ensures |t.levels[k]| <= Pow2(depth - k) && (k > 0 ==> t.levels[k] != [])
  {
    hide HashNode, EmptyLeaf;
    if k > 0 {
      FixedLevelsShrink(perm, t, leaves, depth, k - 1);
      assert t.levels[k] == FixedNext(perm, t.levels[k - 1], t.empties[k - 1]);
    }
  }

  lemma FixedIsLinked(perm: Permutation, t: MerkleTree, leaves: seq<Field>, depth: nat)
    requires IsFixed(perm, t, leaves, depth) && (depth > 0 || leaves != [])
    ensures Linked(perm, t) && t.empties != []
  {
    hide HashNode;
    FixedLevelsShrink(perm, t, leaves, depth, depth);
    assert Pow2(0) == 1;
    forall k | 0 <= k < |t.levels| - 1
      ensures t.levels[k] != [] ==> t.levels[k + 1] == NextLevel(perm, t.levels[k], FillerAt(t, k))
      ensures t.levels[k] == [] ==> t.levels[k + 1] == [t.empties[k + 1]]
    {
      assert t.levels[k + 1] == FixedNext(perm, t.levels[k], t.empties[k]);
    }
  }

  lemma MinimalIsLinked(perm: Permutation, t: MerkleTree, leaves: seq<Field>)
    requires IsMinimal(perm, t, leaves) && leaves != []
    ensures Linked(perm, t)
  {
    hide HashNode;
    var top := |t.levels| - 1;
    if top > 0 {
      assert t.levels[top - 1 + 1] == NextLevel(perm, t.levels[top - 1], None);
    }
  }

  // ----- completeness -------------------------------------------------------

  function IndexOf(s: seq<Field>, x: Field): (r: Option<nat>)
    ensures r.Some? ==> r.value < |s| && s[r.value] == x
    ensures r.None? ==> x !in s
  {
    if s == [] then None
    else if s[0] == x then Some(0)
    else match IndexOf(s[1..], x) case Some(i) => Some(i + 1) case None => None
  }

  /** The sibling the prover records is the one its parent was hashed with. */
  lemma ProveStep(perm: Permutation, t: MerkleTree, height: nat, index: nat, sibling: Field)
    requires Linked(perm, t) && height + 1 < |t.levels| && index < |t.levels[height]|
    requires sibling == if index % 2 == 0 then Partner(t.levels[height], FillerAt(t, height), index / 2)
                        else t.levels[height][index - 1]
    ensures index / 2 < |t.levels[height + 1]|
    ensures t.levels[height + 1][index / 2] == Combine(perm, t.levels[height][index], sibling, index)
  {
    hide HashNode, Combine;
    assert t.levels[height + 1] == NextLevel(perm, t.levels[height], FillerAt(t, height));
    ParentOf(perm, t.levels[height], FillerAt(t, height), index, sibling);
  }

  /** Build a path by walking up from the value's leaf. It exists exactly for members, is as long as
      the tree is high, starts at the member's own position, and verifies. */
  method Prove(perm: Permutation, t: MerkleTree, value: Bytes) returns (proof: Option<MerkleProof>)
    requires t.leaves == [] || Linked(perm, t)
    ensures proof.Some? <==> HashLeaf(perm, value) in t.leaves
    ensures proof.Some? ==>
      && |proof.value.siblings| == |t.levels| - 1
      && proof.value.leafIndex < |t.leaves| && t.leaves[proof.value.leafIndex] == HashLeaf(perm, value)
      && Root(t).Some? && Verifies(perm, Root(t).value, value, proof.value)
  {
    hide HashNode, HashLeaf, FoldPath, Combine, NextLevel, Linked;
    var leaf := HashLeaf(perm, value);
    var at := IndexOf(t.leaves, leaf);
    if at.None? {
      return None;
    }
    LinkedEnds(perm, t);
    var index: nat := at.value;
    var siblings: seq<Field> := [];
    FoldNothing(perm, leaf, at.value);
    for height := 0 to |t.levels| - 1
      invariant |siblings| == height && index == Shift(at.value, height)
      invariant index < |t.levels[height]|
      invariant FoldPath(perm, leaf, at.value, siblings) == t.levels[height][index]
    {
      var level := t.levels[height];
      var sibling;
      if index % 2 == 0 {
        if index + 1 < |level| {
          sibling := level[index + 1];
        } else if height < |t.empties| {
          sibling := t.empties[height];
        } else {
          sibling := level[index];
        }
      } else {
        sibling := level[index - 1];
      }
      ProveStep(perm, t, height, index, sibling);
      FoldSnoc(perm, leaf, at.value, siblings, sibling);
      ShiftNext(at.value, height);
      siblings := siblings + [sibling];
      index := index / 2;
    }
    proof := Some(MerkleProof(at.value, siblings));
  }

  lemma LinkedEnds(perm: Permutation, t: MerkleTree)
    requires Linked(perm, t)
    ensures t.levels != [] && t.levels[0] == t.leaves && |t.levels[|t.levels| - 1]| == 1
    ensures Root(t) == Some(t.levels[|t.levels| - 1][0])
  {
  }

  lemma FoldNothing(perm: Permutation, node: Field, index: nat)
    ensures FoldPath(perm, node, index, []) == node
  {
  }

  lemma ParentOf(perm: Permutation, level: seq<Field>, filler: Option<Field>, index: nat, sibling: Field)
    requires index < |level|
    requires sibling == if index % 2 == 0 then Partner(level, filler, index / 2) else level[index - 1]
    ensures index / 2 < |NextLevel(perm, level, filler)|
    ensures NextLevel(perm, level, filler)[index / 2] == Combine(perm, level[index], sibling, index)
  {
    hide HashNode;
    assert NextLevel(perm, level, filler)[index / 2] ==
           HashNode(perm, level[2 * (index / 2)], Partner(level, filler, index / 2));
  }

  // ----- soundness ----------------------------------------------------------

  predicate InLevel(t: MerkleTree, k: nat, node: Field) {
    k < |t.levels| && (node in t.levels[k] || (k < |t.empties| && node == t.empties[k]))
  }

  /** A parent in the tree and a hashed pair: the pair is the parent's children, or they collide. */
  function Descend(perm: Permutation, t: MerkleTree, k: nat, a: Field, b: Field): (r: Option<Break>)
    requires Linked(perm, t) && k + 1 < |t.levels| && InLevel(t, k + 1, HashNode(perm, a, b))
    ensures r.Some? ==> Genuine(perm, r.value)
    ensures r.None? ==> InLevel(t, k, a) && InLevel(t, k, b)
  {
    hide HashNode, Genuine;
    var parent := HashNode(perm, a, b);
    match IndexOf(t.levels[k + 1], parent)
    case Some(i) =>
      if t.levels[k] == [] then
        if a == t.empties[k] && b == t.empties[k] then None
        else Some(NodeCollision(perm, a, b, t.empties[k], t.empties[k]))
      else
        var l, r := t.levels[k][2 * i], Partner(t.levels[k], FillerAt(t, k), i);
        if a == l && b == r then None else Some(NodeCollision(perm, a, b, l, r))
    case None =>
      if a == t.empties[k] && b == t.empties[k] then None
      else Some(NodeCollision(perm, a, b, t.empties[k], t.empties[k]))
  }

  /** A path that reaches the root from height `k` started at a node of the tree, or exhibits a collision. */
  function Walk(perm: Permutation, t: MerkleTree, k: nat, node: Field, index: nat, siblings: seq<Field>):
      (r: Option<Break>)
    requires Linked(perm, t) && k + |siblings| == |t.levels| - 1
    requires FoldPath(perm, node, index, siblings) == Root(t).value
    ensures r.Some? ==> Genuine(perm, r.value)
    ensures r.None? ==> InLevel(t, k, node)
    decreases |siblings|
  {
    hide HashNode, Genuine;
    if siblings == [] then None
    else
      var up := Combine(perm, node, siblings[0], index);
      match Walk(perm, t, k + 1, up, index / 2, siblings[1..])
      case Some(b) => Some(b)
      case None =>
        if index % 2 == 0 then Descend(perm, t, k, node, siblings[0]) else Descend(perm, t, k, siblings[0], node)
  }

  /** The tree stands over these values. */
  predicate Over(perm: Permutation, t: MerkleTree, values: seq<Bytes>) {
    && Linked(perm, t)
    && (forall x :: x in t.leaves ==> x in LeafHashes(perm, values))
    && forall i :: 0 <= i < |values| ==> |values[i]| < TWO64
  }

  lemma BuiltOver(perm: Permutation, key: Field -> int, t: MerkleTree, values: seq<Bytes>)
    requires Linked(perm, t) && t.leaves == SortedLeaves(perm, key, values)
    requires forall i :: 0 <= i < |values| ==> |values[i]| < TWO64
    ensures Over(perm, t, values)
    ensures forall i :: 0 <= i < |values| ==> HashLeaf(perm, values[i]) in t.leaves
  {
    hide HashLeaf, HashNode, SortDedup;
    forall i | 0 <= i < |values|
      ensures HashLeaf(perm, values[i]) in t.leaves
    {
      assert LeafHashes(perm, values)[i] == HashLeaf(perm, values[i]);
    }
  }

  /** A leaf hash among the leaves belongs to a member, or two values share it. */
  function OwnerOf(perm: Permutation, values: seq<Bytes>, value: Bytes): (r: Option<Break>)
    requires HashLeaf(perm, value) in LeafHashes(perm, values)
    requires |value| < TWO64 && forall i :: 0 <= i < |values| ==> |values[i]| < TWO64
    ensures r.Some? ==> Genuine(perm, r.value)
    ensures r.None? ==> value in values
  {
    hide HashLeaf, Genuine;
    match IndexOf(LeafHashes(perm, values), HashLeaf(perm, value))
    case Some(i) => if values[i] == value then None else Some(LeafCollision(perm, value, values[i]))
    case None => None
  }

  /** A node at height above the leaves is an inner hash; a leaf hash found there is a collision. */
  function LeafAbove(perm: Permutation, t: MerkleTree, k: nat, value: Bytes): (b: Break)
    requires Linked(perm, t) && k > 0 && InLevel(t, k, HashLeaf(perm, value))
    ensures Genuine(perm, b)
  {
    hide HashLeaf, HashNode, Genuine;
    match IndexOf(t.levels[k], HashLeaf(perm, value))
    case Some(i) =>
      if t.levels[k - 1] == [] then CrossCollision(perm, value, t.empties[k - 1], t.empties[k - 1])
      else
        assert t.levels[k - 1 + 1] == NextLevel(perm, t.levels[k - 1], FillerAt(t, k - 1));
        CrossCollision(perm, value, t.levels[k - 1][2 * i], Partner(t.levels[k - 1], FillerAt(t, k - 1), i))
    case None => CrossCollision(perm, value, t.empties[k - 1], t.empties[k - 1])
  }

  /** An inner hash passed off as a leaf. */
  function NodeBelow(perm: Permutation, t: MerkleTree, values: seq<Bytes>, l: Field, r: Field): (b: Break)
    requires Over(perm, t, values) && InLevel(t, 0, HashNode(perm, l, r))
    ensures Genuine(perm, b)
  {
    hide HashLeaf, HashNode, Genuine;
    if HashNode(perm, l, r) in t.leaves then
      assert HashNode(perm, l, r) in LeafHashes(perm, values);
      var i := IndexOf(LeafHashes(perm, values), HashNode(perm, l, r)).value;
      CrossCollision(perm, values[i], l, r)
    else ZeroNode(perm, l, r)
  }

  /** The last hash of a non-empty path prefix. */
  function LastPair(perm: Permutation, node: Field, index: nat, siblings: seq<Field>): (p: (Field, Field))
    requires siblings != []
    ensures HashNode(perm, p.0, p.1) == FoldPath(perm, node, index, siblings)
    decreases |siblings|
  {
    hide HashNode;
    if |siblings| == 1 then
      assert siblings[1..] == [];
      if index % 2 == 0 then (node, siblings[0]) else (siblings[0], node)
    else LastPair(perm, Combine(perm, node, siblings[0], index), index / 2, siblings[1..])
  }

  /** A path no longer than the tree is high. */
  function SoundShort(perm: Permutation, t: MerkleTree, values: seq<Bytes>, value: Bytes, proof: MerkleProof):
      (r: Option<Break>)
    requires Over(perm, t, values) && |value| < TWO64 && |proof.siblings| < |t.levels|
    requires Verifies(perm, Root(t).value, value, proof)
    ensures r.Some? ==> Genuine(perm, r.value)
    ensures r.None? ==> value in values
  {
    hide HashLeaf, HashNode, Genuine, NextLevel, Linked, FoldPath, LeafHashes;
    var leaf := HashLeaf(perm, value);
    var start := |t.levels| - 1 - |proof.siblings|;
    match Walk(perm, t, start, leaf, proof.leafIndex, proof.siblings)
    case Some(b) => Some(b)
    case None =>
      if start > 0 then Some(LeafAbove(perm, t, start, value))
      else if leaf in LeafHashes(perm, values) then OwnerOf(perm, values, value)
      else
        assert leaf == 0 by { LeavesAtBottom(perm, t, values, leaf); }
        Some(ZeroLeaf(perm, value))
  }

  lemma LeavesAtBottom(perm: Permutation, t: MerkleTree, values: seq<Bytes>, leaf: Field)
    requires Over(perm, t, values) && InLevel(t, 0, leaf)
    ensures leaf in LeafHashes(perm, values) || leaf == 0
  {
    hide HashNode, NextLevel, LeafHashes;
  }

  /** A longer path: somewhere an inner hash sits where a leaf should. */
  function SoundLong(perm: Permutation, t: MerkleTree, values: seq<Bytes>, leaf: Field, index: nat,
                     below: seq<Field>, above: seq<Field>): (b: Break)
    requires Over(perm, t, values) && below != [] && |above| == |t.levels| - 1
    requires FoldPath(perm, leaf, index, below + above) == Root(t).value
    ensures Genuine(perm, b)
  {
    hide HashLeaf, HashNode, Genuine, NextLevel, Linked, FoldPath, LeafHashes;
    FoldSplit(perm, leaf, index, below, above);
    var pair := LastPair(perm, leaf, index, below);
    match Walk(perm, t, 0, HashNode(perm, pair.0, pair.1), Shift(index, |below|), above)
    case Some(b) => b
    case None => NodeBelow(perm, t, values, pair.0, pair.1)
  }

  /** Soundness, for paths of any length against a tree of either shape: a value that verifies against
      the root is one of the values the tree stands over, or this computes a break of the hash. */
  function Sound(perm: Permutation, t: MerkleTree, values: seq<Bytes>, value: Bytes, proof: MerkleProof):
      (r: Option<Break>)
    requires Over(perm, t, values) && |value| < TWO64
    requires Verifies(perm, Root(t).value, value, proof)
    ensures r.Some? ==> Genuine(perm, r.value)
    ensures r.None? ==> value in values
  {
    hide HashLeaf, HashNode, Genuine, NextLevel, Linked, FoldPath, LeafHashes;
    var top, n := |t.levels| - 1, |proof.siblings|;
    if n <= top then SoundShort(perm, t, values, value, proof)
    else
      assert proof.siblings == proof.siblings[..n - top] + proof.siblings[n - top..];
      Some(SoundLong(perm, t, values, HashLeaf(perm, value), proof.leafIndex,
                     proof.siblings[..n - top], proof.siblings[n - top..]))
  }
}
