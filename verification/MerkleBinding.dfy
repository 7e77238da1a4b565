/** The root commits to the set: equal roots come from equal sets of values, in either build mode,
    or a break of the hash is computed from the two trees. */
module MerkleBinding {
  import opened ByteStrings
  import opened FieldHash
  import opened Canonical
  import opened Merkle
  import opened MerkleProofs

  /** Where two equally long sequences first part. */
  function FirstDiff(a: seq<Field>, b: seq<Field>): (i: nat)
    requires |a| == |b| && a != b
    ensures i < |a| && a[i] != b[i]
  {
    if a[0] != b[0] then 0
    else
      assert a == [a[0]] + a[1..] && b == [b[0]] + b[1..];
      1 + FirstDiff(a[1..], b[1..])
  }

  // ----- fixed depth --------------------------------------------------------

  /** Different levels with one parent level hold a colliding pair. */
  function UpCollision(perm: Permutation, a: seq<Field>, b: seq<Field>): (br: Break)
    requires |a| == |b| && |a| % 2 == 0 && a != b && Up(perm, a) == Up(perm, b)
    ensures Genuine(perm, br)
  {
    hide HashNode, Genuine;
    var i := FirstDiff(a, b) / 2;
    assert Up(perm, a)[i] == HashNode(perm, a[2 * i], a[2 * i + 1]);
    assert Up(perm, b)[i] == HashNode(perm, b[2 * i], b[2 * i + 1]);
    NodeCollision(perm, a[2 * i], a[2 * i + 1], b[2 * i], b[2 * i + 1])
  }

  function SlotsDiffer(perm: Permutation, a: seq<Field>, b: seq<Field>, depth: nat): (r: Option<Break>)
    requires |a| == |b| == Pow2(depth) && FullRoot(perm, a, depth) == FullRoot(perm, b, depth)
    ensures r.Some? ==> Genuine(perm, r.value)
    ensures r.None? ==> a == b
    decreases depth
  {
    hide HashNode, Genuine, Up;
    if depth == 0 then
      assert a == [a[0]] && b == [b[0]];
      None
    else match SlotsDiffer(perm, Up(perm, a), Up(perm, b), depth - 1)
      case Some(br) => Some(br)
      case None => if a == b then None else Some(UpCollision(perm, a, b))
  }

  /** Every value of the first list is in the second, or a break. */
  function AllOwned(perm: Permutation, a: seq<Bytes>, b: seq<Bytes>): (r: Option<Break>)
    requires forall x :: x in LeafHashes(perm, a) ==> x in LeafHashes(perm, b)
    requires forall i :: 0 <= i < |a| ==> |a[i]| < TWO64
    requires forall i :: 0 <= i < |b| ==> |b[i]| < TWO64
    ensures r.Some? ==> Genuine(perm, r.value)
    ensures r.None? ==> forall v :: v in a ==> v in b
    decreases |a|
  {
    hide HashLeaf, Genuine;
    if a == [] then None
    else
      assert LeafHashes(perm, a)[0] == HashLeaf(perm, a[0]);
      match OwnerOf(perm, b, a[0])
      case Some(br) => Some(br)
      case None =>
        assert forall x :: x in LeafHashes(perm, a[1..]) ==> x in LeafHashes(perm, b) by { TailHashes(perm, a); }
        AllOwned(perm, a[1..], b)
  }

  lemma TailHashes(perm: Permutation, a: seq<Bytes>)
    requires a != []
    ensures forall x :: x in LeafHashes(perm, a[1..]) ==> x in LeafHashes(perm, a)
  {
    hide HashLeaf;
    forall x | x in LeafHashes(perm, a[1..])
      ensures x in LeafHashes(perm, a)
    {
      var i :| 0 <= i < |a| - 1 && LeafHashes(perm, a[1..])[i] == x;
      assert LeafHashes(perm, a)[i + 1] == x;
    }
  }

  predicate Slices(values: seq<Bytes>) {
    forall i :: 0 <= i < |values| ==> |values[i]| < TWO64
  }

  ghost predicate SameValues(a: seq<Bytes>, b: seq<Bytes>) {
    forall v :: v in a <==> v in b
  }

  /** Equal leaf hashes, equal sets. */
  function SameLeaves(perm: Permutation, key: Field -> int, a: seq<Bytes>, b: seq<Bytes>): (r: Option<Break>)
    requires Slices(a) && Slices(b) && SortedLeaves(perm, key, a) == SortedLeaves(perm, key, b)
    ensures r.Some? ==> Genuine(perm, r.value)
    ensures r.None? ==> SameValues(a, b)
  {
    hide HashLeaf, Genuine;
    assert forall x :: x in LeafHashes(perm, a) <==> x in SortedLeaves(perm, key, a);
    assert forall x :: x in LeafHashes(perm, b) <==> x in SortedLeaves(perm, key, b);
    match AllOwned(perm, a, b)
    case Some(br) => Some(br)
    case None => AllOwned(perm, b, a)
  }

  lemma PaddingRemoved(a: seq<Field>, b: seq<Field>, size: nat)
    requires |a| <= size && |b| <= size && Padded(a, 0, size) == Padded(b, 0, size)
    requires 0 !in a && 0 !in b
    ensures a == b
  {
    var p, q := Padded(a, 0, size), Padded(b, 0, size);
    assert forall i :: 0 <= i < size ==> (p[i] == 0 <==> i >= |a|);
    assert forall i :: 0 <= i < size ==> (q[i] == 0 <==> i >= |b|);
    assert |a| < size ==> p[|a|] == q[|a|];
    assert |b| < size ==> p[|b|] == q[|b|];
    assert p[..|a|] == a && q[..|b|] == b;
  }

  /** A zero among the leaf hashes is a preimage of the empty value. */
  function ZeroAmong(perm: Permutation, key: Field -> int, values: seq<Bytes>): (r: Option<Break>)
    ensures r.Some? ==> Genuine(perm, r.value)
    ensures r.None? ==> 0 !in SortedLeaves(perm, key, values)
  {
    hide HashLeaf, Genuine;
    match IndexOf(LeafHashes(perm, values), 0)
    case Some(i) => Some(ZeroLeaf(perm, values[i]))
    case None => None
  }

  /** Two fixed-depth trees of one depth with one root stand over the same set. */
  function FixedBinding(perm: Permutation, key: Field -> int, s: MerkleTree, t: MerkleTree,
                        a: seq<Bytes>, b: seq<Bytes>, depth: nat): (r: Option<Break>)
    requires IsFixed(perm, s, SortedLeaves(perm, key, a), depth) && IsFixed(perm, t, SortedLeaves(perm, key, b), depth)
    requires Slices(a) && Slices(b) && Root(s) == Root(t)
    ensures r.Some? ==> Genuine(perm, r.value)
    ensures r.None? ==> SameValues(a, b)
  {
    hide HashLeaf, HashNode, Genuine, FullRoot, NextLevel, LeafHashes, SortDedup;
    var la, lb := SortedLeaves(perm, key, a), SortedLeaves(perm, key, b);
    FixedRootIsPaddedRoot(perm, s, la, depth);
    FixedRootIsPaddedRoot(perm, t, lb, depth);
    match (ZeroAmong(perm, key, a), ZeroAmong(perm, key, b))
    case (Some(br), _) => Some(br)
    case (_, Some(br)) => Some(br)
    case (None, None) =>
      if Root(s).None? then SameLeaves(perm, key, a, b)
      else
        var pa, pb := Padded(la, 0, Pow2(depth)), Padded(lb, 0, Pow2(depth));
        match SlotsDiffer(perm, pa, pb, depth)
        case Some(br) => Some(br)
        case None =>
          PaddingRemoved(la, lb, Pow2(depth));
          SameLeaves(perm, key, a, b)
  }

  // ----- minimal depth ------------------------------------------------------

  ghost predicate NoRepeats(s: seq<Field>) {
    forall i, j :: 0 <= i < j < |s| ==> s[i] != s[j]
  }

  /** De-duplicated leaves keep every level above free of repeats: a repeat is a collision. This is what
      makes pairing an odd node with itself safe. */
  function RepeatBreaks(perm: Permutation, t: MerkleTree, k: nat, i: nat, j: nat): (br: Break)
    requires IsMinimal(perm, t, t.leaves) && NoRepeats(t.leaves)
    requires k < |t.levels| && i < j < |t.levels[k]| && t.levels[k][i] == t.levels[k][j]
    ensures Genuine(perm, br)
    decreases k
  {
    hide HashNode, Genuine;
    assert k > 0;
    var below := t.levels[k - 1];
    assert t.levels[k - 1 + 1] == NextLevel(perm, below, None);
    var l1, r1 := below[2 * i], Partner(below, None, i);
    var l2, r2 := below[2 * j], Partner(below, None, j);
    if l1 != l2 || r1 != r2 then NodeCollision(perm, l1, r1, l2, r2)
    else RepeatBreaks(perm, t, k - 1, 2 * i, 2 * j)
  }

  /** Two levels with one parent level are the same level, or break the hash. */
  function LevelsDiffer(perm: Permutation, s: MerkleTree, j: nat, t: MerkleTree, k: nat): (r: Option<Break>)
    requires IsMinimal(perm, s, s.leaves) && NoRepeats(s.leaves)
    requires IsMinimal(perm, t, t.leaves) && NoRepeats(t.leaves)
    requires j + 1 < |s.levels| && k + 1 < |t.levels| && s.levels[j + 1] == t.levels[k + 1]
    ensures r.Some? ==> Genuine(perm, r.value)
    ensures r.None? ==> s.levels[j] == t.levels[k]
  {
    hide HashNode, Genuine;
    var a, b := s.levels[j], t.levels[k];
    assert NextLevel(perm, a, None) == NextLevel(perm, b, None);
    var last := (|a| + 1) / 2 - 1;
    assert NextLevel(perm, a, None)[last] == NextLevel(perm, b, None)[last];
    if |a| == |b| then
      if a == b then None
      else
        var i := FirstDiff(a, b) / 2;
        assert NextLevel(perm, a, None)[i] == NextLevel(perm, b, None)[i];
        Some(NodeCollision(perm, a[2 * i], Partner(a, None, i), b[2 * i], Partner(b, None, i)))
    else if a[2 * last] != b[2 * last] || Partner(a, None, last) != Partner(b, None, last) then
      Some(NodeCollision(perm, a[2 * last], Partner(a, None, last), b[2 * last], Partner(b, None, last)))
    else if |a| < |b| then Some(RepeatBreaks(perm, t, k, 2 * last, 2 * last + 1))
    else Some(RepeatBreaks(perm, s, j, 2 * last, 2 * last + 1))
  }

  /** `d` steps below equal roots the levels still agree. */
  function DescendBoth(perm: Permutation, s: MerkleTree, t: MerkleTree, d: nat): (r: Option<Break>)
    requires IsMinimal(perm, s, s.leaves) && NoRepeats(s.leaves)
    requires IsMinimal(perm, t, t.leaves) && NoRepeats(t.leaves)
    requires Root(s).Some? && Root(s) == Root(t) && d < |s.levels| && d < |t.levels|
    ensures r.Some? ==> Genuine(perm, r.value)
    ensures r.None? ==> s.levels[|s.levels| - 1 - d] == t.levels[|t.levels| - 1 - d]
    decreases d
  {
    hide HashNode, Genuine;
    if d == 0 then
      assert s.levels[|s.levels| - 1] == [Root(s).value] && t.levels[|t.levels| - 1] == [Root(t).value];
      None
    else match DescendBoth(perm, s, t, d - 1)
      case Some(br) => Some(br)
      case None => LevelsDiffer(perm, s, |s.levels| - 1 - d, t, |t.levels| - 1 - d)
  }

  lemma SortedNoRepeats(perm: Permutation, key: Field -> int, values: seq<Bytes>)
    requires Injective(key)
    ensures NoRepeats(SortedLeaves(perm, key, values))
  {
    hide HashLeaf;
    SortDedupStrict(key, LeafHashes(perm, values));
  }

  /** A leaf of one tree sitting where the other has an inner node. */
  function LeafMeetsNode(perm: Permutation, key: Field -> int, values: seq<Bytes>, t: MerkleTree, k: nat): (br: Break)
    requires IsMinimal(perm, t, t.leaves) && 0 < k < |t.levels|
    requires SortedLeaves(perm, key, values) != [] && t.levels[k] == SortedLeaves(perm, key, values)
    ensures Genuine(perm, br)
  {
    hide HashLeaf, HashNode, Genuine;
    var leaf := t.levels[k][0];
    assert leaf in LeafHashes(perm, values);
    var i := IndexOf(LeafHashes(perm, values), leaf).value;
    assert t.levels[k - 1 + 1] == NextLevel(perm, t.levels[k - 1], None);
    CrossCollision(perm, values[i], t.levels[k - 1][0], Partner(t.levels[k - 1], None, 0))
  }

  lemma TopIsOccupied(perm: Permutation, t: MerkleTree)
    requires IsMinimal(perm, t, t.leaves)
    ensures |t.levels| > 1 ==> |t.levels[|t.levels| - 1]| == 1
  {
    hide HashNode;
    var top := |t.levels| - 1;
    if top > 0 {
      assert t.levels[top - 1 + 1] == NextLevel(perm, t.levels[top - 1], None);
    }
  }

  lemma RootlessIsEmpty(perm: Permutation, t: MerkleTree)
    requires IsMinimal(perm, t, t.leaves) && Root(t).None?
    ensures t.leaves == []
  {
    hide HashNode;
    TopIsOccupied(perm, t);
  }

  predicate MinimalOver(perm: Permutation, key: Field -> int, t: MerkleTree, values: seq<Bytes>) {
    && t.leaves == SortedLeaves(perm, key, values) && t.leaves != []
    && IsMinimal(perm, t, t.leaves) && Slices(values)
  }

  /** Either a break, or the two lists are one set. */
  ghost predicate Decides(perm: Permutation, r: Option<Break>, a: seq<Bytes>, b: seq<Bytes>) {
    match r case Some(br) => Genuine(perm, br) case None => SameValues(a, b)
  }

  lemma MinimalParts(perm: Permutation, key: Field -> int, t: MerkleTree, values: seq<Bytes>)
    requires Injective(key) && MinimalOver(perm, key, t, values)
    ensures IsMinimal(perm, t, t.leaves) && NoRepeats(t.leaves) && t.levels != []
  {
    hide SortedLeaves, NoRepeats, NextLevel;
    SortedNoRepeats(perm, key, values);
  }

  function RootedBinding(perm: Permutation, key: Field -> int, s: MerkleTree, t: MerkleTree,
                         a: seq<Bytes>, b: seq<Bytes>): (r: Option<Break>)
    requires Injective(key) && MinimalOver(perm, key, s, a) && MinimalOver(perm, key, t, b)
    requires Root(s).Some? && Root(s) == Root(t)
    ensures Decides(perm, r, a, b)
  {
    hide HashNode, Genuine, NoRepeats, Injective, IsMinimal, MinimalOver, SameValues, Root;
    MinimalParts(perm, key, s, a);
    MinimalParts(perm, key, t, b);
    var d := if |s.levels| < |t.levels| then |s.levels| - 1 else |t.levels| - 1;
    match DescendBoth(perm, s, t, d)
    case Some(br) => Some(br)
    case None => AtBottom(perm, key, s, t, a, b)
  }

  /** Where the shorter tree ends, its leaves are a level of the other. */
  function AtBottom(perm: Permutation, key: Field -> int, s: MerkleTree, t: MerkleTree,
                    a: seq<Bytes>, b: seq<Bytes>): (r: Option<Break>)
    requires MinimalOver(perm, key, s, a) && MinimalOver(perm, key, t, b)
    requires FromTop(s, |s.levels|) == FromTop(t, |s.levels|) || |t.levels| < |s.levels|
    requires FromTop(s, |t.levels|) == FromTop(t, |t.levels|) || |s.levels| < |t.levels|
    ensures Decides(perm, r, a, b)
  {
    hide HashLeaf, HashNode, Genuine, SameValues, MinimalOver, FromTop;
    var n, m := |s.levels|, |t.levels|;
    if n == m then
      SameBottom(perm, key, s, t, a, b);
      SameLeaves(perm, key, a, b)
    else if n < m then Some(Buried(perm, key, s, t, a, b)) else Some(Buried(perm, key, t, s, b, a))
  }

  lemma SameBottom(perm: Permutation, key: Field -> int, s: MerkleTree, t: MerkleTree, a: seq<Bytes>, b: seq<Bytes>)
    requires MinimalOver(perm, key, s, a) && MinimalOver(perm, key, t, b) && |s.levels| == |t.levels|
    requires FromTop(s, |s.levels|) == FromTop(t, |s.levels|)
    ensures Slices(a) && Slices(b) && SortedLeaves(perm, key, a) == SortedLeaves(perm, key, b)
  {
    hide NextLevel, SortedLeaves, Slices;
  }

  /** The lower tree's leaves are inner nodes of the taller one. */
  function Buried(perm: Permutation, key: Field -> int, low: MerkleTree, tall: MerkleTree,
                  a: seq<Bytes>, b: seq<Bytes>): (br: Break)
    requires MinimalOver(perm, key, low, a) && MinimalOver(perm, key, tall, b) && |low.levels| < |tall.levels|
    requires FromTop(low, |low.levels|) == FromTop(tall, |low.levels|)
    ensures Genuine(perm, br)
  {
    hide HashLeaf, HashNode, Genuine, NextLevel, SortedLeaves, Slices;
    LeafMeetsNode(perm, key, a, tall, |tall.levels| - |low.levels|)
  }

  /** The level `d` below the top, counting the top as one. */
  function FromTop(t: MerkleTree, d: nat): seq<Field> {
    if 0 < d <= |t.levels| then t.levels[|t.levels| - d] else []
  }

  /** Two minimal-depth trees with one root, whatever their sizes, stand over the same set. */
  function MinimalBinding(perm: Permutation, key: Field -> int, s: MerkleTree, t: MerkleTree,
                          a: seq<Bytes>, b: seq<Bytes>): (r: Option<Break>)
    requires Injective(key)
    requires IsMinimal(perm, s, SortedLeaves(perm, key, a)) && IsMinimal(perm, t, SortedLeaves(perm, key, b))
    requires Slices(a) && Slices(b) && Root(s) == Root(t)
    ensures r.Some? ==> Genuine(perm, r.value)
    ensures r.None? ==> SameValues(a, b)
  {
    hide HashLeaf, HashNode, Genuine, NextLevel, SortedLeaves, SameValues, Injective;
    if Root(s).None? then
      RootlessIsEmpty(perm, s);
      RootlessIsEmpty(perm, t);
      SameLeaves(perm, key, a, b)
    else
      LeafyRoot(perm, s);
      LeafyRoot(perm, t);
      RootedBinding(perm, key, s, t, a, b)
  }

  lemma LeafyRoot(perm: Permutation, t: MerkleTree)
    requires IsMinimal(perm, t, t.leaves) && Root(t).Some?
    ensures t.leaves != []
  {
    hide HashNode;
    if |t.levels| > 1 {
      assert |t.levels[0]| > 1;
    }
  }

  // ----- the root as a function of the set ----------------------------------

  /** Order and repetition of the values never reach the leaves, so they never reach the root. */
  lemma LeavesDependOnSet(perm: Permutation, key: Field -> int, a: seq<Bytes>, b: seq<Bytes>)
    requires Injective(key) && SameValues(a, b)
    ensures SortedLeaves(perm, key, a) == SortedLeaves(perm, key, b)
  {
    hide HashLeaf;
    HashesOfSame(perm, a, b);
    HashesOfSame(perm, b, a);
    SortDedupCanonical(key, LeafHashes(perm, a), LeafHashes(perm, b));
  }

  lemma HashesOfSame(perm: Permutation, a: seq<Bytes>, b: seq<Bytes>)
    requires forall v :: v in a ==> v in b
    ensures forall x :: x in LeafHashes(perm, a) ==> x in LeafHashes(perm, b)
  {
    hide HashLeaf;
    forall x | x in LeafHashes(perm, a)
      ensures x in LeafHashes(perm, b)
    {
      var i :| 0 <= i < |a| && LeafHashes(perm, a)[i] == x;
      assert a[i] in b;
      var j :| 0 <= j < |b| && b[j] == a[i];
      assert LeafHashes(perm, b)[j] == x;
    }
  }
}
