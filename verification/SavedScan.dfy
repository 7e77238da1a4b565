/** A scan saved to a file, and the accumulators rebuilt from one. The values, not their rendering. */
module SavedScan {
  import opened ByteStrings
  import opened Primitives
  import opened FieldHash
  import opened Canonical
  import opened Merkle
  import opened Roots
  import opened RootsBuild
  import MerkleBinding
  import Smt
  import SmtProofs

  datatype RootsFile = RootsFile(
    depth: nat,
    tip: Option<Digest>,
    escrows: map<Digest, Bytes>,
    complete: bool,
    anchoredRoot: Option<Field>,
    defaultsRoot: Field,
    anchoredLeaves: seq<Bytes>,
    defaulted: seq<Digest>)

  /** Everything a resumed scan carries forward. */
  function PriorOf(f: RootsFile): Prior {
    Prior(f.anchoredLeaves, f.defaulted, f.escrows)
  }

  /** The root a fixed-depth tree over these leaves has, from its definition. */
  function RootOver(perm: Permutation, leaves: seq<Field>, depth: nat): Option<Field>
    requires |leaves| <= Pow2(depth)
  {
    if depth == 0 && leaves == [] then None
    else Some(FullRoot(perm, Padded(leaves, EmptyLeaf(perm), Pow2(depth)), depth))
  }

  function KeySet(keys: seq<Digest>): set<Digest> {
    set k | k in keys
  }

  /** A file is sound when its leaves fit and its recorded roots are the ones its lists hash to. */
  predicate Sound(perm: Permutation, o: Orders, f: RootsFile) {
    && |f.anchoredLeaves| <= Pow2(f.depth)
    && |SortedLeaves(perm, o.field, f.anchoredLeaves)| <= Pow2(f.depth)
    && f.anchoredRoot == RootOver(perm, SortedLeaves(perm, o.field, f.anchoredLeaves), f.depth)
    && f.defaultsRoot == Smt.TreeRoot(perm, KeySet(f.defaulted))
  }

  /** Distinct hashes never outnumber the leaves. */
  lemma HashesFit(perm: Permutation, key: Field -> int, leaves: seq<Bytes>)
    ensures |SortedLeaves(perm, key, leaves)| <= |leaves|
  {
  }

  /** Save a scan. Nothing a resumed scan needs is lost, and the file is sound whenever its leaves fit. */
  method FromScan(prims: Primitives, o: Orders, s: Accumulators, depth: nat, ghost reach: Reach, ghost txs: seq<Tx>,
                  ghost prior: Prior) returns (f: RootsFile)
    requires OrdersOk(o) && ScanHolds(prims, o, reach, txs, depth, prior, s)
    ensures PriorOf(f) == s.carried && f.depth == depth && f.tip == Some(s.end) && f.complete == s.reachedTip
    ensures f.anchoredRoot == Root(s.anchored) && f.defaultsRoot == s.defaults.Root()
    ensures Sound(prims.perm, o, f) <==> |s.carried.leaves| <= Pow2(depth)
  {
    hide HashNode, HashLeaf, Smt.TreeRoot, SortDedup, RawLeaves, Slashes, Resolve, Payloads, KeepEscrows, LeafHashes;
    var leaves := SortDedup(o.bytes, s.carried.leaves);
    SortedStays(o, prior.leaves + RawLeaves(reach.accepted, txs));
    FixedRootIsPaddedRoot(prims.perm, s.anchored, SortedLeaves(prims.perm, o.field, s.carried.leaves), depth);
    f := RootsFile(depth, Some(s.end), s.carried.escrows, s.reachedTip, Root(s.anchored), s.defaults.Root(),
                   leaves, s.carried.defaulted);
  }

  lemma SortedStays(o: Orders, leaves: seq<Bytes>)
    requires OrdersOk(o)
    ensures SortDedup(o.bytes, SortDedup(o.bytes, leaves)) == SortDedup(o.bytes, leaves)
  {
    SortDedupCanonical(o.bytes, SortDedup(o.bytes, leaves), leaves);
  }

  datatype LoadError = TooManyLeaves | AnchoredRootDiffers | DefaultsRootDiffers

  /** Rebuild both accumulators and check they still hash to what was saved: this succeeds exactly on
      sound files, and then the trees stand over the file's own lists. */
  method Trees(perm: Permutation, o: Orders, f: RootsFile)
    returns (r: Result<(MerkleTree, SmtProofs.SparseMerkleTree), LoadError>)
    ensures r.Ok? <==> Sound(perm, o, f)
    ensures r == Err(TooManyLeaves) <==> |f.anchoredLeaves| > Pow2(f.depth)
    ensures r.Ok? ==>
      && IsFixed(perm, r.value.0, SortedLeaves(perm, o.field, f.anchoredLeaves), f.depth)
      && Root(r.value.0) == f.anchoredRoot
      && r.value.1.Valid() && r.value.1.perm == perm && r.value.1.entries.Keys == KeySet(f.defaulted)
      && r.value.1.Root() == f.defaultsRoot
  {
    hide HashNode, HashLeaf, Smt.TreeRoot, SortDedup, FullRoot, LeafHashes;
    if |f.anchoredLeaves| > Pow2(f.depth) {
      return Err(TooManyLeaves);
    }
    HashesFit(perm, o.field, f.anchoredLeaves);
    var anchored := BuildFixedDepth(perm, o.field, f.anchoredLeaves, f.depth);
    FixedRootIsPaddedRoot(perm, anchored.value, SortedLeaves(perm, o.field, f.anchoredLeaves), f.depth);
    var defaults := new SmtProofs.SparseMerkleTree(perm);
    defaults.InsertAll(f.defaulted);
    assert defaults.entries.Keys == KeySet(f.defaulted);
    if Root(anchored.value) != f.anchoredRoot {
      return Err(AnchoredRootDiffers);
    }
    if defaults.Root() != f.defaultsRoot {
      return Err(DefaultsRootDiffers);
    }
    r := Ok((anchored.value, defaults));
  }

  /** The recorded roots commit to the lists: two sound files of one depth with the same roots hold the
      same leaves and the same defaults, or a break of the hash is computed. */
  method SameRootsSameSets(perm: Permutation, o: Orders, f: RootsFile, g: RootsFile) returns (br: Option<Break>)
    requires Sound(perm, o, f) && Sound(perm, o, g) && f.depth == g.depth
    requires f.anchoredRoot == g.anchoredRoot && f.defaultsRoot == g.defaultsRoot
    requires MerkleBinding.Slices(f.anchoredLeaves) && MerkleBinding.Slices(g.anchoredLeaves)
    ensures br.Some? ==> Genuine(perm, br.value)
    ensures br.None? ==> MerkleBinding.SameValues(f.anchoredLeaves, g.anchoredLeaves)
    ensures br.None? ==> KeySet(f.defaulted) == KeySet(g.defaulted)
  {
    hide HashNode, HashLeaf, Genuine, Smt.TreeRoot, SortDedup, FullRoot, LeafHashes, MerkleBinding.SameValues;
    var s := BuildFixedDepth(perm, o.field, f.anchoredLeaves, f.depth);
    var t := BuildFixedDepth(perm, o.field, g.anchoredLeaves, g.depth);
    FixedRootIsPaddedRoot(perm, s.value, SortedLeaves(perm, o.field, f.anchoredLeaves), f.depth);
    FixedRootIsPaddedRoot(perm, t.value, SortedLeaves(perm, o.field, g.anchoredLeaves), g.depth);
    br := MerkleBinding.FixedBinding(perm, o.field, s.value, t.value, f.anchoredLeaves, g.anchoredLeaves, f.depth);
    if br.None? && KeySet(f.defaulted) != KeySet(g.defaulted) {
      var b := SmtProofs.SetBinding(perm, KeySet(f.defaulted), KeySet(g.defaulted));
      br := Some(b);
    }
  }
}
