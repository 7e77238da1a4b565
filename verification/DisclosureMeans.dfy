/** From a satisfied circuit to the chain: what a disclosure says against roots scanned from a node. */
module DisclosureMeans {
  import opened ByteStrings
  import opened Primitives
  import opened FieldHash
  import opened Attestation
  import opened Merkle
  import opened Circuit
  import opened Disclosure
  import opened RootsResume
  import Canonical
  import MerkleProofs
  import Roots
  import Scan
  import Smt

  /** The outpoint a body is anchored to. */
  function AnchorOf(body: Bytes): Scan.SpentOutpoint
    requires |body| == BODY_BYTES
  {
    Scan.SpentOutpoint(body[OFF_ANCHOR_TXID..OFF_ANCHOR_INDEX], LeValue(body[OFF_ANCHOR_INDEX..OFF_ANCHOR_INDEX + 4]))
  }

  lemma LeafIsAnchorLeaf(body: Bytes, id: Digest)
    requires |body| == BODY_BYTES
    ensures LeafBytes(body, id) == Scan.AnchorLeaf(AnchorOf(body), id)
    ensures AnchorOf(body).index < TWO32
  {
    var index := body[OFF_ANCHOR_INDEX..OFF_ANCHOR_INDEX + 4];
    LeInverse(index);
    LeBound(index);
    Pow256Values();
    assert body[OFF_ANCHOR_TXID..OFF_ANCHOR_INDEX + 4] == body[OFF_ANCHOR_TXID..OFF_ANCHOR_INDEX] + index;
  }

  function FreshScan(prims: Primitives, o: Roots.Orders, w: Window): Roots.Prior {
    After(prims, o, w, Roots.Prior([], [], map[]))
  }

  lemma LeavesAreSmall(prims: Primitives, o: Roots.Orders, w: Window)
    ensures forall i :: 0 <= i < |FreshScan(prims, o, w).leaves| ==> |FreshScan(prims, o, w).leaves[i]| < TWO64
  {
    hide Scan.AnchorLeaf, Roots.Slashes, Roots.Resolve, Roots.Payloads, Roots.KeepEscrows, Roots.RawLeaves;
    var leaves := FreshScan(prims, o, w).leaves;
    forall i | 0 <= i < |leaves|
      ensures |leaves[i]| < TWO64
    {
      assert leaves[i] in [] + Roots.RawLeaves(w.accepted, w.txs);
      LeavesFound(w.accepted, w.txs, leaves[i]);
      var tx :| tx in w.txs && leaves[i] in Roots.TxLeaves(w.accepted, tx);
      Scan.RowsContain(Roots.SpentIn(tx.inputs), Scan.Slots(Scan.Scanned(tx.payload)), leaves[i]);
    }
  }

  /** Some accepted transaction of the window spends this outpoint and commits this id. */
  ghost predicate Settled(w: Window, op: Scan.SpentOutpoint, id: Digest) {
    exists tx :: tx in w.txs && Roots.Counts(w.accepted, tx) && Spends(tx, op)
                 && Scan.PayloadCommits(Scan.Scanned(tx.payload), id)
  }

  /** The roots the verifier rebuilt from this window. */
  ghost predicate RootsOf(prims: Primitives, o: Roots.Orders, w: Window, t: MerkleTree, x: Inputs) {
    && IsFixed(prims.perm, t, SortedLeaves(prims.perm, o.field, FreshScan(prims, o, w).leaves), ANCHOR_DEPTH)
    && Root(t) == Some(x.anchoredRoot)
    && x.defaultsRoot == Smt.TreeRoot(prims.perm, (set k | k in FreshScan(prims, o, w).defaulted))
  }

  lemma RootsStandOver(prims: Primitives, o: Roots.Orders, w: Window, t: MerkleTree, x: Inputs)
    requires RootsOf(prims, o, w, t, x)
    ensures MerkleProofs.Over(prims.perm, t, FreshScan(prims, o, w).leaves)
  {
    hide FreshScan, IsFixed, Smt.TreeRoot, SortedLeaves, HashNode, HashLeaf, MerkleProofs.Linked;
    var values := FreshScan(prims, o, w).leaves;
    LeavesAreSmall(prims, o, w);
    MerkleProofs.FixedIsLinked(prims.perm, t, SortedLeaves(prims.perm, o.field, values), ANCHOR_DEPTH);
    TreeLeaves(prims.perm, t, SortedLeaves(prims.perm, o.field, values), ANCHOR_DEPTH);
    MerkleProofs.BuiltOver(prims.perm, o.field, t, values);
  }

  lemma TreeLeaves(perm: Permutation, t: MerkleTree, leaves: seq<Field>, depth: nat)
    requires IsFixed(perm, t, leaves, depth)
    ensures t.leaves == leaves
  {
    hide HashNode;
  }

  /** A leaf of a settlement in this window. */
  ghost predicate SettledLeaf(w: Window, leaf: Bytes) {
    exists op, id :: leaf == Scan.AnchorLeaf(op, id) && Settled(w, op, id)
  }

  /** A proof accepted against roots the verifier scanned says: each used slot is the prover's own success,
      settled by an accepted transaction of the window; there are as many such settlements as the slots hold
      different attestations, so at least the claimed minimum when no slot repeats another; and no slash of the
      window names the prover. Otherwise this computes a break of the hash. */
  function DisclosureBreak(prims: Primitives, o: Roots.Orders, w: Window, t: MerkleTree, x: Inputs): (r: Option<Break>)
    requires Shaped(x) && Satisfied(prims.perm, x) && RootsOf(prims, o, w, t, x)
    requires PayloadsAgree(map[], w.txs) && forall tx :: tx in w.txs ==> Scan.IndicesFit(Roots.SpentIn(tx.inputs))
    ensures r.Some? ==> Genuine(prims.perm, r.value)
    ensures r.None? ==> !SlashNames(prims, w, map[], x.pseudonym)
    ensures r.None? ==> forall k :: 0 <= k < x.used ==>
      && x.bodies[k][OFF_OWNER..OFF_OWNER + 32] == x.pseudonym && IsSuccess(x.bodies[k])
      && Settled(w, AnchorOf(x.bodies[k]), IdV2(prims.perm, x.bodies[k], x.sigs[k]))
    ensures r.None? ==> ShowsMembers(prims.perm, FreshScan(prims, o, w).leaves, x)
    ensures r.None? ==> forall leaf :: leaf in SlotLeaves(prims.perm, Used(x)) ==> SettledLeaf(w, leaf)
  {
    hide ShowsMembers, Used, SlotLeaves, SettledLeaf, Genuine, Satisfied, IsFixed, Smt.TreeRoot, MerkleProofs.Over;
    hide SlashNames, Settled, PayloadsAgree, IdV2, IsSuccess;
    hide Scan.IndicesFit, After, AnchorOf;
    RootsStandOver(prims, o, w, t, x);
    var scanned := FreshScan(prims, o, w);
    match CircuitSound(prims.perm, t, scanned.leaves, (set k | k in scanned.defaulted), x)
    case Some(b) => Some(b)
    case None =>
      DefaultedMeans(prims, o, w, Roots.Prior([], [], map[]), x.pseudonym);
      SlotsSettled(prims, o, w, x);
      LeavesSettled(prims, w, x);
      None
  }

  lemma SlotsSettled(prims: Primitives, o: Roots.Orders, w: Window, x: Inputs)
    requires Shaped(x) && x.used <= MAX_SUCCESSES
    requires forall tx :: tx in w.txs ==> Scan.IndicesFit(Roots.SpentIn(tx.inputs))
    requires forall k :: 0 <= k < x.used ==> GenuineAt(prims.perm, FreshScan(prims, o, w).leaves, x, k)
    ensures forall k :: 0 <= k < x.used ==>
      && x.bodies[k][OFF_OWNER..OFF_OWNER + 32] == x.pseudonym && IsSuccess(x.bodies[k])
      && Settled(w, AnchorOf(x.bodies[k]), IdV2(prims.perm, x.bodies[k], x.sigs[k]))
  {
    hide After, AnchorOf, IdV2, IsSuccess, Scan.AnchorLeaf, LeafBytes, Scan.IndicesFit;
    forall k | 0 <= k < x.used
      ensures x.bodies[k][OFF_OWNER..OFF_OWNER + 32] == x.pseudonym && IsSuccess(x.bodies[k])
      ensures Settled(w, AnchorOf(x.bodies[k]), IdV2(prims.perm, x.bodies[k], x.sigs[k]))
    {
      var id := IdV2(prims.perm, x.bodies[k], x.sigs[k]);
      assert GenuineAt(prims.perm, FreshScan(prims, o, w).leaves, x, k);
      LeafIsAnchorLeaf(x.bodies[k], id);
      ScannedLeafMeans(prims, o, w, AnchorOf(x.bodies[k]), id);
    }
  }

  lemma LeavesSettled(prims: Primitives, w: Window, x: Inputs)
    requires Shaped(x) && x.used <= MAX_SUCCESSES
    requires forall k :: 0 <= k < x.used ==> Settled(w, AnchorOf(x.bodies[k]), IdV2(prims.perm, x.bodies[k], x.sigs[k]))
    ensures forall leaf :: leaf in SlotLeaves(prims.perm, Used(x)) ==> SettledLeaf(w, leaf)
  {
    hide AnchorOf, IdV2, LeafBytes, Scan.AnchorLeaf, Settled;
    var leaves := SlotLeaves(prims.perm, Used(x));
    forall leaf | leaf in leaves
      ensures SettledLeaf(w, leaf)
    {
      var k :| 0 <= k < |leaves| && leaves[k] == leaf;
      LeafIsAnchorLeaf(x.bodies[k], IdV2(prims.perm, x.bodies[k], x.sigs[k]));
    }
  }

  // ----- public inputs ------------------------------------------------------

  /** The 96 bytes the proof is checked against: three field elements, big-endian. */
  function PublicInputs(anchored: Field, defaults: Field, minSuccesses: nat): (b: Bytes)
    ensures |b| == 96
  {
    ToBe32(anchored) + ToBe32(defaults) + ToBe32(FieldOf(minSuccesses))
  }

  /** First the anchored root, then the defaults root, then the count, each read big-endian. */
  lemma PublicInputsRead(anchored: Field, defaults: Field, minSuccesses: nat)
    requires minSuccesses < TWO32
    ensures var b := PublicInputs(anchored, defaults, minSuccesses);
      BeValue(b[..32]) == anchored && BeValue(b[32..64]) == defaults && BeValue(b[64..]) == minSuccesses
  {
    hide BeValue, BeBytes;
    var b := PublicInputs(anchored, defaults, minSuccesses);
    var m := FieldOf(minSuccesses);
    assert b[..32] == ToBe32(anchored) && b[32..64] == ToBe32(defaults) && b[64..] == ToBe32(m);
    Pow256Covers();
    BeRoundTrip(anchored, 32);
    BeRoundTrip(defaults, 32);
    BeRoundTrip(m, 32);
  }

  /** They fix the statement: other roots or another count are other bytes. */
  lemma PublicInputsInjective(a: Field, d: Field, m: nat, b: Field, e: Field, n: nat)
    requires m < TWO32 && n < TWO32
    ensures PublicInputs(a, d, m) == PublicInputs(b, e, n) <==> a == b && d == e && m == n
  {
    hide ToBe32;
    if PublicInputs(a, d, m) == PublicInputs(b, e, n) {
      AppendEqual(ToBe32(a) + ToBe32(d), ToBe32(FieldOf(m)), ToBe32(b) + ToBe32(e), ToBe32(FieldOf(n)));
      AppendEqual(ToBe32(a), ToBe32(d), ToBe32(b), ToBe32(e));
      ToBe32Injective(a, b);
      ToBe32Injective(d, e);
      ToBe32Injective(FieldOf(m), FieldOf(n));
    }
  }
}
