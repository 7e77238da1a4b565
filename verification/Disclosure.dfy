/** Selective disclosure: what a satisfied circuit establishes, and a prover that always satisfies it. */
module Disclosure {
  import opened ByteStrings
  import opened Primitives
  import opened FieldHash
  import opened Attestation
  import opened AttestationChain
  import opened Merkle
  import opened Circuit
  import Canonical
  import MerkleProofs
  import MerkleBinding
  import Scan
  import Smt
  import SmtProofs

  // ----- soundness ----------------------------------------------------------

  /** A used slot is what it claims to be: an owned success whose leaf is among the values. */
  predicate SlotGenuine(perm: Permutation, values: seq<Bytes>, pseudonym: Digest, body: Bytes, sigs: Bytes)
    requires |body| == BODY_BYTES
  {
    && LeafBytes(body, IdV2(perm, body, sigs)) in values
    && body[OFF_OWNER..OFF_OWNER + 32] == pseudonym
    && IsSuccess(body)
  }

  lemma SlotVerifies(perm: Permutation, x: Inputs, i: nat)
    requires Shaped(x) && Satisfied(perm, x) && i < x.used
    ensures MerkleProofs.Verifies(perm, x.anchoredRoot, LeafBytes(x.bodies[i], IdV2(perm, x.bodies[i], x.sigs[i])),
                                  MerkleProof(x.leafIndices[i], x.leafPaths[i]))
    ensures x.bodies[i][OFF_OWNER..OFF_OWNER + 32] == x.pseudonym && IsSuccess(x.bodies[i])
  {
    hide HashLeaf, IdV2, LeafBytes, MerkleProofs.FoldPath;
    assert SlotHolds(perm, x.anchoredRoot, x.pseudonym, x.bodies[i], x.sigs[i], x.leafPaths[i], x.leafIndices[i]);
  }

  /** A used slot is genuine, or its path breaks the hash. */
  function SlotSound(perm: Permutation, t: MerkleTree, values: seq<Bytes>, x: Inputs, i: nat): (r: Option<Break>)
    requires Shaped(x) && Satisfied(perm, x) && i < x.used <= MAX_SUCCESSES
    requires MerkleProofs.Over(perm, t, values) && Root(t) == Some(x.anchoredRoot)
    ensures r.Some? ==> Genuine(perm, r.value)
    ensures r.None? ==> GenuineAt(perm, values, x, i)
  {
    hide Genuine, IdV2, LeafBytes, MerkleProofs.Verifies, MerkleProofs.Over, Satisfied, IsSuccess, Root;
    SlotVerifies(perm, x, i);
    var leaf := LeafBytes(x.bodies[i], IdV2(perm, x.bodies[i], x.sigs[i]));
    MerkleProofs.Sound(perm, t, values, leaf, MerkleProof(x.leafIndices[i], x.leafPaths[i]))
  }

  predicate GenuineAt(perm: Permutation, values: seq<Bytes>, x: Inputs, k: nat) {
    && k < |x.bodies| && k < |x.sigs| && |x.bodies[k]| == BODY_BYTES
    && SlotGenuine(perm, values, x.pseudonym, x.bodies[k], x.sigs[k])
  }

  /** The first used slot that is not genuine breaks the hash. */
  function SlotsSound(perm: Permutation, t: MerkleTree, values: seq<Bytes>, x: Inputs, i: nat): (r: Option<Break>)
    requires Shaped(x) && Satisfied(perm, x) && i <= x.used <= MAX_SUCCESSES
    requires MerkleProofs.Over(perm, t, values) && Root(t) == Some(x.anchoredRoot)
    ensures r.Some? ==> Genuine(perm, r.value)
    ensures r.None? ==> forall k :: i <= k < x.used ==> GenuineAt(perm, values, x, k)
    decreases x.used - i
  {
    hide Genuine, GenuineAt, SlotGenuine, MerkleProofs.Over, Satisfied, Shaped, Root;
    if i >= x.used then None
    else
      match SlotSound(perm, t, values, x, i)
      case Some(b) => Some(b)
      case None => SlotsSound(perm, t, values, x, i + 1)
  }

  // ----- how many successes are shown ----------------------------------------

  /** A body and its signatures, as one slot carries them. */
  type Slot = (Bytes, Bytes)

  predicate Sized(p: Slot) {
    |p.0| == BODY_BYTES && |p.1| == SIG_BYTES
  }

  /** The used slots, which may repeat one attestation. */
  function Used(x: Inputs): (s: seq<Slot>)
    requires Shaped(x) && x.used <= MAX_SUCCESSES
    ensures |s| == x.used && forall i :: 0 <= i < |s| ==> Sized(s[i])
  {
    seq(x.used, i requires 0 <= i < x.used => (x.bodies[i], x.sigs[i]))
  }

  function Elements<T>(s: seq<T>): set<T> {
    set x | x in s
  }

  predicate Distinct<T(==)>(s: seq<T>) {
    forall i, j :: 0 <= i < j < |s| ==> s[i] != s[j]
  }

  function SlotLeaf(perm: Permutation, p: Slot): Bytes {
    if Sized(p) then LeafBytes(p.0, IdV2(perm, p.0, p.1)) else []
  }

  function SlotLeaves(perm: Permutation, s: seq<Slot>): (leaves: seq<Bytes>)
    ensures |leaves| == |s|
  {
    seq(|s|, i requires 0 <= i < |s| => SlotLeaf(perm, s[i]))
  }

  /** Different attestations behind one leaf have one id, and that is a collision. */
  function SlotClash(perm: Permutation, p: Slot, q: Slot): (br: Break)
    requires Sized(p) && Sized(q) && p != q && SlotLeaf(perm, p) == SlotLeaf(perm, q)
    ensures Genuine(perm, br)
  {
    hide Genuine, HashTaggedBytes;
    SlotBytesDiffer(p, q);
    LeafFixesId(p.0, IdV2(perm, p.0, p.1), q.0, IdV2(perm, q.0, q.1));
    SpongedCollision(perm, p.0 + p.1, q.0 + q.1)
  }

  lemma SlotBytesDiffer(p: Slot, q: Slot)
    requires Sized(p) && Sized(q) && p != q
    ensures p.0 + p.1 != q.0 + q.1
  {
    if p.0 + p.1 == q.0 + q.1 {
      AppendEqual(p.0, p.1, q.0, q.1);
    }
  }

  lemma LeafFixesId(b: Bytes, id: Digest, c: Bytes, other: Digest)
    requires |b| == |c| == BODY_BYTES && LeafBytes(b, id) == LeafBytes(c, other)
    ensures id == other
  {
    AppendEqual(b[OFF_ANCHOR_TXID..OFF_ANCHOR_INDEX + 4], id, c[OFF_ANCHOR_TXID..OFF_ANCHOR_INDEX + 4], other);
  }

  /** The first entry of `s` that shares `p`'s leaf without being `p`. */
  function ClashWith(perm: Permutation, p: Slot, s: seq<Slot>): (r: Option<Break>)
    requires Sized(p) && forall q :: q in s ==> Sized(q)
    ensures r.Some? ==> Genuine(perm, r.value)
    ensures r.None? ==> forall q :: q in s && SlotLeaf(perm, q) == SlotLeaf(perm, p) ==> q == p
  {
    hide Genuine, SlotLeaf, Sized;
    if s == [] then None
    else if s[0] != p && SlotLeaf(perm, s[0]) == SlotLeaf(perm, p) then Some(SlotClash(perm, s[0], p))
    else ClashWith(perm, p, s[1..])
  }

  /** There are as many leaves as attestations, or two attestations collide. */
  function LeavesMatch(perm: Permutation, s: seq<Slot>): (r: Option<Break>)
    requires forall q :: q in s ==> Sized(q)
    ensures r.Some? ==> Genuine(perm, r.value)
    ensures r.None? ==> |Elements(SlotLeaves(perm, s))| == |Elements(s)|
  {
    hide Genuine, SlotLeaf, Sized;
    if s == [] then None
    else
      match ClashWith(perm, s[0], s[1..])
      case Some(b) => Some(b)
      case None => OneMoreLeaf(perm, s); LeavesMatch(perm, s[1..])
  }

  lemma OneMoreLeaf(perm: Permutation, s: seq<Slot>)
    requires s != [] && forall q :: q in s[1..] && SlotLeaf(perm, q) == SlotLeaf(perm, s[0]) ==> q == s[0]
    ensures |Elements(SlotLeaves(perm, s[1..]))| == |Elements(s[1..])| ==>
            |Elements(SlotLeaves(perm, s))| == |Elements(s)|
  {
    hide SlotLeaf, Elements;
    var rest, leaf, leaves := s[1..], SlotLeaf(perm, s[0]), SlotLeaves(perm, s[1..]);
    assert s == [s[0]] + rest && SlotLeaves(perm, s) == [leaf] + leaves;
    CountWithOneMore(s[0], rest);
    CountWithOneMore(leaf, leaves);
    if leaf in leaves {
      var i :| 0 <= i < |leaves| && leaves[i] == leaf;
      assert rest[i] in rest;
    }
    if s[0] in rest {
      var i :| 0 <= i < |rest| && rest[i] == s[0];
      assert leaves[i] == leaf;
    }
  }

  lemma CountWithOneMore<T>(x: T, s: seq<T>)
    ensures |Elements([x] + s)| == |Elements(s)| + if x in s then 0 else 1
  {
    assert Elements([x] + s) == {x} + Elements(s);
  }

  lemma {:induction false} DistinctCount<T>(s: seq<T>)
    requires Distinct(s)
    ensures |Elements(s)| == |s|
  {
    hide Elements;
    if s == [] {
      NoElements<T>();
    } else {
      DistinctCount(s[1..]);
      assert s == [s[0]] + s[1..];
      CountWithOneMore(s[0], s[1..]);
    }
  }

  lemma NoElements<T>()
    ensures |Elements<T>([])| == 0
  {
    assert Elements<T>([]) == {};
  }

  /** The used slots show as many members of the set as they hold different attestations, and so at least the
      claimed minimum when no slot repeats another. */
  predicate ShowsMembers(perm: Permutation, values: seq<Bytes>, x: Inputs) {
    && Shaped(x) && x.used <= MAX_SUCCESSES
    && var leaves := Elements(SlotLeaves(perm, Used(x)));
       && (forall v :: v in leaves ==> v in values)
       && |leaves| == |Elements(Used(x))|
       && (Distinct(Used(x)) ==> |leaves| >= x.minSuccesses)
  }

  lemma MembersShown(perm: Permutation, values: seq<Bytes>, x: Inputs)
    requires Shaped(x) && x.minSuccesses <= x.used <= MAX_SUCCESSES
    requires forall k :: 0 <= k < x.used ==> GenuineAt(perm, values, x, k)
    requires |Elements(SlotLeaves(perm, Used(x)))| == |Elements(Used(x))|
    ensures ShowsMembers(perm, values, x)
  {
    hide IdV2, LeafBytes, IsSuccess;
    var leaves := SlotLeaves(perm, Used(x));
    forall v | v in leaves
      ensures v in values
    {
      var i :| 0 <= i < |leaves| && leaves[i] == v;
      assert GenuineAt(perm, values, x, i);
    }
    if Distinct(Used(x)) {
      DistinctCount(Used(x));
    }
  }

  /** If the constraints hold against roots built from these values and these defaults, the pseudonym has
      not defaulted, every used slot is genuine, and the slots show as many members of the set as they
      hold different attestations; or a break of the hash is computed. */
  function CircuitSound(perm: Permutation, t: MerkleTree, values: seq<Bytes>, defaults: set<Digest>, x: Inputs):
      (r: Option<Break>)
    requires Shaped(x) && Satisfied(perm, x)
    requires MerkleProofs.Over(perm, t, values) && Root(t) == Some(x.anchoredRoot)
    requires x.defaultsRoot == Smt.TreeRoot(perm, defaults)
    ensures r.Some? ==> Genuine(perm, r.value)
    ensures r.None? ==> x.pseudonym !in defaults
    ensures r.None? ==> forall k :: 0 <= k < x.used ==> GenuineAt(perm, values, x, k)
    ensures r.None? ==> ShowsMembers(perm, values, x)
  {
    hide Genuine, Smt.TreeRoot, MerkleProofs.Over, SlotHolds, GenuineAt, Root, Sized, ShowsMembers;
    assert x.minSuccesses <= x.used <= MAX_SUCCESSES;
    match SmtProofs.AbsenceSound(perm, defaults, SmtProofs.SmtProof(x.pseudonym, x.defaultsPath, None))
    case Some(b) => Some(b)
    case None =>
      match SlotsSound(perm, t, values, x, 0)
      case Some(b) => Some(b)
      case None =>
        match LeavesMatch(perm, Used(x))
        case Some(b) => Some(b)
        case None => MembersShown(perm, values, x); None
  }

  // ----- the claimed minimum -------------------------------------------------

  /** The same claim with its first used slot in every slot, claiming `m`. */
  function Repeated(x: Inputs, m: nat): (y: Inputs)
    requires Shaped(x)
    ensures Shaped(y)
  {
    x.(minSuccesses := m, used := MAX_SUCCESSES,
       bodies := seq(MAX_SUCCESSES, _ => x.bodies[0]), sigs := seq(MAX_SUCCESSES, _ => x.sigs[0]),
       leafPaths := seq(MAX_SUCCESSES, _ => x.leafPaths[0]), leafIndices := seq(MAX_SUCCESSES, _ => x.leafIndices[0]))
  }

  /** One anchored success proves four: repeating its slot satisfies every constraint, under the same roots. */
  lemma RepeatSatisfies(perm: Permutation, x: Inputs, m: nat)
    requires Shaped(x) && Satisfied(perm, x) && x.used >= 1 && m <= MAX_SUCCESSES
    ensures Satisfied(perm, Repeated(x, m)) && |Elements(Used(Repeated(x, m)))| == 1
  {
    hide SlotHolds;
    var y := Repeated(x, m);
    assert SlotHolds(perm, x.anchoredRoot, x.pseudonym, x.bodies[0], x.sigs[0], x.leafPaths[0], x.leafIndices[0]);
    assert Used(y)[0] in Used(y);
    assert Elements(Used(y)) == {(x.bodies[0], x.sigs[0])};
  }

  /** Accepted under these roots, claiming `m`. */
  ghost predicate AcceptedFor(perm: Permutation, anchored: Field, defaults: Field, m: nat, y: Inputs) {
    Shaped(y) && Satisfied(perm, y) && y.anchoredRoot == anchored && y.defaultsRoot == defaults && y.minSuccesses == m
  }

  /** Exactly when the public minimum means what it says. Where some claim with a used slot is accepted, every
      accepted claim of `m` shows `m` different attestations if and only if `m` is 0 or 1, or so large that no
      claim of it is accepted at all. */
  lemma MinimumMeansOne(perm: Permutation, x: Inputs, m: nat)
    requires Shaped(x) && Satisfied(perm, x) && x.used >= 1
    ensures (forall y :: AcceptedFor(perm, x.anchoredRoot, x.defaultsRoot, m, y) ==>
               |Elements(Used(y))| >= m) <==>
            m <= 1 || m > MAX_SUCCESSES
  {
    hide SlotHolds, AbsenceHolds;
    if 1 < m <= MAX_SUCCESSES {
      RepeatSatisfies(perm, x, m);
      assert AcceptedFor(perm, x.anchoredRoot, x.defaultsRoot, m, Repeated(x, m));
    } else {
      forall y | AcceptedFor(perm, x.anchoredRoot, x.defaultsRoot, m, y)
        ensures |Elements(Used(y))| >= m
      {
        if m == 1 {
          assert Used(y)[0] in Elements(Used(y));
        }
      }
    }
  }

  // ----- the prover ---------------------------------------------------------

  function SpentBy(o: Outpoint): Scan.SpentOutpoint {
    Scan.SpentOutpoint(o.txid, o.index)
  }

  /** The leaf an attestation is anchored under. */
  function LeafOf(prims: Primitives, a: Attestation): Bytes {
    Scan.AnchorLeaf(SpentBy(a.body.anchor), Id(prims, a))
  }

  function SigsOf(a: Attestation): Bytes {
    match a.auth case CoSigned(s, t) => s + t case ByCovenant(_) => []
  }

  /** A co-signed v2 success that the scan covers. */
  predicate Usable(prims: Primitives, leaves: seq<Field>, a: Attestation) {
    && a.body.outcome == Success && a.body.v >= 2 && a.auth.CoSigned?
    && HashLeaf(prims.perm, LeafOf(prims, a)) in leaves
  }

  /** The first four usable entries among the first `n`. */
  function Picks(prims: Primitives, leaves: seq<Field>, atts: seq<Attestation>, n: nat): (p: seq<nat>)
    requires n <= |atts|
  {
    if n == 0 then []
    else
      var before := Picks(prims, leaves, atts, n - 1);
      if |before| < MAX_SUCCESSES && Usable(prims, leaves, atts[n - 1]) then before + [n - 1] else before
  }

  /** What Picks picks: at most four usable entries in chain order, and every usable one if fewer than four. */
  lemma {:induction false} PicksAreFirst(prims: Primitives, leaves: seq<Field>, atts: seq<Attestation>, n: nat)
    requires n <= |atts|
    ensures var p := Picks(prims, leaves, atts, n);
      && |p| <= MAX_SUCCESSES
      && (forall i :: 0 <= i < |p| ==> p[i] < n && Usable(prims, leaves, atts[p[i]]))
      && (forall i, j :: 0 <= i < j < |p| ==> p[i] < p[j])
      && (forall k :: 0 <= k < n && Usable(prims, leaves, atts[k]) ==>
            k in p || (|p| == MAX_SUCCESSES && p[MAX_SUCCESSES - 1] < k))
  {
    hide Usable;
    if n > 0 {
      PicksAreFirst(prims, leaves, atts, n - 1);
      var before := Picks(prims, leaves, atts, n - 1);
      if |before| < MAX_SUCCESSES && Usable(prims, leaves, atts[n - 1]) {
        var p := before + [n - 1];
        assert forall k :: k in p <==> k in before || k == n - 1;
      }
    }
  }

  datatype WitnessError =
    | Defaulted
    | WrongDepth(siblings: nat)
    | NothingAnchored
    | TooFew(used: nat, claimed: nat)

  datatype WitnessOut = WitnessOut(inputs: Inputs, used: nat)

  /** Inputs laid out from the picked entries; unused slots repeat the last used one, with index zero. */
  predicate LaidOut(prims: Primitives, atts: seq<Attestation>, picks: seq<nat>, x: Inputs)
  {
    && Shaped(x) && x.used == |picks| && 0 < |picks| <= MAX_SUCCESSES
    && (forall i :: 0 <= i < |picks| ==>
          picks[i] < |atts| && x.bodies[i] == BodyBytes(atts[picks[i]].body) && x.sigs[i] == SigsOf(atts[picks[i]]))
    && forall i :: |picks| <= i < MAX_SUCCESSES ==>
         x.bodies[i] == x.bodies[|picks| - 1] && x.sigs[i] == x.sigs[|picks| - 1]
         && x.leafPaths[i] == x.leafPaths[|picks| - 1] && x.leafIndices[i] == 0
  }

  function Capped(i: nat, used: nat): nat
    requires used > 0
  {
    if i < used then i else used - 1
  }

  function PadTo<T>(v: seq<T>, used: nat): (r: seq<T>)
    requires |v| == used && used > 0
    ensures |r| == MAX_SUCCESSES
    ensures forall i :: 0 <= i < MAX_SUCCESSES ==> r[i] == v[Capped(i, used)]
  {
    seq(MAX_SUCCESSES, i requires 0 <= i < MAX_SUCCESSES => v[Capped(i, used)])
  }

  /** The leaf the circuit rebuilds from a body is the leaf the accumulator holds. */
  lemma SameLeafBytes(prims: Primitives, a: Attestation)
    requires a.body.v >= 2 && a.auth.CoSigned?
    ensures LeafBytes(BodyBytes(a.body), IdV2(prims.perm, BodyBytes(a.body), SigsOf(a))) == LeafOf(prims, a)
  {
    hide BodyBytes, HashTaggedBytes, LeBytes;
    BodyFields(a.body);
    var b := BodyBytes(a.body);
    assert b[OFF_ANCHOR_TXID..OFF_ANCHOR_INDEX + 4] == b[OFF_ANCHOR_TXID..33] + b[OFF_ANCHOR_INDEX..37];
    match a.auth
    case CoSigned(s, t) => assert b + s + t == b + (s + t);
  }

  lemma BodySaysOwnerAndOutcome(b: AttestationBody)
    ensures BodyBytes(b)[OFF_OWNER..OFF_OWNER + 32] == b.owner
    ensures IsSuccess(BodyBytes(b)) <==> b.outcome == Success
  {
    hide BodyBytes;
    BodyFields(b);
    assert BodyBytes(b)[OFF_OUTCOME..103][0] == BodyBytes(b)[OFF_OUTCOME];
  }

  /** A path the tree's own prover returned satisfies the slot's constraints. */
  lemma SlotFromProof(prims: Primitives, t: MerkleTree, owner: Digest, a: Attestation, proof: MerkleProof)
    requires a.body.v >= 2 && a.auth.CoSigned? && a.body.outcome == Success && a.body.owner == owner
    requires proof.leafIndex < ANCHOR_SLOTS && Root(t).Some?
    requires MerkleProofs.Verifies(prims.perm, Root(t).value, LeafOf(prims, a), proof)
    ensures SlotHolds(prims.perm, Root(t).value, owner, BodyBytes(a.body), SigsOf(a), proof.siblings, proof.leafIndex)
  {
    hide BodyBytes, IdV2, LeafBytes, HashLeaf, LeafOf, MerkleProofs.FoldPath;
    SameLeafBytes(prims, a);
    BodySaysOwnerAndOutcome(a.body);
  }

  /** What holds of each entry gathered so far. */
  ghost predicate Gathered(prims: Primitives, t: MerkleTree, atts: seq<Attestation>, picks: seq<nat>,
                           bodies: seq<Bytes>, sigs: seq<Bytes>, paths: seq<seq<Field>>, indices: seq<Field>) {
    && |bodies| == |sigs| == |paths| == |indices| == |picks|
    && forall i :: 0 <= i < |picks| ==>
         && picks[i] < |atts| && Root(t).Some?
         && bodies[i] == BodyBytes(atts[picks[i]].body) && sigs[i] == SigsOf(atts[picks[i]])
         && |paths[i]| == ANCHOR_DEPTH && indices[i] < ANCHOR_SLOTS
         && MerkleProofs.Verifies(prims.perm, Root(t).value, LeafOf(prims, atts[picks[i]]),
                                  MerkleProof(indices[i], paths[i]))
  }

  lemma TreeIsUsable(perm: Permutation, t: MerkleTree, depth: nat)
    requires IsFixed(perm, t, t.leaves, depth)
    ensures t.leaves == [] || MerkleProofs.Linked(perm, t)
    ensures |t.levels| == depth + 1 && |t.leaves| <= Pow2(depth)
  {
    hide HashNode;
    if t.leaves != [] {
      MerkleProofs.FixedIsLinked(perm, t, t.leaves, depth);
    }
  }

  /** Once four entries are picked, the rest of the chain does not matter. */
  lemma {:induction false} PicksFull(prims: Primitives, leaves: seq<Field>, atts: seq<Attestation>, n: nat, m: nat)
    requires n <= m <= |atts| && |Picks(prims, leaves, atts, n)| == MAX_SUCCESSES
    ensures Picks(prims, leaves, atts, m) == Picks(prims, leaves, atts, n)
  {
    hide Usable;
    if n < m {
      PicksFull(prims, leaves, atts, n, m - 1);
    }
  }

  /** Everything gathered for a linked chain satisfies every constraint. */
  lemma GatheredSatisfies(prims: Primitives, t: MerkleTree, owner: Digest, atts: seq<Attestation>,
                          picks: seq<nat>, bodies: seq<Bytes>, sigs: seq<Bytes>, paths: seq<seq<Field>>,
                          indices: seq<Field>, x: Inputs)
    requires Linked(prims, owner, atts)
    requires Gathered(prims, t, atts, picks, bodies, sigs, paths, indices)
    requires forall i :: 0 <= i < |picks| ==> picks[i] < |atts| && Usable(prims, t.leaves, atts[picks[i]])
    requires Shaped(x) && x.used == |picks| && x.minSuccesses <= x.used <= MAX_SUCCESSES && x.pseudonym == owner
    requires Root(t) == Some(x.anchoredRoot)
    requires forall i :: 0 <= i < x.used ==>
      x.bodies[i] == bodies[i] && x.sigs[i] == sigs[i] && x.leafPaths[i] == paths[i] && x.leafIndices[i] == indices[i]
    requires SmtProofs.VerifiesAbsence(prims.perm, x.defaultsRoot, SmtProofs.SmtProof(owner, x.defaultsPath, None))
    ensures Satisfied(prims.perm, x)
  {
    hide HashLeaf, LeafOf, BodyBytes, MerkleProofs.Verifies, VerifyOne, SlotHolds, SigsOf, Id;
    forall i | 0 <= i < x.used
      ensures SlotHolds(prims.perm, x.anchoredRoot, x.pseudonym, x.bodies[i], x.sigs[i], x.leafPaths[i],
                        x.leafIndices[i])
    {
      assert LinkedAt(prims, owner, atts, picks[i]);
      SlotFromProof(prims, t, owner, atts[picks[i]], MerkleProof(indices[i], paths[i]));
    }
  }

  lemma NothingGathered(prims: Primitives, t: MerkleTree, atts: seq<Attestation>)
    ensures Gathered(prims, t, atts, [], [], [], [], [])
  {
  }

  lemma GatherOne(prims: Primitives, t: MerkleTree, atts: seq<Attestation>, picks: seq<nat>, bodies: seq<Bytes>,
                  sigs: seq<Bytes>, paths: seq<seq<Field>>, indices: seq<Field>, n: nat, proof: MerkleProof)
    requires Gathered(prims, t, atts, picks, bodies, sigs, paths, indices)
    requires n < |atts| && Root(t).Some? && |proof.siblings| == ANCHOR_DEPTH && proof.leafIndex < ANCHOR_SLOTS
    requires MerkleProofs.Verifies(prims.perm, Root(t).value, LeafOf(prims, atts[n]), proof)
    ensures Gathered(prims, t, atts, picks + [n], bodies + [BodyBytes(atts[n].body)], sigs + [SigsOf(atts[n])],
                     paths + [proof.siblings], indices + [proof.leafIndex])
    ensures |bodies| == |picks|
  {
    hide HashLeaf, LeafOf, BodyBytes, MerkleProofs.Verifies, SigsOf;
    assert proof == MerkleProof(proof.leafIndex, proof.siblings);
  }

  lemma GatheredMany(prims: Primitives, t: MerkleTree, atts: seq<Attestation>, picks: seq<nat>, bodies: seq<Bytes>,
                     sigs: seq<Bytes>, paths: seq<seq<Field>>, indices: seq<Field>)
    requires Gathered(prims, t, atts, picks, bodies, sigs, paths, indices)
    ensures |bodies| == |sigs| == |paths| == |indices| == |picks|
    ensures |picks| > 0 ==> Root(t).Some?
  {
    hide MerkleProofs.Verifies, LeafOf, BodyBytes, SigsOf, Root;
    if |picks| > 0 {
      assert picks[0] < |atts| && Root(t).Some?;
    }
  }

  /** Walk the chain for usable entries, taking each one's path. */
  method Gather(prims: Primitives, atts: seq<Attestation>, anchored: MerkleTree, ghost depth: nat)
    returns (wrong: Option<nat>, bodies: seq<Bytes>, sigs: seq<Bytes>, paths: seq<seq<Field>>, indices: seq<Field>)
    requires IsFixed(prims.perm, anchored, anchored.leaves, depth)
    ensures wrong.Some? ==> depth != ANCHOR_DEPTH
    ensures wrong.None? ==>
      Gathered(prims, anchored, atts, Picks(prims, anchored.leaves, atts, |atts|), bodies, sigs, paths, indices)
  {
    hide HashLeaf, LeafOf, BodyBytes, IsFixed, MerkleProofs.Verifies, SigsOf, Gathered;
    TreeIsUsable(prims.perm, anchored, depth);
    SlotsArePower();
    wrong, bodies, sigs, paths, indices := None, [], [], [], [];
    ghost var picks: seq<nat> := [];
    NothingGathered(prims, anchored, atts);
    for n := 0 to |atts|
      invariant wrong.None?
      invariant picks == Picks(prims, anchored.leaves, atts, n) && |picks| == |bodies| <= MAX_SUCCESSES
      invariant Gathered(prims, anchored, atts, picks, bodies, sigs, paths, indices)
    {
      if |bodies| == MAX_SUCCESSES {
        PicksFull(prims, anchored.leaves, atts, n, |atts|);
        break;
      }
      var att := atts[n];
      if att.body.outcome != Success || att.body.v < 2 || att.auth.ByCovenant? {
        continue;
      }
      var leaf := LeafOf(prims, att);
      var proof := MerkleProofs.Prove(prims.perm, anchored, leaf);
      if proof.None? {
        continue;
      }
      if |proof.value.siblings| != ANCHOR_DEPTH {
        wrong := Some(|proof.value.siblings|);
        return;
      }
      assert Usable(prims, anchored.leaves, att);
      GatherOne(prims, anchored, atts, picks, bodies, sigs, paths, indices, n, proof.value);
      bodies := bodies + [BodyBytes(att.body)];
      sigs := sigs + [SigsOf(att)];
      paths := paths + [proof.value.siblings];
      indices := indices + [proof.value.leafIndex];
      picks := picks + [n];
    }
  }

  /** Build the circuit's inputs from a chain against the two accumulators. Success means every constraint
      holds, the used slots are the first usable entries of the chain, and there are enough of them. */
  method Witness(prims: Primitives, chain: Chain, anchored: MerkleTree, defaults: SmtProofs.SparseMerkleTree,
                 minSuccesses: nat, ghost depth: nat) returns (r: Result<WitnessOut, WitnessError>)
    requires defaults.Valid() && defaults.perm == prims.perm
    requires IsFixed(prims.perm, anchored, anchored.leaves, depth)
    ensures r == Err(Defaulted) <==> chain.owner in defaults.entries
    ensures r.Ok? ==> Shaped(r.value.inputs) && minSuccesses <= r.value.used <= MAX_SUCCESSES
    ensures r.Ok? ==> LaidOut(prims, chain.attestations,
                              Picks(prims, anchored.leaves, chain.attestations, |chain.attestations|), r.value.inputs)
    ensures r.Ok? ==>
      && r.value.inputs.used == r.value.used && r.value.inputs.minSuccesses == minSuccesses
      && r.value.inputs.pseudonym == chain.owner
      && Root(anchored) == Some(r.value.inputs.anchoredRoot) && r.value.inputs.defaultsRoot == defaults.Root()
    ensures r.Ok? && Linked(prims, chain.owner, chain.attestations) ==> Satisfied(prims.perm, r.value.inputs)
    ensures r.Ok? && Linked(prims, chain.owner, chain.attestations) && AllFit(chain.attestations) ==>
      forall i, j :: 0 <= i < j < r.value.used ==> r.value.inputs.bodies[i] != r.value.inputs.bodies[j]
    ensures depth == ANCHOR_DEPTH && chain.owner !in defaults.entries ==>
      (r.Ok? <==>
         var n := |Picks(prims, anchored.leaves, chain.attestations, |chain.attestations|)|; n > 0 && n >= minSuccesses)
  {
    hide HashLeaf, LeafOf, BodyBytes, IsFixed, MerkleProofs.Verifies, Smt.TreeRoot, Linked, SigsOf, Satisfied, Picks;
    hide Gathered, LaidOut;
    hide Usable, Shaped, Root, SmtProofs.Verifies;
    var subject := chain.owner;
    var atts := chain.attestations;
    var smtProof := defaults.Prove(subject);
    if smtProof.value.Some? {
      return Err(Defaulted);
    }
    var wrong, bodies, sigs, paths, indices := Gather(prims, atts, anchored, depth);
    if wrong.Some? {
      return Err(WrongDepth(wrong.value));
    }
    ghost var picks := Picks(prims, anchored.leaves, atts, |atts|);
    PicksAreFirst(prims, anchored.leaves, atts, |atts|);
    GatheredMany(prims, anchored, atts, picks, bodies, sigs, paths, indices);
    var used := |bodies|;
    if used == 0 {
      return Err(NothingAnchored);
    }
    if used < minSuccesses {
      return Err(TooFew(used, minSuccesses));
    }
    assert SmtProofs.VerifiesAbsence(prims.perm, defaults.Root(), smtProof);
    AbsencePathLength(prims.perm, defaults.Root(), smtProof);
    var x := Lay(subject, Root(anchored).value, defaults.Root(), minSuccesses, bodies, sigs, paths, indices,
                 smtProof.siblings);
    LayShape(prims, anchored, atts, picks, bodies, sigs, paths, indices, x, smtProof.siblings);
    r := Ok(WitnessOut(x, used));
    if Linked(prims, chain.owner, atts) {
      GatheredSatisfies(prims, anchored, chain.owner, atts, picks, bodies, sigs, paths, indices, x);
    }
    if Linked(prims, chain.owner, atts) && AllFit(atts) {
      SlotsDistinct(prims, chain.owner, anchored, atts, picks, bodies, sigs, paths, indices);
    }
  }

  lemma AbsencePathLength(perm: Permutation, root: Field, proof: SmtProofs.SmtProof)
    requires SmtProofs.Verifies(perm, root, proof)
    ensures |proof.siblings| == Smt.DEPTH
  {
  }

  /** The vectors laid out as circuit inputs, padded to four slots. */
  function Lay(subject: Digest, anchoredRoot: Field, defaultsRoot: Field, minSuccesses: nat, bodies: seq<Bytes>,
               sigs: seq<Bytes>, paths: seq<seq<Field>>, indices: seq<Field>, defaultsPath: seq<Field>): Inputs
    requires 0 < |bodies| == |sigs| == |paths| == |indices|
  {
    var used := |bodies|;
    Inputs(anchoredRoot, defaultsRoot, minSuccesses, subject, PadTo(bodies, used), PadTo(sigs, used),
           PadTo(paths, used),
           seq(MAX_SUCCESSES, i requires 0 <= i < MAX_SUCCESSES => if i < used then indices[i] else 0),
           used, defaultsPath)
  }

  lemma LayShape(prims: Primitives, t: MerkleTree, atts: seq<Attestation>, picks: seq<nat>, bodies: seq<Bytes>,
                 sigs: seq<Bytes>, paths: seq<seq<Field>>, indices: seq<Field>, x: Inputs, defaultsPath: seq<Field>)
    requires Gathered(prims, t, atts, picks, bodies, sigs, paths, indices) && 0 < |picks| <= MAX_SUCCESSES
    requires forall i :: 0 <= i < |picks| ==> picks[i] < |atts| && Usable(prims, t.leaves, atts[picks[i]])
    requires |defaultsPath| == Smt.DEPTH
    requires x == Lay(x.pseudonym, x.anchoredRoot, x.defaultsRoot, x.minSuccesses, bodies, sigs, paths, indices,
                      defaultsPath)
    ensures Shaped(x) && LaidOut(prims, atts, picks, x)
    ensures forall i :: 0 <= i < x.used ==>
      x.bodies[i] == bodies[i] && x.sigs[i] == sigs[i] && x.leafPaths[i] == paths[i] && x.leafIndices[i] == indices[i]
  {
    hide HashLeaf, LeafOf, BodyBytes, MerkleProofs.Verifies;
  }

  /** Entries of a linked chain at different positions have different bodies, so the used slots of a
      witness are pairwise distinct. */
  lemma SlotsDistinct(prims: Primitives, owner: Digest, t: MerkleTree, atts: seq<Attestation>, picks: seq<nat>,
                      bodies: seq<Bytes>, sigs: seq<Bytes>, paths: seq<seq<Field>>, indices: seq<Field>)
    requires Linked(prims, owner, atts) && AllFit(atts)
    requires Gathered(prims, t, atts, picks, bodies, sigs, paths, indices)
    requires forall i, j :: 0 <= i < j < |picks| ==> picks[i] < picks[j]
    ensures forall i, j :: 0 <= i < j < |picks| ==> bodies[i] != bodies[j]
  {
    hide BodyBytes, VerifyOne, MerkleProofs.Verifies, SigsOf, LeafOf;
    forall i, j | 0 <= i < j < |picks|
      ensures bodies[i] != bodies[j]
    {
      assert LinkedAt(prims, owner, atts, picks[i]) && LinkedAt(prims, owner, atts, picks[j]);
      BodyBytesDetermine(atts[picks[i]].body, atts[picks[j]].body);
    }
  }
}
