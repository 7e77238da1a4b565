/** The sparse tree as it is kept, its proofs, and what they establish. */
module SmtProofs {
  import opened ByteStrings
  import opened FieldHash
  import opened Merkle
  import opened Smt

  /** A path; `value` is what was found in the slot, none when it is empty. */
  datatype SmtProof = SmtProof(key: Digest, siblings: seq<Field>, value: Option<Field>)

  function Toward(perm: Permutation, right: bool, node: Field, sibling: Field): Field {
    if right then HashNode(perm, sibling, node) else HashNode(perm, node, sibling)
  }

  /** Hash from `level` up to the root along a key's bits. */
  function Climb(perm: Permutation, key: Digest, node: Field, level: nat, siblings: seq<Field>): Field
    requires level + |siblings| == DEPTH
    decreases |siblings|
  {
    if siblings == [] then node
    else Climb(perm, key, Toward(perm, Bit(key, level), node, siblings[0]), level + 1, siblings[1..])
  }

  function SlotValue(v: Option<Field>): Field {
    match v case Some(f) => f case None => 0
  }

  predicate Verifies(perm: Permutation, root: Field, proof: SmtProof) {
    |proof.siblings| == DEPTH && Climb(perm, proof.key, SlotValue(proof.value), 0, proof.siblings) == root
  }

  predicate VerifiesAbsence(perm: Permutation, root: Field, proof: SmtProof) {
    proof.value.None? && Verifies(perm, root, proof)
  }

  method Verify(perm: Permutation, root: Field, proof: SmtProof) returns (ok: bool)
    ensures ok <==> Verifies(perm, root, proof)
  {
    hide HashNode, Bit;
    if |proof.siblings| != DEPTH {
      return false;
    }
    var node: Field := SlotValue(proof.value);
    for level := 0 to DEPTH
      invariant Climb(perm, proof.key, node, level, proof.siblings[level..]) ==
                Climb(perm, proof.key, SlotValue(proof.value), 0, proof.siblings)
    {
      var sibling := proof.siblings[level];
      assert proof.siblings[level..][1..] == proof.siblings[level + 1..];
      node := if Bit(proof.key, level) then HashNode(perm, sibling, node) else HashNode(perm, node, sibling);
    }
    ok := node == root;
  }

  /** The node on a key's path at `level`. */
  function OnPath(perm: Permutation, keys: set<Digest>, key: Digest, level: nat): Field
    requires level <= DEPTH
  {
    FullTree(perm, keys, level, PrefixOf(key, DEPTH - level))
  }

  /** The other child of that node's parent. */
  function BesidePath(perm: Permutation, keys: set<Digest>, key: Digest, level: nat): Field
    requires level < DEPTH
  {
    FullTree(perm, keys, level, PrefixOf(key, DEPTH - 1 - level) + [!Bit(key, level)])
  }

  lemma StepUp(perm: Permutation, keys: set<Digest>, key: Digest, level: nat)
    requires level < DEPTH
    ensures OnPath(perm, keys, key, level + 1) ==
            Toward(perm, Bit(key, level), OnPath(perm, keys, key, level), BesidePath(perm, keys, key, level))
  {
    hide HashNode, HashLeaf, Bit;
    var p := PrefixOf(key, DEPTH - 1 - level);
    assert PrefixOf(key, DEPTH - level) == p + [Bit(key, level)];
  }

  lemma RootIsOnPath(perm: Permutation, keys: set<Digest>, key: Digest, top: nat)
    requires top == DEPTH
    ensures OnPath(perm, keys, key, top) == TreeRoot(perm, keys)
  {
    hide FullTree;
    assert PrefixOf(key, DEPTH - top) == PrefixOf(Zeros(32), 0);
  }

  /** Absence and presence, read off the key's own slot. */
  lemma SlotOfKey(perm: Permutation, keys: set<Digest>, key: Digest)
    ensures OnPath(perm, keys, key, 0) == if key in keys then HashLeaf(perm, key) else 0
  {
    hide HashLeaf, KeyOf;
    KeyFromBits(key);
  }

  // ----- the tree -----------------------------------------------------------

  class SparseMerkleTree {
    const perm: Permutation
    var entries: map<Digest, Field>
    var empties: seq<Field>

    ghost predicate Valid()
      reads this
    {
      && EmptiesRight(perm, empties, DEPTH)
      && forall k :: k in entries ==> entries[k] == HashLeaf(perm, k)
    }

    /** The commitment this tree's root must equal. */
    ghost function FullRoot(): Field
      reads this
    {
      TreeRoot(perm, entries.Keys)
    }

    constructor (p: Permutation)
      ensures Valid() && perm == p && entries == map[]
    {
      perm := p;
      entries := map[];
      new;
      empties := BuildEmpties(p, DEPTH);
    }

    /** Record a key; the stored value commits to it. */
    method Insert(key: Digest)
      requires Valid()
      modifies this`entries
      ensures Valid() && entries.Keys == old(entries.Keys) + {key}
    {
      entries := entries[key := HashLeaf(perm, key)];
    }

    method InsertAll(keys: seq<Digest>)
      requires Valid()
      modifies this`entries
      ensures Valid() && entries.Keys == old(entries.Keys) + (set k | k in keys)
    {
      for i := 0 to |keys|
        invariant Valid() && entries.Keys == old(entries.Keys) + (set k | k in keys[..i])
      {
        Insert(keys[i]);
        assert keys[..i + 1] == keys[..i] + [keys[i]];
      }
      assert keys[..|keys|] == keys;
    }

    /** Only keys sharing the prefix matter; with none, the answer is precomputed. Equal all the same to
        the node of the complete tree. */
    function Subtree(level: nat, prefix: seq<bool>): (f: Field)
      requires Valid() && level + |prefix| == DEPTH
      reads this
      ensures f == FullTree(perm, entries.Keys, level, prefix)
      decreases DEPTH - |prefix|
    {
      hide HashNode, HashLeaf, KeyOf, EmptiesRight;
      var members := set k | k in entries.Keys && HasPrefix(k, prefix);
      if members == {} then
        assert forall k :: k in entries.Keys && HasPrefix(k, prefix) ==> k in members;
        EmptySubtree(perm, entries.Keys, empties, level, prefix);
        EmptiesLength(perm, empties);
        empties[level]
      else if level == 0 then
        MembersAtLeaf(members, prefix);
        var k :| k in members;
        entries[k]
      else HashNode(perm, Subtree(level - 1, prefix + [false]), Subtree(level - 1, prefix + [true]))
    }

    function Root(): (f: Field)
      requires Valid()
      reads this
      ensures f == FullRoot()
    {
      var prefix := PrefixOf(Zeros(32), 0);
      Subtree(DEPTH - |prefix|, prefix)
    }

    /** Walk down from the root, recording the sibling subtree at each step. The proof verifies, and it
        proves absence exactly when the key is absent. */
    method Prove(key: Digest) returns (proof: SmtProof)
      requires Valid()
      ensures proof.key == key
      ensures proof.value == if key in entries then Some(HashLeaf(perm, key)) else None
      ensures Verifies(perm, Root(), proof)
      ensures proof.value.None? <==> key !in entries
      ensures VerifiesAbsence(perm, Root(), proof) <==> key !in entries
    {
      hide HashNode, HashLeaf, Bit, FullTree;
      var siblings: seq<Field> := [];
      var prefix: seq<bool> := [];
      for level := DEPTH downto 0
        invariant |siblings| == DEPTH - level && prefix == PrefixOf(key, DEPTH - level)
        invariant forall i :: level <= i < DEPTH ==> siblings[DEPTH - 1 - i] == BesidePath(perm, entries.Keys, key, i)
      {
        var goingRight := Bit(key, level);
        var sib := prefix + [!goingRight];
        siblings := siblings + [Subtree(level, sib)];
        prefix := prefix + [goingRight];
        assert prefix == PrefixOf(key, DEPTH - level);
      }
      // Bottom-up, matching verification.
      siblings := seq(DEPTH, i requires 0 <= i < DEPTH => siblings[DEPTH - 1 - i]);
      SlotOfKey(perm, entries.Keys, key);
      ClimbsToRoot(perm, entries.Keys, key, 0, siblings);
      proof := SmtProof(key, siblings, if key in entries then Some(entries[key]) else None);
    }
  }

  lemma EmptiesLength(perm: Permutation, empties: seq<Field>)
    requires EmptiesRight(perm, empties, DEPTH)
    ensures |empties| == DEPTH + 1
  {
  }

  lemma MembersAtLeaf(members: set<Digest>, prefix: seq<bool>)
    requires |prefix| == DEPTH && forall k :: k in members ==> HasPrefix(k, prefix)
    ensures forall k :: k in members ==> k == KeyOf(prefix)
  {
    hide Bit, KeyOf;
    forall k | k in members
      ensures k == KeyOf(prefix)
    {
      PrefixIs(k, prefix);
      KeyFromBits(k);
    }
  }

  /** Climbing with the true siblings stays on the path. */
  lemma {:induction false} ClimbsToRoot(perm: Permutation, keys: set<Digest>, key: Digest, level: nat,
                                        siblings: seq<Field>)
    requires level + |siblings| == DEPTH
    requires forall i :: level <= i < DEPTH ==> siblings[i - level] == BesidePath(perm, keys, key, i)
    ensures Climb(perm, key, OnPath(perm, keys, key, level), level, siblings) == TreeRoot(perm, keys)
    decreases |siblings|
  {
    hide Toward, Bit, FullTree;
    if siblings == [] {
      RootIsOnPath(perm, keys, key, level);
    } else {
      StepUp(perm, keys, key, level);
      assert siblings[0] == BesidePath(perm, keys, key, level);
      forall i | level + 1 <= i < DEPTH
        ensures siblings[1..][i - level - 1] == BesidePath(perm, keys, key, i)
      {
        assert siblings[1..][i - level - 1] == siblings[i - level];
      }
      ClimbsToRoot(perm, keys, key, level + 1, siblings[1..]);
    }
  }

  // ----- soundness ----------------------------------------------------------

  /** Two pairs with one parent, on the same side of it. */
  function PairBreak(perm: Permutation, right: bool, a: Field, s: Field, b: Field, t: Field): (r: Option<Break>)
    requires Toward(perm, right, a, s) == Toward(perm, right, b, t)
    ensures r.Some? ==> Genuine(perm, r.value)
    ensures r.None? ==> a == b
  {
    hide HashNode, Genuine;
    if a == b then None
    else if right then Some(NodeCollision(perm, s, a, t, b))
    else Some(NodeCollision(perm, a, s, b, t))
  }

  /** A climb that reaches the root started from the path's own node, or breaks the hash. */
  function ClimbBreak(perm: Permutation, keys: set<Digest>, key: Digest, node: Field, level: nat, siblings: seq<Field>):
      (r: Option<Break>)
    requires level + |siblings| == DEPTH
    requires Climb(perm, key, node, level, siblings) == OnPath(perm, keys, key, level + |siblings|)
    ensures r.Some? ==> Genuine(perm, r.value)
    ensures r.None? ==> node == OnPath(perm, keys, key, level)
    decreases |siblings|
  {
    hide Toward, Genuine, Bit, OnPath, BesidePath;
    if siblings == [] then None
    else
      match ClimbBreak(perm, keys, key, Toward(perm, Bit(key, level), node, siblings[0]), level + 1, siblings[1..])
      case Some(b) => Some(b)
      case None =>
        StepUp(perm, keys, key, level);
        PairBreak(perm, Bit(key, level), node, siblings[0],
                  OnPath(perm, keys, key, level), BesidePath(perm, keys, key, level))
  }

  /** What a verifying proof says of a slot is what the set says, or the hash is broken. */
  function ProofSound(perm: Permutation, keys: set<Digest>, proof: SmtProof): (r: Option<Break>)
    requires Verifies(perm, TreeRoot(perm, keys), proof)
    ensures r.Some? ==> Genuine(perm, r.value)
    ensures r.None? ==> SlotValue(proof.value) == if proof.key in keys then HashLeaf(perm, proof.key) else 0
  {
    hide Genuine, HashLeaf, FullTree;
    SlotOfKey(perm, keys, proof.key);
    RootIsOnPath(perm, keys, proof.key, |proof.siblings|);
    ClimbBreak(perm, keys, proof.key, SlotValue(proof.value), 0, proof.siblings)
  }

  /** A verifying absence proof for a recorded key is always a break: a node collision, or a key whose
      leaf hash is the empty value. */
  function AbsenceSound(perm: Permutation, keys: set<Digest>, proof: SmtProof): (r: Option<Break>)
    requires VerifiesAbsence(perm, TreeRoot(perm, keys), proof)
    ensures r.Some? ==> Genuine(perm, r.value)
    ensures r.None? ==> proof.key !in keys
  {
    hide Genuine, HashLeaf, FullTree;
    match ProofSound(perm, keys, proof)
    case Some(b) => Some(b)
    case None => if proof.key in keys then Some(ZeroLeaf(perm, proof.key)) else None
  }

  // ----- binding ------------------------------------------------------------

  /** Equal nodes one level up: the nodes on the path are equal too, or a break. */
  function StepDown(perm: Permutation, a: set<Digest>, b: set<Digest>, key: Digest, level: nat): (r: Option<Break>)
    requires level < DEPTH && OnPath(perm, a, key, level + 1) == OnPath(perm, b, key, level + 1)
    ensures r.Some? ==> Genuine(perm, r.value)
    ensures r.None? ==> OnPath(perm, a, key, level) == OnPath(perm, b, key, level)
  {
    hide Toward, Genuine, Bit, OnPath, BesidePath;
    StepUp(perm, a, key, level);
    StepUp(perm, b, key, level);
    PairBreak(perm, Bit(key, level), OnPath(perm, a, key, level), BesidePath(perm, a, key, level),
              OnPath(perm, b, key, level), BesidePath(perm, b, key, level))
  }

  /** One key in one set and not the other: following its path down from equal nodes breaks the hash. */
  function SetsDiffer(perm: Permutation, a: set<Digest>, b: set<Digest>, key: Digest, level: nat): (br: Break)
    requires level <= DEPTH && key in a && key !in b
    requires OnPath(perm, a, key, level) == OnPath(perm, b, key, level)
    ensures Genuine(perm, br)
    decreases level
  {
    hide Toward, Genuine, Bit, OnPath, BesidePath, HashLeaf;
    if level == 0 then
      SlotOfKey(perm, a, key);
      SlotOfKey(perm, b, key);
      ZeroLeaf(perm, key)
    else
      match StepDown(perm, a, b, key, level - 1)
      case Some(br) => br
      case None => SetsDiffer(perm, a, b, key, level - 1)
  }

  /** The root commits to the set of keys: from different sets with one root a break is computed. */
  method SetBinding(perm: Permutation, a: set<Digest>, b: set<Digest>) returns (br: Break)
    requires a != b && TreeRoot(perm, a) == TreeRoot(perm, b)
    ensures Genuine(perm, br)
  {
    hide Genuine, FullTree, TreeRoot;
    if key :| key in a && key !in b {
      RootIsOnPath(perm, a, key, DEPTH);
      RootIsOnPath(perm, b, key, DEPTH);
      br := SetsDiffer(perm, a, b, key, DEPTH);
    } else {
      assert a <= b;
      var key :| key in b && key !in a;
      RootIsOnPath(perm, a, key, DEPTH);
      RootIsOnPath(perm, b, key, DEPTH);
      br := SetsDiffer(perm, b, a, key, DEPTH);
    }
  }
}
