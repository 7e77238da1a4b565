/** The Noir circuit: the same hashing written a second time, and the constraints it asserts. */
module Circuit {
  import opened ByteStrings
  import opened FieldHash
  import opened Attestation
  import opened Merkle
  import MerkleProofs
  import Smt
  import SmtProofs

  const ANCHOR_DEPTH: nat := 20
  const MAX_SUCCESSES: nat := 4
  const SIG_BYTES: nat := 128
  const ANCHOR_SLOTS: nat := 0x10_0000

  // ----- hash.nr ------------------------------------------------------------

  /** The index-loop absorb: every block adds whatever input positions exist in it. */
  method NoirSponge(perm: Permutation, iv: Field, inputs: seq<Field>) returns (out: Field)
    ensures out == Sponge(perm, iv, inputs)
  {
    var state: SpongeState := [0, 0, 0, iv];
    var n := |inputs|;
    var chunks := (n + RATE - 1) / RATE;
    for c := 0 to chunks
      invariant Absorb(perm, state, Remaining(inputs, c)) == Absorb(perm, [0, 0, 0, iv], inputs)
    {
      ghost var before, left := state, Remaining(inputs, c);
      ghost var block := if |left| <= RATE then left else left[..RATE];
      for i := 0 to RATE
        invariant forall k :: 0 <= k < 4 ==>
          state[k] == if k < i && k < |block| then Add(before[k], block[k]) else before[k]
      {
        var idx := c * RATE + i;
        if idx < n {
          state := state[i := Add(state[i], inputs[idx])];
        }
      }
      assert state == AddBlock(before, block);
      assert |left| > RATE ==> Remaining(inputs, c + 1) == left[RATE..];
      state := perm(state);
    }
    assert Remaining(inputs, chunks) == [];
    out := state[0];
  }

  ghost function Remaining(inputs: seq<Field>, c: nat): seq<Field> {
    if c * RATE <= |inputs| then inputs[c * RATE..] else []
  }

  // ----- attestation.nr -----------------------------------------------------

  lemma BeNothing()
    ensures BeValue([]) == 0
  {
  }

  /** One more byte: the accumulator never reaches the modulus. */
  lemma PackStep(next: Bytes)
    requires 0 < |next| <= 16
    ensures BeValue(next[..|next| - 1]) < P
    ensures (BeValue(next[..|next| - 1]) * 256 + next[|next| - 1]) % P == BeValue(next)
  {
    LimbFits(next);
    LimbFits(next[..|next| - 1]);
  }

  /** Up to sixteen bytes accumulated big-endian, in field arithmetic. */
  method Pack16(bytes: Bytes, start: nat, len: nat) returns (acc: Field)
    requires len <= 16 && start + len <= |bytes|
    ensures acc == Limb(bytes[start..start + len])
  {
    hide BeValue;
    BeNothing();
    acc := 0;
    for i := 0 to 16
      invariant acc == BeValue(bytes[start..start + if i < len then i else len])
    {
      if i < len {
        var next := bytes[start..start + i + 1];
        assert next[..i] == bytes[start..start + i];
        PackStep(next);
        acc := (acc * 256 + bytes[start + i]) % P;
      }
    }
  }

  lemma SliceOfTail(s: Bytes, k: nat, a: nat, b: nat)
    requires a <= b && k + b <= |s|
    ensures s[k..][a..b] == s[k + a..k + b]
  {
  }

  /** The `c`-th limb of an encoded byte string. */
  lemma {:induction false} LimbAt(value: Bytes, c: nat)
    requires 16 * c < |value|
    ensures c < |Limbs(value)|
    ensures Limbs(value)[c] == Limb(value[16 * c..if 16 * c + 16 <= |value| then 16 * c + 16 else |value|])
    decreases c
  {
    hide Limb;
    if c > 0 {
      var rest := value[16..];
      LimbAt(rest, c - 1);
      var end := if 16 * c + 16 <= |value| then 16 * c + 16 else |value|;
      SliceOfTail(value, 16, 16 * (c - 1), end - 16);
    } else if |value| <= 16 {
      assert value[0..|value|] == value;
    } else {
      assert value[0..16] == value[..16];
    }
  }

  /** The v2 id: body then signatures, chunked, the length last. */
  function IdV2(perm: Permutation, body: Bytes, sigs: Bytes): Digest {
    HashTaggedBytes(perm, ID_DOMAIN_V2, body + sigs)
  }

  method NoirIdV2(perm: Permutation, body: Bytes, sigs: Bytes) returns (id: Digest)
    requires |body| == BODY_BYTES && |sigs| == SIG_BYTES
    ensures id == IdV2(perm, body, sigs)
  {
    hide Limb, Limbs, Sponge, BeValue;
    var total := BODY_BYTES + SIG_BYTES;
    var chunks := (total + 15) / 16;
    var fields: seq<Field> := Zeroed(19);
    ghost var all := body + sigs;
    for c := 0 to chunks
      invariant |fields| == 19
      invariant forall k :: 0 <= k < c ==> k < |Limbs(all)| && fields[k] == Limbs(all)[k]
    {
      var start := c * 16;
      var len := if start + 16 <= total then 16 else total - start;
      var acc := PackAcross(body, sigs, start, len);
      LimbAt(all, c);
      fields := fields[c := acc];
    }
    fields := fields[chunks := total];
    assert fields == LengthTagged(all);
    var f := NoirSponge(perm, ID_DOMAIN_V2, fields);
    id := ToBe32(f);
  }

  function Zeroed(n: nat): (z: seq<Field>)
    ensures |z| == n
  {
    seq(n, _ => 0)
  }

  lemma SliceFront(s: Bytes, start: nat, i: nat)
    requires start + i < |s|
    ensures s[start..start + i + 1][..i] == s[start..start + i] && s[start..start + i + 1][i] == s[start + i]
  {
  }

  /** One chunk that may run from the body into the signatures. */
  method PackAcross(body: Bytes, sigs: Bytes, start: nat, len: nat) returns (acc: Field)
    requires len <= 16 && start + len <= |body| + |sigs|
    ensures acc == Limb((body + sigs)[start..start + len])
  {
    hide BeValue;
    BeNothing();
    ghost var all := body + sigs;
    acc := 0;
    for i := 0 to 16
      invariant acc == BeValue(all[start..start + if i < len then i else len])
    {
      if i < len {
        var idx := start + i;
        var byte := if idx < |body| then body[idx] else sigs[idx - |body|];
        ghost var next := all[start..start + i + 1];
        SliceFront(all, start, i);
        assert byte == next[i];
        PackStep(next);
        acc := (acc * 256 + byte) % P;
      }
    }
  }

  /** The accumulator leaf: outpoint read out of the body, then the id. */
  function LeafBytes(body: Bytes, id: Digest): (b: Bytes)
    requires |body| == BODY_BYTES
    ensures |b| == 68
  {
    body[OFF_ANCHOR_TXID..OFF_ANCHOR_INDEX + 4] + id
  }

  /** txid, output index and id copied byte by byte. */
  method AssembleLeaf(body: Bytes, id: Digest) returns (value: Bytes)
    requires |body| == BODY_BYTES
    ensures value == LeafBytes(body, id)
  {
    var bytes := new byte[68](_ => 0);
    for i := 0 to 32
      invariant bytes[..i] == body[OFF_ANCHOR_TXID..OFF_ANCHOR_TXID + i]
    {
      bytes[i] := body[OFF_ANCHOR_TXID + i];
      assert bytes[..i + 1] == bytes[..i] + [bytes[i]];
    }
    for i := 0 to 4
      invariant bytes[..32 + i] == body[OFF_ANCHOR_TXID..OFF_ANCHOR_INDEX + i]
    {
      bytes[32 + i] := body[OFF_ANCHOR_INDEX + i];
      assert bytes[..32 + i + 1] == bytes[..32 + i] + [bytes[32 + i]];
    }
    for i := 0 to 32
      invariant bytes[..36 + i] == body[OFF_ANCHOR_TXID..OFF_ANCHOR_INDEX + 4] + id[..i]
    {
      bytes[36 + i] := id[i];
      assert bytes[..36 + i + 1] == bytes[..36 + i] + [bytes[36 + i]];
    }
    assert id[..32] == id && bytes[..68] == bytes[..];
    value := bytes[..];
  }

  method NoirAnchorLeaf(perm: Permutation, body: Bytes, id: Digest) returns (leaf: Field)
    requires |body| == BODY_BYTES
    ensures leaf == HashLeaf(perm, LeafBytes(body, id))
  {
    hide Limb, Limbs, Sponge, LeafBytes;
    var value := AssembleLeaf(body, id);
    var f0 := Pack16(value, 0, 16);
    var f1 := Pack16(value, 16, 16);
    var f2 := Pack16(value, 32, 16);
    var f3 := Pack16(value, 48, 16);
    var f4 := Pack16(value, 64, 4);
    LimbAt(value, 0);
    LimbAt(value, 1);
    LimbAt(value, 2);
    LimbAt(value, 3);
    LimbAt(value, 4);
    assert [f0, f1, f2, f3, f4] == Limbs(value);
    assert [f0, f1, f2, f3, f4, 68] == LengthTagged(value);
    leaf := NoirSponge(perm, IV_LEAF, [f0, f1, f2, f3, f4, 68]);
  }

  method Owner(body: Bytes) returns (out: Digest)
    requires |body| == BODY_BYTES
    ensures out == body[OFF_OWNER..OFF_OWNER + 32]
  {
    var bytes := new byte[32](_ => 0);
    for i := 0 to 32
      invariant forall k :: 0 <= k < i ==> bytes[k] == body[OFF_OWNER + k]
    {
      bytes[i] := body[OFF_OWNER + i];
    }
    out := bytes[..];
  }

  predicate IsSuccess(body: Bytes)
    requires |body| == BODY_BYTES
  {
    body[OFF_OUTCOME] == OutcomeByte(Success)
  }

  // ----- main.nr ------------------------------------------------------------

  /** Public: the two roots and the claim. Private: the evidence. */
  datatype Inputs = Inputs(
    anchoredRoot: Field,
    defaultsRoot: Field,
    minSuccesses: nat,
    pseudonym: Digest,
    bodies: seq<Bytes>,
    sigs: seq<Bytes>,
    leafPaths: seq<seq<Field>>,
    leafIndices: seq<Field>,
    used: nat,
    defaultsPath: seq<Field>)

  /** The array sizes the circuit's types fix. */
  predicate Shaped(x: Inputs) {
    && |x.bodies| == |x.sigs| == |x.leafPaths| == |x.leafIndices| == MAX_SUCCESSES
    && |x.defaultsPath| == Smt.DEPTH
    && forall i :: 0 <= i < MAX_SUCCESSES ==>
         |x.bodies[i]| == BODY_BYTES && |x.sigs[i]| == SIG_BYTES && |x.leafPaths[i]| == ANCHOR_DEPTH
  }

  /** One used slot: anchored under the root, owned by the pseudonym, a success. */
  predicate SlotHolds(perm: Permutation, root: Field, pseudonym: Digest, body: Bytes, sigs: Bytes, path: seq<Field>,
                      index: Field)
    requires |body| == BODY_BYTES
  {
    && index < ANCHOR_SLOTS
    && MerkleProofs.FoldPath(perm, HashLeaf(perm, LeafBytes(body, IdV2(perm, body, sigs))), index, path) == root
    && body[OFF_OWNER..OFF_OWNER + 32] == pseudonym
    && IsSuccess(body)
  }

  predicate AbsenceHolds(perm: Permutation, x: Inputs)
    requires Shaped(x)
  {
    SmtProofs.Climb(perm, x.pseudonym, 0, 0, x.defaultsPath) == x.defaultsRoot
  }

  /** Every constraint, each slot on its own. */
  predicate Satisfied(perm: Permutation, x: Inputs)
    requires Shaped(x)
  {
    && x.minSuccesses <= x.used <= MAX_SUCCESSES
    && (forall i :: 0 <= i < x.used ==>
          SlotHolds(perm, x.anchoredRoot, x.pseudonym, x.bodies[i], x.sigs[i], x.leafPaths[i], x.leafIndices[i]))
    && AbsenceHolds(perm, x)
  }

  /** Bits of the pseudonym from the leaf upward. */
  method PseudonymBits(key: Digest) returns (bits: seq<bool>)
    ensures |bits| == Smt.DEPTH && forall level :: 0 <= level < Smt.DEPTH ==> bits[level] == Smt.Bit(key, level)
  {
    hide Smt.Shr;
    bits := seq(Smt.DEPTH, _ => false);
    for level := 0 to Smt.DEPTH
      invariant |bits| == Smt.DEPTH
      invariant forall k :: 0 <= k < level ==> bits[k] == Smt.Bit(key, k)
    {
      var idx := Smt.DEPTH - 1 - level;
      var byte := key[idx / 8];
      bits := bits[level := Smt.Shr(byte, 7 - idx % 8) % 2 == 1];
    }
  }

  /** Decompose an index into exactly twenty bits, low first; a larger one has no witness. */
  method ToLeBits(index: Field) returns (bits: Option<seq<bool>>)
    ensures bits.Some? <==> index < ANCHOR_SLOTS
    ensures bits.Some? ==> |bits.value| == ANCHOR_DEPTH
    ensures bits.Some? ==>
      forall k :: 0 <= k < ANCHOR_DEPTH ==> bits.value[k] == (MerkleProofs.Shift(index, k) % 2 == 1)
  {
    hide MerkleProofs.Shift;
    var left: nat := index;
    var out: seq<bool> := [];
    ShiftStart(index);
    for k := 0 to ANCHOR_DEPTH
      invariant |out| == k && left == MerkleProofs.Shift(index, k)
      invariant forall j :: 0 <= j < k ==> out[j] == (MerkleProofs.Shift(index, j) % 2 == 1)
    {
      out := out + [left % 2 == 1];
      MerkleProofs.ShiftNext(index, k);
      left := left / 2;
    }
    ShiftOut(index, ANCHOR_DEPTH);
    SlotsArePower();
    bits := if left == 0 then Some(out) else None;
  }

  lemma ShiftStart(n: nat)
    ensures MerkleProofs.Shift(n, 0) == n
  {
  }

  lemma {:induction false} ShiftOut(n: nat, k: nat)
    ensures MerkleProofs.Shift(n, k) == 0 <==> n < Pow2(k)
  {
    if k > 0 {
      ShiftOut(n / 2, k - 1);
    }
  }

  lemma SlotsArePower()
    ensures Pow2(ANCHOR_DEPTH) == ANCHOR_SLOTS
  {
    Smt.Powers();
    assert Pow2(9) == 2 * Pow2(8);
    assert Pow2(11) == 2 * Pow2(10);
    assert Pow2(13) == 2 * Pow2(12);
    assert Pow2(15) == 2 * Pow2(14);
    assert Pow2(17) == 2 * Pow2(16);
    assert Pow2(19) == 2 * Pow2(18);
  }

  /** Walk a path; the index's low bits decide the sides. No result where the decomposition has none. */
  method NoirMerkleRoot(perm: Permutation, leaf: Field, path: seq<Field>, index: Field) returns (root: Option<Field>)
    requires |path| == ANCHOR_DEPTH
    ensures root.Some? <==> index < ANCHOR_SLOTS
    ensures root.Some? ==> root.value == MerkleProofs.FoldPath(perm, leaf, index, path)
  {
    hide HashNode, MerkleProofs.Shift;
    var bits := ToLeBits(index);
    if bits.None? {
      return None;
    }
    ShiftStart(index);
    var node: Field := leaf;
    for level := 0 to ANCHOR_DEPTH
      invariant MerkleProofs.FoldPath(perm, node, MerkleProofs.Shift(index, level), path[level..]) ==
                MerkleProofs.FoldPath(perm, leaf, index, path)
    {
      assert path[level..][1..] == path[level + 1..];
      MerkleProofs.ShiftNext(index, level);
      node := if bits.value[level] then HashNode(perm, path[level], node) else HashNode(perm, node, path[level]);
    }
    root := Some(node);
  }

  /** The circuit: `ok` is whether every assertion holds. */
  method MainConstraints(perm: Permutation, x: Inputs) returns (ok: bool)
    requires Shaped(x)
    ensures ok <==> Satisfied(perm, x)
  {
    hide IdV2, LeafBytes, HashLeaf, HashNode, MerkleProofs.FoldPath, Smt.Bit;
    if x.used < x.minSuccesses {
      return false;
    }
    if x.used > MAX_SUCCESSES {
      return false;
    }
    for i := 0 to MAX_SUCCESSES
      invariant forall k :: 0 <= k < i && k < x.used ==>
        SlotHolds(perm, x.anchoredRoot, x.pseudonym, x.bodies[k], x.sigs[k], x.leafPaths[k], x.leafIndices[k])
    {
      if i < x.used {
        var body := x.bodies[i];
        var id := NoirIdV2(perm, body, x.sigs[i]);
        var leaf := NoirAnchorLeaf(perm, body, id);
        var computed := NoirMerkleRoot(perm, leaf, x.leafPaths[i], x.leafIndices[i]);
        if computed != Some(x.anchoredRoot) {
          return false;
        }
        var owner := Owner(body);
        var b := 0;
        while b < 32
          invariant 0 <= b <= 32 && owner[..b] == x.pseudonym[..b]
        {
          if owner[b] != x.pseudonym[b] {
            return false;
          }
          b := b + 1;
          assert owner[..b] == owner[..b - 1] + [owner[b - 1]];
          assert x.pseudonym[..b] == x.pseudonym[..b - 1] + [x.pseudonym[b - 1]];
        }
        assert owner == owner[..32] && x.pseudonym == x.pseudonym[..32];
        if !IsSuccess(body) {
          return false;
        }
      }
    }
    var bits := PseudonymBits(x.pseudonym);
    var node: Field := 0;
    for level := 0 to Smt.DEPTH
      invariant SmtProofs.Climb(perm, x.pseudonym, node, level, x.defaultsPath[level..]) ==
                SmtProofs.Climb(perm, x.pseudonym, 0, 0, x.defaultsPath)
    {
      var sibling := x.defaultsPath[level];
      assert x.defaultsPath[level..][1..] == x.defaultsPath[level + 1..];
      node := if bits[level] then HashNode(perm, sibling, node) else HashNode(perm, node, sibling);
    }
    ok := node == x.defaultsRoot;
  }
}
