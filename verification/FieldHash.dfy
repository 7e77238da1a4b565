/** The Poseidon2 sponge over BN254 scalars and the byte encodings absorbed into it.
    The permutation itself is a parameter: every statement holds for all permutations. */
module FieldHash {
  import opened ByteStrings

  const P: nat := 21888242871839275222246405745257275088548364400416034343698204186575808495617

  type Field = x: int | 0 <= x < P

  const RATE: nat := 3

  type SpongeState = s: seq<Field> | |s| == 4 witness [0, 0, 0, 0]

  /** The fixed-width permutation supplied by the proof backend. */
  type Permutation = SpongeState -> SpongeState

  const IV_LEAF: Field := 1
  const IV_NODE: Field := 2
  const ID_DOMAIN_V2: Field := 0x6b7265702f61762f32

  function Add(a: Field, b: Field): Field {
    (a + b) % P
  }

  function FieldOf(n: nat): Field {
    n % P
  }

  // ----- the sponge ---------------------------------------------------------

  function AddBlock(state: SpongeState, block: seq<Field>): SpongeState
    requires |block| <= RATE
  {
    seq(4, i requires 0 <= i < 4 => if i < |block| then Add(state[i], block[i]) else state[i])
  }

  function Absorb(perm: Permutation, state: SpongeState, inputs: seq<Field>): SpongeState
    decreases |inputs|
  {
    if inputs == [] then state
    else if |inputs| <= RATE then perm(AddBlock(state, inputs))
    else Absorb(perm, perm(AddBlock(state, inputs[..RATE])), inputs[RATE..])
  }

  function Sponge(perm: Permutation, iv: Field, inputs: seq<Field>): Field {
    Absorb(perm, [0, 0, 0, iv], inputs)[0]
  }

  /** The chunked absorb loop of the Rust side: whole blocks of three, then a shorter last one. */
  method SpongeByChunks(perm: Permutation, iv: Field, inputs: seq<Field>) returns (out: Field)
    ensures out == Sponge(perm, iv, inputs)
  {
    var state: SpongeState := [0, 0, 0, iv];
    var at := 0;
    while at < |inputs|
      invariant 0 <= at <= |inputs|
      invariant Absorb(perm, state, inputs[at..]) == Absorb(perm, [0, 0, 0, iv], inputs)
    {
      var end := if at + RATE <= |inputs| then at + RATE else |inputs|;
      var chunk := inputs[at..end];
      ghost var before := state;
      var slot := 0;
      while slot < |chunk|
        invariant 0 <= slot <= |chunk|
        invariant forall i :: 0 <= i < 4 ==>
          state[i] == if i < slot then Add(before[i], chunk[i]) else before[i]
      {
        state := state[slot := Add(state[slot], chunk[slot])];
        slot := slot + 1;
      }
      assert state == AddBlock(before, chunk);
      ghost var left := inputs[at..];
      if |left| <= RATE {
        assert chunk == left;
      } else {
        assert chunk == left[..RATE] && inputs[end..] == left[RATE..];
      }
      state := perm(state);
      at := end;
    }
    assert inputs[at..] == [];
    out := state[0];
  }

  /** Zero-fill to a whole number of blocks. */
  function Fill(a: seq<Field>): (f: seq<Field>)
    ensures |f| % RATE == 0 && |a| <= |f| < |a| + RATE
    ensures forall i :: 0 <= i < |f| ==> f[i] == if i < |a| then a[i] else 0
  {
    a + seq((RATE - |a| % RATE) % RATE, _ => 0)
  }

  /** The sponge cannot tell an input from its zero-filled form. */
  lemma {:induction false} AbsorbFill(perm: Permutation, state: SpongeState, a: seq<Field>)
    ensures Absorb(perm, state, a) == Absorb(perm, state, Fill(a))
    decreases |a|
  {
    if a != [] {
      if |a| <= RATE {
        assert |Fill(a)| == RATE;
        assert AddBlock(state, a) == AddBlock(state, Fill(a));
      } else {
        AbsorbFill(perm, perm(AddBlock(state, a[..RATE])), a[RATE..]);
        assert Fill(a)[..RATE] == a[..RATE];
        assert Fill(a)[RATE..] == Fill(a[RATE..]);
      }
    } else {
      assert Fill(a) == [];
    }
  }

  // ----- what the sponge computes -------------------------------------------

  lemma AddIs(a: Field, b: Field)
    ensures Add(a, b) == (a + b) % P
  {
  }

  /** One block: its elements are added into the state, the rest of the state stays, and the permutation is applied
      once. `AddIs` says what adding is. */
  lemma OneBlock(perm: Permutation, state: SpongeState, block: seq<Field>)
    requires 0 < |block| <= RATE
    ensures Absorb(perm, state, block) ==
            perm([Add(state[0], block[0]),
                  if |block| > 1 then Add(state[1], block[1]) else state[1],
                  if |block| > 2 then Add(state[2], block[2]) else state[2],
                  state[3]])
  {
    hide Add;
    var mixed := AddBlock(state, block);
    assert mixed == [mixed[0], mixed[1], mixed[2], mixed[3]];
  }

  lemma AddZero(b: Field)
    ensures Add(0, b) == b
  {
  }

  /** Blocks are absorbed one after the other. */
  lemma {:induction false} AbsorbCat(perm: Permutation, state: SpongeState, a: seq<Field>, b: seq<Field>)
    requires |a| % RATE == 0
    ensures Absorb(perm, state, a + b) == Absorb(perm, Absorb(perm, state, a), b)
    decreases |a|
  {
    if a == [] {
      assert a + b == b;
    } else {
      assert (a + b)[..RATE] == a[..RATE] && (a + b)[RATE..] == a[RATE..] + b;
      AbsorbCat(perm, perm(AddBlock(state, a[..RATE])), a[RATE..], b);
      if |a| == RATE {
        assert a[..RATE] == a && a[RATE..] == [];
        if b == [] {
          assert a + b == a;
        }
      }
    }
  }

  /** Absorbing a block forgets nothing of it. */
  lemma BlockInjective(state: SpongeState, a: seq<Field>, b: seq<Field>)
    requires |a| == |b| <= RATE
    ensures AddBlock(state, a) == AddBlock(state, b) <==> a == b
  {
    if AddBlock(state, a) == AddBlock(state, b) {
      forall i | 0 <= i < |a|
        ensures a[i] == b[i]
      {
        assert AddBlock(state, a)[i] == AddBlock(state, b)[i];
        AddCancels(state[i], a[i], b[i]);
      }
    }
  }

  lemma AddCancels(x: Field, a: Field, b: Field)
    requires (x + a) % P == (x + b) % P
    ensures a == b
  {
    Wraps(x, a);
    Wraps(x, b);
  }

  lemma Wraps(x: Field, a: Field)
    ensures (x + a) % P == if x + a < P then x + a else x + a - P
  {
  }

  /** Where the inputs first differ, block by block, the permutation is applied to two different states. */
  lemma {:induction false} DifferentStates(perm: Permutation, state: SpongeState, a: seq<Field>, b: seq<Field>)
    requires |a| == |b| && |a| % RATE == 0 && a != b
    ensures exists k :: DifferAt(perm, state, a, b, k)
    decreases |a|
  {
    hide AddBlock;
    if a[..RATE] != b[..RATE] {
      BlockInjective(state, a[..RATE], b[..RATE]);
      assert DifferAt(perm, state, a, b, 0);
    } else {
      var first, x, y := a[..RATE], a[RATE..], b[RATE..];
      assert a == first + x && b == first + y;
      DifferentStates(perm, Absorb(perm, state, first), x, y);
      var k :| DifferAt(perm, Absorb(perm, state, first), x, y, k);
      DifferLater(perm, state, first, x, y, k);
    }
  }

  /** Block `k` is absorbed into one state and gives two. */
  predicate DifferAt(perm: Permutation, state: SpongeState, a: seq<Field>, b: seq<Field>, k: nat) {
    && RATE * k + RATE <= |a| && RATE * k + RATE <= |b|
    && a[..RATE * k] == b[..RATE * k]
    && var reached := Absorb(perm, state, a[..RATE * k]);
       AddBlock(reached, a[RATE * k..RATE * k + RATE]) != AddBlock(reached, b[RATE * k..RATE * k + RATE])
  }

  lemma DifferLater(perm: Permutation, state: SpongeState, first: seq<Field>, x: seq<Field>, y: seq<Field>, k: nat)
    requires |first| == RATE && DifferAt(perm, Absorb(perm, state, first), x, y, k)
    ensures DifferAt(perm, state, first + x, first + y, k + 1)
  {
    hide AddBlock, Absorb;
    var a, b, at := first + x, first + y, RATE * k;
    assert RATE * (k + 1) == RATE + at;
    AbsorbCat(perm, state, first, x[..at]);
    assert a[..RATE + at] == first + x[..at] && b[..RATE + at] == first + y[..at];
    assert a[RATE + at..RATE + at + RATE] == x[at..at + RATE] && b[RATE + at..RATE + at + RATE] == y[at..at + RATE];
  }

  // ----- byte strings into the field -----------------------------------------

  lemma LimbFits(chunk: Bytes)
    requires |chunk| <= 16
    ensures BeValue(chunk) < P
  {
    Pow256Monotone(|chunk|, 16);
    Pow256Values();
  }

  /** Up to sixteen bytes, big-endian, as one field element. */
  function Limb(chunk: Bytes): Field
    requires |chunk| <= 16
  {
    LimbFits(chunk);
    BeValue(chunk)
  }

  function Limbs(value: Bytes): (fields: seq<Field>)
    ensures |fields| == (|value| + 15) / 16
  {
    if |value| == 0 then []
    else if |value| <= 16 then [Limb(value)]
    else [Limb(value[..16])] + Limbs(value[16..])
  }

  /** What is absorbed for a byte string: its limbs, then its length. */
  function LengthTagged(value: Bytes): seq<Field> {
    Limbs(value) + [FieldOf(|value|)]
  }

  lemma NextLimb(left: Bytes, n: nat)
    requires left != [] && n == if |left| <= 16 then |left| else 16
    ensures BeValue(left[..n]) < P && Limbs(left) == [BeValue(left[..n])] + Limbs(left[n..])
  {
    hide BeValue;
    LimbFits(left[..n]);
    assert |left| <= 16 ==> left[..n] == left && left[n..] == [];
  }

  /** The chunk loop of `hash_leaf` and `hash_tagged_bytes`: right-align each chunk in a
      sixteen-byte buffer, read it big-endian, and push the length last. */
  method EncodeByChunks(value: Bytes) returns (fields: seq<Field>)
    ensures fields == LengthTagged(value)
  {
    hide BeValue, Limbs, Limb, Pow256;
    fields := [];
    var at := 0;
    assert value[0..] == value;
    while at < |value|
      invariant 0 <= at <= |value|
      invariant fields + Limbs(value[at..]) == Limbs(value)
    {
      var end := if at + 16 <= |value| then at + 16 else |value|;
      var chunk := value[at..end];
      var buf := Zeros(16 - |chunk|) + chunk;
      BeLeadingZeros(16 - |chunk|, chunk);
      LimbFits(buf);
      ghost var left := value[at..];
      assert left[..end - at] == chunk && left[end - at..] == value[end..];
      NextLimb(left, end - at);
      fields := fields + [BeValue(buf)];
      at := end;
    }
    assert value[at..] == [];
    NoLimbs();
    fields := fields + [FieldOf(|value|)];
  }

  lemma {:induction false} LimbsInjective(a: Bytes, b: Bytes)
    requires |a| == |b| && Limbs(a) == Limbs(b)
    ensures a == b
    decreases |a|
  {
    if |a| == 0 {
    } else if |a| <= 16 {
      assert Limbs(a)[0] == Limbs(b)[0];
      BeInjective(a, b);
    } else {
      assert Limbs(a)[0] == Limbs(b)[0];
      BeInjective(a[..16], b[..16]);
      assert Limbs(a)[1..] == Limbs(a[16..]) && Limbs(b)[1..] == Limbs(b[16..]);
      LimbsInjective(a[16..], b[16..]);
      assert a == a[..16] + a[16..] && b == b[..16] + b[16..];
    }
  }

  /** Absorbing the length keeps the encoding injective even after the sponge's zero-fill. */
  lemma EncodingInjective(a: Bytes, b: Bytes)
    requires |a| < TWO64 && |b| < TWO64
    ensures Fill(LengthTagged(a)) == Fill(LengthTagged(b)) <==> a == b
  {
    if Fill(LengthTagged(a)) == Fill(LengthTagged(b)) {
      LengthsAgree(a, b);
      var n := |Limbs(a)|;
      assert forall i :: 0 <= i < n ==> Limbs(a)[i] == Fill(LengthTagged(a))[i];
      assert forall i :: 0 <= i < n ==> Limbs(b)[i] == Fill(LengthTagged(b))[i];
      assert Limbs(a) == Limbs(b);
      LimbsInjective(a, b);
    }
  }

  /** The last non-zero element of a filled sequence marks where its content ended. */
  lemma TailAgrees(u: seq<Field>, x: Field, v: seq<Field>, y: Field)
    requires Fill(u + [x]) == Fill(v + [y])
    requires |u| < |v| ==> y != 0
    requires |v| < |u| ==> x != 0
    ensures |u| == |v| && x == y
  {
    var f, g := Fill(u + [x]), Fill(v + [y]);
    assert f[|u|] == x && g[|v|] == y && |f| == |g|;
  }

  lemma LengthsAgree(a: Bytes, b: Bytes)
    requires |a| < TWO64 && |b| < TWO64
    requires Fill(LengthTagged(a)) == Fill(LengthTagged(b))
    ensures |a| == |b|
  {
    hide Fill, Limbs, FieldOf;
    LengthField(|a|);
    LengthField(|b|);
    assert |Limbs([])| == 0 by { NoLimbs(); }
    TailAgrees(Limbs(a), FieldOf(|a|), Limbs(b), FieldOf(|b|));
  }

  lemma LengthField(n: nat)
    requires n < TWO64
    ensures FieldOf(n) == n
  {
  }

  lemma OneLimb(value: Bytes)
    requires 0 < |value| <= 16
    ensures BeValue(value) < P && Limbs(value) == [BeValue(value)]
  {
    hide BeValue;
    LimbFits(value);
  }

  lemma NoLimbs()
    ensures |Limbs([])| == 0
  {
  }

  // ----- leaves, nodes and tagged hashes ------------------------------------

  function HashLeaf(perm: Permutation, value: Bytes): Field {
    Sponge(perm, IV_LEAF, LengthTagged(value))
  }

  function HashNode(perm: Permutation, left: Field, right: Field): Field {
    Sponge(perm, IV_NODE, [left, right])
  }

  /** The value padding an unoccupied slot: the sponge on no input at all. */
  function EmptyLeaf(perm: Permutation): (f: Field)
    ensures f == 0
  {
    Sponge(perm, IV_LEAF, [])
  }

  /** Two inputs are one permutation of them under the tag. */
  lemma PairIs(perm: Permutation, iv: Field, a: Field, b: Field)
    ensures Sponge(perm, iv, [a, b]) == perm([a, b, 0, iv])[0]
  {
    hide Add;
    AddZero(a);
    AddZero(b);
    OneBlock(perm, [0, 0, 0, iv], [a, b]);
  }

  /** A node is one permutation of its children under the node tag. */
  lemma NodeIs(perm: Permutation, left: Field, right: Field)
    ensures HashNode(perm, left, right) == perm([left, right, 0, 2])[0]
  {
    PairIs(perm, IV_NODE, left, right);
  }

  /** A value of up to sixteen bytes is one permutation of its number and its length under the leaf tag. */
  lemma ShortLeafIs(perm: Permutation, value: Bytes)
    requires 0 < |value| <= 16
    ensures BeValue(value) < P && HashLeaf(perm, value) == perm([BeValue(value), |value|, 0, 1])[0]
  {
    hide BeValue, FieldOf, Limbs, Sponge;
    OneLimb(value);
    LengthField(|value|);
    assert LengthTagged(value) == [BeValue(value), FieldOf(|value|)];
    PairIs(perm, IV_LEAF, BeValue(value), FieldOf(|value|));
  }

  lemma Pow256Covers()
    ensures P <= Pow256(32)
  {
    Pow256Values();
    assert Pow256(17) == 256 * Pow256(16);
    assert Pow256(18) == 256 * Pow256(17);
    assert Pow256(19) == 256 * Pow256(18);
    assert Pow256(20) == 256 * Pow256(19);
    assert Pow256(21) == 256 * Pow256(20);
    assert Pow256(22) == 256 * Pow256(21);
    assert Pow256(23) == 256 * Pow256(22);
    assert Pow256(24) == 256 * Pow256(23);
    assert Pow256(25) == 256 * Pow256(24);
    assert Pow256(26) == 256 * Pow256(25);
    assert Pow256(27) == 256 * Pow256(26);
    assert Pow256(28) == 256 * Pow256(27);
    assert Pow256(29) == 256 * Pow256(28);
    assert Pow256(30) == 256 * Pow256(29);
    assert Pow256(31) == 256 * Pow256(30);
  }

  function ToBe32(f: Field): Digest {
    BeBytes(f, 32)
  }

  lemma ToBe32Injective(f: Field, g: Field)
    ensures ToBe32(f) == ToBe32(g) <==> f == g
  {
    Pow256Covers();
    BeRoundTrip(f, 32);
    BeRoundTrip(g, 32);
  }

  function HashTaggedBytes(perm: Permutation, tag: Field, value: Bytes): Digest {
    ToBe32(Sponge(perm, tag, LengthTagged(value)))
  }

  // ----- what a broken hash looks like --------------------------------------

  /** Evidence against the sponge, always computed from the inputs at hand. */
  datatype Break =
    | Collision(iv1: Field, a: seq<Field>, iv2: Field, b: seq<Field>)
    | Zero(iv: Field, a: seq<Field>)

  /** Two inputs the sponge must distinguish share a value, or an input hashes to the empty value.
      Inputs differing only by the zero-fill are one input, and absorbing nothing is not hashing. */
  predicate Genuine(perm: Permutation, br: Break) {
    match br
    case Collision(iv1, a, iv2, b) =>
      a != [] && b != [] && (iv1 != iv2 || Fill(a) != Fill(b)) && Sponge(perm, iv1, a) == Sponge(perm, iv2, b)
    case Zero(iv, a) =>
      a != [] && Sponge(perm, iv, a) == 0
  }

  function NodeCollision(perm: Permutation, l1: Field, r1: Field, l2: Field, r2: Field): (br: Break)
    requires HashNode(perm, l1, r1) == HashNode(perm, l2, r2) && (l1 != l2 || r1 != r2)
    ensures Genuine(perm, br)
  {
    assert Fill([l1, r1])[0] == l1 && Fill([l1, r1])[1] == r1;
    assert Fill([l2, r2])[0] == l2 && Fill([l2, r2])[1] == r2;
    Collision(IV_NODE, [l1, r1], IV_NODE, [l2, r2])
  }

  function LeafCollision(perm: Permutation, v: Bytes, w: Bytes): (br: Break)
    requires |v| < TWO64 && |w| < TWO64
    requires v != w && HashLeaf(perm, v) == HashLeaf(perm, w)
    ensures Genuine(perm, br)
  {
    EncodingInjective(v, w);
    Collision(IV_LEAF, LengthTagged(v), IV_LEAF, LengthTagged(w))
  }

  /** A leaf passed off as an inner node. */
  function CrossCollision(perm: Permutation, v: Bytes, l: Field, r: Field): (br: Break)
    requires HashLeaf(perm, v) == HashNode(perm, l, r)
    ensures Genuine(perm, br)
  {
    Collision(IV_LEAF, LengthTagged(v), IV_NODE, [l, r])
  }

  function ZeroLeaf(perm: Permutation, v: Bytes): (br: Break)
    requires HashLeaf(perm, v) == 0
    ensures Genuine(perm, br)
  {
    Zero(IV_LEAF, LengthTagged(v))
  }

  function ZeroNode(perm: Permutation, l: Field, r: Field): (br: Break)
    requires HashNode(perm, l, r) == 0
    ensures Genuine(perm, br)
  {
    Zero(IV_NODE, [l, r])
  }
}
