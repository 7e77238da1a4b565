/** Attestations: what is signed, what is hashed into an id, and what makes one valid. */
module Attestation {
  import opened ByteStrings
  import opened Primitives
  import opened FieldHash

  const SIGN_DOMAIN: string := "krep/attest/v1/sign"
  const ID_DOMAIN: string := "krep/attest/v1/id"
  const COVENANT_ID_DOMAIN: string := "krep/attest/v2/covenant-id"
  const BODY_BYTES: nat := 152
  const OFF_ANCHOR_TXID: nat := 1
  const OFF_ANCHOR_INDEX: nat := 33
  const OFF_OWNER: nat := 38
  const OFF_OUTCOME: nat := 102

  type Signature = s: seq<byte> | |s| == 64 witness seq(64, _ => 0)

  datatype Role = Provider | Client

  datatype Outcome = Success | Default | DisputedResolved

  datatype Outpoint = Outpoint(txid: Digest, index: nat)

  datatype AttestationBody = AttestationBody(
    v: byte,
    anchor: Outpoint,
    role: Role,
    owner: Digest,
    counterparty: Digest,
    outcome: Outcome,
    amountBucket: byte,
    prev: Option<Digest>,
    index: nat,
    ts: nat)

  datatype CovenantWitness = CovenantWitness(redeemScript: Bytes, branch: byte, ownerOffset: nat)

  datatype Authorization =
    | CoSigned(sigOwner: Signature, sigCounterparty: Signature)
    | ByCovenant(cov: CovenantWitness)

  datatype Attestation = Attestation(body: AttestationBody, auth: Authorization)

  datatype KrepError =
    | BadSignature(why: string)
    | BadField(why: string)
    | ChainError(index: nat, reason: string)
    | AnchorUnknown(index: nat, reason: string)

  /** Numbers fit the widths their fields have, and a script fits in memory. */
  predicate FieldsFit(a: Attestation) {
    && a.body.anchor.index < TWO32 && a.body.index < TWO64 && a.body.ts < TWO64
    && (a.auth.ByCovenant? ==> |a.auth.cov.redeemScript| < TWO64 && a.auth.cov.ownerOffset < 0x1_0000)
  }

  // ----- bytes --------------------------------------------------------------

  function RoleByte(r: Role): byte {
    match r case Provider => 0 case Client => 1
  }

  function OutcomeByte(o: Outcome): byte {
    match o case Success => 0 case Default => 1 case DisputedResolved => 2
  }

  function PrevBytes(prev: Option<Digest>): Digest {
    match prev case Some(d) => d case None => Zeros(32)
  }

  /** Fixed field order, fixed widths, little-endian integers. */
  function BodyBytes(b: AttestationBody): (s: Bytes)
    ensures |s| == BODY_BYTES
  {
    AnchorPart(b) + PartiesPart(b) + LinkPart(b)
  }

  function AnchorPart(b: AttestationBody): (s: Bytes)
    ensures |s| == OFF_OWNER
  {
    [b.v] + b.anchor.txid + LeBytes(b.anchor.index, 4) + [RoleByte(b.role)]
  }

  function PartiesPart(b: AttestationBody): (s: Bytes)
    ensures |s| == 66
  {
    b.owner + b.counterparty + [OutcomeByte(b.outcome), b.amountBucket]
  }

  function LinkPart(b: AttestationBody): (s: Bytes)
    ensures |s| == 48
  {
    PrevBytes(b.prev) + LeBytes(b.index, 8) + LeBytes(b.ts, 8)
  }

  function WitnessBytes(w: CovenantWitness): Bytes {
    LeBytes(|w.redeemScript|, 8) + w.redeemScript + [w.branch] + LeBytes(w.ownerOffset, 2)
  }

  lemma PartFields(b: AttestationBody)
    ensures var s := AnchorPart(b);
      && s[0..1] == [b.v] && s[1..33] == b.anchor.txid
      && s[33..37] == LeBytes(b.anchor.index, 4) && s[37..38] == [RoleByte(b.role)]
    ensures var s := PartiesPart(b);
      && s[0..32] == b.owner && s[32..64] == b.counterparty
      && s[64..65] == [OutcomeByte(b.outcome)] && s[65..66] == [b.amountBucket]
    ensures var s := LinkPart(b);
      s[0..32] == PrevBytes(b.prev) && s[32..40] == LeBytes(b.index, 8) && s[40..48] == LeBytes(b.ts, 8)
  {
  }

  lemma BodyFields(b: AttestationBody)
    ensures var s := BodyBytes(b);
      && s[0..1] == [b.v] && s[OFF_ANCHOR_TXID..33] == b.anchor.txid
      && s[OFF_ANCHOR_INDEX..37] == LeBytes(b.anchor.index, 4)
      && s[37..38] == [RoleByte(b.role)] && s[OFF_OWNER..70] == b.owner && s[70..102] == b.counterparty
      && s[OFF_OUTCOME..103] == [OutcomeByte(b.outcome)] && s[103..104] == [b.amountBucket]
      && s[104..136] == PrevBytes(b.prev) && s[136..144] == LeBytes(b.index, 8) && s[144..152] == LeBytes(b.ts, 8)
  {
    hide AnchorPart, PartiesPart, LinkPart, LeBytes;
    PartFields(b);
    var x, y, z := AnchorPart(b), PartiesPart(b), LinkPart(b);
    SliceOfThree(x, y, z, 0, 1);
    SliceOfThree(x, y, z, 1, 33);
    SliceOfThree(x, y, z, 33, 37);
    SliceOfThree(x, y, z, 37, 38);
    SliceOfThree(x, y, z, 38, 70);
    SliceOfThree(x, y, z, 70, 102);
    SliceOfThree(x, y, z, 102, 103);
    SliceOfThree(x, y, z, 103, 104);
    SliceOfThree(x, y, z, 104, 136);
    SliceOfThree(x, y, z, 136, 144);
    SliceOfThree(x, y, z, 144, 152);
  }

  /** Role and outcome as single bytes. */
  lemma BodyTags(b: AttestationBody)
    ensures BodyBytes(b)[37] == (match b.role case Provider => 0 case Client => 1)
    ensures BodyBytes(b)[102] == (match b.outcome case Success => 0 case Default => 1 case DisputedResolved => 2)
  {
    hide BodyBytes;
    BodyFields(b);
    var s := BodyBytes(b);
    assert s[37] == s[37..38][0] && s[102] == s[OFF_OUTCOME..103][0];
  }

  function ValidateFields(b: AttestationBody): Result<(), KrepError> {
    if !(1 <= b.v <= 2) then Err(BadField("unsupported version"))
    else if !(1 <= b.amountBucket <= 4) then Err(BadField("amount_bucket must be 1..=4"))
    else if b.owner == b.counterparty then Err(BadField("owner == counterparty"))
    else if b.index == 0 && b.prev.Some? then Err(BadField("index 0 must have prev = null"))
    else if b.index > 0 && b.prev.None? then Err(BadField("index > 0 requires prev"))
    else Ok(())
  }

  /** What a body must be: a known version and bucket, two different parties, and a predecessor exactly when it is
      not the first. */
  predicate Sane(b: AttestationBody) {
    && (b.v == 1 || b.v == 2)
    && b.amountBucket in {1, 2, 3, 4}
    && b.owner != b.counterparty
    && (b.index == 0 <==> b.prev == None)
  }

  lemma ValidExactlyWhen(b: AttestationBody)
    ensures ValidateFields(b).Ok? <==> Sane(b)
  {
  }

  /** The encoding forgets one thing: whether `prev` was absent or all zeros. */
  lemma BodyBytesDetermine(a: AttestationBody, b: AttestationBody)
    requires a.anchor.index < TWO32 && b.anchor.index < TWO32
    requires a.index < TWO64 && b.index < TWO64 && a.ts < TWO64 && b.ts < TWO64
    ensures BodyBytes(a) == BodyBytes(b) <==>
            a.(prev := None) == b.(prev := None) && PrevBytes(a.prev) == PrevBytes(b.prev)
  {
    hide LeBytes;
    if BodyBytes(a) == BodyBytes(b) {
      hide BodyBytes;
      BodyFields(a);
      BodyFields(b);
      Pow256Values();
      LeInjective(a.anchor.index, b.anchor.index, 4);
      LeInjective(a.index, b.index, 8);
      LeInjective(a.ts, b.ts, 8);
    }
  }

  /** Validation settles that one thing, so on valid bodies the encoding is injective. */
  lemma ValidBodyBytesInjective(a: AttestationBody, b: AttestationBody)
    requires a.anchor.index < TWO32 && b.anchor.index < TWO32
    requires a.index < TWO64 && b.index < TWO64 && a.ts < TWO64 && b.ts < TWO64
    requires ValidateFields(a).Ok? && ValidateFields(b).Ok?
    ensures BodyBytes(a) == BodyBytes(b) <==> a == b
  {
    hide BodyBytes;
    BodyBytesDetermine(a, b);
    assert a == a.(prev := None).(prev := a.prev) && b == b.(prev := None).(prev := b.prev);
  }

  lemma WitnessBytesInjective(v: CovenantWitness, w: CovenantWitness)
    requires |v.redeemScript| < TWO64 && |w.redeemScript| < TWO64
    requires v.ownerOffset < 0x1_0000 && w.ownerOffset < 0x1_0000
    ensures WitnessBytes(v) == WitnessBytes(w) <==> v == w
  {
    hide LeBytes;
    if WitnessBytes(v) == WitnessBytes(w) {
      var tv := v.redeemScript + [v.branch] + LeBytes(v.ownerOffset, 2);
      var tw := w.redeemScript + [w.branch] + LeBytes(w.ownerOffset, 2);
      assert WitnessBytes(v) == LeBytes(|v.redeemScript|, 8) + tv;
      assert WitnessBytes(w) == LeBytes(|w.redeemScript|, 8) + tw;
      AppendEqual(LeBytes(|v.redeemScript|, 8), tv, LeBytes(|w.redeemScript|, 8), tw);
      Pow256Values();
      LeInjective(|v.redeemScript|, |w.redeemScript|, 8);
      WitnessTail(v, w);
    }
  }

  /** The script behind its length, then the branch, then where the owner's key is recorded. */
  lemma WitnessFields(w: CovenantWitness)
    ensures var b, n := WitnessBytes(w), |w.redeemScript|;
      && |b| == n + 11 && b[..8] == LeBytes(n, 8) && b[8..8 + n] == w.redeemScript
      && b[8 + n] == w.branch && b[9 + n..] == LeBytes(w.ownerOffset, 2)
  {
    hide LeBytes;
  }

  lemma WitnessTail(v: CovenantWitness, w: CovenantWitness)
    requires |v.redeemScript| == |w.redeemScript|
    requires v.ownerOffset < 0x1_0000 && w.ownerOffset < 0x1_0000
    requires v.redeemScript + [v.branch] + LeBytes(v.ownerOffset, 2) ==
             w.redeemScript + [w.branch] + LeBytes(w.ownerOffset, 2)
    ensures v == w
  {
    hide LeBytes;
    AppendEqual(v.redeemScript + [v.branch], LeBytes(v.ownerOffset, 2), w.redeemScript + [w.branch],
                LeBytes(w.ownerOffset, 2));
    AppendEqual(v.redeemScript, [v.branch], w.redeemScript, [w.branch]);
    Pow256Values();
    LeInjective(v.ownerOffset, w.ownerOffset, 2);
    assert [v.branch][0] == [w.branch][0];
  }

  // ----- ids ----------------------------------------------------------------

  /** What gets hashed: derive-key hashing for v1 and covenant ids, the sponge for v2. */
  datatype Preimage = Derived(domain: string, bytes: Bytes) | Sponged(bytes: Bytes)

  function PreimageOf(a: Attestation): Preimage {
    match a.auth
    case CoSigned(s, t) =>
      if a.body.v >= 2 then Sponged(BodyBytes(a.body) + s + t)
      else Derived(ID_DOMAIN, BodyBytes(a.body) + s + t)
    case ByCovenant(w) => Derived(COVENANT_ID_DOMAIN, BodyBytes(a.body) + WitnessBytes(w))
  }

  function HashPreimage(prims: Primitives, p: Preimage): Digest {
    match p
    case Derived(domain, bytes) => prims.blake3(domain, bytes)
    case Sponged(bytes) => HashTaggedBytes(prims.perm, ID_DOMAIN_V2, bytes)
  }

  function Id(prims: Primitives, a: Attestation): Digest {
    HashPreimage(prims, PreimageOf(a))
  }

  /** Which hash an id is: by version for co-signed bodies, with a domain of its own for covenant entries. */
  lemma IdsAre(prims: Primitives, a: Attestation)
    ensures a.auth.CoSigned? ==>
      var m := BodyBytes(a.body) + a.auth.sigOwner + a.auth.sigCounterparty;
      Id(prims, a) == if a.body.v < 2 then prims.blake3("krep/attest/v1/id", m)
                      else ToBe32(Sponge(prims.perm, 0x6b7265702f61762f32, LengthTagged(m)))
    ensures a.auth.ByCovenant? ==>
      Id(prims, a) == prims.blake3("krep/attest/v2/covenant-id", BodyBytes(a.body) + WitnessBytes(a.auth.cov))
  {
    hide BodyBytes, WitnessBytes, Sponge;
  }

  function SigningDigest(prims: Primitives, b: AttestationBody): Digest {
    prims.blake3(SIGN_DOMAIN, BodyBytes(b))
  }

  /** Field sanity, plus what can be checked without a node. */
  function VerifyOne(prims: Primitives, a: Attestation): Result<(), KrepError> {
    match ValidateFields(a.body)
    case Err(e) => Err(e)
    case Ok(_) =>
      match a.auth
      case CoSigned(s, t) =>
        if !prims.schnorr(s, SigningDigest(prims, a.body), a.body.owner) then Err(BadSignature("owner"))
        else if !prims.schnorr(t, SigningDigest(prims, a.body), a.body.counterparty)
          then Err(BadSignature("counterparty"))
        else Ok(())
      case ByCovenant(w) =>
        if w.redeemScript == [] then Err(BadField("covenant witness has no redeem script"))
        else if a.body.outcome == Success then Err(BadField("a Success attestation must be co-signed"))
        else Ok(())
  }

  /** Both named parties signed this body. */
  predicate BothSigned(prims: Primitives, a: Attestation) {
    && a.auth.CoSigned?
    && var digest := prims.blake3("krep/attest/v1/sign", BodyBytes(a.body));
       && prims.schnorr(a.auth.sigOwner, digest, a.body.owner)
       && prims.schnorr(a.auth.sigCounterparty, digest, a.body.counterparty)
  }

  /** A covenant stands in for the signatures, for anything but praise. */
  predicate CovenantSpeaks(a: Attestation) {
    a.auth.ByCovenant? && |a.auth.cov.redeemScript| > 0 && a.body.outcome != Success
  }

  /** An attestation is accepted exactly when its body is sane and both parties signed it, or a covenant speaks for
      an outcome the subject would not sign. */
  lemma AcceptedExactlyWhen(prims: Primitives, a: Attestation)
    ensures VerifyOne(prims, a).Ok? <==> Sane(a.body) && (BothSigned(prims, a) || CovenantSpeaks(a))
  {
    hide BodyBytes, ValidateFields, Sane;
    ValidExactlyWhen(a.body);
  }

  /** Across all three id schemes, a valid attestation is determined by what its id hashes. */
  lemma PreimageInjective(a: Attestation, b: Attestation)
    requires FieldsFit(a) && FieldsFit(b)
    requires ValidateFields(a.body).Ok? && ValidateFields(b.body).Ok?
    ensures PreimageOf(a) == PreimageOf(b) <==> a == b
  {
    hide BodyBytes, WitnessBytes, ValidateFields;
    if PreimageOf(a) == PreimageOf(b) {
      DomainsDiffer();
      match (a.auth, b.auth)
      case (CoSigned(s, t), CoSigned(u, v)) =>
        AppendEqual(BodyBytes(a.body) + s, t, BodyBytes(b.body) + u, v);
        AppendEqual(BodyBytes(a.body), s, BodyBytes(b.body), u);
        ValidBodyBytesInjective(a.body, b.body);
      case (ByCovenant(x), ByCovenant(y)) =>
        AppendEqual(BodyBytes(a.body), WitnessBytes(x), BodyBytes(b.body), WitnessBytes(y));
        ValidBodyBytesInjective(a.body, b.body);
        WitnessBytesInjective(x, y);
      case _ =>
    }
  }

  lemma DomainsDiffer()
    ensures ID_DOMAIN != COVENANT_ID_DOMAIN
  {
    assert |ID_DOMAIN| != |COVENANT_ID_DOMAIN|;
  }

  // ----- what one id for two messages means ----------------------------------

  /** Evidence against the hashes behind an id, on the primitives themselves. */
  datatype IdBreak =
    | Derive(d1: string, b1: Bytes, d2: string, b2: Bytes)
    | InSponge(br: Break)
    /** A derived hash that is also a squeezed field element. */
    | Across(domain: string, bytes: Bytes, message: Bytes)

  predicate GenuineIdBreak(prims: Primitives, x: IdBreak) {
    match x
    case Derive(d1, b1, d2, b2) => (d1 != d2 || b1 != b2) && prims.blake3(d1, b1) == prims.blake3(d2, b2)
    case InSponge(br) => Genuine(prims.perm, br)
    case Across(domain, bytes, message) =>
      prims.blake3(domain, bytes) == ToBe32(Sponge(prims.perm, ID_DOMAIN_V2, LengthTagged(message)))
  }

  lemma V2MessageIsShort(a: Attestation)
    ensures PreimageOf(a).Sponged? ==> |PreimageOf(a).bytes| < TWO64
  {
    hide BodyBytes, WitnessBytes;
  }

  /** Two attestations that hash different messages to one id break blake3 or the sponge, or make one meet the
      other. */
  function IdsMeet(prims: Primitives, a: Attestation, b: Attestation): (x: IdBreak)
    requires PreimageOf(a) != PreimageOf(b) && Id(prims, a) == Id(prims, b)
    ensures GenuineIdBreak(prims, x)
  {
    hide PreimageOf, Genuine;
    V2MessageIsShort(a);
    V2MessageIsShort(b);
    match (PreimageOf(a), PreimageOf(b))
    case (Derived(d1, b1), Derived(d2, b2)) => Derive(d1, b1, d2, b2)
    case (Sponged(x), Sponged(y)) => InSponge(SpongedCollision(prims.perm, x, y))
    case (Derived(d, x), Sponged(y)) => Across(d, x, y)
    case (Sponged(x), Derived(d, y)) => Across(d, y, x)
  }

  /** Two different v2 messages with one id collide inside the sponge itself. */
  function SpongedCollision(perm: Permutation, a: Bytes, b: Bytes): (br: Break)
    requires |a| < TWO64 && |b| < TWO64 && a != b
    requires HashTaggedBytes(perm, ID_DOMAIN_V2, a) == HashTaggedBytes(perm, ID_DOMAIN_V2, b)
    ensures Genuine(perm, br)
  {
    ToBe32Injective(Sponge(perm, ID_DOMAIN_V2, LengthTagged(a)), Sponge(perm, ID_DOMAIN_V2, LengthTagged(b)));
    EncodingInjective(a, b);
    Collision(ID_DOMAIN_V2, LengthTagged(a), ID_DOMAIN_V2, LengthTagged(b))
  }
}
