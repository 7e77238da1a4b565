/** The escrow's immutable terms and the 142-byte record carried in the payload. */
module EscrowState {
  import opened ByteStrings
  import opened Primitives

  // ----- terms --------------------------------------------------------------

  const TERMS_DOMAIN: string := "krep/escrow/v1/terms"

  datatype Terms = Terms(
    buyer: Digest,
    buyerRep: Digest,
    arbiter: Option<Digest>,
    reward: nat,
    makerBond: nat,
    deadline: nat,
    autoReleaseDelay: nat,
    fileHash: Digest)

  /** Every amount and time is an unsigned 64-bit number. */
  predicate WordSized(t: Terms) {
    t.reward < TWO64 && t.makerBond < TWO64 && t.deadline < TWO64 && t.autoReleaseDelay < TWO64
  }

  function OptionalKey(k: Option<Digest>): Digest {
    match k case Some(d) => d case None => Zeros(32)
  }

  function TermsBytes(t: Terms): (b: Bytes)
    ensures |b| == 162
  {
    [1] + t.buyer + t.buyerRep + [if t.arbiter.Some? then 1 else 0] + OptionalKey(t.arbiter)
    + LeBytes(t.reward, 8) + LeBytes(t.makerBond, 8) + LeBytes(t.deadline, 8) + LeBytes(t.autoReleaseDelay, 8)
    + t.fileHash
  }

  lemma TermsBytesInjective(s: Terms, t: Terms)
    requires WordSized(s) && WordSized(t)
    ensures TermsBytes(s) == TermsBytes(t) <==> s == t
  {
    if TermsBytes(s) == TermsBytes(t) {
      TermsFields(s);
      TermsFields(t);
      Pow256Values();
      LeInjective(s.reward, t.reward, 8);
      LeInjective(s.makerBond, t.makerBond, 8);
      LeInjective(s.deadline, t.deadline, 8);
      LeInjective(s.autoReleaseDelay, t.autoReleaseDelay, 8);
    }
  }

  lemma TermsFields(t: Terms)
    ensures var b := TermsBytes(t);
      && b[0] == 1 && b[1..33] == t.buyer && b[33..65] == t.buyerRep
      && b[65] == (if t.arbiter.Some? then 1 else 0) && b[66..98] == OptionalKey(t.arbiter)
      && b[98..106] == LeBytes(t.reward, 8) && b[106..114] == LeBytes(t.makerBond, 8)
      && b[114..122] == LeBytes(t.deadline, 8) && b[122..130] == LeBytes(t.autoReleaseDelay, 8)
      && b[130..162] == t.fileHash
  {
  }

  function TermsId(prims: Primitives, t: Terms): Digest {
    prims.blake3(TERMS_DOMAIN, TermsBytes(t))
  }

  /** Different terms have different ids, or these are two messages with one hash under the domain the ids use. */
  lemma TermsIdBinds(prims: Primitives, s: Terms, t: Terms)
    requires WordSized(s) && WordSized(t) && s != t
    ensures TermsBytes(s) != TermsBytes(t)
    ensures TermsId(prims, s) == TermsId(prims, t) <==>
            prims.blake3("krep/escrow/v1/terms", TermsBytes(s)) == prims.blake3("krep/escrow/v1/terms", TermsBytes(t))
  {
    hide TermsBytes;
    TermsBytesInjective(s, t);
  }

  /** What the escrow holds once claimed; the addition saturates. */
  function ClaimedValue(t: Terms): nat {
    if t.reward + t.makerBond < TWO64 then t.reward + t.makerBond else TWO64 - 1
  }

  /** The sum, unless it does not fit 64 bits. */
  lemma ClaimedValueSaturates(t: Terms)
    requires WordSized(t)
    ensures t.reward <= ClaimedValue(t) < TWO64 && t.makerBond <= ClaimedValue(t) <= t.reward + t.makerBond
    ensures ClaimedValue(t) == t.reward + t.makerBond || ClaimedValue(t) == TWO64 - 1
  {
  }

  // ----- the state record ---------------------------------------------------

  const STATE_BYTES: nat := 142
  const MAGIC: Bytes := [0x6b, 0x45, 0x53, 0x43]
  const VERSION: byte := 1
  const OFF_VERSION: nat := 4
  const OFF_PHASE: nat := 5
  const OFF_TERMS: nat := 6
  const OFF_MAKER: nat := 38
  const OFF_MAKER_REP: nat := 70
  const OFF_TRACKING: nat := 102
  const OFF_SHIPPED_AT: nat := 134

  datatype Phase = Open | Claimed | Shipped | Disputed

  function PhaseByte(p: Phase): byte {
    match p case Open => 0 case Claimed => 1 case Shipped => 2 case Disputed => 3
  }

  datatype EscrowState = EscrowState(
    phase: Phase,
    termsId: Digest,
    maker: Option<Digest>,
    makerRep: Option<Digest>,
    tracking: Option<Digest>,
    shippedAt: nat)

  datatype StateError =
    | BadLength(n: nat)
    | BadMagic
    | BadVersion(v: byte)
    | BadPhase(b: byte)
    | Malformed(why: string)
    | IllegalTransition(from: Phase, to: Phase)

  function OpenState(termsId: Digest): EscrowState {
    EscrowState(Open, termsId, None, None, None, 0)
  }

  function Header(p: Phase): (h: Bytes)
    ensures |h| == OFF_TERMS
  {
    MAGIC + [VERSION, PhaseByte(p)]
  }

  function EncodeState(s: EscrowState): (b: Bytes)
    ensures |b| == STATE_BYTES
  {
    Header(s.phase) + s.termsId + OptionalKey(s.maker) + OptionalKey(s.makerRep) + OptionalKey(s.tracking)
    + LeBytes(s.shippedAt, 8)
  }

  /** Copy `src` into `out` at `at`, where everything from there on is still zero. */
  method CopyInto(out: array<byte>, at: nat, src: Bytes)
    requires at + |src| <= out.Length && out[at..] == Zeros(out.Length - at)
    modifies out
    ensures out[..at + |src|] == old(out[..at]) + src
    ensures out[at + |src|..] == Zeros(out.Length - at - |src|)
  {
    for i := 0 to |src|
      invariant out[..at + i] == old(out[..at]) + src[..i]
      invariant out[at + i..] == Zeros(out.Length - at - i)
    {
      ghost var done, rest := out[..at + i], out[at + i..];
      out[at + i] := src[i];
      assert out[..at + i + 1] == done + [src[i]];
      assert out[at + i + 1..] == rest[1..];
      assert src[..i + 1] == src[..i] + [src[i]];
    }
    assert src[..|src|] == src;
  }

  /** An absent key leaves its slot zeroed. */
  method CopyKey(out: array<byte>, at: nat, key: Option<Digest>)
    requires at + 32 <= out.Length && out[at..] == Zeros(out.Length - at)
    modifies out
    ensures out[..at + 32] == old(out[..at]) + OptionalKey(key)
    ensures out[at + 32..] == Zeros(out.Length - at - 32)
  {
    if key.Some? {
      CopyInto(out, at, key.value);
    } else {
      assert out[..at + 32] == out[..at] + out[at..][..32];
      assert out[at + 32..] == out[at..][32..];
    }
  }

  /** Write each field at its fixed offset in a zeroed buffer. */
  method Encode(s: EscrowState) returns (out: array<byte>)
    ensures fresh(out) && out[..] == EncodeState(s)
  {
    hide LeBytes;
    out := new byte[STATE_BYTES](_ => 0);
    assert out[0..] == Zeros(STATE_BYTES);
    CopyInto(out, 0, MAGIC);
    CopyInto(out, OFF_VERSION, [VERSION]);
    CopyInto(out, OFF_PHASE, [PhaseByte(s.phase)]);
    assert out[..OFF_TERMS] == Header(s.phase);
    CopyInto(out, OFF_TERMS, s.termsId);
    CopyKey(out, OFF_MAKER, s.maker);
    CopyKey(out, OFF_MAKER_REP, s.makerRep);
    CopyKey(out, OFF_TRACKING, s.tracking);
    CopyInto(out, OFF_SHIPPED_AT, LeBytes(s.shippedAt, 8));
    assert out[..] == out[..STATE_BYTES];
  }

  function PhaseOf(b: byte): Option<Phase> {
    if b == 0 then Some(Open) else if b == 1 then Some(Claimed)
    else if b == 2 then Some(Shipped) else if b == 3 then Some(Disputed) else None
  }

  /** Fields that must agree with the phase. */
  function CheckInvariants(s: EscrowState): Result<(), StateError> {
    match s.phase
    case Open =>
      if s.maker.Some? || s.makerRep.Some? then Err(Malformed("OPEN escrow cannot name a maker"))
      else if s.tracking.Some? || s.shippedAt != 0 then Err(Malformed("OPEN escrow cannot be shipped"))
      else Ok(())
    case Claimed =>
      if s.maker.None? then Err(Malformed("CLAIMED escrow must name a maker"))
      else if s.makerRep.None? then Err(Malformed("CLAIMED escrow must name a maker pseudonym"))
      else if s.tracking.Some? || s.shippedAt != 0 then Err(Malformed("CLAIMED escrow cannot be shipped"))
      else Ok(())
    case _ =>
      if s.maker.None? || s.makerRep.None? then Err(Malformed("shipped escrow must name a maker"))
      else if s.tracking.None? then Err(Malformed("shipped escrow must carry a tracking hash"))
      else if s.shippedAt == 0 then Err(Malformed("shipped escrow must record when it shipped"))
      else Ok(())
  }

  function MayTransitionTo(s: EscrowState, next: Phase): Result<(), StateError> {
    if (s.phase == Open && next == Claimed) || (s.phase == Claimed && next == Shipped)
       || (s.phase == Shipped && next == Disputed)
    then Ok(()) else Err(IllegalTransition(s.phase, next))
  }

  /** All zeros stands for an absent key; anything else must parse as one. */
  function ReadKey(prims: Primitives, b: Digest, why: string): Result<Option<Digest>, StateError> {
    if b == Zeros(32) then Ok(None)
    else if prims.validKey(b) then Ok(Some(b))
    else Err(Malformed(why))
  }

  function DecodeState(prims: Primitives, b: Bytes): Result<EscrowState, StateError> {
    if |b| != STATE_BYTES then Err(BadLength(|b|))
    else if b[..OFF_VERSION] != MAGIC then Err(BadMagic)
    else if b[OFF_VERSION] != VERSION then Err(BadVersion(b[OFF_VERSION]))
    else match PhaseOf(b[OFF_PHASE])
      case None => Err(BadPhase(b[OFF_PHASE]))
      case Some(phase) =>
        match ReadKey(prims, b[OFF_MAKER..OFF_MAKER_REP], "maker is not a valid x-only pubkey")
        case Err(e) => Err(e)
        case Ok(maker) =>
          match ReadKey(prims, b[OFF_MAKER_REP..OFF_TRACKING], "maker_rep is not a valid x-only pubkey")
          case Err(e) => Err(e)
          case Ok(rep) =>
            var tracking := b[OFF_TRACKING..OFF_SHIPPED_AT];
            var state := EscrowState(phase, b[OFF_TERMS..OFF_MAKER], maker, rep,
                                     if tracking == Zeros(32) then None else Some(tracking),
                                     LeValue(b[OFF_SHIPPED_AT..]));
            match CheckInvariants(state)
            case Err(e) => Err(e)
            case Ok(_) => Ok(state)
  }

  /** Keys are real keys and the time is a 64-bit number: what the field types already promise. */
  predicate Representable(prims: Primitives, s: EscrowState) {
    && (s.maker.Some? ==> prims.validKey(s.maker.value))
    && (s.makerRep.Some? ==> prims.validKey(s.makerRep.value))
    && s.shippedAt < TWO64
  }

  lemma StateFields(s: EscrowState)
    ensures var b := EncodeState(s);
      && b[..OFF_TERMS] == Header(s.phase)
      && b[..OFF_VERSION] == MAGIC && b[OFF_VERSION] == VERSION && b[OFF_PHASE] == PhaseByte(s.phase)
      && b[OFF_TERMS..OFF_MAKER] == s.termsId
      && b[OFF_MAKER..OFF_MAKER_REP] == OptionalKey(s.maker)
      && b[OFF_MAKER_REP..OFF_TRACKING] == OptionalKey(s.makerRep)
      && b[OFF_TRACKING..OFF_SHIPPED_AT] == OptionalKey(s.tracking)
      && b[OFF_SHIPPED_AT..] == LeBytes(s.shippedAt, 8)
  {
  }

  /** Reading back: the all-zero tracking hash is read as none, everything else as written. */
  lemma DecodeReads(prims: Primitives, s: EscrowState)
    requires Representable(prims, s) && !prims.validKey(Zeros(32))
    ensures var read := s.(tracking := if s.tracking == Some(Zeros(32)) then None else s.tracking);
            DecodeState(prims, EncodeState(s)) ==
            match CheckInvariants(read) case Err(e) => Err(e) case Ok(_) => Ok(read)
  {
    hide EncodeState, LeBytes, LeValue, Header, CheckInvariants, ReadKey, OptionalKey;
    StateFields(s);
    Pow256Values();
    LeRoundTrip(s.shippedAt, 8);
    PhaseReads(s.phase);
    KeyReads(prims, s.maker, "maker is not a valid x-only pubkey");
    KeyReads(prims, s.makerRep, "maker_rep is not a valid x-only pubkey");
    TrackingReads(s.tracking);
  }

  lemma PhaseReads(p: Phase)
    ensures PhaseOf(PhaseByte(p)) == Some(p)
  {
  }

  lemma KeyReads(prims: Primitives, key: Option<Digest>, why: string)
    requires !prims.validKey(Zeros(32)) && (key.Some? ==> prims.validKey(key.value))
    ensures ReadKey(prims, OptionalKey(key), why) == Ok(key)
  {
  }

  lemma TrackingReads(k: Option<Digest>)
    ensures (if OptionalKey(k) == Zeros(32) then None else Some(OptionalKey(k))) ==
            (if k == Some(Zeros(32)) then None else k)
  {
  }

  /** A record survives being written and read exactly when it agrees with its phase and its
      tracking hash is not the all-zero string that stands for none. */
  lemma DecodeEncode(prims: Primitives, s: EscrowState)
    requires Representable(prims, s) && !prims.validKey(Zeros(32))
    ensures DecodeState(prims, EncodeState(s)) == Ok(s) <==>
            CheckInvariants(s).Ok? && s.tracking != Some(Zeros(32))
  {
    hide EncodeState, DecodeState, CheckInvariants;
    DecodeReads(prims, s);
  }

  lemma RecordPieces(b: Bytes)
    requires |b| == STATE_BYTES
    ensures b == b[..OFF_TERMS] + b[OFF_TERMS..OFF_MAKER] + b[OFF_MAKER..OFF_MAKER_REP]
                 + b[OFF_MAKER_REP..OFF_TRACKING] + b[OFF_TRACKING..OFF_SHIPPED_AT] + b[OFF_SHIPPED_AT..]
  {
  }

  /** Whatever decodes was written from the record it decodes to. */
  lemma EncodeDecode(prims: Primitives, b: Bytes)
    requires DecodeState(prims, b).Ok?
    ensures EncodeState(DecodeState(prims, b).value) == b
    ensures CheckInvariants(DecodeState(prims, b).value).Ok?
    ensures Representable(prims, DecodeState(prims, b).value)
  {
    hide LeBytes, LeValue;
    var s := DecodeState(prims, b).value;
    LeInverse(b[OFF_SHIPPED_AT..]);
    LeBound(b[OFF_SHIPPED_AT..]);
    Pow256Values();
    RecordPieces(b);
    assert b[..OFF_TERMS] == Header(s.phase) by {
      assert b[..OFF_TERMS] == b[..OFF_VERSION] + [b[OFF_VERSION], b[OFF_PHASE]];
    }
    assert OptionalKey(s.maker) == b[OFF_MAKER..OFF_MAKER_REP];
    assert OptionalKey(s.makerRep) == b[OFF_MAKER_REP..OFF_TRACKING];
    assert OptionalKey(s.tracking) == b[OFF_TRACKING..OFF_SHIPPED_AT];
  }
}
