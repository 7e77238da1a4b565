/** The nine branch generators. Each is a method that drives a builder, as the source does,
    proved to emit the instruction list that the matching function names. */
module Covenant {
  import opened ByteStrings
  import opened Primitives
  import opened ScriptNumbers
  import opened ScriptVm
  import opened ScriptBytes
  import opened EscrowState

  const TX_ID_KEY: Bytes := [0x54, 0x72, 0x61, 0x6e, 0x73, 0x61, 0x63, 0x74, 0x69, 0x6f, 0x6e, 0x49, 0x44]
  const TERMINAL_PAYLOAD_BYTES: nat := 64
  const P2PK_PREFIX: Bytes := [0, 0, OP_DATA32]

  datatype Branch = Claim | Ship | Settle | AutoRelease | Dispute | ResolveToMaker | ResolveToBuyer | Slash | Refund

  function Selector(b: Branch): nat {
    match b
    case Claim => 0 case Ship => 1 case Settle => 2 case AutoRelease => 3 case Dispute => 4
    case ResolveToMaker => 5 case ResolveToBuyer => 6 case Slash => 7 case Refund => 8
  }

  function Num(n: int): Op {
    Push(EncodeNum(n))
  }

  // ----- instruction lists --------------------------------------------------

  function VerifyPrevState(): seq<Op> {
    [Code(OP_DUP), Code(OP_ROT), Code(OP_ROT), Code(OP_CAT), Push(TX_ID_KEY), Code(OP_BLAKE2B_WITH_KEY),
     Code(OP_TX_INPUT_INDEX), Code(OP_OUTPOINT_TX_ID), Code(OP_EQUAL_VERIFY)]
  }

  function NewField(start: nat, end: nat): seq<Op> {
    [Num(start), Num(end), Code(OP_TX_PAYLOAD_SUBSTR)]
  }

  function PrevField(start: nat, end: nat): seq<Op> {
    [Num(start), Num(end), Code(OP_SUBSTR)]
  }

  function MustEqual(want: Bytes): seq<Op> {
    [Push(want), Code(OP_EQUAL_VERIFY)]
  }

  function RequireNewField(start: nat, end: nat, want: Bytes): seq<Op> {
    NewField(start, end) + MustEqual(want)
  }

  function RequireNewFieldSet(start: nat, end: nat): seq<Op> {
    NewField(start, end) + [Push(Zeros(32)), Code(OP_EQUAL), Code(OP_NOT), Code(OP_VERIFY)]
  }

  function RequirePrevField(start: nat, end: nat, want: Bytes): seq<Op> {
    [Code(OP_DUP)] + PrevField(start, end) + MustEqual(want)
  }

  function RequirePrevPhaseAndJob(phase: Phase, id: Digest): seq<Op> {
    RequirePrevField(OFF_PHASE, OFF_PHASE + 1, [PhaseByte(phase)]) + RequirePrevField(OFF_TERMS, OFF_TERMS + 32, id)
  }

  function RequirePayloadLen(n: nat): seq<Op> {
    [Code(OP_TX_PAYLOAD_LEN), Num(n), Code(OP_NUM_EQUAL_VERIFY)]
  }

  function RequireKey(key: Digest): seq<Op> {
    [Push(key), Code(OP_CHECK_SIG_VERIFY)]
  }

  function RequireSameCovenant(): seq<Op> {
    [Code(OP_TX_INPUT_INDEX), Code(OP_TX_INPUT_SPK), Num(0), Code(OP_TX_OUTPUT_SPK), Code(OP_EQUAL_VERIFY)]
  }

  function SameAmount(): seq<Op> {
    [Num(0), Code(OP_TX_OUTPUT_AMOUNT), Code(OP_TX_INPUT_INDEX), Code(OP_TX_INPUT_AMOUNT), Code(OP_NUM_EQUAL)]
  }

  function AmountGrownBy(bond: nat): seq<Op> {
    [Num(0), Code(OP_TX_OUTPUT_AMOUNT), Code(OP_TX_INPUT_INDEX), Code(OP_TX_INPUT_AMOUNT),
     Num(AsI64(bond)), Code(OP_ADD), Code(OP_NUM_EQUAL)]
  }

  function RequireP2pkOutput(amount: nat): seq<Op> {
    [Push(P2PK_PREFIX), Code(OP_SWAP), Code(OP_CAT), Push([OP_CHECK_SIG]), Code(OP_CAT),
     Num(0), Code(OP_TX_OUTPUT_SPK), Code(OP_EQUAL_VERIFY),
     Num(0), Code(OP_TX_OUTPUT_AMOUNT), Num(AsI64(amount)), Code(OP_NUM_EQUAL_VERIFY)]
  }

  function RequireLockTime(deadline: nat): seq<Op> {
    [Num(AsI64(deadline)), Code(OP_CHECK_LOCK_TIME_VERIFY)]
  }

  function RequireSequence(delay: nat): seq<Op> {
    [Num(AsI64(delay)), Code(OP_CHECK_SEQUENCE_VERIFY)]
  }

  function Authenticate(phase: Phase, id: Digest): seq<Op> {
    VerifyPrevState() + RequirePrevPhaseAndJob(phase, id)
  }

  function ClaimOps(t: Terms, id: Digest): seq<Op> {
    Authenticate(Open, id) + [Code(OP_DROP)]
    + NewField(OFF_MAKER_REP, OFF_MAKER_REP + 32) + [Code(OP_CHECK_SIG_VERIFY)]
    + RequirePayloadLen(STATE_BYTES)
    + RequireNewField(0, OFF_TERMS, Header(Claimed))
    + RequireNewField(OFF_TERMS, OFF_TERMS + 32, id)
    + RequireNewFieldSet(OFF_MAKER, OFF_MAKER + 32)
    + RequireNewField(OFF_TRACKING, STATE_BYTES, Zeros(STATE_BYTES - OFF_TRACKING))
    + RequireSameCovenant() + AmountGrownBy(t.makerBond)
  }

  /** The recorded maker stays named and signs; the previous record is then dropped. */
  function MakerSigns(): seq<Op> {
    [Code(OP_DUP)] + PrevField(OFF_MAKER, OFF_MAKER + 32)
    + [Code(OP_DUP)] + NewField(OFF_MAKER, OFF_MAKER + 32) + [Code(OP_EQUAL_VERIFY)]
    + [Code(OP_ROT), Code(OP_SWAP), Code(OP_CHECK_SIG_VERIFY), Code(OP_DROP)]
  }

  function RequireShippedAt(): seq<Op> {
    [Code(OP_TX_LOCK_TIME), Num(8), Code(OP_NUM2BIN)]
    + NewField(OFF_SHIPPED_AT, OFF_SHIPPED_AT + 8) + [Code(OP_EQUAL_VERIFY)]
  }

  function ShipOps(id: Digest): seq<Op> {
    Authenticate(Claimed, id) + MakerSigns()
    + RequirePayloadLen(STATE_BYTES)
    + RequireNewField(0, OFF_TERMS, Header(Shipped))
    + RequireNewField(OFF_TERMS, OFF_TERMS + 32, id)
    + RequireNewFieldSet(OFF_TRACKING, OFF_TRACKING + 32)
    + RequireShippedAt()
    + RequireSameCovenant() + SameAmount()
  }

  function PayOut(amount: nat): seq<Op> {
    RequireP2pkOutput(amount) + [Push([1])]
  }

  function SettleOps(t: Terms, id: Digest): seq<Op> {
    Authenticate(Shipped, id) + PrevField(OFF_MAKER, OFF_MAKER + 32) + [Code(OP_SWAP)] + RequireKey(t.buyer)
    + RequirePayloadLen(TERMINAL_PAYLOAD_BYTES) + PayOut(ClaimedValue(t))
  }

  function RefundOps(t: Terms, id: Digest): seq<Op> {
    Authenticate(Open, id) + [Code(OP_DROP)] + RequireLockTime(t.deadline) + RequireKey(t.buyer)
    + RequirePayloadLen(0) + [Push(t.buyer)] + PayOut(t.reward)
  }

  function SlashOps(t: Terms, id: Digest): seq<Op> {
    Authenticate(Claimed, id) + [Code(OP_DROP)] + RequireLockTime(t.deadline) + RequireKey(t.buyer)
    + RequirePayloadLen(TERMINAL_PAYLOAD_BYTES) + [Push(t.buyer)] + PayOut(ClaimedValue(t))
  }

  /** Take the maker out of the record and check the maker's own signature below it. */
  function KeyedByMaker(): seq<Op> {
    [Code(OP_DUP), Code(OP_ROT), Code(OP_SWAP), Code(OP_CHECK_SIG_VERIFY)]
  }

  function AutoReleaseOps(t: Terms, id: Digest): seq<Op> {
    Authenticate(Shipped, id) + RequireSequence(t.autoReleaseDelay)
    + PrevField(OFF_MAKER, OFF_MAKER + 32) + KeyedByMaker()
    + RequirePayloadLen(TERMINAL_PAYLOAD_BYTES) + PayOut(ClaimedValue(t))
  }

  function DisputeOps(t: Terms, id: Digest): seq<Op> {
    Authenticate(Shipped, id)
    + PrevField(OFF_MAKER, STATE_BYTES) + NewField(OFF_MAKER, STATE_BYTES) + [Code(OP_EQUAL_VERIFY)]
    + RequireKey(t.buyer)
    + RequirePayloadLen(STATE_BYTES)
    + RequireNewField(0, OFF_TERMS, Header(Disputed))
    + RequireNewField(OFF_TERMS, OFF_TERMS + 32, id)
    + RequireSameCovenant() + SameAmount()
  }

  function Beneficiary(t: Terms, toMaker: bool): seq<Op> {
    if toMaker then KeyedByMaker() else [Code(OP_DROP)] + RequireKey(t.buyer) + [Push(t.buyer)]
  }

  function ResolveOps(t: Terms, id: Digest, arbiter: Digest, toMaker: bool): seq<Op> {
    Authenticate(Disputed, id) + PrevField(OFF_MAKER, OFF_MAKER + 32) + [Code(OP_SWAP)] + RequireKey(arbiter)
    + Beneficiary(t, toMaker)
    + RequirePayloadLen(TERMINAL_PAYLOAD_BYTES) + PayOut(ClaimedValue(t))
  }

  // ----- generators ---------------------------------------------------------

  method EmitVerifyPrevState(b: ScriptBuilder)
    requires b.Valid()
    modifies b
    ensures b.Valid() && b.ops == old(b.ops) + VerifyPrevState()
  {
    hide EncodeOps, EncodePush, EncodeNum;
    b.AddOp(OP_DUP);
    b.AddOp(OP_ROT);
    b.AddOp(OP_ROT);
    b.AddOp(OP_CAT);
    b.AddData(TX_ID_KEY);
    b.AddOp(OP_BLAKE2B_WITH_KEY);
    b.AddOp(OP_TX_INPUT_INDEX);
    b.AddOp(OP_OUTPOINT_TX_ID);
    b.AddOp(OP_EQUAL_VERIFY);
  }

  method EmitNewField(b: ScriptBuilder, start: nat, end: nat)
    requires b.Valid()
    modifies b
    ensures b.Valid() && b.ops == old(b.ops) + NewField(start, end)
  {
    hide EncodeOps, EncodePush, EncodeNum;
    b.AddI64(start);
    b.AddI64(end);
    b.AddOp(OP_TX_PAYLOAD_SUBSTR);
  }

  method EmitPrevField(b: ScriptBuilder, start: nat, end: nat)
    requires b.Valid()
    modifies b
    ensures b.Valid() && b.ops == old(b.ops) + PrevField(start, end)
  {
    hide EncodeOps, EncodePush, EncodeNum;
    b.AddI64(start);
    b.AddI64(end);
    b.AddOp(OP_SUBSTR);
  }

  method EmitRequireNewField(b: ScriptBuilder, start: nat, end: nat, want: Bytes)
    requires b.Valid()
    modifies b
    ensures b.Valid() && b.ops == old(b.ops) + RequireNewField(start, end, want)
  {
    hide EncodeOps, EncodePush, EncodeNum;
    EmitNewField(b, start, end);
    b.AddData(want);
    b.AddOp(OP_EQUAL_VERIFY);
  }

  method EmitRequireNewFieldSet(b: ScriptBuilder, start: nat, end: nat)
    requires b.Valid()
    modifies b
    ensures b.Valid() && b.ops == old(b.ops) + RequireNewFieldSet(start, end)
  {
    hide EncodeOps, EncodePush, EncodeNum;
    EmitNewField(b, start, end);
    b.AddData(Zeros(32));
    b.AddOp(OP_EQUAL);
    b.AddOp(OP_NOT);
    b.AddOp(OP_VERIFY);
  }

  method EmitRequirePrevPhaseAndJob(b: ScriptBuilder, phase: Phase, id: Digest)
    requires b.Valid()
    modifies b
    ensures b.Valid() && b.ops == old(b.ops) + RequirePrevPhaseAndJob(phase, id)
  {
    hide EncodeOps, EncodePush, EncodeNum;
    b.AddOp(OP_DUP);
    EmitPrevField(b, OFF_PHASE, OFF_PHASE + 1);
    b.AddData([PhaseByte(phase)]);
    b.AddOp(OP_EQUAL_VERIFY);
    b.AddOp(OP_DUP);
    EmitPrevField(b, OFF_TERMS, OFF_TERMS + 32);
    b.AddData(id);
    b.AddOp(OP_EQUAL_VERIFY);
  }

  method EmitRequirePayloadLen(b: ScriptBuilder, n: nat)
    requires b.Valid()
    modifies b
    ensures b.Valid() && b.ops == old(b.ops) + RequirePayloadLen(n)
  {
    hide EncodeOps, EncodePush, EncodeNum;
    b.AddOp(OP_TX_PAYLOAD_LEN);
    b.AddI64(n);
    b.AddOp(OP_NUM_EQUAL_VERIFY);
  }

  method EmitRequireSameCovenant(b: ScriptBuilder)
    requires b.Valid()
    modifies b
    ensures b.Valid() && b.ops == old(b.ops) + RequireSameCovenant()
  {
    hide EncodeOps, EncodePush, EncodeNum;
    b.AddOp(OP_TX_INPUT_INDEX);
    b.AddOp(OP_TX_INPUT_SPK);
    b.AddI64(0);
    b.AddOp(OP_TX_OUTPUT_SPK);
    b.AddOp(OP_EQUAL_VERIFY);
  }

  method EmitSameAmount(b: ScriptBuilder)
    requires b.Valid()
    modifies b
    ensures b.Valid() && b.ops == old(b.ops) + SameAmount()
  {
    hide EncodeOps, EncodePush, EncodeNum;
    b.AddI64(0);
    b.AddOp(OP_TX_OUTPUT_AMOUNT);
    b.AddOp(OP_TX_INPUT_INDEX);
    b.AddOp(OP_TX_INPUT_AMOUNT);
    b.AddOp(OP_NUM_EQUAL);
  }

  method EmitPayOut(b: ScriptBuilder, amount: nat)
    requires b.Valid()
    modifies b
    ensures b.Valid() && b.ops == old(b.ops) + PayOut(amount)
  {
    hide EncodeOps, EncodePush, EncodeNum;
    b.AddData(P2PK_PREFIX);
    b.AddOp(OP_SWAP);
    b.AddOp(OP_CAT);
    b.AddData([OP_CHECK_SIG]);
    b.AddOp(OP_CAT);
    b.AddI64(0);
    b.AddOp(OP_TX_OUTPUT_SPK);
    b.AddOp(OP_EQUAL_VERIFY);
    b.AddI64(0);
    b.AddOp(OP_TX_OUTPUT_AMOUNT);
    b.AddI64(AsI64(amount));
    b.AddOp(OP_NUM_EQUAL_VERIFY);
    assert b.ops == old(b.ops) + RequireP2pkOutput(amount);
    b.AddData([1]);
  }

  method EmitKeyedByMaker(b: ScriptBuilder)
    requires b.Valid()
    modifies b
    ensures b.Valid() && b.ops == old(b.ops) + KeyedByMaker()
  {
    hide EncodeOps, EncodePush, EncodeNum;
    b.AddOp(OP_DUP);
    b.AddOp(OP_ROT);
    b.AddOp(OP_SWAP);
    b.AddOp(OP_CHECK_SIG_VERIFY);
  }

  method EmitRequireSequence(b: ScriptBuilder, delay: nat)
    requires b.Valid()
    modifies b
    ensures b.Valid() && b.ops == old(b.ops) + RequireSequence(delay)
  {
    hide EncodeOps, EncodePush, EncodeNum;
    b.AddI64(AsI64(delay));
    b.AddOp(OP_CHECK_SEQUENCE_VERIFY);
  }

  method EmitAuthenticate(b: ScriptBuilder, phase: Phase, id: Digest)
    requires b.Valid() && b.ops == []
    modifies b
    ensures b.Valid() && b.ops == Authenticate(phase, id)
  {
    hide EncodeOps, VerifyPrevState, RequirePrevPhaseAndJob;
    EmitVerifyPrevState(b);
    EmitRequirePrevPhaseAndJob(b, phase, id);
    assert [] + VerifyPrevState() == VerifyPrevState();
  }

  method EmitRequireKey(b: ScriptBuilder, key: Digest)
    requires b.Valid()
    modifies b
    ensures b.Valid() && b.ops == old(b.ops) + RequireKey(key)
  {
    hide EncodeOps, EncodePush;
    b.AddData(key);
    b.AddOp(OP_CHECK_SIG_VERIFY);
  }

  method EmitRequireLockTime(b: ScriptBuilder, deadline: nat)
    requires b.Valid()
    modifies b
    ensures b.Valid() && b.ops == old(b.ops) + RequireLockTime(deadline)
  {
    hide EncodeOps, EncodePush, EncodeNum;
    b.AddI64(AsI64(deadline));
    b.AddOp(OP_CHECK_LOCK_TIME_VERIFY);
  }

  method EmitAmountGrownBy(b: ScriptBuilder, bond: nat)
    requires b.Valid()
    modifies b
    ensures b.Valid() && b.ops == old(b.ops) + AmountGrownBy(bond)
  {
    hide EncodeOps, EncodePush, EncodeNum;
    b.AddI64(0);
    b.AddOp(OP_TX_OUTPUT_AMOUNT);
    b.AddOp(OP_TX_INPUT_INDEX);
    b.AddOp(OP_TX_INPUT_AMOUNT);
    b.AddI64(AsI64(bond));
    b.AddOp(OP_ADD);
    b.AddOp(OP_NUM_EQUAL);
  }

  method EmitMakerSigns(b: ScriptBuilder)
    requires b.Valid()
    modifies b
    ensures b.Valid() && b.ops == old(b.ops) + MakerSigns()
  {
    hide EncodeOps, EncodePush, EncodeNum, NewField, PrevField;
    b.AddOp(OP_DUP);
    EmitPrevField(b, OFF_MAKER, OFF_MAKER + 32);
    b.AddOp(OP_DUP);
    EmitNewField(b, OFF_MAKER, OFF_MAKER + 32);
    b.AddOp(OP_EQUAL_VERIFY);
    b.AddOp(OP_ROT);
    b.AddOp(OP_SWAP);
    b.AddOp(OP_CHECK_SIG_VERIFY);
    b.AddOp(OP_DROP);
  }

  method EmitRequireShippedAt(b: ScriptBuilder)
    requires b.Valid()
    modifies b
    ensures b.Valid() && b.ops == old(b.ops) + RequireShippedAt()
  {
    hide EncodeOps, EncodePush, EncodeNum, NewField;
    b.AddOp(OP_TX_LOCK_TIME);
    b.AddI64(8);
    b.AddOp(OP_NUM2BIN);
    EmitNewField(b, OFF_SHIPPED_AT, OFF_SHIPPED_AT + 8);
    b.AddOp(OP_EQUAL_VERIFY);
  }

  method EmitBeneficiary(b: ScriptBuilder, t: Terms, toMaker: bool)
    requires b.Valid()
    modifies b
    ensures b.Valid() && b.ops == old(b.ops) + Beneficiary(t, toMaker)
  {
    hide EncodeOps, EncodePush;
    if toMaker {
      EmitKeyedByMaker(b);
    } else {
      b.AddOp(OP_DROP);
      EmitRequireKey(b, t.buyer);
      b.AddData(t.buyer);
    }
  }

  // ----- the nine branches --------------------------------------------------

  method ClaimBranch(prims: Primitives, t: Terms) returns (code: Bytes)
    ensures code == EncodeOps(ClaimOps(t, TermsId(prims, t)))
  {
    hide EncodeOps, EncodePush, EncodeNum, Authenticate, NewField, PrevField, RequireNewField, RequireNewFieldSet;
    hide RequirePayloadLen, RequireKey, RequireSameCovenant, SameAmount, AmountGrownBy, MakerSigns;
    hide RequireShippedAt, PayOut, RequireLockTime, KeyedByMaker, Beneficiary;
    var id := TermsId(prims, t);
    var b := new ScriptBuilder();
    EmitAuthenticate(b, Open, id);
    b.AddOp(OP_DROP);
    EmitNewField(b, OFF_MAKER_REP, OFF_MAKER_REP + 32);
    b.AddOp(OP_CHECK_SIG_VERIFY);
    EmitRequirePayloadLen(b, STATE_BYTES);
    EmitRequireNewField(b, 0, OFF_TERMS, Header(Claimed));
    EmitRequireNewField(b, OFF_TERMS, OFF_TERMS + 32, id);
    EmitRequireNewFieldSet(b, OFF_MAKER, OFF_MAKER + 32);
    EmitRequireNewField(b, OFF_TRACKING, STATE_BYTES, Zeros(STATE_BYTES - OFF_TRACKING));
    EmitRequireSameCovenant(b);
    EmitAmountGrownBy(b, t.makerBond);
    code := b.bytes;
  }

  method ShipBranch(prims: Primitives, t: Terms) returns (code: Bytes)
    ensures code == EncodeOps(ShipOps(TermsId(prims, t)))
  {
    hide EncodeOps, EncodePush, EncodeNum, Authenticate, NewField, PrevField, RequireNewField, RequireNewFieldSet;
    hide RequirePayloadLen, RequireKey, RequireSameCovenant, SameAmount, AmountGrownBy, MakerSigns;
    hide RequireShippedAt, PayOut, RequireLockTime, KeyedByMaker, Beneficiary;
    var id := TermsId(prims, t);
    var b := new ScriptBuilder();
    EmitAuthenticate(b, Claimed, id);
    EmitMakerSigns(b);
    EmitRequirePayloadLen(b, STATE_BYTES);
    EmitRequireNewField(b, 0, OFF_TERMS, Header(Shipped));
    EmitRequireNewField(b, OFF_TERMS, OFF_TERMS + 32, id);
    EmitRequireNewFieldSet(b, OFF_TRACKING, OFF_TRACKING + 32);
    EmitRequireShippedAt(b);
    EmitRequireSameCovenant(b);
    EmitSameAmount(b);
    code := b.bytes;
  }

  method SettleBranch(prims: Primitives, t: Terms) returns (code: Bytes)
    ensures code == EncodeOps(SettleOps(t, TermsId(prims, t)))
  {
    hide EncodeOps, EncodePush, EncodeNum, Authenticate, NewField, PrevField, RequireNewField, RequireNewFieldSet;
    hide RequirePayloadLen, RequireKey, RequireSameCovenant, SameAmount, AmountGrownBy, MakerSigns;
    hide RequireShippedAt, PayOut, RequireLockTime, KeyedByMaker, Beneficiary;
    var id := TermsId(prims, t);
    var b := new ScriptBuilder();
    EmitAuthenticate(b, Shipped, id);
    EmitPrevField(b, OFF_MAKER, OFF_MAKER + 32);
    b.AddOp(OP_SWAP);
    EmitRequireKey(b, t.buyer);
    EmitRequirePayloadLen(b, TERMINAL_PAYLOAD_BYTES);
    EmitPayOut(b, ClaimedValue(t));
    code := b.bytes;
  }

  method RefundBranch(prims: Primitives, t: Terms) returns (code: Bytes)
    ensures code == EncodeOps(RefundOps(t, TermsId(prims, t)))
  {
    hide EncodeOps, EncodePush, EncodeNum, Authenticate, NewField, PrevField, RequireNewField, RequireNewFieldSet;
    hide RequirePayloadLen, RequireKey, RequireSameCovenant, SameAmount, AmountGrownBy, MakerSigns;
    hide RequireShippedAt, PayOut, RequireLockTime, KeyedByMaker, Beneficiary;
    var id := TermsId(prims, t);
    var b := new ScriptBuilder();
    EmitAuthenticate(b, Open, id);
    b.AddOp(OP_DROP);
    EmitRequireLockTime(b, t.deadline);
    EmitRequireKey(b, t.buyer);
    EmitRequirePayloadLen(b, 0);
    b.AddData(t.buyer);
    EmitPayOut(b, t.reward);
    code := b.bytes;
  }

  method SlashBranch(prims: Primitives, t: Terms) returns (code: Bytes)
    ensures code == EncodeOps(SlashOps(t, TermsId(prims, t)))
  {
    hide EncodeOps, EncodePush, EncodeNum, Authenticate, NewField, PrevField, RequireNewField, RequireNewFieldSet;
    hide RequirePayloadLen, RequireKey, RequireSameCovenant, SameAmount, AmountGrownBy, MakerSigns;
    hide RequireShippedAt, PayOut, RequireLockTime, KeyedByMaker, Beneficiary;
    var id := TermsId(prims, t);
    var b := new ScriptBuilder();
    EmitAuthenticate(b, Claimed, id);
    b.AddOp(OP_DROP);
    EmitRequireLockTime(b, t.deadline);
    EmitRequireKey(b, t.buyer);
    EmitRequirePayloadLen(b, TERMINAL_PAYLOAD_BYTES);
    b.AddData(t.buyer);
    EmitPayOut(b, ClaimedValue(t));
    code := b.bytes;
  }

  method AutoReleaseBranch(prims: Primitives, t: Terms) returns (code: Bytes)
    ensures code == EncodeOps(AutoReleaseOps(t, TermsId(prims, t)))
  {
    hide EncodeOps, EncodePush, EncodeNum, Authenticate, NewField, PrevField, RequireNewField, RequireNewFieldSet;
    hide RequirePayloadLen, RequireKey, RequireSameCovenant, SameAmount, AmountGrownBy, MakerSigns;
    hide RequireSequence, RequireShippedAt, PayOut, RequireLockTime, KeyedByMaker, Beneficiary;
    var id := TermsId(prims, t);
    var b := new ScriptBuilder();
    EmitAuthenticate(b, Shipped, id);
    EmitRequireSequence(b, t.autoReleaseDelay);
    EmitPrevField(b, OFF_MAKER, OFF_MAKER + 32);
    EmitKeyedByMaker(b);
    EmitRequirePayloadLen(b, TERMINAL_PAYLOAD_BYTES);
    EmitPayOut(b, ClaimedValue(t));
    code := b.bytes;
  }

  /** No arbiter, no dispute branch. */
  method DisputeBranch(prims: Primitives, t: Terms) returns (code: Option<Bytes>)
    ensures code == if t.arbiter.Some? then Some(EncodeOps(DisputeOps(t, TermsId(prims, t)))) else None
  {
    hide EncodeOps, EncodePush, EncodeNum, Authenticate, NewField, PrevField, RequireNewField, RequireNewFieldSet;
    hide RequirePayloadLen, RequireKey, RequireSameCovenant, SameAmount, AmountGrownBy, MakerSigns;
    hide RequireShippedAt, PayOut, RequireLockTime, KeyedByMaker, Beneficiary;
    if t.arbiter.None? {
      return None;
    }
    var id := TermsId(prims, t);
    var b := new ScriptBuilder();
    EmitAuthenticate(b, Shipped, id);
    EmitPrevField(b, OFF_MAKER, STATE_BYTES);
    EmitNewField(b, OFF_MAKER, STATE_BYTES);
    b.AddOp(OP_EQUAL_VERIFY);
    EmitRequireKey(b, t.buyer);
    EmitRequirePayloadLen(b, STATE_BYTES);
    EmitRequireNewField(b, 0, OFF_TERMS, Header(Disputed));
    EmitRequireNewField(b, OFF_TERMS, OFF_TERMS + 32, id);
    EmitRequireSameCovenant(b);
    EmitSameAmount(b);
    code := Some(b.bytes);
  }

  method ResolveBranch(prims: Primitives, t: Terms, toMaker: bool) returns (code: Option<Bytes>)
    ensures code == if t.arbiter.None? then None
                    else Some(EncodeOps(ResolveOps(t, TermsId(prims, t), t.arbiter.value, toMaker)))
  {
    hide EncodeOps, EncodePush, EncodeNum, Authenticate, NewField, PrevField, RequireNewField, RequireNewFieldSet;
    hide RequirePayloadLen, RequireKey, RequireSameCovenant, SameAmount, AmountGrownBy, MakerSigns;
    hide RequireShippedAt, PayOut, RequireLockTime, KeyedByMaker, Beneficiary;
    if t.arbiter.None? {
      return None;
    }
    var id := TermsId(prims, t);
    var b := new ScriptBuilder();
    EmitAuthenticate(b, Disputed, id);
    EmitPrevField(b, OFF_MAKER, OFF_MAKER + 32);
    b.AddOp(OP_SWAP);
    EmitRequireKey(b, t.arbiter.value);
    EmitBeneficiary(b, t, toMaker);
    EmitRequirePayloadLen(b, TERMINAL_PAYLOAD_BYTES);
    EmitPayOut(b, ClaimedValue(t));
    code := Some(b.bytes);
  }
}
