/** The compiled covenant as one declarative contract: selector in, one branch's rule out. */
module CovenantContract {
  import opened ByteStrings
  import opened Primitives
  import opened ScriptNumbers
  import opened ScriptVm
  import opened ScriptBytes
  import opened EscrowState
  import opened Covenant
  import opened CovenantPieces
  import opened CovenantMeaning
  import opened Dispatcher

  /** Amounts and times survive the cast to a signed 64-bit number. */
  predicate SmallTerms(t: Terms) {
    t.reward + t.makerBond < TWO63 && t.deadline < TWO63 && t.autoReleaseDelay < TWO63
  }

  predicate Offered(t: Terms, b: Branch) {
    b in {Dispute, ResolveToMaker, ResolveToBuyer} ==> t.arbiter.Some?
  }

  /** The branch a selector item picks, if the terms offer it. */
  function BranchFor(t: Terms, sel: Bytes): (r: Option<Branch>)
    ensures r.Some? ==> Offered(t, r.value)
  {
    if sel == [] then Some(Claim)
    else if sel == [1] then Some(Ship)
    else if sel == [2] then Some(Settle)
    else if sel == [3] then Some(AutoRelease)
    else if sel == [7] then Some(Slash)
    else if sel == [8] then Some(Refund)
    else if t.arbiter.None? then None
    else if sel == [4] then Some(Dispute)
    else if sel == [5] then Some(ResolveToMaker)
    else if sel == [6] then Some(ResolveToBuyer)
    else None
  }

  predicate BranchRule(tx: Spend, t: Terms, id: Digest, b: Branch, s: Stack)
    requires InContext(tx) && Offered(t, b)
  {
    match b
    case Claim => ClaimRule(tx, t, id, s)
    case Ship => ShipRule(tx, id, s)
    case Settle => SettleRule(tx, t, id, s)
    case AutoRelease => AutoReleaseRule(tx, t, id, s)
    case Dispute => DisputeRule(tx, t, id, s)
    case ResolveToMaker => ResolveRule(tx, t, id, t.arbiter.value, true, s)
    case ResolveToBuyer => ResolveRule(tx, t, id, t.arbiter.value, false, s)
    case Slash => SlashRule(tx, t, id, s)
    case Refund => RefundRule(tx, t, id, s)
  }

  /** A script accepts when it parses, runs, closes every IF and leaves one true item. */
  predicate ScriptAccepts(tx: Spend, script: Bytes, s: Stack)
    requires InContext(tx)
  {
    match Parse(script)
    case None => false
    case Some(ops) =>
      match Exec(tx, ops, Machine(s, NoCond))
      case None => false
      case Some(m) => m.conds == NoCond && Accepting(Some(m.stack))
  }

  // ----- the emitted code is plain ------------------------------------------

  predicate Plain(ops: seq<Op>) {
    AllWellFormed(ops) && Straight(ops) && Short(ops)
  }

  const LONGEST_PUSH: nat := 75

  predicate Short(ops: seq<Op>) {
    forall i :: 0 <= i < |ops| && ops[i].Push? ==> |ops[i].data| <= LONGEST_PUSH
  }

  lemma PlainNums()
    ensures forall n: nat :: n < TWO63 ==> WellFormed(Num(n)) && !Conditional(Num(n)) && |EncodeNum(n)| <= 8
  {
    hide EncodeNum;
    forall n: nat | n < TWO63
      ensures WellFormed(Num(n)) && !Conditional(Num(n)) && |EncodeNum(n)| <= 8
    {
      NumRoundTrip(n);
    }
  }

  lemma PlainPieces(start: nat, end: nat, want: Bytes, n: nat)
    requires start < TWO32 && end < TWO32 && |want| <= LONGEST_PUSH && n < TWO63
    ensures Plain(NewField(start, end)) && Plain(PrevField(start, end)) && Plain(MustEqual(want))
    ensures Plain(RequireNewField(start, end, want)) && Plain(RequireNewFieldSet(start, end))
    ensures Plain(RequirePrevField(start, end, want))
    ensures Plain(RequirePayloadLen(n)) && Plain(RequireLockTime(n)) && Plain(RequireSequence(n))
    ensures Plain(AmountGrownBy(n)) && Plain(PayOut(n))
  {
    PlainFields(start, end, want);
    PlainNumbers(n);
  }

  lemma PlainFields(start: nat, end: nat, want: Bytes)
    requires start < TWO32 && end < TWO32 && |want| <= LONGEST_PUSH
    ensures Plain(NewField(start, end)) && Plain(PrevField(start, end)) && Plain(MustEqual(want))
    ensures Plain(RequireNewField(start, end, want)) && Plain(RequireNewFieldSet(start, end))
    ensures Plain(RequirePrevField(start, end, want))
  {
    hide EncodeNum;
    PlainNums();
  }

  lemma PlainNumbers(n: nat)
    requires n < TWO63
    ensures Plain(RequirePayloadLen(n)) && Plain(RequireLockTime(n)) && Plain(RequireSequence(n))
    ensures Plain(AmountGrownBy(n)) && Plain(PayOut(n))
  {
    hide EncodeNum;
    PlainNums();
  }

  lemma PlainFixed(key: Digest, phase: Phase, id: Digest)
    ensures Plain(VerifyPrevState()) && Plain(RequireKey(key)) && Plain(RequireSameCovenant()) && Plain(SameAmount())
    ensures Plain(KeyedByMaker()) && Plain([Push(key)])
    ensures Plain([Code(OP_DROP)]) && Plain([Code(OP_DUP)]) && Plain([Code(OP_SWAP)])
    ensures Plain([Code(OP_CHECK_SIG_VERIFY)]) && Plain([Code(OP_EQUAL_VERIFY)])
    ensures Plain(Authenticate(phase, id))
  {
    hide EncodeNum, RequirePrevField;
    PlainNums();
    var phaseByte := [PhaseByte(phase)];
    PlainPieces(OFF_PHASE, OFF_PHASE + 1, phaseByte, 0);
    PlainPieces(OFF_TERMS, OFF_TERMS + 32, id, 0);
  }

  lemma PlainMakerCode()
    ensures Plain(MakerSigns()) && Plain(RequireShippedAt())
  {
    hide EncodeNum, NewField, PrevField;
    PlainNums();
    PlainPieces(OFF_MAKER, OFF_MAKER + 32, [], 0);
    PlainPieces(OFF_SHIPPED_AT, OFF_SHIPPED_AT + 8, [], 0);
  }

  lemma PlainOpening(t: Terms, id: Digest)
    requires SmallTerms(t)
    ensures Plain(ClaimOps(t, id)) && Plain(ShipOps(id)) && Plain(DisputeOps(t, id))
  {
    hide EncodeNum, NewField, PrevField, RequireNewField, RequireNewFieldSet, RequirePayloadLen, RequireKey;
    hide RequireSameCovenant, SameAmount, AmountGrownBy, MakerSigns, RequireShippedAt, Authenticate, Header;
    PlainFixed(t.buyer, Open, id);
    PlainFixed(t.buyer, Claimed, id);
    PlainFixed(t.buyer, Shipped, id);
    PlainMakerCode();
    PlainPieces(OFF_MAKER_REP, OFF_MAKER_REP + 32, [], t.makerBond);
    PlainPieces(0, OFF_TERMS, Header(Claimed), STATE_BYTES);
    PlainPieces(0, OFF_TERMS, Header(Shipped), STATE_BYTES);
    PlainPieces(0, OFF_TERMS, Header(Disputed), STATE_BYTES);
    PlainPieces(OFF_TERMS, OFF_TERMS + 32, id, 0);
    PlainPieces(OFF_MAKER, OFF_MAKER + 32, [], 0);
    PlainPieces(OFF_MAKER, STATE_BYTES, [], 0);
    PlainPieces(OFF_TRACKING, OFF_TRACKING + 32, [], 0);
    PlainPieces(OFF_TRACKING, STATE_BYTES, Zeros(STATE_BYTES - OFF_TRACKING), 0);
  }

  lemma PlainTimed(t: Terms, id: Digest)
    requires SmallTerms(t)
    ensures Plain(RefundOps(t, id)) && Plain(SlashOps(t, id)) && Plain(AutoReleaseOps(t, id))
  {
    hide EncodeNum, PrevField, RequirePayloadLen, RequireKey, RequireLockTime, RequireSequence, PayOut;
    hide KeyedByMaker, Authenticate;
    PlainFixed(t.buyer, Open, id);
    PlainFixed(t.buyer, Claimed, id);
    PlainFixed(t.buyer, Shipped, id);
    PlainPieces(OFF_MAKER, OFF_MAKER + 32, [], ClaimedValue(t));
    PlainPieces(OFF_MAKER, OFF_MAKER + 32, [], t.reward);
    PlainPieces(OFF_MAKER, OFF_MAKER + 32, [], t.deadline);
    PlainPieces(OFF_MAKER, OFF_MAKER + 32, [], t.autoReleaseDelay);
    PlainPieces(OFF_MAKER, OFF_MAKER + 32, [], TERMINAL_PAYLOAD_BYTES);
    PlainPieces(OFF_MAKER, OFF_MAKER + 32, [], 0);
  }

  lemma PlainSettle(t: Terms, id: Digest)
    requires SmallTerms(t)
    ensures Plain(SettleOps(t, id))
  {
    hide EncodeNum, PrevField, RequirePayloadLen, RequireKey, PayOut, KeyedByMaker, Authenticate;
    PlainFixed(t.buyer, Shipped, id);
    PlainPieces(OFF_MAKER, OFF_MAKER + 32, [], ClaimedValue(t));
    PlainPieces(OFF_MAKER, OFF_MAKER + 32, [], TERMINAL_PAYLOAD_BYTES);
  }

  lemma PlainBeneficiary(t: Terms, toMaker: bool)
    ensures Plain(Beneficiary(t, toMaker))
  {
    hide RequireKey, KeyedByMaker;
    PlainFixed(t.buyer, Disputed, t.buyer);
  }

  lemma PlainResolve(t: Terms, id: Digest, arbiter: Digest, toMaker: bool)
    requires SmallTerms(t)
    ensures Plain(ResolveOps(t, id, arbiter, toMaker))
  {
    hide EncodeNum, PrevField, RequirePayloadLen, RequireKey, PayOut, Beneficiary, Authenticate;
    PlainFixed(arbiter, Disputed, id);
    PlainBeneficiary(t, toMaker);
    PlainPieces(OFF_MAKER, OFF_MAKER + 32, [], ClaimedValue(t));
    PlainPieces(OFF_MAKER, OFF_MAKER + 32, [], TERMINAL_PAYLOAD_BYTES);
  }

  ghost predicate PlainArms(arms: seq<Arm>) {
    forall i :: 0 <= i < |arms| ==> Plain(arms[i].code) && arms[i].selector < TWO63
  }

  lemma CovenantArmsPlain(t: Terms, id: Digest)
    requires SmallTerms(t)
    ensures PlainArms(ArmsOf(t, id))
  {
    hide ClaimOps, ShipOps, SettleOps, AutoReleaseOps, SlashOps, RefundOps, DisputeOps, ResolveOps, Plain;
    PlainOpening(t, id);
    PlainTimed(t, id);
    PlainSettle(t, id);
    PlainResolve(t, id, OptionalKey(t.arbiter), true);
    PlainResolve(t, id, OptionalKey(t.arbiter), false);
  }

  lemma {:induction false} NestWellFormed(arms: seq<Arm>)
    requires PlainArms(arms)
    ensures AllWellFormed(Nest(arms))
  {
    hide EncodeNum;
    if arms != [] {
      NestWellFormed(arms[1..]);
      PlainNums();
      assert Plain(arms[0].code);
      assert AllWellFormed(Head(arms[0].selector));
    }
  }

  // ----- the covenant is small ----------------------------------------------

  const LONGEST_ARM: nat := 100

  lemma {:induction false} ShortBytes(ops: seq<Op>)
    requires Short(ops)
    ensures |EncodeOps(ops)| <= (LONGEST_PUSH + 5) * |ops|
  {
    hide LeBytes;
    if ops != [] {
      ShortBytes(ops[1..]);
      assert |EncodeOp(ops[0])| <= LONGEST_PUSH + 5;
    }
  }

  lemma ArmsAreShort(t: Terms, id: Digest)
    ensures forall i :: 0 <= i < |ArmsOf(t, id)| ==> |ArmsOf(t, id)[i].code| <= LONGEST_ARM
  {
    hide Header;
  }

  lemma {:induction false} NestIsShort(arms: seq<Arm>)
    requires PlainArms(arms) && forall i :: 0 <= i < |arms| ==> |arms[i].code| <= LONGEST_ARM
    ensures Short(Nest(arms)) && |Nest(arms)| <= (LONGEST_ARM + 10) * |arms| + 1
  {
    hide EncodeNum;
    if arms != [] {
      NestIsShort(arms[1..]);
      PlainNums();
      assert Plain(arms[0].code);
    }
  }

  /** The compiled covenant fits a push whatever the terms. */
  lemma CovenantIsSmall(prims: Primitives, t: Terms)
    requires SmallTerms(t)
    ensures |CovenantBytes(prims, t)| < TWO32
  {
    hide ArmsOf, TermsId, Nest, EncodeOps, DispatchOps;
    var arms := ArmsOf(t, TermsId(prims, t));
    CovenantArmsPlain(t, TermsId(prims, t));
    ArmsAreShort(t, TermsId(prims, t));
    ArmsListed(t, TermsId(prims, t));
    FlatIsNested(arms);
    NestIsShort(arms);
    ShortBytes(Nest(arms));
  }

  // ----- the contract -------------------------------------------------------

  /** Parsing the emitted bytes gives back the nested chain, whatever the push data contains. */
  lemma CovenantParses(prims: Primitives, t: Terms)
    requires SmallTerms(t)
    ensures Parse(CovenantBytes(prims, t)) == Some(Nest(ArmsOf(t, TermsId(prims, t))))
  {
    hide ArmsOf, TermsId, Nest, Parse, EncodeOps, DispatchOps;
    var arms := ArmsOf(t, TermsId(prims, t));
    CovenantArmsPlain(t, TermsId(prims, t));
    FlatIsNested(arms);
    NestWellFormed(arms);
    ParseExactly(Nest(arms));
  }

  function CodeOf(t: Terms, id: Digest, b: Branch): seq<Op>
    requires Offered(t, b)
  {
    match b
    case Claim => ClaimOps(t, id)
    case Ship => ShipOps(id)
    case Settle => SettleOps(t, id)
    case AutoRelease => AutoReleaseOps(t, id)
    case Dispute => DisputeOps(t, id)
    case ResolveToMaker => ResolveOps(t, id, t.arbiter.value, true)
    case ResolveToBuyer => ResolveOps(t, id, t.arbiter.value, false)
    case Slash => SlashOps(t, id)
    case Refund => RefundOps(t, id)
  }

  lemma SmallNums()
    ensures EncodeNum(0) == []
    ensures forall k :: 1 <= k < 128 ==> EncodeNum(k) == [k]
  {
    forall k | 1 <= k < 128
      ensures EncodeNum(k) == [k]
    {
      assert Magnitude(k) == [k] by { assert Magnitude(k / 256) == []; }
    }
  }

  ghost predicate Distinct(arms: seq<Arm>) {
    forall i, j :: 0 <= i < j < |arms| ==> arms[i].selector != arms[j].selector
  }

  lemma ChooseIs(arms: seq<Arm>, i: nat)
    requires i < |arms| && Distinct(arms)
    ensures Choose(arms, arms[i].selector) == Some(arms[i].code)
  {
  }

  /** Where the generator puts each branch. */
  function ArmIndex(b: Branch): nat {
    match b
    case Claim => 0 case Ship => 1 case Settle => 2 case AutoRelease => 3 case Slash => 4 case Refund => 5
    case Dispute => 6 case ResolveToMaker => 7 case ResolveToBuyer => 8
  }

  lemma ArmsListed(t: Terms, id: Digest)
    ensures Distinct(ArmsOf(t, id))
    ensures |ArmsOf(t, id)| == if t.arbiter.Some? then 9 else 6
    ensures forall b :: Offered(t, b) ==>
      ArmIndex(b) < |ArmsOf(t, id)| && ArmsOf(t, id)[ArmIndex(b)] == Arm(Selector(b), CodeOf(t, id, b))
  {
    hide ClaimOps, ShipOps, SettleOps, AutoReleaseOps, SlashOps, RefundOps, DisputeOps, ResolveOps;
  }

  lemma BranchOfSelector(t: Terms, b: Branch)
    requires Offered(t, b)
    ensures BranchFor(t, if Selector(b) == 0 then [] else [Selector(b)]) == Some(b)
  {
  }

  /** Every arm is some offered branch. */
  lemma ArmIsBranch(t: Terms, id: Digest, i: nat)
    requires i < |ArmsOf(t, id)|
    ensures exists b :: Offered(t, b) && ArmsOf(t, id)[i].selector == Selector(b)
  {
    hide ArmsOf, CodeOf;
    ArmsListed(t, id);
    var b := if i == 0 then Claim else if i == 1 then Ship else if i == 2 then Settle
             else if i == 3 then AutoRelease else if i == 4 then Slash else if i == 5 then Refund
             else if i == 6 then Dispute else if i == 7 then ResolveToMaker else ResolveToBuyer;
    assert Offered(t, b) && ArmIndex(b) == i;
  }

  /** Each number picks its own branch, and only when the terms offer it. */
  lemma ChooseByNumber(t: Terms, id: Digest, k: int)
    requires 0 <= k < 128
    ensures Choose(ArmsOf(t, id), k) ==
            match BranchFor(t, if k == 0 then [] else [k])
            case None => None
            case Some(b) => Some(CodeOf(t, id, b))
  {
    hide ArmsOf, CodeOf, Choose;
    ArmsListed(t, id);
    match BranchFor(t, if k == 0 then [] else [k])
    case Some(b) =>
      ChooseIs(ArmsOf(t, id), ArmIndex(b));
    case None =>
      forall i | 0 <= i < |ArmsOf(t, id)|
        ensures ArmsOf(t, id)[i].selector != k
      {
        ArmIsBranch(t, id, i);
        var b :| Offered(t, b) && ArmsOf(t, id)[i].selector == Selector(b);
        BranchOfSelector(t, b);
      }
      NoArm(ArmsOf(t, id), k);
  }

  lemma OnlySmallSelectors(t: Terms, id: Digest, k: int)
    requires k < 0 || k >= 128
    ensures Choose(ArmsOf(t, id), k) == None
  {
    hide ArmsOf, Choose;
    forall i | 0 <= i < |ArmsOf(t, id)|
      ensures ArmsOf(t, id)[i].selector != k
    {
      ArmIsBranch(t, id, i);
    }
    NoArm(ArmsOf(t, id), k);
  }

  lemma NoArm(arms: seq<Arm>, k: int)
    requires forall i :: 0 <= i < |arms| ==> arms[i].selector != k
    ensures Choose(arms, k) == None
  {
  }

  lemma ChooseMeaning(t: Terms, id: Digest, sel: Bytes)
    requires DecodeNum(sel).Some?
    ensures Choose(ArmsOf(t, id), DecodeNum(sel).value) ==
            match BranchFor(t, sel) case None => None case Some(b) => Some(CodeOf(t, id, b))
  {
    hide CodeOf, ArmsOf, Choose, DecodeNum, EncodeNum;
    var k := DecodeNum(sel).value;
    SmallNums();
    DecodeUnique(sel);
    if 0 <= k < 128 {
      ChooseByNumber(t, id, k);
    } else {
      OnlySmallSelectors(t, id, k);
    }
    if BranchFor(t, sel).Some? {
      SelectorNumber(t, sel);
    }
  }

  lemma SelectorNumber(t: Terms, sel: Bytes)
    requires BranchFor(t, sel).Some?
    ensures sel == EncodeNum(Selector(BranchFor(t, sel).value))
    ensures DecodeNum(sel) == Some(Selector(BranchFor(t, sel).value))
  {
    hide DecodeNum, EncodeNum;
    SmallNums();
    NumRoundTrip(Selector(BranchFor(t, sel).value));
  }

  lemma BranchMeaning(tx: Spend, t: Terms, id: Digest, b: Branch, s: Stack)
    requires InContext(tx) && SmallTerms(t) && Offered(t, b)
    ensures Accepting(Run(tx, CodeOf(t, id, b), s)) <==> BranchRule(tx, t, id, b, s)
  {
    hide Run, ClaimOps, ShipOps, SettleOps, AutoReleaseOps, SlashOps, RefundOps, DisputeOps, ResolveOps;
    hide ClaimRule, ShipRule, SettleRule, AutoReleaseRule, SlashRule, RefundRule, DisputeRule, ResolveRule;
    match b
    case Claim => ClaimMeaning(tx, t, id, s);
    case Ship => ShipMeaning(tx, id, s);
    case Settle => SettleMeaning(tx, t, id, s);
    case AutoRelease => AutoReleaseMeaning(tx, t, id, s);
    case Dispute => DisputeMeaning(tx, t, id, s);
    case ResolveToMaker => ResolveMeaning(tx, t, id, t.arbiter.value, true, s);
    case ResolveToBuyer => ResolveMeaning(tx, t, id, t.arbiter.value, false, s);
    case Slash => SlashMeaning(tx, t, id, s);
    case Refund => RefundMeaning(tx, t, id, s);
  }

  /** The covenant, as bytes, accepts a spend exactly when the item on top selects a branch the
      terms offer and that branch's rule holds of the rest of the stack. */
  lemma CovenantMeans(tx: Spend, prims: Primitives, t: Terms, s: Stack)
    requires InContext(tx) && SmallTerms(t)
    ensures ScriptAccepts(tx, CovenantBytes(prims, t), s) <==>
            && s.On?
            && BranchFor(t, s.top).Some?
            && BranchRule(tx, t, TermsId(prims, t), BranchFor(t, s.top).value, s.below)
  {
    hide CovenantBytes, TermsId, ArmsOf, Nest, Parse, Exec, DecodeNum, BranchFor, BranchRule, Choose, Run, CodeOf;
    var id := TermsId(prims, t);
    var arms := ArmsOf(t, id);
    CovenantParses(prims, t);
    CovenantArmsPlain(t, id);
    assert StraightArms(arms);
    if s == Bottom || DecodeNum(s.top).None? {
      assert arms != [] by { ArmsExist(t, id); }
      DispatchNeedsNumber(tx, arms, s);
      if s.On? && BranchFor(t, s.top).Some? {
        SelectorNumber(t, s.top);
      }
    } else {
      DispatchRuns(tx, arms, s.top, s.below, NoCond);
      ChooseMeaning(t, id, s.top);
      match BranchFor(t, s.top)
      case None => Truths();
      case Some(b) => BranchMeaning(tx, t, id, b, s.below);
    }
  }

  lemma ArmsExist(t: Terms, id: Digest)
    ensures ArmsOf(t, id) != []
  {
  }
}
