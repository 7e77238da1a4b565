/** Each branch's code accepts exactly the spends its declarative rule describes, from any stack. */
module CovenantMeaning {
  import opened ByteStrings
  import opened ScriptNumbers
  import opened ScriptVm
  import opened EscrowState
  import opened Covenant
  import opened CovenantPieces

  // ----- rules --------------------------------------------------------------

  /** The payload is a full state record of this job in the given phase. */
  predicate NewRecord(tx: Spend, phase: Phase, id: Digest) {
    |tx.payload| == STATE_BYTES && tx.payload[..OFF_TERMS] == Header(phase) && tx.payload[OFF_TERMS..OFF_MAKER] == id
  }

  predicate Keeps(tx: Spend)
    requires InContext(tx)
  {
    AmountsKnown(tx) && tx.outputs[0] == tx.inputs[tx.index].spent
  }

  predicate Prior(tx: Spend, rest: Bytes, payload: Bytes, phase: Phase, id: Digest)
    requires InContext(tx)
  {
    Authentic(tx, rest, payload) && RecordIs(payload, phase, id)
  }

  /** OPEN to CLAIMED: the new pseudonym signs, a payment key is named, nothing is shipped,
      and the value grows by the bond. */
  predicate ClaimRule(tx: Spend, t: Terms, id: Digest, s: Stack)
    requires InContext(tx)
  {
    match s
    case On(payload, On(rest, On(sig, Bottom))) =>
      && Prior(tx, rest, payload, Open, id)
      && NewRecord(tx, Claimed, id)
      && tx.sigOk(sig, tx.payload[OFF_MAKER_REP..OFF_TRACKING])
      && tx.payload[OFF_MAKER..OFF_MAKER_REP] != Zeros(32)
      && tx.payload[OFF_TRACKING..] == Zeros(40)
      && Continues(tx) && AmountsKnown(tx)
      && tx.outputs[0].amount == tx.inputs[tx.index].spent.amount + t.makerBond
    case _ => false
  }

  /** CLAIMED to SHIPPED: the recorded maker signs and stays named, a tracking hash appears,
      and the ship time is the lock time. */
  predicate ShipRule(tx: Spend, id: Digest, s: Stack)
    requires InContext(tx)
  {
    match s
    case On(payload, On(rest, On(sig, Bottom))) =>
      && Prior(tx, rest, payload, Claimed, id)
      && |payload| >= OFF_MAKER_REP
      && tx.sigOk(sig, payload[OFF_MAKER..OFF_MAKER_REP])
      && NewRecord(tx, Shipped, id)
      && tx.payload[OFF_MAKER..OFF_MAKER_REP] == payload[OFF_MAKER..OFF_MAKER_REP]
      && tx.payload[OFF_TRACKING..OFF_SHIPPED_AT] != Zeros(32)
      && tx.lockTime < TWO63 && tx.payload[OFF_SHIPPED_AT..] == LeBytes(tx.lockTime, 8)
      && Keeps(tx)
    case _ => false
  }

  /** SHIPPED to DISPUTED: the buyer signs and nothing but the phase changes. */
  predicate DisputeRule(tx: Spend, t: Terms, id: Digest, s: Stack)
    requires InContext(tx)
  {
    match s
    case On(payload, On(rest, On(sig, Bottom))) =>
      && Prior(tx, rest, payload, Shipped, id)
      && tx.sigOk(sig, t.buyer)
      && |payload| >= STATE_BYTES
      && NewRecord(tx, Disputed, id)
      && tx.payload[OFF_MAKER..] == payload[OFF_MAKER..STATE_BYTES]
      && Keeps(tx)
    case _ => false
  }

  /** Output 0 pays the key `amount` in full and the payload has room for two ids. */
  predicate PaysOut(tx: Spend, key: Bytes, amount: nat) {
    |tx.payload| == TERMINAL_PAYLOAD_BYTES && OutputIs(tx, P2pk(key), amount)
  }

  predicate SettleRule(tx: Spend, t: Terms, id: Digest, s: Stack)
    requires InContext(tx)
  {
    match s
    case On(payload, On(rest, On(sig, Bottom))) =>
      && Prior(tx, rest, payload, Shipped, id)
      && tx.sigOk(sig, t.buyer)
      && |payload| >= OFF_MAKER_REP
      && PaysOut(tx, payload[OFF_MAKER..OFF_MAKER_REP], ClaimedValue(t))
    case _ => false
  }

  predicate AutoReleaseRule(tx: Spend, t: Terms, id: Digest, s: Stack)
    requires InContext(tx)
  {
    match s
    case On(payload, On(rest, On(sig, Bottom))) =>
      && Prior(tx, rest, payload, Shipped, id)
      && SequenceMet(EncodeNum(AsI64(t.autoReleaseDelay)), tx.inputs[tx.index].sequence)
      && |payload| >= OFF_MAKER_REP
      && tx.sigOk(sig, payload[OFF_MAKER..OFF_MAKER_REP])
      && PaysOut(tx, payload[OFF_MAKER..OFF_MAKER_REP], ClaimedValue(t))
    case _ => false
  }

  predicate DeadlinePassed(tx: Spend, t: Terms)
    requires InContext(tx)
  {
    LockTimeMet(EncodeNum(AsI64(t.deadline)), tx.lockTime, tx.inputs[tx.index].sequence)
  }

  predicate SlashRule(tx: Spend, t: Terms, id: Digest, s: Stack)
    requires InContext(tx)
  {
    match s
    case On(payload, On(rest, On(sig, Bottom))) =>
      && Prior(tx, rest, payload, Claimed, id)
      && DeadlinePassed(tx, t)
      && tx.sigOk(sig, t.buyer)
      && PaysOut(tx, t.buyer, ClaimedValue(t))
    case _ => false
  }

  /** No trade happened: the payload is empty and only the reward moves. */
  predicate RefundRule(tx: Spend, t: Terms, id: Digest, s: Stack)
    requires InContext(tx)
  {
    match s
    case On(payload, On(rest, On(sig, Bottom))) =>
      && Prior(tx, rest, payload, Open, id)
      && DeadlinePassed(tx, t)
      && tx.sigOk(sig, t.buyer)
      && tx.payload == [] && OutputIs(tx, P2pk(t.buyer), t.reward)
    case _ => false
  }

  /** Who a resolution pays: the recorded maker or the buyer. */
  function Winner(t: Terms, payload: Bytes, toMaker: bool): Bytes
    requires |payload| >= OFF_MAKER_REP
  {
    if toMaker then payload[OFF_MAKER..OFF_MAKER_REP] else t.buyer
  }

  /** DISPUTED: the arbiter and the party being paid both sign. */
  predicate ResolveRule(tx: Spend, t: Terms, id: Digest, arbiter: Digest, toMaker: bool, s: Stack)
    requires InContext(tx)
  {
    match s
    case On(payload, On(rest, On(arbiterSig, On(sig, Bottom)))) =>
      && Prior(tx, rest, payload, Disputed, id)
      && |payload| >= OFF_MAKER_REP
      && tx.sigOk(arbiterSig, arbiter)
      && tx.sigOk(sig, Winner(t, payload, toMaker))
      && PaysOut(tx, Winner(t, payload, toMaker), ClaimedValue(t))
    case _ => false
  }

  lemma Truths()
    ensures IsTrue([1]) && !IsTrue([])
    ensures forall b: bool :: IsTrue(Truth(b)) <==> b
  {
    assert [1][0] != 0;
  }

  // ----- meanings -----------------------------------------------------------

  lemma ClaimMeaning(tx: Spend, t: Terms, id: Digest, s: Stack)
    requires InContext(tx) && t.makerBond < TWO63
    ensures Accepting(Run(tx, ClaimOps(t, id), s)) <==> ClaimRule(tx, t, id, s)
  {
    hide Run, Authenticate, NewField, RequirePayloadLen, RequireNewField, RequireNewFieldSet;
    hide RequireSameCovenant, AmountGrownBy, EncodeNum, Header, Authentic;
    var p1 := Authenticate(Open, id);
    var p2 := p1 + [Code(OP_DROP)];
    var p3 := p2 + NewField(OFF_MAKER_REP, OFF_MAKER_REP + 32);
    var p4 := p3 + [Code(OP_CHECK_SIG_VERIFY)];
    var p5 := p4 + RequirePayloadLen(STATE_BYTES);
    var p6 := p5 + RequireNewField(0, OFF_TERMS, Header(Claimed));
    var p7 := p6 + RequireNewField(OFF_TERMS, OFF_TERMS + 32, id);
    var p8 := p7 + RequireNewFieldSet(OFF_MAKER, OFF_MAKER + 32);
    var p9 := p8 + RequireNewField(OFF_TRACKING, STATE_BYTES, Zeros(STATE_BYTES - OFF_TRACKING));
    var p10 := p9 + RequireSameCovenant();
    RunCat(tx, p1, [Code(OP_DROP)], s);
    RunCat(tx, p2, NewField(OFF_MAKER_REP, OFF_MAKER_REP + 32), s);
    RunCat(tx, p3, [Code(OP_CHECK_SIG_VERIFY)], s);
    RunCat(tx, p4, RequirePayloadLen(STATE_BYTES), s);
    RunCat(tx, p5, RequireNewField(0, OFF_TERMS, Header(Claimed)), s);
    RunCat(tx, p6, RequireNewField(OFF_TERMS, OFF_TERMS + 32, id), s);
    RunCat(tx, p7, RequireNewFieldSet(OFF_MAKER, OFF_MAKER + 32), s);
    RunCat(tx, p8, RequireNewField(OFF_TRACKING, STATE_BYTES, Zeros(STATE_BYTES - OFF_TRACKING)), s);
    RunCat(tx, p9, RequireSameCovenant(), s);
    RunCat(tx, p10, AmountGrownBy(t.makerBond), s);
    AuthenticateRuns(tx, Open, id, s);
    if DoAuthenticate(tx, Open, id, s).None? {
      return;
    }
    var payload, below := s.top, s.below.below;
    SingleRuns(tx, Code(OP_DROP), On(payload, below));
    NewFieldRuns(tx, OFF_MAKER_REP, OFF_MAKER_REP + 32, below);
    if |tx.payload| < OFF_MAKER_REP + 32 {
      return;
    }
    var rep := tx.payload[OFF_MAKER_REP..OFF_MAKER_REP + 32];
    SingleRuns(tx, Code(OP_CHECK_SIG_VERIFY), On(rep, below));
    if below == Bottom || !tx.sigOk(below.top, rep) {
      return;
    }
    var s0 := below.below;
    RequirePayloadLenRuns(tx, STATE_BYTES, s0);
    RequireNewFieldRuns(tx, 0, OFF_TERMS, Header(Claimed), s0);
    RequireNewFieldRuns(tx, OFF_TERMS, OFF_TERMS + 32, id, s0);
    RequireNewFieldSetRuns(tx, OFF_MAKER, s0);
    RequireNewFieldRuns(tx, OFF_TRACKING, STATE_BYTES, Zeros(STATE_BYTES - OFF_TRACKING), s0);
    RequireSameCovenantRuns(tx, s0);
    AmountGrownByRuns(tx, t.makerBond, s0);
    Truths();
  }

  /** What the maker's own signature over a shipment comes down to. */
  function DoMakerSigns(tx: Spend, s: Stack): Option<Stack> {
    match s
    case On(payload, On(sig, below)) =>
      Guard(
        && |payload| >= OFF_MAKER_REP && |tx.payload| >= OFF_MAKER_REP
        && payload[OFF_MAKER..OFF_MAKER_REP] == tx.payload[OFF_MAKER..OFF_MAKER_REP]
        && tx.sigOk(sig, payload[OFF_MAKER..OFF_MAKER_REP]),
        below)
    case _ => None
  }

  lemma MakerSignsRuns(tx: Spend, s: Stack)
    requires InContext(tx)
    ensures Run(tx, MakerSigns(), s) == DoMakerSigns(tx, s)
  {
    hide Run, NewField, PrevField, EncodeNum;
    var dup := [Code(OP_DUP)];
    var last := [Code(OP_ROT), Code(OP_SWAP), Code(OP_CHECK_SIG_VERIFY), Code(OP_DROP)];
    var p2 := dup + PrevField(OFF_MAKER, OFF_MAKER + 32);
    var p3 := p2 + dup;
    var p4 := p3 + NewField(OFF_MAKER, OFF_MAKER + 32);
    var p5 := p4 + [Code(OP_EQUAL_VERIFY)];
    RunCat(tx, dup, PrevField(OFF_MAKER, OFF_MAKER + 32), s);
    RunCat(tx, p2, dup, s);
    RunCat(tx, p3, NewField(OFF_MAKER, OFF_MAKER + 32), s);
    RunCat(tx, p4, [Code(OP_EQUAL_VERIFY)], s);
    RunCat(tx, p5, last, s);
    SingleRuns(tx, Code(OP_DUP), s);
    if s == Bottom {
      return;
    }
    PrevFieldRuns(tx, OFF_MAKER, OFF_MAKER + 32, On(s.top, s));
    if |s.top| < OFF_MAKER_REP {
      return;
    }
    var maker := s.top[OFF_MAKER..OFF_MAKER_REP];
    SingleRuns(tx, Code(OP_DUP), On(maker, s));
    NewFieldRuns(tx, OFF_MAKER, OFF_MAKER + 32, On(maker, On(maker, s)));
    if |tx.payload| < OFF_MAKER_REP {
      return;
    }
    var named := tx.payload[OFF_MAKER..OFF_MAKER_REP];
    SingleRuns(tx, Code(OP_EQUAL_VERIFY), On(named, On(maker, On(maker, s))));
    if named == maker {
      LastMakerCheck(tx, maker, s);
    }
  }

  lemma LastMakerCheck(tx: Spend, maker: Bytes, s: Stack)
    requires InContext(tx) && s.On?
    ensures Run(tx, [Code(OP_ROT), Code(OP_SWAP), Code(OP_CHECK_SIG_VERIFY), Code(OP_DROP)], On(maker, s)) ==
            if s.below.On? then Guard(tx.sigOk(s.below.top, maker), s.below.below) else None
  {
    var ops := [Code(OP_ROT), Code(OP_SWAP), Code(OP_CHECK_SIG_VERIFY), Code(OP_DROP)];
    if s.below.On? {
      var sig, below := s.below.top, s.below.below;
      assert RunFrom(tx, ops, 2, On(maker, On(sig, On(s.top, below)))) == RunFrom(tx, ops, 0, On(maker, s));
      if tx.sigOk(sig, maker) {
        assert RunFrom(tx, ops, 3, On(s.top, below)) == RunFrom(tx, ops, 2, On(maker, On(sig, On(s.top, below))));
        RunLast(tx, ops, 3, On(s.top, below));
      }
    }
  }

  lemma KeyedByMakerRuns(tx: Spend, maker: Bytes, s: Stack)
    requires InContext(tx)
    ensures Run(tx, KeyedByMaker(), On(maker, s)) ==
            match s case On(sig, below) => Guard(tx.sigOk(sig, maker), On(maker, below)) case Bottom => None
  {
    var ops := KeyedByMaker();
    if s.On? {
      var sig, below := s.top, s.below;
      assert RunFrom(tx, ops, 2, On(sig, On(maker, On(maker, below)))) == RunFrom(tx, ops, 0, On(maker, s));
      assert RunFrom(tx, ops, 3, On(maker, On(sig, On(maker, below))))
          == RunFrom(tx, ops, 2, On(sig, On(maker, On(maker, below))));
      RunLast(tx, ops, 3, On(maker, On(sig, On(maker, below))));
    } else {
      assert RunFrom(tx, ops, 1, On(maker, On(maker, Bottom))) == None;
    }
  }

  lemma RequireShippedAtRuns(tx: Spend, s: Stack)
    requires InContext(tx)
    ensures Run(tx, RequireShippedAt(), s) ==
            Guard(tx.lockTime < TWO63 && Holds(tx.payload, OFF_SHIPPED_AT, OFF_SHIPPED_AT + 8,
                                               LeBytes(tx.lockTime, 8)), s)
  {
    hide EncodeNum, DecodeNum, LeBytes, LeValue, NewField;
    var first := [Code(OP_TX_LOCK_TIME), Num(8), Code(OP_NUM2BIN)];
    var p2 := first + NewField(OFF_SHIPPED_AT, OFF_SHIPPED_AT + 8);
    RunCat(tx, first, NewField(OFF_SHIPPED_AT, OFF_SHIPPED_AT + 8), s);
    RunCat(tx, p2, [Code(OP_EQUAL_VERIFY)], s);
    if tx.lockTime < TWO63 {
      NumRoundTrip(tx.lockTime);
      IndexOfNum(8);
      var two := On(EncodeNum(8), On(EncodeNum(tx.lockTime), s));
      assert RunFrom(tx, first, 2, two) == RunFrom(tx, first, 0, s);
      RunLast(tx, first, 2, two);
      var time := On(LeBytes(tx.lockTime, 8), s);
      NewFieldRuns(tx, OFF_SHIPPED_AT, OFF_SHIPPED_AT + 8, time);
      if OFF_SHIPPED_AT + 8 <= |tx.payload| {
        SingleRuns(tx, Code(OP_EQUAL_VERIFY), On(tx.payload[OFF_SHIPPED_AT..OFF_SHIPPED_AT + 8], time));
      }
    }
  }

  lemma ShipMeaning(tx: Spend, id: Digest, s: Stack)
    requires InContext(tx)
    ensures Accepting(Run(tx, ShipOps(id), s)) <==> ShipRule(tx, id, s)
  {
    hide Run, Authenticate, NewField, PrevField, RequirePayloadLen, RequireNewField, RequireNewFieldSet;
    hide RequireSameCovenant, SameAmount, PayOut, RequireKey, RequireLockTime, RequireSequence, KeyedByMaker;
    hide MakerSigns, RequireShippedAt, EncodeNum, Header, Authentic, P2pk, LockTimeMet, SequenceMet, LeBytes;
    var p1 := Authenticate(Claimed, id);
    var p2 := p1 + MakerSigns();
    var p3 := p2 + RequirePayloadLen(STATE_BYTES);
    var p4 := p3 + RequireNewField(0, OFF_TERMS, Header(Shipped));
    var p5 := p4 + RequireNewField(OFF_TERMS, OFF_TERMS + 32, id);
    var p6 := p5 + RequireNewFieldSet(OFF_TRACKING, OFF_TRACKING + 32);
    var p7 := p6 + RequireShippedAt();
    var p8 := p7 + RequireSameCovenant();
    RunCat(tx, p1, MakerSigns(), s);
    RunCat(tx, p2, RequirePayloadLen(STATE_BYTES), s);
    RunCat(tx, p3, RequireNewField(0, OFF_TERMS, Header(Shipped)), s);
    RunCat(tx, p4, RequireNewField(OFF_TERMS, OFF_TERMS + 32, id), s);
    RunCat(tx, p5, RequireNewFieldSet(OFF_TRACKING, OFF_TRACKING + 32), s);
    RunCat(tx, p6, RequireShippedAt(), s);
    RunCat(tx, p7, RequireSameCovenant(), s);
    RunCat(tx, p8, SameAmount(), s);
    AuthenticateRuns(tx, Claimed, id, s);
    if DoAuthenticate(tx, Claimed, id, s).None? {
      return;
    }
    var payload, below := s.top, s.below.below;
    var after := On(payload, below);
    MakerSignsRuns(tx, after);
    if DoMakerSigns(tx, after).None? {
      return;
    }
    var s0 := below.below;
    RequirePayloadLenRuns(tx, STATE_BYTES, s0);
    RequireNewFieldRuns(tx, 0, OFF_TERMS, Header(Shipped), s0);
    RequireNewFieldRuns(tx, OFF_TERMS, OFF_TERMS + 32, id, s0);
    RequireNewFieldSetRuns(tx, OFF_TRACKING, s0);
    RequireShippedAtRuns(tx, s0);
    RequireSameCovenantRuns(tx, s0);
    SameAmountRuns(tx, s0);
    Truths();
  }

  lemma SettleMeaning(tx: Spend, t: Terms, id: Digest, s: Stack)
    requires InContext(tx) && ClaimedValue(t) < TWO63
    ensures Accepting(Run(tx, SettleOps(t, id), s)) <==> SettleRule(tx, t, id, s)
  {
    hide Run, Authenticate, NewField, PrevField, RequirePayloadLen, RequireNewField, RequireNewFieldSet;
    hide RequireSameCovenant, SameAmount, PayOut, RequireKey, RequireLockTime, RequireSequence, KeyedByMaker;
    hide EncodeNum, Header, Authentic, P2pk, LockTimeMet, SequenceMet, LeBytes;
    var p1 := Authenticate(Shipped, id);
    var p2 := p1 + PrevField(OFF_MAKER, OFF_MAKER + 32);
    var p3 := p2 + [Code(OP_SWAP)];
    var p4 := p3 + RequireKey(t.buyer);
    var p5 := p4 + RequirePayloadLen(TERMINAL_PAYLOAD_BYTES);
    RunCat(tx, p1, PrevField(OFF_MAKER, OFF_MAKER + 32), s);
    RunCat(tx, p2, [Code(OP_SWAP)], s);
    RunCat(tx, p3, RequireKey(t.buyer), s);
    RunCat(tx, p4, RequirePayloadLen(TERMINAL_PAYLOAD_BYTES), s);
    RunCat(tx, p5, PayOut(ClaimedValue(t)), s);
    AuthenticateRuns(tx, Shipped, id, s);
    if DoAuthenticate(tx, Shipped, id, s).None? {
      return;
    }
    var payload, below := s.top, s.below.below;
    var after := On(payload, below);
    PrevFieldRuns(tx, OFF_MAKER, OFF_MAKER + 32, after);
    if |payload| < OFF_MAKER_REP {
      return;
    }
    var maker := payload[OFF_MAKER..OFF_MAKER_REP];
    SingleRuns(tx, Code(OP_SWAP), On(maker, below));
    if below == Bottom {
      return;
    }
    RequireKeyRuns(tx, t.buyer, On(below.top, On(maker, below.below)));
    var s0 := On(maker, below.below);
    RequirePayloadLenRuns(tx, TERMINAL_PAYLOAD_BYTES, s0);
    PayOutRuns(tx, ClaimedValue(t), s0);
    Truths();
  }

  lemma SlashMeaning(tx: Spend, t: Terms, id: Digest, s: Stack)
    requires InContext(tx) && ClaimedValue(t) < TWO63
    ensures Accepting(Run(tx, SlashOps(t, id), s)) <==> SlashRule(tx, t, id, s)
  {
    hide Run, Authenticate, NewField, PrevField, RequirePayloadLen, RequireNewField, RequireNewFieldSet;
    hide RequireSameCovenant, SameAmount, PayOut, RequireKey, RequireLockTime, RequireSequence, KeyedByMaker;
    hide EncodeNum, Header, Authentic, P2pk, LockTimeMet, SequenceMet, LeBytes;
    var p1 := Authenticate(Claimed, id);
    var p2 := p1 + [Code(OP_DROP)];
    var p3 := p2 + RequireLockTime(t.deadline);
    var p4 := p3 + RequireKey(t.buyer);
    var p5 := p4 + RequirePayloadLen(TERMINAL_PAYLOAD_BYTES);
    var p6 := p5 + [Push(t.buyer)];
    RunCat(tx, p1, [Code(OP_DROP)], s);
    RunCat(tx, p2, RequireLockTime(t.deadline), s);
    RunCat(tx, p3, RequireKey(t.buyer), s);
    RunCat(tx, p4, RequirePayloadLen(TERMINAL_PAYLOAD_BYTES), s);
    RunCat(tx, p5, [Push(t.buyer)], s);
    RunCat(tx, p6, PayOut(ClaimedValue(t)), s);
    AuthenticateRuns(tx, Claimed, id, s);
    if DoAuthenticate(tx, Claimed, id, s).None? {
      return;
    }
    var payload, below := s.top, s.below.below;
    var after := On(payload, below);
    SingleRuns(tx, Code(OP_DROP), after);
    RequireLockTimeRuns(tx, t.deadline, below);
    RequireKeyRuns(tx, t.buyer, below);
    if below == Bottom {
      return;
    }
    var s0 := below.below;
    RequirePayloadLenRuns(tx, TERMINAL_PAYLOAD_BYTES, s0);
    SingleRuns(tx, Push(t.buyer), s0);
    PayOutRuns(tx, ClaimedValue(t), On(t.buyer, s0));
    Truths();
  }

  lemma RefundMeaning(tx: Spend, t: Terms, id: Digest, s: Stack)
    requires InContext(tx) && t.reward < TWO63
    ensures Accepting(Run(tx, RefundOps(t, id), s)) <==> RefundRule(tx, t, id, s)
  {
    hide Run, Authenticate, NewField, PrevField, RequirePayloadLen, RequireNewField, RequireNewFieldSet;
    hide RequireSameCovenant, SameAmount, PayOut, RequireKey, RequireLockTime, RequireSequence, KeyedByMaker;
    hide EncodeNum, Header, Authentic, P2pk, LockTimeMet, SequenceMet, LeBytes;
    var p1 := Authenticate(Open, id);
    var p2 := p1 + [Code(OP_DROP)];
    var p3 := p2 + RequireLockTime(t.deadline);
    var p4 := p3 + RequireKey(t.buyer);
    var p5 := p4 + RequirePayloadLen(0);
    var p6 := p5 + [Push(t.buyer)];
    RunCat(tx, p1, [Code(OP_DROP)], s);
    RunCat(tx, p2, RequireLockTime(t.deadline), s);
    RunCat(tx, p3, RequireKey(t.buyer), s);
    RunCat(tx, p4, RequirePayloadLen(0), s);
    RunCat(tx, p5, [Push(t.buyer)], s);
    RunCat(tx, p6, PayOut(t.reward), s);
    AuthenticateRuns(tx, Open, id, s);
    if DoAuthenticate(tx, Open, id, s).None? {
      return;
    }
    var payload, below := s.top, s.below.below;
    var after := On(payload, below);
    SingleRuns(tx, Code(OP_DROP), after);
    RequireLockTimeRuns(tx, t.deadline, below);
    RequireKeyRuns(tx, t.buyer, below);
    if below == Bottom {
      return;
    }
    var s0 := below.below;
    RequirePayloadLenRuns(tx, 0, s0);
    SingleRuns(tx, Push(t.buyer), s0);
    PayOutRuns(tx, t.reward, On(t.buyer, s0));
    Truths();
  }

  lemma AutoReleaseMeaning(tx: Spend, t: Terms, id: Digest, s: Stack)
    requires InContext(tx) && ClaimedValue(t) < TWO63
    ensures Accepting(Run(tx, AutoReleaseOps(t, id), s)) <==> AutoReleaseRule(tx, t, id, s)
  {
    hide Run, Authenticate, NewField, PrevField, RequirePayloadLen, RequireNewField, RequireNewFieldSet;
    hide RequireSameCovenant, SameAmount, PayOut, RequireKey, RequireLockTime, RequireSequence, KeyedByMaker;
    hide EncodeNum, Header, Authentic, P2pk, LockTimeMet, SequenceMet, LeBytes;
    var p1 := Authenticate(Shipped, id);
    var p2 := p1 + RequireSequence(t.autoReleaseDelay);
    var p3 := p2 + PrevField(OFF_MAKER, OFF_MAKER + 32);
    var p4 := p3 + KeyedByMaker();
    var p5 := p4 + RequirePayloadLen(TERMINAL_PAYLOAD_BYTES);
    RunCat(tx, p1, RequireSequence(t.autoReleaseDelay), s);
    RunCat(tx, p2, PrevField(OFF_MAKER, OFF_MAKER + 32), s);
    RunCat(tx, p3, KeyedByMaker(), s);
    RunCat(tx, p4, RequirePayloadLen(TERMINAL_PAYLOAD_BYTES), s);
    RunCat(tx, p5, PayOut(ClaimedValue(t)), s);
    AuthenticateRuns(tx, Shipped, id, s);
    if DoAuthenticate(tx, Shipped, id, s).None? {
      return;
    }
    var payload, below := s.top, s.below.below;
    var after := On(payload, below);
    RequireSequenceRuns(tx, t.autoReleaseDelay, after);
    PrevFieldRuns(tx, OFF_MAKER, OFF_MAKER + 32, after);
    if |payload| < OFF_MAKER_REP {
      return;
    }
    var maker := payload[OFF_MAKER..OFF_MAKER_REP];
    KeyedByMakerRuns(tx, maker, below);
    if below == Bottom {
      return;
    }
    var s0 := On(maker, below.below);
    RequirePayloadLenRuns(tx, TERMINAL_PAYLOAD_BYTES, s0);
    PayOutRuns(tx, ClaimedValue(t), s0);
    Truths();
  }

  lemma DisputeMeaning(tx: Spend, t: Terms, id: Digest, s: Stack)
    requires InContext(tx)
    ensures Accepting(Run(tx, DisputeOps(t, id), s)) <==> DisputeRule(tx, t, id, s)
  {
    hide Run, Authenticate, NewField, PrevField, RequirePayloadLen, RequireNewField, RequireNewFieldSet;
    hide RequireSameCovenant, SameAmount, PayOut, RequireKey, RequireLockTime, RequireSequence, KeyedByMaker;
    hide EncodeNum, Header, Authentic, P2pk, LockTimeMet, SequenceMet, LeBytes;
    var p1 := Authenticate(Shipped, id);
    var p2 := p1 + PrevField(OFF_MAKER, STATE_BYTES);
    var p3 := p2 + NewField(OFF_MAKER, STATE_BYTES);
    var p4 := p3 + [Code(OP_EQUAL_VERIFY)];
    var p5 := p4 + RequireKey(t.buyer);
    var p6 := p5 + RequirePayloadLen(STATE_BYTES);
    var p7 := p6 + RequireNewField(0, OFF_TERMS, Header(Disputed));
    var p8 := p7 + RequireNewField(OFF_TERMS, OFF_TERMS + 32, id);
    var p9 := p8 + RequireSameCovenant();
    RunCat(tx, p1, PrevField(OFF_MAKER, STATE_BYTES), s);
    RunCat(tx, p2, NewField(OFF_MAKER, STATE_BYTES), s);
    RunCat(tx, p3, [Code(OP_EQUAL_VERIFY)], s);
    RunCat(tx, p4, RequireKey(t.buyer), s);
    RunCat(tx, p5, RequirePayloadLen(STATE_BYTES), s);
    RunCat(tx, p6, RequireNewField(0, OFF_TERMS, Header(Disputed)), s);
    RunCat(tx, p7, RequireNewField(OFF_TERMS, OFF_TERMS + 32, id), s);
    RunCat(tx, p8, RequireSameCovenant(), s);
    RunCat(tx, p9, SameAmount(), s);
    AuthenticateRuns(tx, Shipped, id, s);
    if DoAuthenticate(tx, Shipped, id, s).None? {
      return;
    }
    var payload, below := s.top, s.below.below;
    var after := On(payload, below);
    PrevFieldRuns(tx, OFF_MAKER, STATE_BYTES, after);
    if |payload| < STATE_BYTES {
      return;
    }
    var tail := payload[OFF_MAKER..STATE_BYTES];
    NewFieldRuns(tx, OFF_MAKER, STATE_BYTES, On(tail, below));
    if |tx.payload| < STATE_BYTES {
      return;
    }
    SingleRuns(tx, Code(OP_EQUAL_VERIFY), On(tx.payload[OFF_MAKER..STATE_BYTES], On(tail, below)));
    RequireKeyRuns(tx, t.buyer, below);
    if below == Bottom {
      return;
    }
    var s0 := below.below;
    RequirePayloadLenRuns(tx, STATE_BYTES, s0);
    RequireNewFieldRuns(tx, 0, OFF_TERMS, Header(Disputed), s0);
    RequireNewFieldRuns(tx, OFF_TERMS, OFF_TERMS + 32, id, s0);
    RequireSameCovenantRuns(tx, s0);
    SameAmountRuns(tx, s0);
    Truths();
  }

  function DoBeneficiary(tx: Spend, t: Terms, toMaker: bool, s: Stack): Option<Stack> {
    match s
    case On(maker, On(sig, below)) =>
      var winner := if toMaker then maker else t.buyer;
      Guard(tx.sigOk(sig, winner), On(winner, below))
    case _ => None
  }

  lemma BeneficiaryRuns(tx: Spend, t: Terms, toMaker: bool, s: Stack)
    requires InContext(tx) && s.On?
    ensures Run(tx, Beneficiary(t, toMaker), s) == DoBeneficiary(tx, t, toMaker, s)
  {
    hide Run, KeyedByMaker, RequireKey;
    if toMaker {
      KeyedByMakerRuns(tx, s.top, s.below);
    } else {
      var drop := [Code(OP_DROP)];
      RunCat(tx, drop, RequireKey(t.buyer), s);
      RunCat(tx, drop + RequireKey(t.buyer), [Push(t.buyer)], s);
      SingleRuns(tx, Code(OP_DROP), s);
      RequireKeyRuns(tx, t.buyer, s.below);
      if s.below.On? {
        SingleRuns(tx, Push(t.buyer), s.below.below);
      }
    }
  }

  lemma ResolveMeaning(tx: Spend, t: Terms, id: Digest, arbiter: Digest, toMaker: bool, s: Stack)
    requires InContext(tx) && ClaimedValue(t) < TWO63
    ensures Accepting(Run(tx, ResolveOps(t, id, arbiter, toMaker), s)) <==> ResolveRule(tx, t, id, arbiter, toMaker, s)
  {
    hide Run, Authenticate, NewField, PrevField, RequirePayloadLen, RequireNewField, RequireNewFieldSet;
    hide RequireSameCovenant, SameAmount, PayOut, RequireKey, RequireLockTime, RequireSequence, KeyedByMaker;
    hide Beneficiary, EncodeNum, Header, Authentic, P2pk, LockTimeMet, SequenceMet, LeBytes;
    var p1 := Authenticate(Disputed, id);
    var p2 := p1 + PrevField(OFF_MAKER, OFF_MAKER + 32);
    var p3 := p2 + [Code(OP_SWAP)];
    var p4 := p3 + RequireKey(arbiter);
    var p5 := p4 + Beneficiary(t, toMaker);
    var p6 := p5 + RequirePayloadLen(TERMINAL_PAYLOAD_BYTES);
    RunCat(tx, p1, PrevField(OFF_MAKER, OFF_MAKER + 32), s);
    RunCat(tx, p2, [Code(OP_SWAP)], s);
    RunCat(tx, p3, RequireKey(arbiter), s);
    RunCat(tx, p4, Beneficiary(t, toMaker), s);
    RunCat(tx, p5, RequirePayloadLen(TERMINAL_PAYLOAD_BYTES), s);
    RunCat(tx, p6, PayOut(ClaimedValue(t)), s);
    AuthenticateRuns(tx, Disputed, id, s);
    if DoAuthenticate(tx, Disputed, id, s).None? {
      return;
    }
    var payload, below := s.top, s.below.below;
    var after := On(payload, below);
    PrevFieldRuns(tx, OFF_MAKER, OFF_MAKER + 32, after);
    if |payload| < OFF_MAKER_REP {
      return;
    }
    var maker := payload[OFF_MAKER..OFF_MAKER_REP];
    SingleRuns(tx, Code(OP_SWAP), On(maker, below));
    if below == Bottom {
      return;
    }
    var held := On(maker, below.below);
    RequireKeyRuns(tx, arbiter, On(below.top, held));
    BeneficiaryRuns(tx, t, toMaker, held);
    if DoBeneficiary(tx, t, toMaker, held).None? {
      return;
    }
    var s0 := DoBeneficiary(tx, t, toMaker, held).value;
    RequirePayloadLenRuns(tx, TERMINAL_PAYLOAD_BYTES, s0);
    PayOutRuns(tx, ClaimedValue(t), s0);
    Truths();
  }
}
