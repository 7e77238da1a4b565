/** What each reusable piece of covenant code does to the stack, or that it fails. */
module CovenantPieces {
  import opened ByteStrings
  import opened ScriptNumbers
  import opened ScriptVm
  import opened EscrowState
  import opened Covenant

  lemma IndexOfNum(n: nat)
    requires n < TWO63
    ensures Index(EncodeNum(n)) == Some(n)
  {
    NumRoundTrip(n);
  }

  // ----- denotations --------------------------------------------------------

  /** The supplied halves hash to the transaction being spent from. */
  predicate Authentic(tx: Spend, rest: Bytes, payload: Bytes)
    requires InContext(tx)
  {
    tx.blake2b(rest + payload, TX_ID_KEY) == tx.inputs[tx.index].txid
  }

  function DoVerifyPrevState(tx: Spend, s: Stack): Option<Stack>
    requires InContext(tx)
  {
    match s
    case On(payload, On(rest, below)) => Guard(Authentic(tx, rest, payload), On(payload, below))
    case _ => None
  }

  predicate Holds(data: Bytes, start: nat, end: nat, want: Bytes) {
    start <= end <= |data| && data[start..end] == want
  }

  function DoNewField(tx: Spend, start: nat, end: nat, s: Stack): Option<Stack> {
    if start <= end <= |tx.payload| then Some(On(tx.payload[start..end], s)) else None
  }

  function DoPrevField(start: nat, end: nat, s: Stack): Option<Stack> {
    match s
    case On(d, below) => if start <= end <= |d| then Some(On(d[start..end], below)) else None
    case Bottom => None
  }

  function OutputIs(tx: Spend, spk: Spk, amount: nat): bool {
    tx.outputs != [] && tx.outputs[0] == Output(amount, spk)
  }

  function P2pk(key: Bytes): Spk {
    P2PK_PREFIX + key + [OP_CHECK_SIG]
  }

  // ----- pieces -------------------------------------------------------------

  lemma VerifyPrevStateRuns(tx: Spend, s: Stack)
    requires InContext(tx)
    ensures Run(tx, VerifyPrevState(), s) == DoVerifyPrevState(tx, s)
  {
    hide RunFrom, Step, EncodeNum;
    var ops := VerifyPrevState();
    match s
    case On(payload, On(rest, below)) =>
      RecomputesId(tx, payload, rest, below);
      ComparesId(tx, tx.blake2b(rest + payload, TX_ID_KEY), On(payload, below));
    case On(payload, Bottom) =>
      NeedsTwo(tx, payload);
    case Bottom =>
      NeedsOne(tx);
  }

  lemma RecomputesId(tx: Spend, payload: Bytes, rest: Bytes, below: Stack)
    requires InContext(tx)
    ensures RunFrom(tx, VerifyPrevState(), 0, On(payload, On(rest, below))) ==
            RunFrom(tx, VerifyPrevState(), 6, On(tx.blake2b(rest + payload, TX_ID_KEY), On(payload, below)))
  {
    hide RunFrom, LeBytes, LeValue, EncodeNum, DecodeNum;
    var ops, kept := VerifyPrevState(), On(payload, below);
    OneStep(tx, ops, 0, On(payload, On(rest, below)), On(payload, On(payload, On(rest, below))));
    OneStep(tx, ops, 1, On(payload, On(payload, On(rest, below))), On(rest, On(payload, kept)));
    OneStep(tx, ops, 2, On(rest, On(payload, kept)), On(payload, On(rest, kept)));
    OneStep(tx, ops, 3, On(payload, On(rest, kept)), On(rest + payload, kept));
    OneStep(tx, ops, 4, On(rest + payload, kept), On(TX_ID_KEY, On(rest + payload, kept)));
    OneStep(tx, ops, 5, On(TX_ID_KEY, On(rest + payload, kept)), On(tx.blake2b(rest + payload, TX_ID_KEY), kept));
  }

  lemma ComparesId(tx: Spend, id: Digest, kept: Stack)
    requires InContext(tx)
    ensures RunFrom(tx, VerifyPrevState(), 6, On(id, kept)) == Guard(id == tx.inputs[tx.index].txid, kept)
  {
    hide RunFrom, LeBytes, LeValue, EncodeNum, DecodeNum;
    var ops, spent := VerifyPrevState(), tx.inputs[tx.index].txid;
    NumRoundTrip(tx.index);
    OneStep(tx, ops, 6, On(id, kept), On(EncodeNum(tx.index), On(id, kept)));
    OneStep(tx, ops, 7, On(EncodeNum(tx.index), On(id, kept)), On(spent, On(id, kept)));
    RunLast(tx, ops, 8, On(spent, On(id, kept)));
  }

  lemma NeedsTwo(tx: Spend, payload: Bytes)
    requires InContext(tx)
    ensures RunFrom(tx, VerifyPrevState(), 0, On(payload, Bottom)) == None
  {
    hide RunFrom, LeBytes, LeValue, EncodeNum, DecodeNum;
    var ops := VerifyPrevState();
    OneStep(tx, ops, 0, On(payload, Bottom), On(payload, On(payload, Bottom)));
    StepFails(tx, ops, 1, On(payload, On(payload, Bottom)));
  }

  lemma NeedsOne(tx: Spend)
    requires InContext(tx)
    ensures RunFrom(tx, VerifyPrevState(), 0, Bottom) == None
  {
    hide RunFrom;
    StepFails(tx, VerifyPrevState(), 0, Bottom);
  }

  lemma OneStep(tx: Spend, ops: seq<Op>, at: nat, s: Stack, t: Stack)
    requires InContext(tx) && at < |ops| && Step(tx, ops[at], s) == Some(t)
    ensures RunFrom(tx, ops, at, s) == RunFrom(tx, ops, at + 1, t)
  {
    hide Step;
  }

  lemma StepFails(tx: Spend, ops: seq<Op>, at: nat, s: Stack)
    requires InContext(tx) && at < |ops| && Step(tx, ops[at], s) == None
    ensures RunFrom(tx, ops, at, s) == None
  {
    hide Step;
  }

  lemma NewFieldRuns(tx: Spend, start: nat, end: nat, s: Stack)
    requires InContext(tx) && start <= end < TWO32
    ensures Run(tx, NewField(start, end), s) == DoNewField(tx, start, end, s)
  {
    hide EncodeNum, DecodeNum, LeBytes, LeValue;
    var ops := NewField(start, end);
    IndexOfNum(start);
    IndexOfNum(end);
    var two := On(EncodeNum(end), On(EncodeNum(start), s));
    assert RunFrom(tx, ops, 2, two) == RunFrom(tx, ops, 0, s);
    RunLast(tx, ops, 2, two);
  }

  lemma PrevFieldRuns(tx: Spend, start: nat, end: nat, s: Stack)
    requires InContext(tx) && start <= end < TWO32
    ensures Run(tx, PrevField(start, end), s) == DoPrevField(start, end, s)
  {
    hide EncodeNum, DecodeNum, LeBytes, LeValue;
    var ops := PrevField(start, end);
    IndexOfNum(start);
    IndexOfNum(end);
    var two := On(EncodeNum(end), On(EncodeNum(start), s));
    assert RunFrom(tx, ops, 2, two) == RunFrom(tx, ops, 0, s);
    RunLast(tx, ops, 2, two);
  }

  lemma MustEqualRuns(tx: Spend, want: Bytes, s: Stack)
    requires InContext(tx)
    ensures Run(tx, MustEqual(want), s) == match s case On(a, r) => Guard(a == want, r) case Bottom => None
  {
    assert RunFrom(tx, MustEqual(want), 1, On(want, s)) == Run(tx, MustEqual(want), s);
    RunLast(tx, MustEqual(want), 1, On(want, s));
  }

  lemma SingleRuns(tx: Spend, op: Op, s: Stack)
    requires InContext(tx)
    ensures Run(tx, [op], s) == Step(tx, op, s)
  {
    hide Step;
    RunLast(tx, [op], 0, s);
  }

  lemma RequireNewFieldRuns(tx: Spend, start: nat, end: nat, want: Bytes, s: Stack)
    requires InContext(tx) && start <= end < TWO32
    ensures Run(tx, RequireNewField(start, end, want), s) == Guard(Holds(tx.payload, start, end, want), s)
  {
    hide Run, NewField, MustEqual;
    RunCat(tx, NewField(start, end), MustEqual(want), s);
    NewFieldRuns(tx, start, end, s);
    if start <= end <= |tx.payload| {
      MustEqualRuns(tx, want, On(tx.payload[start..end], s));
    }
  }

  lemma RequireNewFieldSetRuns(tx: Spend, start: nat, s: Stack)
    requires InContext(tx) && start + 32 < TWO32
    ensures Run(tx, RequireNewFieldSet(start, start + 32), s) ==
            Guard(start + 32 <= |tx.payload| && tx.payload[start..start + 32] != Zeros(32), s)
  {
    var check := [Push(Zeros(32)), Code(OP_EQUAL), Code(OP_NOT), Code(OP_VERIFY)];
    RunCat(tx, NewField(start, start + 32), check, s);
    NewFieldRuns(tx, start, start + 32, s);
    if start + 32 <= |tx.payload| {
      NonZeroRuns(tx, tx.payload[start..start + 32], s);
    }
  }

  lemma NonZeroRuns(tx: Spend, field: Bytes, s: Stack)
    requires InContext(tx)
    ensures Run(tx, [Push(Zeros(32)), Code(OP_EQUAL), Code(OP_NOT), Code(OP_VERIFY)], On(field, s)) ==
            Guard(field != Zeros(32), s)
  {
    hide EncodeNum, LeBytes, RunFrom, LeValue;
    var ops := [Push(Zeros(32)), Code(OP_EQUAL), Code(OP_NOT), Code(OP_VERIFY)];
    var same, differs := Truth(field == Zeros(32)), Truth(field != Zeros(32));
    BooleanNumbers();
    OneStep(tx, ops, 0, On(field, s), On(Zeros(32), On(field, s)));
    OneStep(tx, ops, 1, On(Zeros(32), On(field, s)), On(same, s));
    OneStep(tx, ops, 2, On(same, s), On(differs, s));
    RunLast(tx, ops, 3, On(differs, s));
    assert IsTrue([1]) by { assert [1][0] != 0; }
  }

  lemma BooleanNumbers()
    ensures DecodeNum([]) == Some(0) && DecodeNum([1]) == Some(1)
  {
    assert LeValue([1]) == 1;
    assert [1][..0] + [1] == [1];
  }

  lemma RequirePrevFieldRuns(tx: Spend, start: nat, end: nat, want: Bytes, s: Stack)
    requires InContext(tx) && start <= end < TWO32
    ensures Run(tx, RequirePrevField(start, end, want), s) ==
            match s case On(d, below) => Guard(Holds(d, start, end, want), s) case Bottom => None
  {
    hide Run, PrevField, MustEqual;
    RunCat(tx, [Code(OP_DUP)] + PrevField(start, end), MustEqual(want), s);
    RunCat(tx, [Code(OP_DUP)], PrevField(start, end), s);
    SingleRuns(tx, Code(OP_DUP), s);
    if s.On? {
      PrevFieldRuns(tx, start, end, On(s.top, s));
      if end <= |s.top| {
        MustEqualRuns(tx, want, On(s.top[start..end], s));
      }
    }
  }

  predicate RecordIs(payload: Bytes, phase: Phase, id: Digest) {
    && Holds(payload, OFF_PHASE, OFF_PHASE + 1, [PhaseByte(phase)])
    && Holds(payload, OFF_TERMS, OFF_TERMS + 32, id)
  }

  /** The supplied record is authentic, in the given phase, and of this job. */
  function DoAuthenticate(tx: Spend, phase: Phase, id: Digest, s: Stack): Option<Stack>
    requires InContext(tx)
  {
    match s
    case On(payload, On(rest, below)) =>
      Guard(Authentic(tx, rest, payload) && RecordIs(payload, phase, id), On(payload, below))
    case _ => None
  }

  lemma AuthenticateRuns(tx: Spend, phase: Phase, id: Digest, s: Stack)
    requires InContext(tx)
    ensures Run(tx, Authenticate(phase, id), s) == DoAuthenticate(tx, phase, id, s)
  {
    hide Run, VerifyPrevState, RequirePrevField;
    var one := RequirePrevField(OFF_PHASE, OFF_PHASE + 1, [PhaseByte(phase)]);
    var two := RequirePrevField(OFF_TERMS, OFF_TERMS + 32, id);
    RunCat(tx, VerifyPrevState(), RequirePrevPhaseAndJob(phase, id), s);
    VerifyPrevStateRuns(tx, s);
    if DoVerifyPrevState(tx, s).Some? {
      var t := DoVerifyPrevState(tx, s).value;
      RunCat(tx, one, two, t);
      RequirePrevFieldRuns(tx, OFF_PHASE, OFF_PHASE + 1, [PhaseByte(phase)], t);
      RequirePrevFieldRuns(tx, OFF_TERMS, OFF_TERMS + 32, id, t);
    }
  }

  lemma RequirePayloadLenRuns(tx: Spend, n: nat, s: Stack)
    requires InContext(tx) && n < TWO32
    ensures Run(tx, RequirePayloadLen(n), s) == Guard(|tx.payload| == n, s)
  {
    hide EncodeNum, DecodeNum, LeBytes, LeValue;
    var ops := RequirePayloadLen(n);
    NumRoundTrip(n);
    NumRoundTrip(|tx.payload|);
    var two := On(EncodeNum(n), On(EncodeNum(|tx.payload|), s));
    assert RunFrom(tx, ops, 2, two) == RunFrom(tx, ops, 0, s);
    RunLast(tx, ops, 2, two);
  }

  lemma RequireKeyRuns(tx: Spend, key: Digest, s: Stack)
    requires InContext(tx)
    ensures Run(tx, RequireKey(key), s) ==
            match s case On(sig, r) => Guard(tx.sigOk(sig, key), r) case Bottom => None
  {
    assert RunFrom(tx, RequireKey(key), 1, On(key, s)) == Run(tx, RequireKey(key), s);
    RunLast(tx, RequireKey(key), 1, On(key, s));
  }

  lemma RequireLockTimeRuns(tx: Spend, deadline: nat, s: Stack)
    requires InContext(tx)
    ensures Run(tx, RequireLockTime(deadline), s) ==
            Guard(LockTimeMet(EncodeNum(AsI64(deadline)), tx.lockTime, tx.inputs[tx.index].sequence), s)
  {
    hide EncodeNum, LockTimeMet;
    var ops := RequireLockTime(deadline);
    assert RunFrom(tx, ops, 1, On(EncodeNum(AsI64(deadline)), s)) == Run(tx, ops, s);
    RunLast(tx, ops, 1, On(EncodeNum(AsI64(deadline)), s));
  }

  lemma RequireSequenceRuns(tx: Spend, delay: nat, s: Stack)
    requires InContext(tx)
    ensures Run(tx, RequireSequence(delay), s) ==
            Guard(SequenceMet(EncodeNum(AsI64(delay)), tx.inputs[tx.index].sequence), s)
  {
    hide EncodeNum, SequenceMet;
    var ops := RequireSequence(delay);
    assert RunFrom(tx, ops, 1, On(EncodeNum(AsI64(delay)), s)) == Run(tx, ops, s);
    RunLast(tx, ops, 1, On(EncodeNum(AsI64(delay)), s));
  }

  /** Output 0 is locked by the script this input was locked by. */
  predicate Continues(tx: Spend)
    requires InContext(tx)
  {
    tx.outputs != [] && tx.outputs[0].spk == tx.inputs[tx.index].spent.spk
  }

  lemma RequireSameCovenantRuns(tx: Spend, s: Stack)
    requires InContext(tx)
    ensures Run(tx, RequireSameCovenant(), s) == Guard(Continues(tx), s)
  {
    hide EncodeNum, DecodeNum, LeBytes, LeValue;
    var ops := RequireSameCovenant();
    IndexOfNum(tx.index);
    IndexOfNum(0);
    var spk := tx.inputs[tx.index].spent.spk;
    assert RunFrom(tx, ops, 2, On(spk, s)) == RunFrom(tx, ops, 0, s);
    if tx.outputs != [] {
      assert RunFrom(tx, ops, 4, On(tx.outputs[0].spk, On(spk, s))) == RunFrom(tx, ops, 2, On(spk, s));
    } else {
      assert RunFrom(tx, ops, 3, On(EncodeNum(0), On(spk, s))) == None;
    }
  }

  /** Amounts a script can push. */
  predicate AmountsKnown(tx: Spend)
    requires InContext(tx)
  {
    tx.outputs != [] && tx.outputs[0].amount < TWO63 && tx.inputs[tx.index].spent.amount < TWO63
  }

  function DoSameAmount(tx: Spend, s: Stack): Option<Stack>
    requires InContext(tx)
  {
    if AmountsKnown(tx) then Some(On(Truth(tx.outputs[0].amount == tx.inputs[tx.index].spent.amount), s)) else None
  }

  lemma AmountsPushed(tx: Spend, ops: seq<Op>, s: Stack)
    requires InContext(tx) && |ops| >= 4
    requires ops[..4] == [Num(0), Code(OP_TX_OUTPUT_AMOUNT), Code(OP_TX_INPUT_INDEX), Code(OP_TX_INPUT_AMOUNT)]
    ensures AmountsKnown(tx) ==>
            Run(tx, ops, s) == RunFrom(tx, ops, 4, On(EncodeNum(tx.inputs[tx.index].spent.amount),
                                                     On(EncodeNum(tx.outputs[0].amount), s)))
    ensures !AmountsKnown(tx) ==> Run(tx, ops, s) == None
  {
    hide EncodeNum, DecodeNum, LeBytes, LeValue;
    IndexOfNum(tx.index);
    IndexOfNum(0);
    assert ops[0] == ops[..4][0] && ops[1] == ops[..4][1] && ops[2] == ops[..4][2] && ops[3] == ops[..4][3];
    assert RunFrom(tx, ops, 1, On(EncodeNum(0), s)) == RunFrom(tx, ops, 0, s);
    if tx.outputs != [] && tx.outputs[0].amount < TWO63 {
      var one := On(EncodeNum(tx.outputs[0].amount), s);
      assert RunFrom(tx, ops, 2, one) == RunFrom(tx, ops, 1, On(EncodeNum(0), s));
      assert RunFrom(tx, ops, 3, On(EncodeNum(tx.index), one)) == RunFrom(tx, ops, 2, one);
    }
  }

  lemma SameAmountRuns(tx: Spend, s: Stack)
    requires InContext(tx)
    ensures Run(tx, SameAmount(), s) == DoSameAmount(tx, s)
  {
    hide EncodeNum, DecodeNum, LeBytes, LeValue;
    AmountsPushed(tx, SameAmount(), s);
    if AmountsKnown(tx) {
      NumRoundTrip(tx.outputs[0].amount);
      NumRoundTrip(tx.inputs[tx.index].spent.amount);
    }
  }

  function DoAmountGrownBy(tx: Spend, bond: nat, s: Stack): Option<Stack>
    requires InContext(tx)
  {
    if AmountsKnown(tx) && -TWO63 < AsI64(bond) && tx.inputs[tx.index].spent.amount + AsI64(bond) < TWO63
    then Some(On(Truth(tx.outputs[0].amount == tx.inputs[tx.index].spent.amount + AsI64(bond)), s))
    else None
  }

  lemma AmountGrownByRuns(tx: Spend, bond: nat, s: Stack)
    requires InContext(tx) && bond < TWO63
    ensures Run(tx, AmountGrownBy(bond), s) == DoAmountGrownBy(tx, bond, s)
  {
    hide EncodeNum, DecodeNum, LeBytes, LeValue;
    var ops := AmountGrownBy(bond);
    AmountsPushed(tx, ops, s);
    if AmountsKnown(tx) {
      var was, now := tx.inputs[tx.index].spent.amount, tx.outputs[0].amount;
      NumRoundTrip(now);
      NumRoundTrip(was);
      NumRoundTrip(bond);
      var four := On(EncodeNum(was), On(EncodeNum(now), s));
      assert RunFrom(tx, ops, 5, On(EncodeNum(bond), four)) == RunFrom(tx, ops, 4, four);
      if was + bond < TWO63 {
        NumRoundTrip(was + bond);
        assert RunFrom(tx, ops, 6, On(EncodeNum(was + bond), On(EncodeNum(now), s)))
            == RunFrom(tx, ops, 5, On(EncodeNum(bond), four));
        RunLast(tx, ops, 6, On(EncodeNum(was + bond), On(EncodeNum(now), s)));
      }
    }
  }

  function DoPayOut(tx: Spend, amount: nat, s: Stack): Option<Stack> {
    match s
    case On(key, below) => Guard(OutputIs(tx, P2pk(key), amount), On([1], below))
    case Bottom => None
  }

  lemma RebuildSpk(tx: Spend, ops: seq<Op>, key: Bytes, s: Stack)
    requires InContext(tx) && |ops| >= 8 && ops[..8] == RequireP2pkOutput(0)[..8]
    ensures Run(tx, ops, On(key, s)) ==
            if tx.outputs != [] && tx.outputs[0].spk == P2pk(key) then RunFrom(tx, ops, 8, s) else None
  {
    hide EncodeNum, DecodeNum, LeBytes, LeValue;
    IndexOfNum(0);
    assert forall i :: 0 <= i < 8 ==> ops[i] == ops[..8][i];
    assert RunFrom(tx, ops, 2, On(key, On(P2PK_PREFIX, s))) == RunFrom(tx, ops, 0, On(key, s));
    assert RunFrom(tx, ops, 4, On([OP_CHECK_SIG], On(P2PK_PREFIX + key, s)))
        == RunFrom(tx, ops, 2, On(key, On(P2PK_PREFIX, s)));
    assert RunFrom(tx, ops, 5, On(P2pk(key), s)) == RunFrom(tx, ops, 4, On([OP_CHECK_SIG], On(P2PK_PREFIX + key, s)));
    assert RunFrom(tx, ops, 6, On(EncodeNum(0), On(P2pk(key), s))) == RunFrom(tx, ops, 5, On(P2pk(key), s));
    if tx.outputs != [] {
      assert RunFrom(tx, ops, 7, On(tx.outputs[0].spk, On(P2pk(key), s)))
          == RunFrom(tx, ops, 6, On(EncodeNum(0), On(P2pk(key), s)));
    }
  }

  lemma RequireP2pkOutputRuns(tx: Spend, amount: nat, key: Bytes, s: Stack)
    requires InContext(tx) && amount < TWO63
    ensures Run(tx, RequireP2pkOutput(amount), On(key, s)) == Guard(OutputIs(tx, P2pk(key), amount), s)
  {
    hide EncodeNum, DecodeNum, LeBytes, LeValue, P2pk;
    var ops := RequireP2pkOutput(amount);
    RebuildSpk(tx, ops, key, s);
    IndexOfNum(0);
    NumRoundTrip(amount);
    if tx.outputs != [] {
      var paid := tx.outputs[0].amount;
      assert RunFrom(tx, ops, 9, On(EncodeNum(0), s)) == RunFrom(tx, ops, 8, s);
      if paid < TWO63 {
        NumRoundTrip(paid);
        assert RunFrom(tx, ops, 10, On(EncodeNum(paid), s)) == RunFrom(tx, ops, 9, On(EncodeNum(0), s));
        assert RunFrom(tx, ops, 11, On(EncodeNum(amount), On(EncodeNum(paid), s)))
            == RunFrom(tx, ops, 10, On(EncodeNum(paid), s));
        RunLast(tx, ops, 11, On(EncodeNum(amount), On(EncodeNum(paid), s)));
      }
    }
  }

  lemma PayOutRuns(tx: Spend, amount: nat, s: Stack)
    requires InContext(tx) && amount < TWO63
    ensures Run(tx, PayOut(amount), s) == DoPayOut(tx, amount, s)
  {
    hide Run, OutputIs;
    RunCat(tx, RequireP2pkOutput(amount), [Push([1])], s);
    match s
    case On(key, below) =>
      RequireP2pkOutputRuns(tx, amount, key, below);
      SingleRuns(tx, Push([1]), below);
    case Bottom =>
      PayOutNeedsKey(tx, amount);
  }

  lemma PayOutNeedsKey(tx: Spend, amount: nat)
    requires InContext(tx)
    ensures Run(tx, RequireP2pkOutput(amount), Bottom) == None
  {
    hide EncodeNum;
    assert RunFrom(tx, RequireP2pkOutput(amount), 1, On(P2PK_PREFIX, Bottom)) == None;
  }
}
