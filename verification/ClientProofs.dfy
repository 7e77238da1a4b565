/** Which of the client's transactions the covenant accepts. */
module ClientProofs {
  import opened ByteStrings
  import opened Primitives
  import opened ScriptNumbers
  import opened ScriptVm
  import opened EscrowState
  import opened Covenant
  import opened CovenantPieces
  import opened CovenantMeaning
  import opened CovenantContract
  import opened EscrowRuns
  import opened ClientTx
  import opened Client
  import Dispatcher
  import ScriptBytes

  /** What the running covenant sees of a built step. */
  ghost predicate Seen(w: World, t: Terms, prev: Tx, value: nat, c: Spend, out: Output, payload: Bytes, lockTime: nat,
                       sigs: seq<Bytes>, signers: seq<Keypair>) {
    && InContext(c) && c.blake2b == w.prims.blake2b
    && c.inputs[c.index] == InputView(TxId(w, prev), Output(value, EscrowSpk(w, t)), 0)
    && c.outputs != [] && c.outputs[0] == out && c.payload == payload && c.lockTime == lockTime
    && |sigs| == |signers|
    && forall k, key :: 0 <= k < |signers| ==> (c.sigOk(sigs[k], key) <==> key == signers[k].pub)
  }

  /** The covenant input's own script, and the two halves of the state it supplies. */
  lemma StepScript(c: Session, live: Live, o: Order, change: nat, funding: Utxo) returns (sigs: seq<Bytes>)
    requires SignsFor(c.w, c.sign)
    ensures var tx := TransitionTx(c, live, o, change, funding);
      && |tx.inputs| == 2 && tx.outputs == [o.out, Output(change, P2pk(c.key.pub))]
      && tx.payload == o.payload && tx.lockTime == o.lockTime
      && tx.inputs[0].txid == live.outpoint.txid && tx.inputs[0].index == live.outpoint.index
      && tx.inputs[0].sequence == 0
      && tx.inputs[0].sigScript == ScriptBytes.EncodeOps(PushOps(
           sigs + [live.prevRest, live.prevPayload, EncodeNum(Selector(o.branch)),
                   Dispatcher.CovenantBytes(c.w.prims, c.t)]))
      && |sigs| == |o.signers|
      && (forall k :: 0 <= k < |o.signers| ==> |sigs[k]| < TWO32)
      && forall k, pub :: 0 <= k < |o.signers| ==> (c.w.signed(tx, 0, sigs[k], pub) <==> pub == o.signers[k].pub)
  {
    hide Dispatcher.CovenantBytes, EncodeNum, ScriptBytes.EncodeOps, PushOps, EscrowSpk, P2pk;
    var inputs := [CovenantInput(c, live, o), FeeInput(c.key, funding)];
    var outputs := [o.out, Output(change, P2pk(c.key.pub))];
    var unsigned := Unsigned(inputs, outputs, o.payload, o.lockTime);
    sigs := SigsBy(c.sign, unsigned, EntriesOf(inputs), 0, o.signers);
    var scripts := ScriptsFor(c.sign, c.key, inputs, unsigned);
    assert TransitionTx(c, live, o, change, funding) == Skeleton(inputs, scripts, outputs, o.payload, o.lockTime);
    assert scripts[0] == ScriptFor(c.sign, unsigned, EntriesOf(inputs), 0, c.key, inputs[0].unlock);
  }

  /** The covenant input of a built step unlocks exactly when its branch's rule holds. */
  lemma StepUnlocks(c: Session, prev: Tx, live: Live, phase: Phase, o: Order, name: string, s: Step)
    returns (sigs: seq<Bytes>)
    requires Setting(c, prev, live, phase) && |o.payload| < TWO32
    requires Stepped(c, live, o, name, s)
    ensures var m := MoveOf(c, live, s);
      && Shaped(m) && Faithful(prev, m)
      && Seen(c.w, c.t, prev, live.value, ContextOf(c.w, m), o.out, o.payload, o.lockTime, sigs, o.signers)
      && BranchTaken(c.t, m) == (if Offered(c.t, o.branch) then Some(o.branch) else None)
      && (Legit(c.w, prev, m) <==>
            Offered(c.t, o.branch)
            && BranchRule(ContextOf(c.w, m), c.t, TermsId(c.w.prims, c.t), o.branch,
                          On(prev.payload, On(c.w.rest(prev), StackOf(sigs)))))
  {
    hide Dispatcher.CovenantBytes, EncodeNum, EscrowSpk, P2pk, BranchRule, TermsId, BranchTaken, TransitionTx;
    hide DecodeState, Unlocks, EvidenceOf, TxId, PushOps, ScriptBytes.EncodeOps, SmallTerms, StackOf, Header;
    var m := MoveOf(c, live, s);
    sigs := StepScript(c, live, o, s.funding.amount - c.node.fee - o.extra, s.funding);
    SelectorBytes(o.branch, c.t);
    CovenantIsSmall(c.w.prims, c.t);
    BuiltUnlocks(c.w, c.t, m, o.branch, c.w.rest(prev), prev.payload, sigs);
    SeenFromInside(c, prev, live, o, m, sigs);
  }

  /** The fee input carries the wallet key's own signature over the step, and nothing else. What was signed
      are the outputs the step really spends. */
  lemma FeeInputSigned(c: Session, live: Live, o: Order, name: string, s: Step) returns (sig: Bytes)
    requires SignsFor(c.w, c.sign) && Stepped(c, live, o, name, s)
    ensures |s.tx.inputs| == 2 && SigItems(s.tx.inputs[1].sigScript) == Some([sig])
    ensures c.w.signed(s.tx, 1, sig, c.key.pub)
    ensures s.tx.inputs[1].txid == s.funding.outpoint.txid && s.tx.inputs[1].index == s.funding.outpoint.index
    ensures MoveOf(c, live, s).spent == EntriesOf([CovenantInput(c, live, o), FeeInput(c.key, s.funding)])
    ensures MoveOf(c, live, s).spent[1] == Output(s.funding.amount, P2pk(c.key.pub))
  {
    hide Dispatcher.CovenantBytes, ScriptBytes.EncodeOps, PushOps, EscrowSpk, P2pk, SigItems, TxId;
    var change := s.funding.amount - c.node.fee - o.extra;
    var inputs := [CovenantInput(c, live, o), FeeInput(c.key, s.funding)];
    var outputs := [o.out, Output(change, P2pk(c.key.pub))];
    var unsigned := Unsigned(inputs, outputs, o.payload, o.lockTime);
    sig := c.sign(unsigned, EntriesOf(inputs), 1, c.key);
    var scripts := ScriptsFor(c.sign, c.key, inputs, unsigned);
    assert s.tx == Skeleton(inputs, scripts, outputs, o.payload, o.lockTime);
    assert scripts[1] == ScriptFor(c.sign, unsigned, EntriesOf(inputs), 1, c.key, inputs[1].unlock);
    SigItemsBuilt([sig]);
  }

  /** The move, seen through the machine's eyes. */
  lemma SeenFromInside(c: Session, prev: Tx, live: Live, o: Order, m: Move, sigs: seq<Bytes>)
    requires Shaped(m) && m.input == 0 && m.tx.inputs[0].txid == TxId(c.w, prev) && m.tx.inputs[0].sequence == 0
    requires m.spent[0] == Output(live.value, EscrowSpk(c.w, c.t))
    requires m.tx.outputs != [] && m.tx.outputs[0] == o.out && m.tx.payload == o.payload && m.tx.lockTime == o.lockTime
    requires |sigs| == |o.signers|
    requires forall k, pub :: 0 <= k < |o.signers| ==> (c.w.signed(m.tx, 0, sigs[k], pub) <==> pub == o.signers[k].pub)
    ensures Seen(c.w, c.t, prev, live.value, ContextOf(c.w, m), o.out, o.payload, o.lockTime, sigs, o.signers)
  {
    hide EscrowSpk, TxId;
  }

  // ----- one rule at a time -------------------------------------------------

  lemma OneSig(sigs: seq<Bytes>)
    ensures |sigs| == 1 ==> StackOf(sigs) == On(sigs[0], Bottom)
    ensures |sigs| == 2 ==> StackOf(sigs) == On(sigs[1], On(sigs[0], Bottom))
  {
    if |sigs| == 1 {
      assert sigs[..0] == [];
    }
    if |sigs| == 2 {
      assert sigs[..1][..0] == [];
    }
  }

  /** The supplied state authenticates, and reads as the phase it is in. */
  lemma PriorIsPhase(w: World, t: Terms, prev: Tx, phase: Phase, c: Spend, want: Phase)
    requires InContext(c) && c.blake2b == w.prims.blake2b && c.inputs[c.index].txid == TxId(w, prev)
    requires HoldsEscrow(w, t, prev, phase)
    ensures Prior(c, w.rest(prev), prev.payload, want, TermsId(w.prims, t)) <==> phase == want
  {
    hide TermsId, EscrowSpk;
    assert prev.payload[OFF_PHASE..OFF_PHASE + 1] == prev.payload[..OFF_TERMS][OFF_PHASE..OFF_PHASE + 1];
    assert Header(phase)[OFF_PHASE..OFF_PHASE + 1] == [PhaseByte(phase)];
    assert [PhaseByte(phase)] == [PhaseByte(want)] <==> phase == want by {
      assert [PhaseByte(phase)][0] == PhaseByte(phase) && [PhaseByte(want)][0] == PhaseByte(want);
    }
  }

  function ClaimState(id: Digest, maker: Digest, rep: Digest): EscrowState {
    EscrowState(Phase.Claimed, id, Some(maker), Some(rep), None, 0)
  }

  lemma ClaimAccepts(w: World, t: Terms, prev: Tx, phase: Phase, value: nat, c: Spend, maker: Digest, rep: Keypair,
                     sigs: seq<Bytes>)
    requires SmallTerms(t) && HoldsEscrow(w, t, prev, phase) && value == prev.outputs[0].amount && maker != Zeros(32)
    requires Seen(w, t, prev, value, c, Output(ClaimedValue(t), EscrowSpk(w, t)),
                  EncodeState(ClaimState(TermsId(w.prims, t), maker, rep.pub)), 0, sigs, [rep])
    ensures ClaimRule(c, t, TermsId(w.prims, t), On(prev.payload, On(w.rest(prev), StackOf(sigs)))) <==> phase == Open
    ensures phase == Open ==> HoldsRecord(w, t, c.outputs[0], c.payload, Phase.Claimed)
  {
    hide TermsId, EscrowSpk, EncodeState, Prior, Header, TxId;
    OneSig(sigs);
    PriorIsPhase(w, t, prev, phase, c, Open);
    StateFields(ClaimState(TermsId(w.prims, t), maker, rep.pub));
    assert c.payload[OFF_TRACKING..] == Zeros(40) by {
      assert c.payload[OFF_TRACKING..] == c.payload[OFF_TRACKING..OFF_SHIPPED_AT] + c.payload[OFF_SHIPPED_AT..];
      ZeroTime();
      assert Zeros(32) + Zeros(8) == Zeros(40);
    }
    assert c.sigOk(sigs[0], rep.pub);
  }

  lemma ZeroTime()
    ensures LeBytes(0, 8) == Zeros(8)
  {
  }

  function ShipState(id: Digest, prev: EscrowState, tracking: Digest, now: nat): EscrowState {
    EscrowState(Shipped, id, prev.maker, prev.makerRep, Some(tracking), now)
  }

  lemma ShipAccepts(w: World, t: Terms, prev: Tx, phase: Phase, value: nat, c: Spend, st: EscrowState, tracking: Digest,
                    now: nat, key: Keypair, sigs: seq<Bytes>)
    requires HoldsEscrow(w, t, prev, phase) && value == prev.outputs[0].amount && now < TWO63 && SmallTerms(t)
    requires DecodeState(w.prims, prev.payload).Ok? && st.maker == DecodeState(w.prims, prev.payload).value.maker
    requires Seen(w, t, prev, value, c, Output(value, EscrowSpk(w, t)),
                  EncodeState(ShipState(TermsId(w.prims, t), st, tracking, now)), now, sigs, [key])
    ensures ShipRule(c, TermsId(w.prims, t), On(prev.payload, On(w.rest(prev), StackOf(sigs)))) <==>
            phase == Phase.Claimed && key.pub == MakerOf(prev.payload) && tracking != Zeros(32)
    ensures phase == Phase.Claimed ==> HoldsRecord(w, t, c.outputs[0], c.payload, Shipped)
  {
    hide TermsId, EscrowSpk, EncodeState, DecodeState, Prior, Header, TxId;
    OneSig(sigs);
    PriorIsPhase(w, t, prev, phase, c, Phase.Claimed);
    EncodeDecode(w.prims, prev.payload);
    StateFields(DecodeState(w.prims, prev.payload).value);
    StateFields(ShipState(TermsId(w.prims, t), st, tracking, now));
    assert c.sigOk(sigs[0], MakerOf(prev.payload)) <==> MakerOf(prev.payload) == key.pub;
  }

  lemma DisputeAccepts(w: World, t: Terms, prev: Tx, phase: Phase, value: nat, c: Spend, key: Keypair, sigs: seq<Bytes>)
    requires HoldsEscrow(w, t, prev, phase) && value == prev.outputs[0].amount && SmallTerms(t)
    requires DecodeState(w.prims, prev.payload).Ok?
    requires Seen(w, t, prev, value, c, Output(value, EscrowSpk(w, t)),
                  EncodeState(DecodeState(w.prims, prev.payload).value.(phase := Disputed)), 0, sigs, [key])
    ensures DisputeRule(c, t, TermsId(w.prims, t), On(prev.payload, On(w.rest(prev), StackOf(sigs)))) <==>
            phase == Shipped && key.pub == t.buyer
    ensures phase == Shipped ==> HoldsRecord(w, t, c.outputs[0], c.payload, Disputed)
  {
    hide TermsId, EscrowSpk, EncodeState, DecodeState, Prior, Header, TxId;
    OneSig(sigs);
    PriorIsPhase(w, t, prev, phase, c, Shipped);
    var st := DecodeState(w.prims, prev.payload).value;
    EncodeDecode(w.prims, prev.payload);
    StateFields(st);
    StateFields(st.(phase := Disputed));
    assert c.payload[OFF_MAKER..] == prev.payload[OFF_MAKER..STATE_BYTES] by {
      SameTail(c.payload, prev.payload);
    }
    assert c.sigOk(sigs[0], t.buyer) <==> t.buyer == key.pub;
  }

  lemma SameTail(a: Bytes, b: Bytes)
    requires |a| == |b| == STATE_BYTES
    requires a[OFF_MAKER..OFF_MAKER_REP] == b[OFF_MAKER..OFF_MAKER_REP]
    requires a[OFF_MAKER_REP..OFF_TRACKING] == b[OFF_MAKER_REP..OFF_TRACKING]
    requires a[OFF_TRACKING..OFF_SHIPPED_AT] == b[OFF_TRACKING..OFF_SHIPPED_AT]
    requires a[OFF_SHIPPED_AT..] == b[OFF_SHIPPED_AT..]
    ensures a[OFF_MAKER..] == b[OFF_MAKER..STATE_BYTES]
  {
    TailParts(a);
    TailParts(b);
    assert b[OFF_MAKER..STATE_BYTES] == b[OFF_MAKER..];
  }

  lemma TailParts(a: Bytes)
    requires |a| == STATE_BYTES
    ensures a[OFF_MAKER..] == a[OFF_MAKER..OFF_MAKER_REP] + a[OFF_MAKER_REP..OFF_TRACKING]
                              + a[OFF_TRACKING..OFF_SHIPPED_AT] + a[OFF_SHIPPED_AT..]
  {
  }

  lemma DeadlineMet(t: Terms)
    requires SmallTerms(t)
    ensures LockTimeMet(EncodeNum(AsI64(t.deadline)), t.deadline, 0)
  {
    hide EncodeNum;
    DeadlineArgument(t.deadline);
    NumRoundTrip(t.deadline);
  }

  lemma SettleAccepts(w: World, t: Terms, prev: Tx, phase: Phase, value: nat, c: Spend, payload: Bytes, maker: Digest,
                      key: Keypair, sigs: seq<Bytes>)
    requires HoldsEscrow(w, t, prev, phase) && maker == MakerOf(prev.payload) && |payload| == TERMINAL_PAYLOAD_BYTES
    requires Seen(w, t, prev, value, c, Output(ClaimedValue(t), P2pk(maker)), payload, 0, sigs, [key])
    ensures SettleRule(c, t, TermsId(w.prims, t), On(prev.payload, On(w.rest(prev), StackOf(sigs)))) <==>
            phase == Shipped && key.pub == t.buyer
  {
    hide TermsId, EscrowSpk, Prior, Header, TxId, P2pk;
    OneSig(sigs);
    PriorIsPhase(w, t, prev, phase, c, Shipped);
    assert c.sigOk(sigs[0], t.buyer) <==> t.buyer == key.pub;
  }

  lemma SlashAccepts(w: World, t: Terms, prev: Tx, phase: Phase, value: nat, c: Spend, payload: Bytes,
                     key: Keypair, sigs: seq<Bytes>)
    requires SmallTerms(t) && HoldsEscrow(w, t, prev, phase) && |payload| == TERMINAL_PAYLOAD_BYTES
    requires Seen(w, t, prev, value, c, Output(ClaimedValue(t), P2pk(t.buyer)), payload, t.deadline, sigs, [key])
    ensures SlashRule(c, t, TermsId(w.prims, t), On(prev.payload, On(w.rest(prev), StackOf(sigs)))) <==>
            phase == Phase.Claimed && key.pub == t.buyer
  {
    hide TermsId, EscrowSpk, Prior, Header, TxId, P2pk, LockTimeMet;
    OneSig(sigs);
    PriorIsPhase(w, t, prev, phase, c, Phase.Claimed);
    DeadlineMet(t);
    assert c.sigOk(sigs[0], t.buyer) <==> t.buyer == key.pub;
  }

  lemma RefundAccepts(w: World, t: Terms, prev: Tx, phase: Phase, value: nat, c: Spend, key: Keypair, sigs: seq<Bytes>)
    requires SmallTerms(t) && HoldsEscrow(w, t, prev, phase)
    requires Seen(w, t, prev, value, c, Output(t.reward, P2pk(t.buyer)), [], t.deadline, sigs, [key])
    ensures RefundRule(c, t, TermsId(w.prims, t), On(prev.payload, On(w.rest(prev), StackOf(sigs)))) <==>
            phase == Open && key.pub == t.buyer
  {
    hide TermsId, EscrowSpk, Prior, Header, TxId, P2pk, LockTimeMet;
    OneSig(sigs);
    PriorIsPhase(w, t, prev, phase, c, Open);
    DeadlineMet(t);
    assert c.sigOk(sigs[0], t.buyer) <==> t.buyer == key.pub;
  }

  lemma ResolveAccepts(w: World, t: Terms, prev: Tx, phase: Phase, value: nat, c: Spend, payload: Bytes, toMaker: bool,
                       winner: Digest, key: Keypair, arbiterKey: Keypair, sigs: seq<Bytes>)
    requires t.arbiter.Some? && HoldsEscrow(w, t, prev, phase) && |payload| == TERMINAL_PAYLOAD_BYTES
    requires winner == (if toMaker then MakerOf(prev.payload) else t.buyer)
    requires Seen(w, t, prev, value, c, Output(ClaimedValue(t), P2pk(winner)), payload, 0, sigs, [key, arbiterKey])
    ensures ResolveRule(c, t, TermsId(w.prims, t), t.arbiter.value, toMaker,
                        On(prev.payload, On(w.rest(prev), StackOf(sigs)))) <==>
            phase == Disputed && key.pub == winner && arbiterKey.pub == t.arbiter.value
  {
    hide TermsId, EscrowSpk, Prior, Header, TxId, P2pk;
    OneSig(sigs);
    PriorIsPhase(w, t, prev, phase, c, Disputed);
    assert c.sigOk(sigs[0], winner) <==> winner == key.pub;
    assert c.sigOk(sigs[1], t.arbiter.value) <==> t.arbiter.value == arbiterKey.pub;
  }
}
