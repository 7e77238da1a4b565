/** The commands that keep an escrow in its covenant, each proved against the covenant: exactly when its
    transaction is accepted, that it costs the fee and nothing else, and that what it remembers next is again
    true. */
module ClientCommands {
  import opened ByteStrings
  import opened Primitives
  import opened ScriptVm
  import opened EscrowState
  import opened Covenant
  import opened CovenantPieces
  import opened CovenantMeaning
  import opened CovenantContract
  import opened EscrowRuns
  import opened EscrowSafety
  import opened ClientTx
  import opened Client
  import opened ClientProofs
  import Dispatcher

  // ----- steps --------------------------------------------------------------

  /** An output worth what the escrow held plus what was added costs the fee and nothing else. */
  lemma FeeOnly(c: Session, live: Live, o: Order, name: string, s: Step)
    requires Stepped(c, live, o, name, s)
    ensures LosesOnlyFee(c, live, s) <==> o.out.amount == live.value + o.extra
    ensures s.tx.outputs != [] && s.tx.outputs[0] == o.out && s.tx.payload == o.payload && s.tx.lockTime == o.lockTime
  {
    hide EscrowSpk, P2pk, Dispatcher.CovenantBytes, TxId, ScriptsFor;
    var spent := MoveOf(c, live, s).spent;
    assert spent[1..][1..] == [] && s.tx.outputs[1..][1..] == [];
    assert Total(spent) == spent[0].amount + (spent[1].amount + Total(spent[1..][1..]));
    assert Total(s.tx.outputs) == s.tx.outputs[0].amount + (s.tx.outputs[1].amount + Total(s.tx.outputs[1..][1..]));
  }

  /** A step whose output and payload hold the escrow leaves a consistent record, if the record decodes. */
  lemma NextConsistent(c: Session, live: Live, o: Order, s: Step, next: Phase)
    requires Stepped(c, live, o, PhaseName(next), s) && HoldsRecord(c.w, c.t, o.out, o.payload, next)
    ensures Consistent(c.w, c.t, s.tx, s.next, next) <==> DecodeState(c.w.prims, o.payload).Ok?
  {
    hide EscrowSpk, P2pk, Dispatcher.CovenantBytes, TxId, ScriptsFor, DecodeState, Header, TermsId;
  }

  /** A step whose covenant input unlocks on this branch, with true evidence, and that costs only the fee. */
  ghost predicate Accepted(c: Session, prev: Tx, live: Live, branch: Branch, s: Step) {
    var m := MoveOf(c, live, s);
    && Legit(c.w, prev, m) && Faithful(prev, m) && BranchTaken(c.t, m) == Some(branch)
    && LosesOnlyFee(c, live, s)
  }

  lemma HeldValue(w: World, t: Terms, prev: Tx, live: Live, phase: Phase)
    requires Consistent(w, t, prev, live, phase)
    ensures live.value == Value(t, phase) && HoldsEscrow(w, t, prev, phase) && live.value == prev.outputs[0].amount
    ensures DecodeState(w.prims, prev.payload).Ok? && live.prevPayload == prev.payload
  {
    hide EscrowSpk, TxId, TermsId, DecodeState, P2pk;
  }

  /** Acceptance comes down to the branch's rule, seen from inside the covenant. */
  lemma Judge(c: Session, prev: Tx, live: Live, phase: Phase, o: Order, name: string, s: Step)
    returns (view: Spend, sigs: seq<Bytes>)
    requires Setting(c, prev, live, phase) && |o.payload| < TWO32 && Stepped(c, live, o, name, s)
    ensures Seen(c.w, c.t, prev, live.value, view, o.out, o.payload, o.lockTime, sigs, o.signers)
    ensures InContext(view) && view.outputs != [] && view.outputs[0] == o.out && view.payload == o.payload
    ensures Accepted(c, prev, live, o.branch, s) <==>
      && Offered(c.t, o.branch)
      && BranchRule(view, c.t, TermsId(c.w.prims, c.t), o.branch, On(prev.payload, On(c.w.rest(prev), StackOf(sigs))))
      && o.out.amount == live.value + o.extra
    ensures SmallTerms(c.t)
    ensures HoldsEscrow(c.w, c.t, prev, phase) && live.value == prev.outputs[0].amount == Value(c.t, phase)
    ensures DecodeState(c.w.prims, prev.payload).Ok? && live.prevPayload == prev.payload
  {
    hide EscrowSpk, TermsId, DecodeState, Dispatcher.CovenantBytes, Legit, BranchRule, BranchTaken, LosesOnlyFee, TxId;
    hide Stepped, MoveOf, ContextOf, Faithful, HoldsRecord;
    sigs := StepUnlocks(c, prev, live, phase, o, name, s);
    view := ContextOf(c.w, MoveOf(c, live, s));
    FeeOnly(c, live, o, name, s);
    HeldValue(c.w, c.t, prev, live, phase);
  }

  /** The fee is paid from what the signer can spend: one of the outputs the node lists, or the change of the
      escrow's own last transaction when that pays this very key. */
  lemma FundingIsOwn(c: Session, prev: Tx, live: Live, phase: Phase, o: Order, name: string, s: Step)
    requires Consistent(c.w, c.t, prev, live, phase) && Stepped(c, live, o, name, s)
    ensures || s.funding in c.node.utxos
            || (s.funding.outpoint == Outpoint(TxId(c.w, prev), |prev.outputs| - 1)
                && prev.outputs[|prev.outputs| - 1] == Output(s.funding.amount, P2pk(c.key.pub)))
    ensures s.tx.inputs[1].txid == s.funding.outpoint.txid && s.tx.inputs[1].index == s.funding.outpoint.index
  {
    hide EscrowSpk, P2pk, Dispatcher.CovenantBytes, TxId, ScriptsFor, TermsId, DecodeState, Header;
  }

  // ----- open ---------------------------------------------------------------

  /** Pay the reward in, with the OPEN record as payload. */
  method OpenEscrow(c: Session) returns (r: Result<Step, ClientError>)
    ensures r.Err? <==> forall u :: u in c.node.utxos ==> u.amount <= c.t.reward + c.node.fee * 3
    ensures r.Ok? ==>
      var s := r.value;
      && IsOpening(c.w, c.t, s.tx) && Consistent(c.w, c.t, s.tx, s.next, Open)
      && s.funding in c.node.utxos && s.funding.amount == Total(s.tx.outputs) + c.node.fee
  {
    hide EscrowSpk, P2pk, Dispatcher.CovenantBytes, TxId, ScriptsFor, TermsId, EncodeState, BuiltTx, DecodeState;
    var w, t, key, fee := c.w, c.t, c.key, c.node.fee;
    var found := Largest(c.node.utxos, t.reward + fee * 3);
    if found.None? {
      return Err(NoFunds);
    }
    var funding := found.value;
    var change := funding.amount - t.reward - fee;
    var outputs := [Output(t.reward, EscrowSpk(w, t)), Output(change, P2pk(key.pub))];
    var payload := EncodeState(OpenState(TermsId(w.prims, t)));
    var tx := Build(c.sign, key, [FeeInput(key, funding)], outputs, payload, 0);
    BuiltParts(c.sign, key, [FeeInput(key, funding)], outputs, payload, 0);
    OpeningHolds(w, t, tx);
    OpenDecodes(w.prims, TermsId(w.prims, t));
    assert outputs[1..][1..] == [];
    assert Total(outputs) == outputs[0].amount + (outputs[1].amount + Total(outputs[1..][1..]));
    r := Ok(Step(tx, NextLive(w, tx, change, key.pub, "open"), funding));
  }

  lemma OpenDecodes(prims: Primitives, id: Digest)
    ensures DecodeState(prims, EncodeState(OpenState(id))) == Ok(OpenState(id))
  {
    hide LeValue, EncodeState, LeBytes, Header;
    var s := OpenState(id);
    StateFields(s);
    Pow256Values();
    LeRoundTrip(0, 8);
  }

  // ----- claim --------------------------------------------------------------

  /** Name the maker and the pseudonym; the pseudonym signs. Accepted exactly from OPEN. */
  method ClaimEscrow(c: Session, live: Live, maker: Digest, rep: Keypair, ghost prev: Tx, ghost phase: Phase)
    returns (r: Result<Step, ClientError>)
    requires Setting(c, prev, live, phase)
    requires c.w.prims.validKey(maker) && c.w.prims.validKey(rep.pub)
    ensures if Funded(live, c.key.pub, c.node, c.t.makerBond) then r.Ok? else r == Err(NoFunds)
    ensures r.Ok? ==> (Accepted(c, prev, live, Claim, r.value) <==> phase == Open)
    ensures r.Ok? ==> MakerOf(r.value.tx.payload) == maker && RepOf(r.value.tx.payload) == rep.pub
    ensures r.Ok? && phase == Open ==> Consistent(c.w, c.t, r.value.tx, r.value.next, Phase.Claimed)
  {
    hide EscrowSpk, Dispatcher.CovenantBytes, EncodeState, TermsId, Setting, Stepped, Accepted, Consistent, Funded;
    var o := ClaimOrder(c, maker, rep);
    r := Transition(c, live, o, "claimed");
    if r.Ok? {
      ClaimStep(c, prev, live, phase, maker, rep, r.value);
    }
  }

  function ClaimOrder(c: Session, maker: Digest, rep: Keypair): Order {
    Order(Claim, [rep], c.t.makerBond, Output(ClaimedValue(c.t), EscrowSpk(c.w, c.t)),
          EncodeState(ClaimState(TermsId(c.w.prims, c.t), maker, rep.pub)), 0)
  }

  lemma ClaimStep(c: Session, prev: Tx, live: Live, phase: Phase, maker: Digest, rep: Keypair, s: Step)
    requires Setting(c, prev, live, phase) && c.w.prims.validKey(maker) && c.w.prims.validKey(rep.pub)
    requires Stepped(c, live, ClaimOrder(c, maker, rep), PhaseName(Phase.Claimed), s)
    ensures Accepted(c, prev, live, Claim, s) <==> phase == Open
    ensures MakerOf(s.tx.payload) == maker && RepOf(s.tx.payload) == rep.pub
    ensures phase == Open ==> Consistent(c.w, c.t, s.tx, s.next, Phase.Claimed)
  {
    hide EscrowSpk, Dispatcher.CovenantBytes, DecodeState, EncodeState, TermsId, Stepped, Seen, ClaimRule;
    hide CheckInvariants;
    hide Accepted, HoldsEscrow, HoldsRecord;
    var o := ClaimOrder(c, maker, rep);
    var view, sigs := Judge(c, prev, live, phase, o, PhaseName(Phase.Claimed), s);
    ClaimAccepts(c.w, c.t, prev, phase, live.value, view, maker, rep, sigs);
    FeeOnly(c, live, o, PhaseName(Phase.Claimed), s);
    StateFields(ClaimState(TermsId(c.w.prims, c.t), maker, rep.pub));
    if phase == Open {
      DecodeEncode(c.w.prims, ClaimState(TermsId(c.w.prims, c.t), maker, rep.pub));
      ClaimInvariants(TermsId(c.w.prims, c.t), maker, rep.pub);
      NextConsistent(c, live, o, s, Phase.Claimed);
    }
  }

  lemma ClaimInvariants(id: Digest, maker: Digest, rep: Digest)
    ensures CheckInvariants(ClaimState(id, maker, rep)).Ok?
  {
  }

  // ----- ship ---------------------------------------------------------------

  /** The ship time is the lock time, backed off so it is already past. */
  function ShipTime(daa: nat): nat {
    if daa < 64 then 0 else daa - 64
  }

  function ShipOrder(c: Session, live: Live, st: EscrowState, tracking: Digest): Order {
    var now := ShipTime(c.node.daa);
    Order(Ship, [c.key], 0, Output(live.value, EscrowSpk(c.w, c.t)),
          EncodeState(ShipState(TermsId(c.w.prims, c.t), st, tracking, now)), now)
  }

  /** The record of a shipment: this tracking hash, this time, and the parties it already named. */
  predicate RecordsShipment(payload: Bytes, before: Bytes, tracking: Digest, time: nat) {
    && |payload| == STATE_BYTES
    && payload[OFF_TRACKING..OFF_SHIPPED_AT] == tracking && payload[OFF_SHIPPED_AT..] == LeBytes(time, 8)
    && MakerOf(payload) == MakerOf(before) && RepOf(payload) == RepOf(before)
  }

  /** Record the delivery; the maker signs. Accepted exactly from CLAIMED, for the recorded maker and a
      real tracking hash, and never too early. */
  method ShipGoods(c: Session, live: Live, tracking: Digest, ghost prev: Tx, ghost phase: Phase)
    returns (r: Result<Step, ClientError>)
    requires c.node.daa < TWO63
    ensures DecodeState(c.w.prims, live.prevPayload).Err? ==> r.Err? && r.error.Unreadable?
    ensures DecodeState(c.w.prims, live.prevPayload).Ok? ==>
      if Funded(live, c.key.pub, c.node, 0) then r.Ok? else r == Err(NoFunds)
    ensures Setting(c, prev, live, phase) && r.Ok? ==>
      (Accepted(c, prev, live, Ship, r.value) <==>
         phase == Phase.Claimed && c.key.pub == MakerOf(prev.payload) && tracking != Zeros(32))
    ensures Setting(c, prev, live, phase) && r.Ok? ==>
      var time := if c.node.daa <= 64 then 0 else c.node.daa - 64;
      RecordsShipment(r.value.tx.payload, prev.payload, tracking, time) && r.value.tx.lockTime == time
    ensures Setting(c, prev, live, phase) && r.Ok? && Accepted(c, prev, live, Ship, r.value) ==>
      (Consistent(c.w, c.t, r.value.tx, r.value.next, Shipped) <==> c.node.daa > 64)
  {
    hide EscrowSpk, Dispatcher.CovenantBytes, EncodeState, TermsId, Setting, Stepped, Accepted, Consistent, Funded;
    hide DecodeState;
    match DecodeState(c.w.prims, live.prevPayload) {
      case Err(e) =>
        return Err(Unreadable(e));
      case Ok(st) =>
        r := Transition(c, live, ShipOrder(c, live, st, tracking), "shipped");
        if Setting(c, prev, live, phase) && r.Ok? {
          ShipStep(c, prev, live, phase, st, tracking, r.value);
        }
    }
  }

  lemma ShipStep(c: Session, prev: Tx, live: Live, phase: Phase, st: EscrowState, tracking: Digest, s: Step)
    requires Setting(c, prev, live, phase) && c.node.daa < TWO63
    requires DecodeState(c.w.prims, live.prevPayload) == Ok(st)
    requires Stepped(c, live, ShipOrder(c, live, st, tracking), PhaseName(Shipped), s)
    ensures Accepted(c, prev, live, Ship, s) <==>
            phase == Phase.Claimed && c.key.pub == MakerOf(prev.payload) && tracking != Zeros(32)
    ensures RecordsShipment(s.tx.payload, prev.payload, tracking, ShipTime(c.node.daa))
    ensures s.tx.lockTime == ShipTime(c.node.daa)
    ensures Accepted(c, prev, live, Ship, s) ==> (Consistent(c.w, c.t, s.tx, s.next, Shipped) <==> c.node.daa > 64)
  {
    hide EscrowSpk, Dispatcher.CovenantBytes, DecodeState, EncodeState, TermsId, Stepped, Seen, ShipRule;
    hide CheckInvariants;
    hide Accepted, HoldsRecord, MakerOf, Consistent;
    var o := ShipOrder(c, live, st, tracking);
    var view, sigs := Judge(c, prev, live, phase, o, PhaseName(Shipped), s);
    FeeOnly(c, live, o, PhaseName(Shipped), s);
    ShipRecorded(c, prev, st, tracking, ShipTime(c.node.daa), s.tx.payload);
    ShipAccepts(c.w, c.t, prev, phase, live.value, view, st, tracking, ShipTime(c.node.daa), c.key, sigs);
    if phase == Phase.Claimed && tracking != Zeros(32) {
      ClaimedHas(c.w.prims, prev.payload, phase, c.w, c.t, prev);
      var shipped := ShipState(TermsId(c.w.prims, c.t), st, tracking, ShipTime(c.node.daa));
      DecodeReads(c.w.prims, shipped);
      ShipInvariants(shipped);
      NextConsistent(c, live, o, s, Shipped);
    }
  }

  lemma ShipRecorded(c: Session, prev: Tx, st: EscrowState, tracking: Digest, time: nat, payload: Bytes)
    requires DecodeState(c.w.prims, prev.payload) == Ok(st)
    requires payload == EncodeState(ShipState(TermsId(c.w.prims, c.t), st, tracking, time))
    ensures RecordsShipment(payload, prev.payload, tracking, time)
  {
    hide DecodeState, EncodeState, LeBytes, TermsId;
    EncodeDecode(c.w.prims, prev.payload);
    StateFields(st);
    StateFields(ShipState(TermsId(c.w.prims, c.t), st, tracking, time));
  }

  /** A decoded record past OPEN names a maker and a pseudonym, both real keys. */
  lemma ClaimedHas(prims: Primitives, payload: Bytes, phase: Phase, w: World, t: Terms, prev: Tx)
    requires HoldsEscrow(w, t, prev, phase) && payload == prev.payload && DecodeState(prims, payload).Ok?
    ensures var st := DecodeState(prims, payload).value;
      && st.phase == phase && Representable(prims, st) && CheckInvariants(st).Ok?
      && st.termsId == TermsId(w.prims, t)
      && (phase != Open ==> st.maker.Some? && st.makerRep.Some?)
      && (st.maker.Some? ==> st.maker.value == MakerOf(payload))
      && st.tracking != Some(Zeros(32))
  {
    hide EscrowSpk, TermsId, LeValue, LeBytes, Header;
    EncodeDecode(prims, payload);
    var st := DecodeState(prims, payload).value;
    StateFields(st);
    HeadersDiffer(st.phase, phase);
  }

  lemma HeadersDiffer(p: Phase, q: Phase)
    ensures Header(p) == Header(q) <==> p == q
  {
    assert Header(p)[OFF_PHASE] == PhaseByte(p) && Header(q)[OFF_PHASE] == PhaseByte(q);
  }

  lemma ShipInvariants(st: EscrowState)
    requires st.phase in {Shipped, Disputed} && st.maker.Some? && st.makerRep.Some? && st.tracking.Some?
    ensures CheckInvariants(st).Ok? <==> st.shippedAt != 0
  {
  }

  // ----- dispute ------------------------------------------------------------

  function DisputeOrder(c: Session, live: Live, st: EscrowState): Order {
    Order(Dispute, [c.key], 0, Output(live.value, EscrowSpk(c.w, c.t)), EncodeState(st.(phase := Disputed)), 0)
  }

  /** Contest a delivery; the buyer signs. Only on arbitrated terms, and accepted exactly from SHIPPED. */
  method DisputeDelivery(c: Session, live: Live, ghost prev: Tx, ghost phase: Phase)
    returns (r: Result<Step, ClientError>)
    ensures c.t.arbiter.None? ==> r == Err(NoArbiter)
    ensures c.t.arbiter.Some? && DecodeState(c.w.prims, live.prevPayload).Err? ==> r.Err? && r.error.Unreadable?
    ensures c.t.arbiter.Some? && DecodeState(c.w.prims, live.prevPayload).Ok? ==>
      if Funded(live, c.key.pub, c.node, 0) then r.Ok? else r == Err(NoFunds)
    ensures Setting(c, prev, live, phase) && r.Ok? ==>
      (Accepted(c, prev, live, Dispute, r.value) <==> phase == Shipped && c.key.pub == c.t.buyer)
    ensures Setting(c, prev, live, phase) && r.Ok? && Accepted(c, prev, live, Dispute, r.value) ==>
      Consistent(c.w, c.t, r.value.tx, r.value.next, Disputed)
  {
    hide EscrowSpk, Dispatcher.CovenantBytes, EncodeState, TermsId, Setting, Stepped, Accepted, Consistent, Funded;
    hide DecodeState;
    if c.t.arbiter.None? {
      return Err(NoArbiter);
    }
    match DecodeState(c.w.prims, live.prevPayload) {
      case Err(e) =>
        return Err(Unreadable(e));
      case Ok(st) =>
        r := Transition(c, live, DisputeOrder(c, live, st), "disputed");
        if Setting(c, prev, live, phase) && r.Ok? {
          DisputeStep(c, prev, live, phase, st, r.value);
        }
    }
  }

  lemma DisputeStep(c: Session, prev: Tx, live: Live, phase: Phase, st: EscrowState, s: Step)
    requires Setting(c, prev, live, phase) && c.t.arbiter.Some?
    requires DecodeState(c.w.prims, live.prevPayload) == Ok(st)
    requires Stepped(c, live, DisputeOrder(c, live, st), PhaseName(Disputed), s)
    ensures Accepted(c, prev, live, Dispute, s) <==> phase == Shipped && c.key.pub == c.t.buyer
    ensures Accepted(c, prev, live, Dispute, s) ==> Consistent(c.w, c.t, s.tx, s.next, Disputed)
  {
    hide EscrowSpk, Dispatcher.CovenantBytes, DecodeState, EncodeState, TermsId, Stepped, Seen, DisputeRule;
    hide CheckInvariants;
    hide Accepted, HoldsRecord, MakerOf, Consistent;
    var o := DisputeOrder(c, live, st);
    var view, sigs := Judge(c, prev, live, phase, o, PhaseName(Disputed), s);
    DisputeAccepts(c.w, c.t, prev, phase, live.value, view, c.key, sigs);
    if phase == Shipped {
      ClaimedHas(c.w.prims, prev.payload, phase, c.w, c.t, prev);
      DisputedDecodes(c.w.prims, st);
      NextConsistent(c, live, o, s, Disputed);
    }
  }

  lemma DisputedDecodes(prims: Primitives, st: EscrowState)
    requires st.phase == Shipped && Representable(prims, st) && CheckInvariants(st).Ok?
    requires st.tracking != Some(Zeros(32))
    requires !prims.validKey(Zeros(32))
    ensures DecodeState(prims, EncodeState(st.(phase := Disputed))).Ok?
  {
    hide DecodeState, EncodeState;
    DecodeEncode(prims, st.(phase := Disputed));
  }
}
