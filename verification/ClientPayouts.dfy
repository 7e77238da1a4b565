/** The commands that pay an escrow out, each proved against the covenant, and the anchoring they leave. */
module ClientPayouts {
  import opened ByteStrings
  import opened Primitives
  import opened ScriptVm
  import opened EscrowState
  import opened Covenant
  import opened CovenantPieces
  import opened CovenantMeaning
  import opened CovenantContract
  import opened EscrowRuns
  import opened ClientTx
  import opened Client
  import opened ClientProofs
  import opened ClientCommands
  import Dispatcher
  import Scan

  // ----- payouts ------------------------------------------------------------

  function Joined(ids: seq<Digest>): (b: Bytes)
    ensures |b| == 32 * |ids|
  {
    if ids == [] then [] else Joined(ids[..|ids| - 1]) + ids[|ids| - 1]
  }

  /** One or two ids, padded to 64 bytes. */
  function PayoutPayload(ids: seq<Digest>): (b: Bytes)
    requires |ids| <= 2
    ensures |b| == TERMINAL_PAYLOAD_BYTES
  {
    Joined(ids) + Zeros(TERMINAL_PAYLOAD_BYTES - 32 * |ids|)
  }

  function SlotOf(payload: Bytes, k: nat): Bytes {
    if 32 * k + 32 <= |payload| then payload[32 * k..32 * k + 32] else []
  }

  /** The ids given, in order, in the first slots; a missing second one is zeros. */
  predicate CommitsInOrder(payload: Bytes, ids: seq<Digest>) {
    && |payload| == TERMINAL_PAYLOAD_BYTES
    && (forall k :: 0 <= k < |ids| ==> SlotOf(payload, k) == ids[k])
    && (|ids| == 1 ==> SlotOf(payload, 1) == Zeros(32))
  }

  lemma PayloadCommitsInOrder(ids: seq<Digest>)
    requires 1 <= |ids| <= 2
    ensures CommitsInOrder(PayoutPayload(ids), ids)
    ensures forall k :: 0 <= k < |ids| ==> Scan.PayloadCommits(PayoutPayload(ids), ids[k])
  {
    forall k | 0 <= k < |ids|
      ensures SlotOf(PayoutPayload(ids), k) == ids[k] && Scan.PayloadCommits(PayoutPayload(ids), ids[k])
    {
      PayoutSlots(ids, k);
    }
  }

  /** A paid-out step commits these ids, by the verifier's own rule. */
  predicate Commits(s: Step, ids: seq<Digest>) {
    CommitsInOrder(s.tx.payload, ids) && forall k :: 0 <= k < |ids| ==> Scan.PayloadCommits(s.tx.payload, ids[k])
  }

  function PayoutOrder(c: Session, branch: Branch, beneficiary: Digest, ids: seq<Digest>, lockTime: nat,
                       signers: seq<Keypair>): Order
    requires |ids| <= 2
  {
    Order(branch, signers, 0, Output(ClaimedValue(c.t), P2pk(beneficiary)), PayoutPayload(ids), lockTime)
  }

  /** Pay the whole escrow out, committing the attestation ids. */
  method PayOutTo(c: Session, live: Live, branch: Branch, beneficiary: Digest, ids: seq<Digest>, lockTime: nat,
                  signers: seq<Keypair>) returns (r: Result<Step, ClientError>)
    ensures |ids| == 0 || |ids| > 2 ==> r == Err(BadIdCount)
    ensures 1 <= |ids| <= 2 ==>
      var o := PayoutOrder(c, branch, beneficiary, ids, lockTime, signers);
      && (Early(c, o) ==> r == Err(TooEarly(lockTime - c.node.daa + 1)))
      && (!Early(c, o) && !Funded(live, c.key.pub, c.node, 0) ==> r == Err(NoFunds))
      && (!Early(c, o) && Funded(live, c.key.pub, c.node, 0) ==> r.Ok? && Stepped(c, live, o, "settled", r.value))
    ensures r.Ok? ==> Commits(r.value, ids)
  {
    hide P2pk, Stepped, Funded, SlotOf, Scan.PayloadCommits;
    if |ids| == 0 || |ids| > 2 {
      return Err(BadIdCount);
    }
    var payload: Bytes := [];
    for i := 0 to |ids|
      invariant payload == Joined(ids[..i])
    {
      assert ids[..i + 1][..i] == ids[..i];
      payload := payload + ids[i];
    }
    assert ids[..|ids|] == ids;
    payload := payload + Zeros(TERMINAL_PAYLOAD_BYTES - |payload|);
    var o := Order(branch, signers, 0, Output(ClaimedValue(c.t), P2pk(beneficiary)), payload, lockTime);
    r := Transition(c, live, o, "settled");
    if r.Ok? {
      FeeOnly(c, live, o, "settled", r.value);
      PayloadCommitsInOrder(ids);
    }
  }

  /** Every id a payout commits is one the scan indexes under the outpoint the payout spends. */
  lemma PayoutAnchors(c: Session, live: Live, branch: Branch, beneficiary: Digest, ids: seq<Digest>, lockTime: nat,
                      signers: seq<Keypair>, s: Step, k: nat)
    requires 1 <= |ids| <= 2 && k < |ids| && SignsFor(c.w, c.sign)
    requires Stepped(c, live, PayoutOrder(c, branch, beneficiary, ids, lockTime, signers), "settled", s)
    ensures Scan.PayloadCommits(s.tx.payload, ids[k])
    ensures Scan.AnchorLeaf(Scan.SpentOutpoint(live.outpoint.txid, live.outpoint.index), ids[k]) in
            Scan.LeavesOf(SpentBy(s.tx), s.tx.payload)
  {
    hide Scan.AnchorLeaf, EscrowSpk, P2pk, Dispatcher.CovenantBytes, TxId, TransitionTx;
    var o := PayoutOrder(c, branch, beneficiary, ids, lockTime, signers);
    var sigs := StepScript(c, live, o, s.funding.amount - c.node.fee, s.funding);
    PayoutSlots(ids, k);
    var slots := Scan.Slots(Scan.Scanned(s.tx.payload));
    assert SpentBy(s.tx)[0] == Scan.SpentOutpoint(live.outpoint.txid, live.outpoint.index);
    assert slots[k] == ids[k];
    Scan.RowsContain(SpentBy(s.tx), slots, Scan.AnchorLeaf(SpentBy(s.tx)[0], slots[k]));
  }

  function SpentBy(tx: Tx): (s: seq<Scan.SpentOutpoint>)
    ensures |s| == |tx.inputs|
  {
    seq(|tx.inputs|, i requires 0 <= i < |tx.inputs| => Scan.SpentOutpoint(tx.inputs[i].txid, tx.inputs[i].index))
  }

  lemma PayoutSlots(ids: seq<Digest>, k: nat)
    requires 1 <= |ids| <= 2 && k < |ids|
    ensures PayoutPayload(ids)[32 * k..32 * k + 32] == ids[k]
  {
    assert Joined(ids[..1]) == ids[0] by { assert ids[..1][..0] == []; }
    if |ids| == 1 {
      assert ids[..1] == ids;
    }
  }

  /** The maker's payment key, read from the remembered record. */
  function MakerKey(prims: Primitives, live: Live): Result<Digest, ClientError> {
    match DecodeState(prims, live.prevPayload)
    case Err(e) => Err(Unreadable(e))
    case Ok(st) => if st.maker.None? || st.makerRep.None? then Err(NoMaker) else Ok(st.maker.value)
  }

  lemma MakerKeyIs(c: Session, prev: Tx, live: Live, phase: Phase)
    requires Setting(c, prev, live, phase)
    ensures phase != Open ==> MakerKey(c.w.prims, live) == Ok(MakerOf(prev.payload))
    ensures MakerKey(c.w.prims, live).Ok? ==> MakerKey(c.w.prims, live).value == MakerOf(prev.payload)
  {
    hide EscrowSpk, TermsId, DecodeState, MakerOf, CheckInvariants, SmallTerms, Dispatcher.CovenantBytes, HoldsRecord;
    ClaimedHas(c.w.prims, prev.payload, phase, c.w, c.t, prev);
  }

  /** Release to the maker; the buyer signs. Accepted exactly from SHIPPED. */
  method SettleEscrow(c: Session, live: Live, ids: seq<Digest>, ghost prev: Tx, ghost phase: Phase)
    returns (r: Result<Step, ClientError>)
    ensures r.Ok? ==> Commits(r.value, ids)
    ensures Setting(c, prev, live, phase) && r.Ok? ==>
      (Accepted(c, prev, live, Settle, r.value) <==> phase == Shipped && c.key.pub == c.t.buyer)
    ensures Setting(c, prev, live, phase) && phase != Open && 1 <= |ids| <= 2 ==>
      (Funded(live, c.key.pub, c.node, 0) ==> r.Ok?)
  {
    hide EscrowSpk, Dispatcher.CovenantBytes, P2pk, TermsId, Setting, Stepped, Accepted, Funded, DecodeState, MakerOf;
    hide SettleRule, Seen, HoldsRecord, MakerKey, Commits;
    if Setting(c, prev, live, phase) {
      MakerKeyIs(c, prev, live, phase);
    }
    var maker := MakerKey(c.w.prims, live);
    if maker.Err? {
      return Err(maker.error);
    }
    r := PayOutTo(c, live, Settle, maker.value, ids, 0, [c.key]);
    if Setting(c, prev, live, phase) && r.Ok? {
      var o := PayoutOrder(c, Settle, maker.value, ids, 0, [c.key]);
      ghost var view, sigs := Judge(c, prev, live, phase, o, "settled", r.value);
      SettleAccepts(c.w, c.t, prev, phase, live.value, view, o.payload, maker.value, c.key, sigs);
    }
  }

  /** Take the bond after the deadline; the buyer signs. Refused by the client until the deadline is
      strictly past, and accepted exactly from CLAIMED. */
  method SlashMaker(c: Session, live: Live, defaultId: Digest, ghost prev: Tx, ghost phase: Phase)
    returns (r: Result<Step, ClientError>)
    ensures MakerKey(c.w.prims, live).Ok? && c.t.deadline > 0 && c.node.daa <= c.t.deadline ==>
      r == Err(TooEarly(c.t.deadline - c.node.daa + 1))
    ensures r.Ok? ==> Commits(r.value, [defaultId])
    ensures Setting(c, prev, live, phase) && r.Ok? ==>
      (Accepted(c, prev, live, Slash, r.value) <==> phase == Phase.Claimed && c.key.pub == c.t.buyer)
    ensures Setting(c, prev, live, phase) && phase != Open && Funded(live, c.key.pub, c.node, 0) ==>
      (c.node.daa > c.t.deadline ==> r.Ok?)
  {
    hide EscrowSpk, Dispatcher.CovenantBytes, P2pk, TermsId, Setting, Stepped, Accepted, Funded, DecodeState, MakerOf;
    hide SlashRule, Seen, HoldsRecord, MakerKey, Commits;
    if Setting(c, prev, live, phase) {
      MakerKeyIs(c, prev, live, phase);
    }
    var maker := MakerKey(c.w.prims, live);
    if maker.Err? {
      return Err(maker.error);
    }
    r := PayOutTo(c, live, Slash, c.t.buyer, [defaultId], c.t.deadline, [c.key]);
    if Setting(c, prev, live, phase) && r.Ok? {
      var o := PayoutOrder(c, Slash, c.t.buyer, [defaultId], c.t.deadline, [c.key]);
      ghost var view, sigs := Judge(c, prev, live, phase, o, "settled", r.value);
      SlashAccepts(c.w, c.t, prev, phase, live.value, view, o.payload, c.key, sigs);
    }
  }

  /** Settle a dispute; the party being paid and the arbiter sign, in that order. Accepted exactly from
      DISPUTED with the right two keys. */
  method ResolveDispute(c: Session, live: Live, toMaker: bool, arbiter: Keypair, ids: seq<Digest>, ghost prev: Tx,
                        ghost phase: Phase) returns (r: Result<Step, ClientError>)
    ensures r.Ok? ==> Commits(r.value, ids)
    ensures Setting(c, prev, live, phase) && r.Ok? ==>
      (Accepted(c, prev, live, if toMaker then ResolveToMaker else ResolveToBuyer, r.value) <==>
         && phase == Disputed && c.t.arbiter == Some(arbiter.pub)
         && c.key.pub == if toMaker then MakerOf(prev.payload) else c.t.buyer)
    ensures Setting(c, prev, live, phase) && phase != Open && 1 <= |ids| <= 2 ==>
      (Funded(live, c.key.pub, c.node, 0) ==> r.Ok?)
  {
    hide EscrowSpk, Dispatcher.CovenantBytes, P2pk, TermsId, Setting, Stepped, Accepted, Funded, DecodeState, MakerOf;
    hide ResolveRule, Seen, HoldsRecord, MakerKey, Commits;
    if Setting(c, prev, live, phase) {
      MakerKeyIs(c, prev, live, phase);
    }
    var maker := MakerKey(c.w.prims, live);
    if maker.Err? {
      return Err(maker.error);
    }
    var branch := if toMaker then ResolveToMaker else ResolveToBuyer;
    var winner := if toMaker then maker.value else c.t.buyer;
    r := PayOutTo(c, live, branch, winner, ids, 0, [c.key, arbiter]);
    if Setting(c, prev, live, phase) && r.Ok? {
      var o := PayoutOrder(c, branch, winner, ids, 0, [c.key, arbiter]);
      ghost var view, sigs := Judge(c, prev, live, phase, o, "settled", r.value);
      if c.t.arbiter.Some? {
        ResolveAccepts(c.w, c.t, prev, phase, live.value, view, o.payload, toMaker, winner, c.key, arbiter, sigs);
      }
    }
  }

  // ----- refund -------------------------------------------------------------

  /** Take the reward back; the buyer signs, no payload. Accepted exactly from OPEN. */
  method RefundBuyer(c: Session, live: Live, ghost prev: Tx, ghost phase: Phase) returns (r: Result<Step, ClientError>)
    ensures c.t.deadline > 0 && c.node.daa <= c.t.deadline ==> r == Err(TooEarly(c.t.deadline - c.node.daa + 1))
    ensures c.t.deadline == 0 || c.node.daa > c.t.deadline ==>
      if Funded(live, c.key.pub, c.node, 0) then r.Ok? else r == Err(NoFunds)
    ensures Setting(c, prev, live, phase) && r.Ok? ==>
      (Accepted(c, prev, live, Refund, r.value) <==> phase == Open && c.key.pub == c.t.buyer)
  {
    hide EscrowSpk, Dispatcher.CovenantBytes, P2pk, TermsId, Setting, Stepped, Accepted, Funded, DecodeState;
    hide RefundRule, Seen, HoldsRecord;
    var o := Order(Refund, [c.key], 0, Output(c.t.reward, P2pk(c.t.buyer)), [], c.t.deadline);
    r := Transition(c, live, o, "refunded");
    if Setting(c, prev, live, phase) && r.Ok? {
      ghost var view, sigs := Judge(c, prev, live, phase, o, "refunded", r.value);
      RefundAccepts(c.w, c.t, prev, phase, live.value, view, c.key, sigs);
    }
  }
}
