/** What a recorded default means: exactly what the scan looks at, spends it cannot tell from a slash, and what a
    rebuilder learns by looking one step back. */
module Defaults {
  import opened ByteStrings
  import opened Primitives
  import opened ScriptNumbers
  import opened ScriptVm
  import opened ScriptBytes
  import opened EscrowState
  import opened Covenant
  import opened CovenantPieces
  import opened CovenantMeaning
  import opened CovenantContract
  import opened EscrowRuns
  import opened EscrowSafety
  import opened ClientTx
  import opened ClientProofs
  import opened SplitRuns
  import opened SlashLink
  import Dispatcher
  import Roots
  import RootsResume
  import Scan

  // ----- the guard ----------------------------------------------------------

  /** All the scan looks at: the item below the script reads 7, and the payload spent from decodes past OPEN. */
  predicate LooksSlashed(prims: Primitives, payload: Bytes, script: Bytes) {
    && Scan.BranchSelector(script) == Some(Roots.SLASH_SELECTOR)
    && DecodeState(prims, payload).Ok? && DecodeState(prims, payload).value.phase != Open
  }

  /** A default is recorded exactly then, and it is the pseudonym at bytes 70 to 102. */
  lemma RecordedExactlyWhen(prims: Primitives, payload: Bytes, script: Bytes)
    ensures Scan.DefaultFromSpend(prims, payload, script, Roots.SLASH_SELECTOR) ==
            if LooksSlashed(prims, payload, script) then Some(RepOf(payload)) else None
  {
    hide Scan.BranchSelector, LeValue;
    if DecodeState(prims, payload).Ok? {
      var st := DecodeState(prims, payload).value;
      assert CheckInvariants(st).Ok?;
    }
  }

  /** The covenant of these terms ran, on its slash branch. */
  predicate TookSlash(w: World, t: Terms, m: Move) {
    && ItemsOf(m).Some? && ItemsOf(m).value != []
    && ItemsOf(m).value[|ItemsOf(m).value| - 1] == Dispatcher.CovenantBytes(w.prims, t)
    && BranchTaken(t, m) == Some(Slash)
  }

  /** The spend behind a recorded default really took the slash branch exactly when the output it spends is the
      escrow of these terms, which the scan does not look at. */
  lemma TookSlashExactlyWhen(w: World, t: Terms, prev: Tx, m: Move)
    requires SmallTerms(t) && Legit(w, prev, m) && IncidentIn(w, t, prev, m) == None
    requires LooksSlashed(w.prims, prev.payload, SigScriptOf(m))
    ensures TookSlash(w, t, m) <==> SpendsEscrow(w, t, prev)
  {
    hide ScriptAccepts, SigItems, StackOf, ScriptHashSpk, Dispatcher.CovenantBytes, BranchTaken, Scan.BranchSelector;
    hide DecodeState, EvidenceOf;
    MoveIsShaped(w, prev, m);
    if SpendsEscrow(w, t, prev) {
      RedeemIsCovenant(w, t, prev, m);
      MoveObeysRule(w, t, prev, m);
      SelectorSeen(t, m);
      SelectorsDiffer();
    }
  }

  lemma RedeemIsCovenant(w: World, t: Terms, prev: Tx, m: Move)
    requires Legit(w, prev, m) && SpendsEscrow(w, t, prev) && IncidentIn(w, t, prev, m) == None
    ensures ItemsOf(m).Some? && ItemsOf(m).value != []
    ensures ItemsOf(m).value[|ItemsOf(m).value| - 1] == Dispatcher.CovenantBytes(w.prims, t)
  {
    hide Unlocks, ItemsOf, ScriptHashSpk, Legit, SpendsEscrow, TxId, EvidenceIn;
    LegitItems(w, t, prev, m);
  }

  // ----- without the covenant -----------------------------------------------

  /** Any payload that reads as a CLAIMED record, and any spend of any output beside it whose script ends in a
      seven and one more push. */
  lemma RecordedWithoutCovenant(prims: Primitives, o: Roots.Orders, id: Digest, maker: Digest, rep: Digest,
                                created: Roots.Tx, spender: Roots.Tx, index: nat, redeem: Bytes)
    requires prims.validKey(maker) && prims.validKey(rep) && !prims.validKey(Zeros(32)) && |redeem| < TWO32
    requires created.id.Some? && spender.id.Some? && created.id != spender.id
    requires created.payload == EncodeState(ClaimState(id, maker, rep))
    requires Roots.Input(Scan.SpentOutpoint(created.id.value, index), Scan.EncodePushes([[7], redeem])) in
             spender.inputs
    ensures rep in RootsResume.After(prims, o, RootsResume.Window({spender.id.value}, [created, spender]),
                                     Roots.Prior([], [], map[])).defaulted
  {
    hide DecodeState, EncodeState, Scan.BranchSelector, RootsResume.After, Scan.DefaultFromSpend, Roots.Slashes;
    hide Scan.EncodePushes;
    var w := RootsResume.Window({spender.id.value}, [created, spender]);
    var input := Roots.Input(Scan.SpentOutpoint(created.id.value, index), Scan.EncodePushes([[7], redeem]));
    SevenBelow(redeem);
    var st := ClaimState(id, maker, rep);
    DecodeEncode(prims, st);
    StateFields(st);
    RecordedExactlyWhen(prims, created.payload, input.sigScript);
    assert Roots.IsSlash(input);
    RootsResume.SlashInputsFound(spender.inputs, input);
    assert spender in w.txs && created in w.txs;
    RootsResume.SlashesFound(w.accepted, w.txs, input);
    assert RootsResume.Shows(w.txs, created.id.value, created.payload);
    assert RootsResume.Names(prims, input, created.payload, rep);
    RootsResume.DefaultedMeans(prims, o, w, Roots.Prior([], [], map[]), rep);
  }

  lemma SevenBelow(redeem: Bytes)
    requires |redeem| < TWO32
    ensures Scan.BranchSelector(Scan.EncodePushes([[7], redeem])) == Some(Roots.SLASH_SELECTOR)
  {
    hide Scan.EncodePushes;
    Scan.ParseUndoesPush([[7], redeem]);
  }

  // ----- without a claim -----------------------------------------------------

  /** A covenant output funded directly, with a CLAIMED record nobody claimed. */
  function Funding(w: World, t: Terms, maker: Digest, rep: Digest, inputs: seq<TxIn>): Tx {
    Tx(inputs, [Output(t.reward + t.makerBond, EscrowSpk(w, t))],
       EncodeState(ClaimState(TermsId(w.prims, t), maker, rep)), 0)
  }

  function SlashOf(w: World, t: Terms, prev: Tx, sig: Bytes, ids: Bytes): Move
    requires prev.outputs != []
  {
    MoveFrom(w, t, prev, Slash, [sig], w.rest(prev), prev.payload, [Output(ClaimedValue(t), P2pk(t.buyer))], ids,
             t.deadline, 0)
  }

  /** The buyer's slash of whatever holds the escrow as CLAIMED is accepted. */
  lemma SlashBuilt(w: World, t: Terms, prev: Tx, buyer: Keypair, sig: Bytes, ids: Bytes)
    requires SmallTerms(t) && HoldsEscrow(w, t, prev, Phase.Claimed) && buyer.pub == t.buyer
    requires |ids| == TERMINAL_PAYLOAD_BYTES && Fits([sig], w.rest(prev), prev.payload, ids)
    requires forall key :: w.signed(SlashOf(w, t, prev, sig, ids).tx, 0, sig, key) <==> key == buyer.pub
    ensures var m := SlashOf(w, t, prev, sig, ids);
      && Legit(w, prev, m) && IncidentIn(w, t, prev, m) == None && Faithful(prev, m)
      && BranchTaken(t, m) == Some(Slash)
  {
    hide Dispatcher.CovenantBytes, EncodeNum, EncodeOps, PushOps, ScriptHashSpk, TxId, TermsId, Header, P2pk;
    hide Legit, BranchTaken, SlashRule, IncidentIn, Faithful;
    var m := SlashOf(w, t, prev, sig, ids);
    var value := prev.outputs[0].amount;
    MoveAccepted(w, t, prev, Slash, [sig], w.rest(prev), prev.payload, m.tx.outputs, ids, t.deadline, 0);
    var c := ContextOf(w, m);
    assert Seen(w, t, prev, value, c, Output(ClaimedValue(t), P2pk(t.buyer)), ids, t.deadline, [sig], [buyer]);
    SlashAccepts(w, t, prev, Phase.Claimed, value, c, ids, buyer, [sig]);
  }

  /** The transaction as the scan meets it. */
  function BodyOf(w: World, tx: Tx): Roots.Tx {
    Roots.Tx(Some(TxId(w, tx)), tx.payload,
             seq(|tx.inputs|, i requires 0 <= i < |tx.inputs| =>
               Roots.Input(Scan.SpentOutpoint(tx.inputs[i].txid, tx.inputs[i].index), tx.inputs[i].sigScript)))
  }

  /** The covenant's own slash branch can land on a pseudonym that signed nothing: the buyer funds a record that
      names it, waits, and slashes. One signature, the buyer's. */
  lemma SlashWithoutClaim(w: World, t: Terms, o: Roots.Orders, maker: Digest, rep: Digest, inputs: seq<TxIn>,
                          buyer: Keypair, sig: Bytes, ids: Bytes)
    requires SmallTerms(t) && buyer.pub == t.buyer && |ids| == TERMINAL_PAYLOAD_BYTES
    requires w.prims.validKey(maker) && w.prims.validKey(rep) && !w.prims.validKey(Zeros(32))
    requires var prev := Funding(w, t, maker, rep, inputs);
             var m := SlashOf(w, t, prev, sig, ids);
             && Fits([sig], w.rest(prev), prev.payload, ids) && TxId(w, prev) != TxId(w, m.tx)
             && forall key :: w.signed(m.tx, 0, sig, key) <==> key == buyer.pub
    ensures var prev := Funding(w, t, maker, rep, inputs);
            var m := SlashOf(w, t, prev, sig, ids);
      && HoldsEscrow(w, t, prev, Phase.Claimed) && Legit(w, prev, m) && IncidentIn(w, t, prev, m) == None
      && Faithful(prev, m) && BranchTaken(t, m) == Some(Slash)
      && rep in RootsResume.After(w.prims, o,
                                  RootsResume.Window({TxId(w, m.tx)}, [BodyOf(w, prev), BodyOf(w, m.tx)]),
                                  Roots.Prior([], [], map[])).defaulted
  {
    hide Dispatcher.CovenantBytes, EncodeNum, EncodeOps, PushOps, ScriptHashSpk, TxId, TermsId, EncodeState, Header;
    hide Legit, BranchTaken, IncidentIn, RootsResume.After, Faithful, KeysValid, P2pk, ClaimedValue;
    var prev := Funding(w, t, maker, rep, inputs);
    var m := SlashOf(w, t, prev, sig, ids);
    var st := ClaimState(TermsId(w.prims, t), maker, rep);
    StateFields(st);
    SlashBuilt(w, t, prev, buyer, sig, ids);
    var created, spender := BodyOf(w, prev), BodyOf(w, m.tx);
    var window := RootsResume.Window({TxId(w, m.tx)}, [created, spender]);
    assert created in window.txs && spender in window.txs;
    assert RootsResume.Shows(window.txs, TxId(w, prev), prev.payload);
    ClaimStateReadable(w.prims, st);
    SlashReachesAccumulator(w, t, prev, m, o, window, Roots.Prior([], [], map[]), spender, spender.inputs[0]);
  }

  lemma ClaimStateReadable(prims: Primitives, st: EscrowState)
    requires st.phase == Phase.Claimed && st.maker.Some? && st.makerRep.Some? && st.tracking.None? && st.shippedAt == 0
    ensures KeysValid(prims, EncodeState(st)) <==> prims.validKey(st.maker.value) && prims.validKey(st.makerRep.value)
    ensures NothingShipped(EncodeState(st)) && RepOf(EncodeState(st)) == st.makerRep.value
  {
    hide EncodeState, LeValue;
    StateFields(st);
    ZeroTime();
    ZeroValue(8);
    TailIsZero(EncodeState(st));
  }

  // ----- one step back -------------------------------------------------------

  /** What a rebuilder can rely on by checking one step back: when the record's transaction is itself an accepted
      claim from OPEN, a recorded default is a slash, and its pseudonym signed that claim. */
  lemma DefaultSigned(w: World, t: Terms, origin: Tx, claim: Move, m: Move)
    requires SmallTerms(t) && HoldsEscrow(w, t, origin, Open) && Legit(w, origin, claim)
    requires IncidentIn(w, t, origin, claim) == None && Bound(w, t, origin, claim)
    requires BranchTaken(t, claim) == Some(Claim)
    requires Legit(w, claim.tx, m) && IncidentIn(w, t, claim.tx, m) == None && Bound(w, t, claim.tx, m)
    ensures var rep := Scan.DefaultFromSpend(w.prims, claim.tx.payload, SigScriptOf(m), Roots.SLASH_SELECTOR);
            rep.Some? ==> BranchTaken(t, m) == Some(Slash) && SignedBy(w, claim, rep.value)
  {
    hide Legit, IncidentIn, Bound, BranchTaken, Effect, DecodeState, Scan.DefaultFromSpend, EscrowSpk, TermsId, Header;
    MoveHasEffect(w, t, origin, claim, Open);
    EffectBindsRep(w, t, origin, claim);
    ClaimHolds(w, t, origin, claim);
    MoveIsShaped(w, claim.tx, m);
    DefaultIsSlash(w, t, claim.tx, m, Phase.Claimed);
  }

  lemma ClaimHolds(w: World, t: Terms, origin: Tx, claim: Move)
    requires Effect(w, t, origin, claim, Claim)
    ensures HoldsEscrow(w, t, claim.tx, Phase.Claimed)
  {
  }

  // ----- a slash that records nothing ----------------------------------------

  /** A CLAIMED record whose payment key is no key names nobody, under any script. */
  lemma NonKeyNeverNamed(prims: Primitives, id: Digest, maker: Digest, rep: Digest, script: Bytes)
    requires !prims.validKey(maker) && !prims.validKey(Zeros(32))
    ensures Scan.DefaultFromSpend(prims, EncodeState(ClaimState(id, maker, rep)), script, Roots.SLASH_SELECTOR) == None
  {
    hide DecodeState, EncodeState, Scan.BranchSelector, KeysValid;
    var st := ClaimState(id, maker, rep);
    StateFields(st);
    RecordDecodes(prims, EncodeState(st), Phase.Claimed);
    ClaimStateReadable(prims, st);
  }

  /** So a maker can claim naming a payment key that is none, be slashed, and never be recorded: both moves are
      accepted and free of collisions, and no script spending the claim names anybody. */
  lemma SlashUnrecorded(w: World, t: Terms, opening: Tx, maker: Digest, rep: Keypair, claimSig: Bytes, beside: Output,
                        buyer: Keypair, sig: Bytes, ids: Bytes)
    requires SmallTerms(t) && IsOpening(w, t, opening) && buyer.pub == t.buyer && |ids| == TERMINAL_PAYLOAD_BYTES
    requires maker != Zeros(32) && !w.prims.validKey(maker) && !w.prims.validKey(Zeros(32))
    requires var claim := ClaimBeside(w, t, opening, maker, rep.pub, claimSig, beside);
      && Fits([claimSig], w.rest(opening), opening.payload, [])
      && (forall p :: w.signed(claim.tx, 0, claimSig, p) <==> p == rep.pub)
      && Fits([sig], w.rest(claim.tx), claim.tx.payload, ids)
      && forall p :: w.signed(SlashOf(w, t, claim.tx, sig, ids).tx, 0, sig, p) <==> p == buyer.pub
    ensures var claim := ClaimBeside(w, t, opening, maker, rep.pub, claimSig, beside);
            var m := SlashOf(w, t, claim.tx, sig, ids);
      && Legit(w, opening, claim) && IncidentIn(w, t, opening, claim) == None && BranchTaken(t, claim) == Some(Claim)
      && Legit(w, claim.tx, m) && IncidentIn(w, t, claim.tx, m) == None && BranchTaken(t, m) == Some(Slash)
      && forall script :: Scan.DefaultFromSpend(w.prims, claim.tx.payload, script, Roots.SLASH_SELECTOR) == None
  {
    hide Dispatcher.CovenantBytes, EncodeNum, EncodeOps, PushOps, ScriptHashSpk, TxId, TermsId, EncodeState, IsOpening;
    hide Legit, BranchTaken, IncidentIn, HoldsEscrow, Scan.DefaultFromSpend, Faithful;
    OpeningNotEmpty(w, t, opening);
    var claim := ClaimBeside(w, t, opening, maker, rep.pub, claimSig, beside);
    ClaimBesideAccepted(w, t, opening, maker, rep, claimSig, beside);
    SlashBuilt(w, t, claim.tx, buyer, sig, ids);
    forall script
      ensures Scan.DefaultFromSpend(w.prims, claim.tx.payload, script, Roots.SLASH_SELECTOR) == None
    {
      NonKeyNeverNamed(w.prims, TermsId(w.prims, t), maker, rep.pub, script);
    }
  }

  lemma OpeningNotEmpty(w: World, t: Terms, tx: Tx)
    requires IsOpening(w, t, tx)
    ensures tx.outputs != []
  {
  }
}
