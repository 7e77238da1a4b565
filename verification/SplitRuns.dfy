/** Where the covenant accepts what the record does not allow: concrete spends, built from a transaction whose
    outputs carry bytes of the spender's choosing. */
module SplitRuns {
  import opened ByteStrings
  import opened Primitives
  import opened ScriptNumbers
  import opened ScriptVm
  import opened EscrowState
  import opened Covenant
  import opened CovenantPieces
  import opened CovenantMeaning
  import opened CovenantContract
  import opened EscrowRuns
  import opened EscrowSafety
  import opened ClientTx
  import opened ClientProofs
  import Dispatcher
  import ScriptBytes

  // ----- a move from its parts ----------------------------------------------

  /** One covenant input supplying this state and these signatures, spending output 0 of `prev`. */
  function MoveFrom(w: World, t: Terms, prev: Tx, b: Branch, sigs: seq<Bytes>, rest: Bytes, record: Bytes,
                    outputs: seq<Output>, payload: Bytes, lockTime: nat, sequence: nat): Move
    requires prev.outputs != []
  {
    var data := sigs + [rest, record, EncodeNum(Selector(b)), Dispatcher.CovenantBytes(w.prims, t)];
    var input := TxIn(TxId(w, prev), 0, ScriptBytes.EncodeOps(PushOps(data)), sequence);
    Move(Tx([input], outputs, payload, lockTime), 0, [prev.outputs[0]])
  }

  /** Everything such a move pushes fits a push. */
  predicate Fits(sigs: seq<Bytes>, rest: Bytes, record: Bytes, payload: Bytes) {
    Pushable(sigs) && |rest| < TWO32 && |record| < TWO32 && |payload| < TWO32
  }

  /** Such a move unlocks its input exactly when the branch is offered and its rule holds, and if the halves are
      the transaction's own bytes, however cut, the move exhibits no collision. */
  lemma MoveAccepted(w: World, t: Terms, prev: Tx, b: Branch, sigs: seq<Bytes>, rest: Bytes, record: Bytes,
                     outputs: seq<Output>, payload: Bytes, lockTime: nat, sequence: nat)
    requires SmallTerms(t) && SpendsEscrow(w, t, prev) && Fits(sigs, rest, record, payload)
    ensures var m := MoveFrom(w, t, prev, b, sigs, rest, record, outputs, payload, lockTime, sequence);
      && Shaped(m)
      && (Legit(w, prev, m) <==>
            Offered(t, b) && BranchRule(ContextOf(w, m), t, TermsId(w.prims, t), b,
                                        On(record, On(rest, StackOf(sigs)))))
      && BranchTaken(t, m) == (if Offered(t, b) then Some(b) else None)
      && (rest + record == Preimage(w, prev) ==> IncidentIn(w, t, prev, m) == None)
      && (Faithful(prev, m) <==> |record| == |prev.payload|)
  {
    hide Dispatcher.CovenantBytes, EncodeNum, ScriptBytes.EncodeOps, PushOps, BranchRule, TermsId, ScriptHashSpk, TxId;
    hide BranchTaken, Unlocks, StackOf, SmallTerms;
    var m := MoveFrom(w, t, prev, b, sigs, rest, record, outputs, payload, lockTime, sequence);
    var script := Dispatcher.CovenantBytes(w.prims, t);
    SelectorBytes(b, t);
    CovenantIsSmall(w.prims, t);
    BuiltUnlocks(w, t, m, b, rest, record, sigs);
    var items := sigs + [rest, record, EncodeNum(Selector(b)), script];
    SigItemsBuilt(items);
    assert ItemsOf(m) == Some(items);
  }

  // ----- a record read elsewhere ---------------------------------------------

  /** Paying the whole value to `key` by auto-release, with the previous transaction cut at `k`. */
  function ReleaseAt(w: World, t: Terms, prev: Tx, k: nat, key: Digest, sig: Bytes, ids: Bytes, sequence: nat): Move
    requires prev.outputs != [] && k <= |Preimage(w, prev)|
  {
    var whole := Preimage(w, prev);
    MoveFrom(w, t, prev, AutoRelease, [sig], whole[..k], whole[k..], [Output(ClaimedValue(t), P2pk(key))], ids, 0,
             sequence)
  }

  /** When a CLAIMED escrow's transaction also reads as a SHIPPED record, the covenant pays the key that other
      reading names: an accepted, collision-free move that settles an escrow nobody shipped. */
  lemma SplitIsNotBound(w: World, t: Terms, prev: Tx, k: nat, key: Digest, sig: Bytes, ids: Bytes, sequence: nat)
    requires SmallTerms(t) && HoldsEscrow(w, t, prev, Phase.Claimed)
    requires k + OFF_MAKER_REP <= |Preimage(w, prev)|
    requires RecordIs(Preimage(w, prev)[k..], Shipped, TermsId(w.prims, t))
    requires key == Preimage(w, prev)[k + OFF_MAKER..k + OFF_MAKER_REP]
    requires |ids| == TERMINAL_PAYLOAD_BYTES && SequenceMet(EncodeNum(AsI64(t.autoReleaseDelay)), sequence)
    requires Fits([sig], Preimage(w, prev)[..k], Preimage(w, prev)[k..], ids)
    requires w.signed(ReleaseAt(w, t, prev, k, key, sig, ids, sequence).tx, 0, sig, key)
    ensures var m := ReleaseAt(w, t, prev, k, key, sig, ids, sequence);
      && Legit(w, prev, m) && IncidentIn(w, t, prev, m) == None && BranchTaken(t, m) == Some(AutoRelease)
      && !Faithful(prev, m) && Pays(m, key, t.reward + t.makerBond)
    ensures !OneRecord(w, t, prev)
  {
    hide Dispatcher.CovenantBytes, EncodeNum, ScriptBytes.EncodeOps, PushOps, TermsId, ScriptHashSpk, TxId, SequenceMet;
    hide Legit, BranchTaken, P2pk, Faithful, IncidentIn;
    var whole, id := Preimage(w, prev), TermsId(w.prims, t);
    var rest, record := whole[..k], whole[k..];
    assert rest + record == whole;
    assert record[OFF_MAKER..OFF_MAKER_REP] == key;
    NotItsOwnRecord(w, t, prev, k);
    var m := ReleaseAt(w, t, prev, k, key, sig, ids, sequence);
    MoveAccepted(w, t, prev, AutoRelease, [sig], rest, record, [Output(ClaimedValue(t), P2pk(key))], ids, 0, sequence);
    OneSig([sig]);
    var c := ContextOf(w, m);
    TxIdIsHash(w, prev);
    assert Prior(c, rest, record, Shipped, id);
    assert AutoReleaseRule(c, t, id, On(record, On(rest, On(sig, Bottom))));
  }

  lemma TxIdIsHash(w: World, tx: Tx)
    ensures TxId(w, tx) == w.prims.blake2b(Preimage(w, tx), TX_ID_KEY)
  {
  }

  /** Read as SHIPPED, the bytes are not the CLAIMED record. */
  lemma NotItsOwnRecord(w: World, t: Terms, prev: Tx, k: nat)
    requires HoldsEscrow(w, t, prev, Phase.Claimed) && k <= |Preimage(w, prev)|
    requires RecordIs(Preimage(w, prev)[k..], Shipped, TermsId(w.prims, t))
    ensures k != |w.rest(prev)| && !OneRecord(w, t, prev)
  {
    hide TermsId, EscrowSpk;
    HeaderPhase(prev.payload, Phase.Claimed);
    assert Preimage(w, prev)[|w.rest(prev)|..] == prev.payload;
    assert prev.payload[OFF_PHASE..OFF_PHASE + 1] == [prev.payload[OFF_PHASE]];
    assert [PhaseByte(Phase.Claimed)] != [PhaseByte(Shipped)] by {
      assert [PhaseByte(Phase.Claimed)][0] != [PhaseByte(Shipped)][0];
    }
    assert ReadsAt(Preimage(w, prev), k, TermsId(w.prims, t));
  }

  // ----- such a transaction --------------------------------------------------

  /** The serialisation a transaction id covers carries every output's script, whole. */
  ghost predicate CarriesScripts(w: World) {
    forall tx: Tx, i :: 0 <= i < |tx.outputs| && |tx.outputs[i].spk| >= 2 ==>
      Carries(w.rest(tx), tx.outputs[i].spk[2..])
  }

  ghost predicate Carries(bytes: Bytes, part: Bytes) {
    exists a, z :: bytes == a + part + z
  }

  /** Where an output's script sits in the serialisation. */
  ghost function ScriptAt(w: World, tx: Tx, i: nat): (k: nat)
    requires CarriesScripts(w) && i < |tx.outputs| && |tx.outputs[i].spk| >= 2
    ensures var script := tx.outputs[i].spk[2..];
            k + |script| <= |w.rest(tx)| && w.rest(tx)[k..k + |script|] == script
  {
    var script := tx.outputs[i].spk[2..];
    assert Carries(w.rest(tx), script);
    var a, z :| w.rest(tx) == a + script + z;
    SliceOfThree(a, script, z, |a|, |a| + |script|);
    |a|
  }

  /** A script whose bytes are the start of a SHIPPED record naming `key`. */
  function RecordScript(id: Digest, key: Digest): Spk {
    [0, 0] + (Header(Shipped) + id + key)
  }

  /** A claim with one more output. The claim branch looks at output 0 and the payload only. */
  function ClaimBeside(w: World, t: Terms, opening: Tx, maker: Digest, rep: Digest, sig: Bytes, beside: Output): Move
    requires opening.outputs != []
  {
    MoveFrom(w, t, opening, Claim, [sig], w.rest(opening), opening.payload,
             [Output(ClaimedValue(t), EscrowSpk(w, t)), beside],
             EncodeState(ClaimState(TermsId(w.prims, t), maker, rep)), 0, 0)
  }

  /** Such a claim is accepted whatever the extra output is, and holds the escrow. */
  lemma ClaimBesideAccepted(w: World, t: Terms, opening: Tx, maker: Digest, rep: Keypair, sig: Bytes, beside: Output)
    requires SmallTerms(t) && IsOpening(w, t, opening) && maker != Zeros(32)
    requires Fits([sig], w.rest(opening), opening.payload, [])
    requires var m := ClaimBeside(w, t, opening, maker, rep.pub, sig, beside);
             forall key :: w.signed(m.tx, 0, sig, key) <==> key == rep.pub
    ensures var m := ClaimBeside(w, t, opening, maker, rep.pub, sig, beside);
      && Legit(w, opening, m) && IncidentIn(w, t, opening, m) == None && BranchTaken(t, m) == Some(Claim)
      && HoldsEscrow(w, t, m.tx, Phase.Claimed) && m.tx.outputs[1] == beside
  {
    hide Dispatcher.CovenantBytes, EncodeNum, ScriptBytes.EncodeOps, PushOps, ScriptHashSpk, TxId, TermsId, EncodeState;
    hide Legit, BranchTaken, ClaimRule, IncidentIn, HoldsRecord;
    var m := ClaimBeside(w, t, opening, maker, rep.pub, sig, beside);
    OpeningHolds(w, t, opening);
    HeldSpk(w, t, opening, Open);
    MoveAccepted(w, t, opening, Claim, [sig], w.rest(opening), opening.payload, m.tx.outputs, m.tx.payload, 0, 0);
    var c := ContextOf(w, m);
    assert Seen(w, t, opening, opening.outputs[0].amount, c, Output(ClaimedValue(t), EscrowSpk(w, t)), m.tx.payload, 0,
                [sig], [rep]);
    ClaimAccepts(w, t, opening, Open, opening.outputs[0].amount, c, maker, rep, [sig]);
  }

  /** Whole runs are not safe without the one-reading condition. From any opening, a claim whose extra output
      carries a record, then an auto-release read from it: a run the covenant accepts, with no collision, that
      pays the whole value to a key of the claimer's choosing although nobody shipped. */
  lemma UnshippedRelease(w: World, t: Terms, opening: Tx, maker: Digest, rep: Keypair, claimSig: Bytes, dust: nat,
                         key: Digest, sig: Bytes, ids: Bytes, sequence: nat)
    requires SmallTerms(t) && IsOpening(w, t, opening) && CarriesScripts(w) && maker != Zeros(32)
    requires var claim := ClaimBeside(w, t, opening, maker, rep.pub, claimSig,
                                      Output(dust, RecordScript(TermsId(w.prims, t), key)));
      && Fits([claimSig], w.rest(opening), opening.payload, [])
      && (forall p :: w.signed(claim.tx, 0, claimSig, p) <==> p == rep.pub)
      && var k := ScriptAt(w, claim.tx, 1);
         && k <= |Preimage(w, claim.tx)| < TWO32 && Fits([sig], [], [], ids)
         && w.signed(ReleaseAt(w, t, claim.tx, k, key, sig, ids, sequence).tx, 0, sig, key)
    requires |ids| == TERMINAL_PAYLOAD_BYTES && SequenceMet(EncodeNum(AsI64(t.autoReleaseDelay)), sequence)
    ensures var claim := ClaimBeside(w, t, opening, maker, rep.pub, claimSig,
                                     Output(dust, RecordScript(TermsId(w.prims, t), key)));
      var moves := [claim, ReleaseAt(w, t, claim.tx, ScriptAt(w, claim.tx, 1), key, sig, ids, sequence)];
      && IsRun(w, opening, moves) && FirstIncident(w, t, opening, moves, 0) == None
      && EndsWith(t, moves, AutoRelease) && Pays(moves[1], key, t.reward + t.makerBond)
      && !MakerShipped(w, t, opening, moves) && !OneRecord(w, t, claim.tx)
  {
    hide Dispatcher.CovenantBytes, EncodeNum, ScriptBytes.EncodeOps, PushOps, ScriptHashSpk, TxId, TermsId, EncodeState;
    hide Legit, BranchTaken, IncidentIn, HoldsEscrow, OneRecord, SequenceMet, Pays, P2pk;
    var id := TermsId(w.prims, t);
    var beside := Output(dust, RecordScript(id, key));
    var claim := ClaimBeside(w, t, opening, maker, rep.pub, claimSig, beside);
    var k := ScriptAt(w, claim.tx, 1);
    ClaimBesideAccepted(w, t, opening, maker, rep, claimSig, beside);
    RecordInScript(Preimage(w, claim.tx), k, id, key);
    SplitIsNotBound(w, t, claim.tx, k, key, sig, ids, sequence);
    var release := ReleaseAt(w, t, claim.tx, k, key, sig, ids, sequence);
    var moves := [claim, release];
    assert TxAt(opening, moves, 0) == opening && TxAt(opening, moves, 1) == claim.tx;
    assert FirstIncident(w, t, opening, moves, 2) == None;
    assert FirstIncident(w, t, opening, moves, 1) == None;
  }

  lemma RecordInScript(whole: Bytes, k: nat, id: Digest, key: Digest)
    requires k + OFF_MAKER_REP <= |whole| && whole[k..k + OFF_MAKER_REP] == Header(Shipped) + id + key
    ensures RecordIs(whole[k..], Shipped, id) && whole[k + OFF_MAKER..k + OFF_MAKER_REP] == key
  {
    var script := Header(Shipped) + id + key;
    assert whole[k..][..OFF_MAKER_REP] == script;
    assert script[OFF_PHASE..OFF_PHASE + 1] == [PhaseByte(Shipped)];
    assert script[OFF_TERMS..OFF_TERMS + 32] == id && script[OFF_MAKER..OFF_MAKER_REP] == key;
    var record := whole[k..];
    assert record[OFF_PHASE..OFF_PHASE + 1] == record[..OFF_MAKER_REP][OFF_PHASE..OFF_PHASE + 1];
    assert record[OFF_TERMS..OFF_TERMS + 32] == record[..OFF_MAKER_REP][OFF_TERMS..OFF_TERMS + 32];
    assert whole[k + OFF_MAKER..k + OFF_MAKER_REP] == whole[k..k + OFF_MAKER_REP][OFF_MAKER..];
  }

  // ----- and it happens ------------------------------------------------------

  function ScriptsOf(outputs: seq<Output>): Bytes {
    if outputs == [] then []
    else (if |outputs[0].spk| >= 2 then outputs[0].spk[2..] else []) + ScriptsOf(outputs[1..])
  }

  /** A world to try it in: ids cover the output scripts, and a key's signature is the key itself. */
  function ScriptsOnly(prims: Primitives): World {
    World(prims, (tx: Tx) => ScriptsOf(tx.outputs), (tx: Tx, i: nat, sig: Bytes, key: Bytes) => sig == key)
  }

  lemma {:induction false} ScriptsCarried(outputs: seq<Output>, i: nat)
    requires i < |outputs| && |outputs[i].spk| >= 2
    ensures Carries(ScriptsOf(outputs), outputs[i].spk[2..])
  {
    var head := if |outputs[0].spk| >= 2 then outputs[0].spk[2..] else [];
    var rest := ScriptsOf(outputs[1..]);
    if i == 0 {
      assert ScriptsOf(outputs) == [] + head + rest;
    } else {
      ScriptsCarried(outputs[1..], i - 1);
      var a, z :| rest == a + outputs[i].spk[2..] + z;
      assert ScriptsOf(outputs) == (head + a) + outputs[i].spk[2..] + z;
    }
  }

  /** A run the covenant accepts that pays someone who never shipped. */
  ghost predicate Unshipped(w: World, t: Terms, opening: Tx, moves: seq<Move>, key: Digest) {
    && IsOpening(w, t, opening) && IsRun(w, opening, moves) && FirstIncident(w, t, opening, moves, 0) == None
    && |moves| == 2 && EndsWith(t, moves, AutoRelease) && Pays(moves[1], key, t.reward + t.makerBond)
    && !MakerShipped(w, t, opening, moves)
  }

  /** For any terms and any key there is such a run, so the premise of the safety theorems cannot be dropped. */
  lemma UnshippedHappens(prims: Primitives, t: Terms, maker: Digest, rep: Digest, key: Digest)
    requires SmallTerms(t) && maker != Zeros(32)
    ensures exists opening, moves :: Unshipped(ScriptsOnly(prims), t, opening, moves, key)
  {
    hide Dispatcher.CovenantBytes, EncodeNum, ScriptBytes.EncodeOps, PushOps, TxId, TermsId, EncodeState, BranchTaken;
    hide Legit, IncidentIn, Pays, P2pk, MakerShipped, SequenceMet;
    var w := ScriptsOnly(prims);
    forall tx: Tx, i | 0 <= i < |tx.outputs| && |tx.outputs[i].spk| >= 2
      ensures Carries(w.rest(tx), tx.outputs[i].spk[2..])
    {
      ScriptsCarried(tx.outputs, i);
    }
    var id := TermsId(prims, t);
    var ours := Output(t.reward, EscrowSpk(w, t));
    var opening := Tx([], [ours], EncodeState(OpenState(id)), 0);
    var beside := Output(0, RecordScript(id, key));
    var claim := ClaimBeside(w, t, opening, maker, rep, rep, beside);
    var k := ScriptAt(w, claim.tx, 1);
    SmallScripts(opening.outputs);
    SmallScripts(claim.tx.outputs);
    var ids := Zeros(TERMINAL_PAYLOAD_BYTES);
    SequenceMeans(t.autoReleaseDelay, t.autoReleaseDelay);
    UnshippedRelease(w, t, opening, maker, Keypair([], rep), rep, 0, key, key, ids, t.autoReleaseDelay);
    var moves := [claim, ReleaseAt(w, t, claim.tx, k, key, key, ids, t.autoReleaseDelay)];
    assert Unshipped(w, t, opening, moves, key);
  }

  lemma {:induction false} SmallScripts(outputs: seq<Output>)
    requires forall i :: 0 <= i < |outputs| ==> |outputs[i].spk| <= 100
    ensures |ScriptsOf(outputs)| <= 100 * |outputs|
  {
    if outputs != [] {
      SmallScripts(outputs[1..]);
    }
  }

  // ----- a pseudonym renamed -------------------------------------------------

  /** A shipment that writes `rep` where the claim wrote the maker's pseudonym. */
  function ShipNaming(w: World, t: Terms, prev: Tx, st: EscrowState, rep: Digest, tracking: Digest, now: nat,
                      sig: Bytes):
      Move
    requires prev.outputs != []
  {
    MoveFrom(w, t, prev, Ship, [sig], w.rest(prev), prev.payload, [prev.outputs[0]],
             EncodeState(ShipState(TermsId(w.prims, t), st.(makerRep := Some(rep)), tracking, now)), now, 0)
  }

  /** The pseudonym on record is not fixed by the claim's signature: with the maker's signature alone, and no other
      key's, a shipment is accepted that names any other pseudonym. */
  lemma ShipMayRename(w: World, t: Terms, prev: Tx, st: EscrowState, maker: Keypair, rep: Digest, tracking: Digest,
                      now: nat, sig: Bytes)
    requires SmallTerms(t) && HoldsEscrow(w, t, prev, Phase.Claimed) && DecodeState(w.prims, prev.payload) == Ok(st)
    requires maker.pub == MakerOf(prev.payload) && tracking != Zeros(32) && now < TWO63
    requires Fits([sig], w.rest(prev), prev.payload, [])
    requires var m := ShipNaming(w, t, prev, st, rep, tracking, now, sig);
             forall key :: w.signed(m.tx, 0, sig, key) <==> key == maker.pub
    ensures var m := ShipNaming(w, t, prev, st, rep, tracking, now, sig);
      && Legit(w, prev, m) && IncidentIn(w, t, prev, m) == None && Faithful(prev, m)
      && BranchTaken(t, m) == Some(Ship) && HoldsEscrow(w, t, m.tx, Shipped)
      && m.tx.payload[OFF_MAKER_REP..OFF_TRACKING] == rep
  {
    hide Dispatcher.CovenantBytes, EncodeNum, ScriptBytes.EncodeOps, PushOps, ScriptHashSpk, TxId, TermsId, EncodeState;
    hide Legit, BranchTaken, ShipRule, IncidentIn, DecodeState, MakerOf;
    var m := ShipNaming(w, t, prev, st, rep, tracking, now, sig);
    var named := st.(makerRep := Some(rep));
    HeldSpk(w, t, prev, Phase.Claimed);
    StateFields(ShipState(TermsId(w.prims, t), named, tracking, now));
    MoveAccepted(w, t, prev, Ship, [sig], w.rest(prev), prev.payload, m.tx.outputs, m.tx.payload, now, 0);
    var c := ContextOf(w, m);
    var value := prev.outputs[0].amount;
    assert Seen(w, t, prev, value, c, Output(value, EscrowSpk(w, t)), m.tx.payload, now, [sig], [maker]);
    ShipAccepts(w, t, prev, Phase.Claimed, value, c, named, tracking, now, maker, [sig]);
  }

  // ----- a delay not waited out ----------------------------------------------

  function ReleaseOf(w: World, t: Terms, prev: Tx, sig: Bytes, ids: Bytes, sequence: nat): Move
    requires prev.outputs != []
  {
    MoveFrom(w, t, prev, AutoRelease, [sig], w.rest(prev), prev.payload,
             [Output(ClaimedValue(t), P2pk(MakerOf(prev.payload)))], ids, 0, sequence)
  }

  /** With a delay of 2^32 or more, the maker's auto-release is accepted at a sequence short of it: the delay's own
      low 32 bits. For smaller delays that cannot happen (EscrowRuns.DelayHolds). */
  lemma EarlyRelease(w: World, t: Terms, prev: Tx, sig: Bytes, ids: Bytes)
    requires SmallTerms(t) && HoldsEscrow(w, t, prev, Shipped) && t.autoReleaseDelay >= TWO32
    requires |ids| == TERMINAL_PAYLOAD_BYTES && Fits([sig], w.rest(prev), prev.payload, ids)
    requires w.signed(ReleaseOf(w, t, prev, sig, ids, t.autoReleaseDelay % TWO32).tx, 0, sig, MakerOf(prev.payload))
    ensures var m := ReleaseOf(w, t, prev, sig, ids, t.autoReleaseDelay % TWO32);
      && Legit(w, prev, m) && IncidentIn(w, t, prev, m) == None && Faithful(prev, m)
      && BranchTaken(t, m) == Some(AutoRelease) && m.tx.inputs[0].sequence < t.autoReleaseDelay
      && Pays(m, MakerOf(prev.payload), t.reward + t.makerBond)
  {
    hide Dispatcher.CovenantBytes, EncodeNum, ScriptBytes.EncodeOps, PushOps, TermsId, ScriptHashSpk, TxId, SequenceMet;
    hide Legit, BranchTaken, P2pk, Faithful, IncidentIn, Header;
    var sequence: nat := t.autoReleaseDelay % TWO32;
    var m := ReleaseOf(w, t, prev, sig, ids, sequence);
    MoveAccepted(w, t, prev, AutoRelease, [sig], w.rest(prev), prev.payload, m.tx.outputs, ids, 0, sequence);
    OneSig([sig]);
    SequenceMeans(t.autoReleaseDelay, sequence);
    var c := ContextOf(w, m);
    PriorIsPhase(w, t, prev, Shipped, c, Shipped);
    assert AutoReleaseRule(c, t, TermsId(w.prims, t), On(prev.payload, On(w.rest(prev), On(sig, Bottom))));
  }
}
