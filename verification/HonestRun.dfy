/** A run the safety theorems speak of: opened, claimed, shipped, settled, with every transaction read one way. */
module HonestRun {
  import opened ByteStrings
  import opened Primitives
  import opened FieldHash
  import opened ScriptNumbers
  import opened ScriptVm
  import opened EscrowState
  import opened Covenant
  import opened CovenantPieces
  import opened CovenantMeaning
  import opened CovenantContract
  import opened EscrowRuns
  import opened EscrowSafety
  import opened ClientTx
  import opened ClientProofs
  import opened SplitRuns
  import Dispatcher
  import ScriptBytes

  // ----- a world ------------------------------------------------------------

  function Same(b: byte): Digest {
    seq(32, _ => b)
  }

  const ID_BYTE: byte := 0xee

  /** Constant hashes: a world in which bytes are easy to tell apart. */
  function Plainest(): Primitives {
    Primitives((s: SpongeState) => s, (domain: string, m: Bytes) => Same(ID_BYTE), (m: Bytes, k: Bytes) => Same(0xdd),
               (d: Digest) => d != Zeros(32), (s: Bytes, m: Digest, k: Digest) => true)
  }

  function Anywhere(): World {
    ScriptsOnly(Plainest())
  }

  lemma Ids(t: Terms)
    ensures TermsId(Anywhere().prims, t) == Same(ID_BYTE)
  {
  }

  // ----- one reading --------------------------------------------------------

  predicate Free(bytes: Bytes) {
    forall i :: 0 <= i < |bytes| ==> bytes[i] != ID_BYTE
  }

  /** When the job's id occurs once, so does the record. */
  lemma ReadsOnce(w: World, t: Terms, tx: Tx)
    requires TermsId(w.prims, t) == Same(ID_BYTE) && Free(w.rest(tx)) && |tx.payload| == STATE_BYTES
    requires Free(tx.payload[..OFF_TERMS]) && Free(tx.payload[OFF_MAKER..])
    ensures OneRecord(w, t, tx)
  {
    hide TermsId;
    var whole, n, id := Preimage(w, tx), |w.rest(tx)|, Same(ID_BYTE);
    assert whole[n..] == tx.payload;
    forall i | 0 <= i < |whole| && (i < n + OFF_TERMS || n + OFF_MAKER <= i)
      ensures whole[i] != ID_BYTE
    {
      if n <= i {
        FreeAt(tx.payload, i - n);
      }
    }
    forall k | 0 <= k <= |whole| && ReadsAt(whole, k, id)
      ensures k == n
    {
      var record := whole[k..];
      assert record[OFF_TERMS..OFF_TERMS + 32] == id;
      assert record[OFF_TERMS..OFF_TERMS + 32][0] == whole[k + OFF_TERMS];
      assert record[OFF_TERMS..OFF_TERMS + 32][31] == whole[k + OFF_MAKER - 1];
    }
  }

  lemma FreeAt(payload: Bytes, i: nat)
    requires |payload| == STATE_BYTES && i < |payload| && (i < OFF_TERMS || OFF_MAKER <= i)
    requires Free(payload[..OFF_TERMS]) && Free(payload[OFF_MAKER..])
    ensures payload[i] != ID_BYTE
  {
    if i < OFF_TERMS {
      assert payload[..OFF_TERMS][i] == payload[i];
    } else {
      assert payload[OFF_MAKER..][i - OFF_MAKER] == payload[i];
    }
  }

  /** Records of this run hold the id byte in the id alone. */
  lemma RecordIsFree(st: EscrowState)
    requires Free(OptionalKey(st.maker)) && Free(OptionalKey(st.makerRep)) && Free(OptionalKey(st.tracking))
    requires st.shippedAt <= 1
    ensures Free(EncodeState(st)[..OFF_TERMS]) && Free(EncodeState(st)[OFF_MAKER..])
  {
    hide EncodeState, OptionalKey;
    StateFields(st);
    TailParts(EncodeState(st));
    SmallTime(st.shippedAt);
    assert Free(Header(st.phase));
    FreeParts(OptionalKey(st.maker), OptionalKey(st.makerRep), OptionalKey(st.tracking), LeBytes(st.shippedAt, 8));
  }

  lemma FreeParts(a: Bytes, b: Bytes, c: Bytes, d: Bytes)
    requires Free(a) && Free(b) && Free(c) && Free(d)
    ensures Free(a + b + c + d)
  {
  }

  lemma SmallTime(n: nat)
    requires n <= 1
    ensures Free(LeBytes(n, 8))
  {
    assert LeBytes(0, 7) == Zeros(7);
    assert n / 256 == 0 && LeBytes(n, 8) == [n % 256] + LeBytes(0, 7);
  }

  lemma ScriptIsFree(t: Terms, outputs: seq<Output>)
    requires |outputs| >= 1 && outputs[0].spk == EscrowSpk(Anywhere(), t)
    requires forall i :: 1 <= i < |outputs| ==> |outputs[i].spk| < 2
    ensures Free(ScriptsOf(outputs)) && |ScriptsOf(outputs)| == 35
  {
    hide Dispatcher.CovenantBytes;
    NoScripts(outputs[1..]);
    assert Free(EscrowSpk(Anywhere(), t)[2..]);
  }

  lemma {:induction false} NoScripts(outputs: seq<Output>)
    requires forall i :: 0 <= i < |outputs| ==> |outputs[i].spk| < 2
    ensures ScriptsOf(outputs) == []
  {
    if outputs != [] {
      NoScripts(outputs[1..]);
    }
  }

  // ----- settling -----------------------------------------------------------

  function SettleOf(w: World, t: Terms, prev: Tx, maker: Digest, sig: Bytes, ids: Bytes): Move
    requires prev.outputs != []
  {
    MoveFrom(w, t, prev, Settle, [sig], w.rest(prev), prev.payload, [Output(ClaimedValue(t), P2pk(maker))], ids, 0, 0)
  }

  lemma SettleBuilt(w: World, t: Terms, prev: Tx, maker: Digest, buyer: Keypair, sig: Bytes, ids: Bytes)
    requires SmallTerms(t) && HoldsEscrow(w, t, prev, Shipped)
    requires buyer.pub == t.buyer && maker == MakerOf(prev.payload)
    requires |ids| == TERMINAL_PAYLOAD_BYTES && Fits([sig], w.rest(prev), prev.payload, ids)
    requires forall key :: w.signed(SettleOf(w, t, prev, maker, sig, ids).tx, 0, sig, key) <==> key == buyer.pub
    ensures var m := SettleOf(w, t, prev, maker, sig, ids);
      && Legit(w, prev, m) && IncidentIn(w, t, prev, m) == None && BranchTaken(t, m) == Some(Settle)
  {
    hide Dispatcher.CovenantBytes, EncodeNum, ScriptBytes.EncodeOps, PushOps, ScriptHashSpk, TxId, TermsId, Header;
    hide P2pk, Legit, BranchTaken, SettleRule, IncidentIn, Faithful, MakerOf;
    var m := SettleOf(w, t, prev, maker, sig, ids);
    var value := prev.outputs[0].amount;
    MoveAccepted(w, t, prev, Settle, [sig], w.rest(prev), prev.payload, m.tx.outputs, ids, 0, 0);
    var c := ContextOf(w, m);
    assert Seen(w, t, prev, value, c, Output(ClaimedValue(t), P2pk(maker)), ids, 0, [sig], [buyer]);
    SettleAccepts(w, t, prev, Shipped, value, c, ids, maker, buyer, [sig]);
  }

  // ----- the run ------------------------------------------------------------

  ghost predicate SettledRun(w: World, t: Terms, opening: Tx, moves: seq<Move>) {
    && IsOpening(w, t, opening) && IsRun(w, opening, moves) && Unambiguous(w, t, opening, moves)
    && |moves| == 3 && EndsWith(t, moves, Settle)
  }

  function OpeningOf(t: Terms): Tx {
    Tx([], [Output(t.reward, EscrowSpk(Anywhere(), t))], EncodeState(OpenState(Same(ID_BYTE))), 0)
  }

  function ClaimOf(t: Terms): Move {
    ClaimBeside(Anywhere(), t, OpeningOf(t), Same(0x11), Same(0x22), Same(0x22), Output(0, []))
  }

  function Claimed(): EscrowState {
    ClaimState(Same(ID_BYTE), Same(0x11), Same(0x22))
  }

  function ShipOf(t: Terms): Move {
    ShipNaming(Anywhere(), t, ClaimOf(t).tx, Claimed(), Same(0x22), Same(0x33), 1, Same(0x11))
  }

  lemma OpeningReadsOnce(t: Terms)
    ensures IsOpening(Anywhere(), t, OpeningOf(t)) && OneRecord(Anywhere(), t, OpeningOf(t))
    ensures |Anywhere().rest(OpeningOf(t))| == 35
  {
    hide EscrowSpk, EncodeState;
    Ids(t);
    var tx := OpeningOf(t);
    RecordIsFree(OpenState(Same(ID_BYTE)));
    ScriptIsFree(t, tx.outputs);
    ReadsOnce(Anywhere(), t, tx);
  }

  lemma ClaimReadsOnce(t: Terms)
    requires SmallTerms(t)
    ensures Legit(Anywhere(), OpeningOf(t), ClaimOf(t)) && IncidentIn(Anywhere(), t, OpeningOf(t), ClaimOf(t)) == None
    ensures HoldsEscrow(Anywhere(), t, ClaimOf(t).tx, Phase.Claimed) && OneRecord(Anywhere(), t, ClaimOf(t).tx)
    ensures |Anywhere().rest(ClaimOf(t).tx)| == 35 && ClaimOf(t).tx.payload == EncodeState(Claimed())
  {
    hide EscrowSpk, EncodeState, Legit, IncidentIn, IsOpening, OneRecord, HoldsRecord;
    hide ScriptBytes.EncodeOps, PushOps, EncodeNum, Dispatcher.CovenantBytes;
    Ids(t);
    OpeningReadsOnce(t);
    var sig := Same(0x22);
    assert Same(0x11)[0] != Zeros(32)[0];
    ClaimBesideAccepted(Anywhere(), t, OpeningOf(t), Same(0x11), Keypair([], sig), sig, Output(0, []));
    RecordIsFree(Claimed());
    ScriptIsFree(t, ClaimOf(t).tx.outputs);
    ReadsOnce(Anywhere(), t, ClaimOf(t).tx);
  }

  function Shipment(): EscrowState {
    ShipState(Same(ID_BYTE), Claimed().(makerRep := Some(Same(0x22))), Same(0x33), 1)
  }

  lemma ShipAccepted(t: Terms)
    requires SmallTerms(t)
    ensures Legit(Anywhere(), ClaimOf(t).tx, ShipOf(t)) && IncidentIn(Anywhere(), t, ClaimOf(t).tx, ShipOf(t)) == None
    ensures HoldsEscrow(Anywhere(), t, ShipOf(t).tx, Shipped)
  {
    hide EscrowSpk, EncodeState, Legit, IncidentIn, OneRecord, DecodeState, HoldsRecord;
    hide ScriptBytes.EncodeOps, PushOps, EncodeNum, Dispatcher.CovenantBytes, Header;
    var w := Anywhere();
    Ids(t);
    ClaimReadsOnce(t);
    assert Same(0x11)[0] != Zeros(32)[0] && Same(0x22)[0] != Zeros(32)[0] && Same(0x33)[0] != Zeros(32)[0];
    DecodeEncode(w.prims, Claimed());
    StateFields(Claimed());
    ShipMayRename(w, t, ClaimOf(t).tx, Claimed(), Keypair([], Same(0x11)), Same(0x22), Same(0x33), 1, Same(0x11));
  }

  lemma ShipReadsOnce(t: Terms)
    requires SmallTerms(t)
    ensures Legit(Anywhere(), ClaimOf(t).tx, ShipOf(t)) && IncidentIn(Anywhere(), t, ClaimOf(t).tx, ShipOf(t)) == None
    ensures HoldsEscrow(Anywhere(), t, ShipOf(t).tx, Shipped) && OneRecord(Anywhere(), t, ShipOf(t).tx)
    ensures |Anywhere().rest(ShipOf(t).tx)| == 35 && MakerOf(ShipOf(t).tx.payload) == Same(0x11)
  {
    hide EscrowSpk, EncodeState, Legit, IncidentIn, OneRecord, HoldsRecord;
    hide ScriptBytes.EncodeOps, PushOps, EncodeNum, Dispatcher.CovenantBytes, Header;
    Ids(t);
    ClaimReadsOnce(t);
    ShipAccepted(t);
    StateFields(Shipment());
    RecordIsFree(Shipment());
    HeldSpk(Anywhere(), t, ClaimOf(t).tx, Phase.Claimed);
    ScriptIsFree(t, ShipOf(t).tx.outputs);
    ReadsOnce(Anywhere(), t, ShipOf(t).tx);
  }

  /** For all terms there is a run that meets every premise of the safety theorems and settles. */
  lemma SettledRunHappens(t: Terms)
    requires SmallTerms(t)
    ensures exists moves :: SettledRun(Anywhere(), t, OpeningOf(t), moves)
  {
    hide EscrowSpk, EncodeState, Legit, IncidentIn, OneRecord, IsOpening, HoldsRecord, BranchTaken, MakerOf;
    hide ScriptBytes.EncodeOps, PushOps, EncodeNum, Dispatcher.CovenantBytes, MoveFrom, ClaimBeside, ShipNaming;
    var w := Anywhere();
    OpeningReadsOnce(t);
    ClaimReadsOnce(t);
    ShipReadsOnce(t);
    var settle := SettleOf(w, t, ShipOf(t).tx, Same(0x11), t.buyer, Zeros(TERMINAL_PAYLOAD_BYTES));
    HeldSpk(w, t, ShipOf(t).tx, Shipped);
    SettleBuilt(w, t, ShipOf(t).tx, Same(0x11), Keypair([], t.buyer), t.buyer, Zeros(TERMINAL_PAYLOAD_BYTES));
    var moves := [ClaimOf(t), ShipOf(t), settle];
    assert TxAt(OpeningOf(t), moves, 0) == OpeningOf(t);
    assert TxAt(OpeningOf(t), moves, 1) == ClaimOf(t).tx && TxAt(OpeningOf(t), moves, 2) == ShipOf(t).tx;
    assert FirstIncident(w, t, OpeningOf(t), moves, 3) == None;
    assert FirstIncident(w, t, OpeningOf(t), moves, 2) == None;
    assert FirstIncident(w, t, OpeningOf(t), moves, 1) == None;
    assert SettledRun(w, t, OpeningOf(t), moves);
  }
}
