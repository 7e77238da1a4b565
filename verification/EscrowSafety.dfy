/** Safety over whole runs: where the money can go, who must have signed, and in what order. */
module EscrowSafety {
  import opened ByteStrings
  import opened ScriptVm
  import opened EscrowState
  import opened Covenant
  import opened CovenantPieces
  import opened CovenantContract
  import opened EscrowRuns
  import Dispatcher

  function TxAt(opening: Tx, moves: seq<Move>, i: nat): Tx {
    if 0 < i <= |moves| then moves[i - 1].tx else opening
  }

  /** The transaction that funds the escrow: the reward in output 0 and the OPEN record. */
  predicate IsOpening(w: World, t: Terms, tx: Tx) {
    && tx.outputs != [] && tx.outputs[0] == Output(t.reward, EscrowSpk(w, t))
    && tx.payload == EncodeState(OpenState(TermsId(w.prims, t)))
  }

  /** Every move spends output 0 of the one before it, under consensus. */
  predicate IsRun(w: World, opening: Tx, moves: seq<Move>) {
    forall i :: 0 <= i < |moves| ==> Legit(w, TxAt(opening, moves, i), moves[i])
  }

  /** The first collision a run exhibits from move `i` on, computed from its data. */
  function FirstIncident(w: World, t: Terms, opening: Tx, moves: seq<Move>, i: nat): (inc: Option<Incident>)
    ensures inc.Some? ==> GenuineIncident(w, inc.value)
    ensures inc.None? ==>
      forall j :: i <= j < |moves| ==> IncidentIn(w, t, TxAt(opening, moves, j), moves[j]) == None
    decreases |moves| - i
  {
    hide IncidentIn, GenuineIncident;
    if i >= |moves| then None
    else
      var here := IncidentIn(w, t, TxAt(opening, moves, i), moves[i]);
      if here.Some? then here else FirstIncident(w, t, opening, moves, i + 1)
  }

  /** No collision, and every transaction spent reads as a record of this job at one place only. What a
      spender chooses to supply is not restricted. */
  predicate Unambiguous(w: World, t: Terms, opening: Tx, moves: seq<Move>) {
    && FirstIncident(w, t, opening, moves, 0) == None
    && forall i :: 0 <= i < |moves| ==> OneRecord(w, t, TxAt(opening, moves, i))
  }

  function Rank(p: Phase): nat {
    match p case Open => 0 case Claimed => 1 case Shipped => 2 case Disputed => 3
  }

  function PhaseOfRank(i: nat): Phase {
    if i == 0 then Open else if i == 1 then Claimed else if i == 2 then Shipped else Disputed
  }

  lemma OpeningHolds(w: World, t: Terms, tx: Tx)
    requires IsOpening(w, t, tx)
    ensures HoldsEscrow(w, t, tx, Open)
  {
    hide EscrowSpk, TermsId;
    StateFields(OpenState(TermsId(w.prims, t)));
  }

  lemma SpksDiffer(w: World, key: Bytes, script: Bytes)
    ensures P2pk(key) != ScriptHashSpk(w, script)
  {
    assert P2pk(key)[2] == OP_DATA32;
    assert ScriptHashSpk(w, script)[2] == OP_BLAKE2B;
  }

  /** A payout output is not a script-hash output, so nothing follows it. */
  lemma PayoutEnds(w: World, prev: Tx, m: Move, key: Bytes)
    requires prev.outputs != [] && prev.outputs[0].spk == P2pk(key)
    ensures !Legit(w, prev, m)
  {
    hide P2pk, ScriptHashSpk, ScriptAccepts;
    if Legit(w, prev, m) {
      var items := ItemsOf(m).value;
      SpksDiffer(w, key, items[|items| - 1]);
    }
  }

  /** Each branch leads one phase further or pays out to a key. */
  lemma EffectEndsOrAdvances(w: World, t: Terms, prev: Tx, m: Move, b: Branch)
    requires Effect(w, t, prev, m, b)
    ensures After(b).Some? ==> Rank(After(b).value) == Rank(From(b)) + 1
    ensures After(b).None? ==> exists key :: m.tx.outputs != [] && m.tx.outputs[0].spk == P2pk(key)
  {
    hide EscrowSpk, TermsId, P2pk, SignedBy, Header;
    if After(b).None? {
      var key := if b in {Settle, AutoRelease, ResolveToMaker} then MakerOf(prev.payload) else t.buyer;
      assert m.tx.outputs[0].spk == P2pk(key);
    }
  }

  /** Only a move that stays in the covenant can be followed by another. */
  lemma FollowedMeansKept(w: World, t: Terms, prev: Tx, m: Move, b: Branch, next: Move)
    requires Effect(w, t, prev, m, b) && Legit(w, m.tx, next)
    ensures After(b).Some? && Rank(After(b).value) == Rank(From(b)) + 1
    ensures HoldsEscrow(w, t, m.tx, After(b).value)
  {
    hide Legit, HoldsEscrow, P2pk;
    EffectEndsOrAdvances(w, t, prev, m, b);
    if After(b).None? {
      var key :| m.tx.outputs != [] && m.tx.outputs[0].spk == P2pk(key);
      PayoutEnds(w, m.tx, next, key);
    }
  }

  /** The escrow is still held before every move of an unambiguous run, in the phase its position says. */
  lemma {:induction false} HeldBefore(w: World, t: Terms, opening: Tx, moves: seq<Move>, i: nat)
    requires SmallTerms(t) && IsOpening(w, t, opening) && IsRun(w, opening, moves) && Unambiguous(w, t, opening, moves)
    requires i < |moves|
    ensures i <= 3 && HoldsEscrow(w, t, TxAt(opening, moves, i), PhaseOfRank(i))
    ensures BranchTaken(t, moves[i]).Some?
    ensures Effect(w, t, TxAt(opening, moves, i), moves[i], BranchTaken(t, moves[i]).value)
    ensures From(BranchTaken(t, moves[i]).value) == PhaseOfRank(i)
    ensures i + 1 < |moves| ==> After(BranchTaken(t, moves[i]).value) == Some(PhaseOfRank(i + 1))
  {
    hide IncidentIn, EscrowSpk, Effect, HoldsEscrow, BranchTaken, IsOpening, Legit, OneRecord, SmallTerms;
    var prev := TxAt(opening, moves, i);
    if i == 0 {
      OpeningHolds(w, t, opening);
    } else {
      HeldBefore(w, t, opening, moves, i - 1);
      FollowedMeansKept(w, t, TxAt(opening, moves, i - 1), moves[i - 1], BranchTaken(t, moves[i - 1]).value, moves[i]);
    }
    HeldSpk(w, t, prev, PhaseOfRank(i));
    MoveHasEffect(w, t, prev, moves[i], PhaseOfRank(i));
    if i + 1 < |moves| {
      FollowedMeansKept(w, t, prev, moves[i], BranchTaken(t, moves[i]).value, moves[i + 1]);
    }
  }

  lemma HeldSpk(w: World, t: Terms, tx: Tx, phase: Phase)
    requires HoldsEscrow(w, t, tx, phase)
    ensures SpendsEscrow(w, t, tx) && Held(tx) == Value(t, phase)
    ensures |tx.payload| == STATE_BYTES
  {
  }

  /** The amount at output 0. */
  function Held(tx: Tx): nat {
    if tx.outputs == [] then 0 else tx.outputs[0].amount
  }

  // ----- the theorems -------------------------------------------------------

  /** An unambiguous run makes at most four moves: claim, ship, dispute and resolve is the longest. At every
      point output 0 holds the reward, and the bond too once claimed; phases follow the legal edges. */
  lemma RunFollowsEdges(w: World, t: Terms, opening: Tx, moves: seq<Move>)
    requires SmallTerms(t) && IsOpening(w, t, opening) && IsRun(w, opening, moves) && Unambiguous(w, t, opening, moves)
    ensures |moves| <= 4
    ensures forall i :: 0 <= i < |moves| ==> HoldsEscrow(w, t, TxAt(opening, moves, i), PhaseOfRank(i))
    ensures forall i :: 0 <= i < |moves| ==>
      Held(TxAt(opening, moves, i)) == if i == 0 then t.reward else t.reward + t.makerBond
    ensures forall i :: 0 <= i < |moves| ==>
      BranchTaken(t, moves[i]).Some? && From(BranchTaken(t, moves[i]).value) == PhaseOfRank(i)
    ensures forall i :: 0 <= i < |moves| - 1 ==>
      After(BranchTaken(t, moves[i]).value) == Some(PhaseOfRank(i + 1))
  {
    hide Effect, BranchTaken, EscrowSpk, TermsId, IsOpening, IsRun, Unambiguous;
    if |moves| > 4 {
      HeldBefore(w, t, opening, moves, 4);
    }
    forall i | 0 <= i < |moves|
      ensures HoldsEscrow(w, t, TxAt(opening, moves, i), PhaseOfRank(i))
      ensures Held(TxAt(opening, moves, i)) == if i == 0 then t.reward else t.reward + t.makerBond
      ensures BranchTaken(t, moves[i]).Some? && From(BranchTaken(t, moves[i]).value) == PhaseOfRank(i)
      ensures i < |moves| - 1 ==> After(BranchTaken(t, moves[i]).value) == Some(PhaseOfRank(i + 1))
    {
      HeldBefore(w, t, opening, moves, i);
      HeldSpk(w, t, TxAt(opening, moves, i), PhaseOfRank(i));
    }
  }

  /** The state record's own rule allows exactly the edges some branch takes inside the covenant. */
  lemma EdgesAreLegal(s: EscrowState, next: Phase)
    ensures MayTransitionTo(s, next).Ok? <==> exists b :: From(b) == s.phase && After(b) == Some(next)
  {
    if MayTransitionTo(s, next).Ok? {
      var b := if next == Phase.Claimed then Claim else if next == Shipped then Ship else Dispute;
      assert From(b) == s.phase && After(b) == Some(next);
    }
  }

  /** The payment key named by the claim is the one named ever after. */
  lemma {:induction false} MakerNeverChanges(w: World, t: Terms, opening: Tx, moves: seq<Move>, i: nat)
    requires SmallTerms(t) && IsOpening(w, t, opening) && IsRun(w, opening, moves) && Unambiguous(w, t, opening, moves)
    requires 1 <= i < |moves|
    ensures MakerOf(TxAt(opening, moves, i).payload) == MakerOf(TxAt(opening, moves, 1).payload)
    ensures MakerOf(TxAt(opening, moves, 1).payload) != Zeros(32)
  {
    hide BranchTaken, EscrowSpk, TermsId, IsOpening, IsRun, Unambiguous, Effect, HoldsEscrow;
    RunFollowsEdges(w, t, opening, moves);
    HeldBefore(w, t, opening, moves, i - 1);
    EffectNamesMaker(w, t, TxAt(opening, moves, i - 1), moves[i - 1], BranchTaken(t, moves[i - 1]).value);
    if i > 1 {
      MakerNeverChanges(w, t, opening, moves, i - 1);
    }
  }

  lemma EffectNamesMaker(w: World, t: Terms, prev: Tx, m: Move, b: Branch)
    requires Effect(w, t, prev, m, b) && After(b).Some?
    ensures if b == Claim then MakerOf(m.tx.payload) != Zeros(32) else MakerOf(m.tx.payload) == MakerOf(prev.payload)
  {
    hide EscrowSpk, TermsId, P2pk, SignedBy, Header;
    if b == Dispute {
      assert MakerOf(m.tx.payload) == m.tx.payload[OFF_MAKER..][..32];
      assert MakerOf(prev.payload) == prev.payload[OFF_MAKER..][..32];
    }
  }

  ghost predicate ArbiterSigned(w: World, t: Terms, m: Move) {
    t.arbiter.Some? && SignedBy(w, m, t.arbiter.value)
  }

  /** Who signed a terminal move, and whom it pays. */
  ghost predicate PaidRightly(w: World, t: Terms, prev: Tx, last: Move, b: Branch) {
    var held, maker := Held(prev), MakerOf(prev.payload);
    match b
    case Settle => Pays(last, maker, held) && SignedBy(w, last, t.buyer)
    case AutoRelease => Pays(last, maker, held) && SignedBy(w, last, maker) && Waited(t, last)
    case ResolveToMaker => Pays(last, maker, held) && SignedBy(w, last, maker) && ArbiterSigned(w, t, last)
    case ResolveToBuyer => Pays(last, t.buyer, held) && SignedBy(w, last, t.buyer) && ArbiterSigned(w, t, last)
    case Slash => Pays(last, t.buyer, held) && SignedBy(w, last, t.buyer) && last.tx.lockTime >= t.deadline
    case Refund => Pays(last, t.buyer, held) && SignedBy(w, last, t.buyer) && last.tx.lockTime >= t.deadline
    case _ => false
  }

  lemma EffectPays(w: World, t: Terms, prev: Tx, m: Move, b: Branch)
    requires Effect(w, t, prev, m, b) && After(b).None?
    ensures PaidRightly(w, t, prev, m, b)
  {
    hide EscrowSpk, TermsId, P2pk, SignedBy;
  }

  lemma EffectShips(w: World, t: Terms, prev: Tx, m: Move, b: Branch)
    requires Effect(w, t, prev, m, b) && b == Ship
    ensures SignedBy(w, m, MakerOf(prev.payload))
  {
  }

  /** The last move of a run took branch `b` out of the covenant. */
  predicate EndsWith(t: Terms, moves: seq<Move>, b: Branch) {
    moves != [] && BranchTaken(t, moves[|moves| - 1]) == Some(b) && After(b).None?
  }

  /** The maker named at claim signed the second move, a shipment, and is the maker on record at the end. */
  ghost predicate MakerShipped(w: World, t: Terms, opening: Tx, moves: seq<Move>) {
    && |moves| >= 3 && BranchTaken(t, moves[1]) == Some(Ship)
    && SignedBy(w, moves[1], MakerOf(moves[0].tx.payload))
    && MakerOf(TxAt(opening, moves, |moves| - 1).payload) == MakerOf(moves[0].tx.payload)
  }

  /** A run that leaves the covenant pays exactly what was held, in full, at output 0: to the buyer, or
      to the maker named at claim and then only after that maker signed a shipment. The buyer takes the
      bond only by a slash of a CLAIMED escrow at or past the deadline, or by a resolution the arbiter
      signed. */
  lemma RunPaysRightly(w: World, t: Terms, opening: Tx, moves: seq<Move>, b: Branch)
    requires SmallTerms(t) && IsOpening(w, t, opening) && IsRun(w, opening, moves) && Unambiguous(w, t, opening, moves)
    requires EndsWith(t, moves, b)
    ensures PaidRightly(w, t, TxAt(opening, moves, |moves| - 1), moves[|moves| - 1], b)
    ensures b in {Settle, AutoRelease, ResolveToMaker} ==> MakerShipped(w, t, opening, moves)
    ensures b == Refund ==> |moves| == 1
    ensures b == Slash ==> |moves| == 2
    ensures b == ResolveToBuyer ==> |moves| == 4
  {
    hide BranchTaken, EscrowSpk, TermsId, IsOpening, IsRun, Unambiguous, Effect, HoldsEscrow, PaidRightly;
    var n := |moves|;
    RunFollowsEdges(w, t, opening, moves);
    HeldBefore(w, t, opening, moves, n - 1);
    EffectPays(w, t, TxAt(opening, moves, n - 1), moves[n - 1], b);
    if b in {Settle, AutoRelease, ResolveToMaker} {
      HeldBefore(w, t, opening, moves, 1);
      assert After(BranchTaken(t, moves[1]).value) == Some(PhaseOfRank(2));
      EffectShips(w, t, moves[0].tx, moves[1], Ship);
      MakerNeverChanges(w, t, opening, moves, n - 1);
    }
  }

  /** The pseudonym a slash lands on is the one the claim wrote, and it signed that claim. */
  lemma SlashedSignedTheClaim(w: World, t: Terms, opening: Tx, moves: seq<Move>)
    requires SmallTerms(t) && IsOpening(w, t, opening) && IsRun(w, opening, moves) && Unambiguous(w, t, opening, moves)
    requires EndsWith(t, moves, Slash)
    ensures |moves| == 2 && |moves[0].tx.payload| == STATE_BYTES
    ensures SignedBy(w, moves[0], moves[0].tx.payload[OFF_MAKER_REP..OFF_TRACKING])
  {
    hide BranchTaken, EscrowSpk, TermsId, IsOpening, IsRun, Unambiguous, Effect;
    RunPaysRightly(w, t, opening, moves, Slash);
    RunFollowsEdges(w, t, opening, moves);
    HeldBefore(w, t, opening, moves, 0);
    assert After(BranchTaken(t, moves[0]).value) == Some(PhaseOfRank(1));
    EffectBindsRep(w, t, opening, moves[0]);
  }

  lemma EffectBindsRep(w: World, t: Terms, prev: Tx, m: Move)
    requires Effect(w, t, prev, m, Claim)
    ensures |m.tx.payload| == STATE_BYTES && SignedBy(w, m, m.tx.payload[OFF_MAKER_REP..OFF_TRACKING])
  {
  }

  /** Without an arbiter a run never reaches DISPUTED. */
  lemma NoArbiterNoDispute(w: World, t: Terms, opening: Tx, moves: seq<Move>)
    requires SmallTerms(t) && IsOpening(w, t, opening) && IsRun(w, opening, moves) && Unambiguous(w, t, opening, moves)
    requires t.arbiter.None?
    ensures |moves| <= 3
    ensures forall i :: 0 <= i < |moves| ==> !HoldsEscrow(w, t, moves[i].tx, Disputed)
  {
    hide EscrowSpk, TermsId, IsOpening, IsRun, Unambiguous, BranchTaken, Effect;
    RunFollowsEdges(w, t, opening, moves);
    forall i | 0 <= i < |moves|
      ensures !HoldsEscrow(w, t, moves[i].tx, Disputed)
    {
      HeldBefore(w, t, opening, moves, i);
      var b := BranchTaken(t, moves[i]).value;
      EffectNotDisputed(w, t, TxAt(opening, moves, i), moves[i], b);
    }
    assert forall i :: 0 <= i < |moves| ==> moves[i].tx == TxAt(opening, moves, i + 1);
  }

  lemma EffectNotDisputed(w: World, t: Terms, prev: Tx, m: Move, b: Branch)
    requires Effect(w, t, prev, m, b) && t.arbiter.None?
    ensures !HoldsEscrow(w, t, m.tx, Disputed) && b != Dispute
  {
    if After(b).None? {
      EffectEndsOrAdvances(w, t, prev, m, b);
      var key :| m.tx.outputs[0].spk == P2pk(key);
      SpksDiffer(w, key, Dispatcher.CovenantBytes(w.prims, t));
    } else {
      HeaderPhase(m.tx.payload, After(b).value);
    }
  }

  lemma HeaderPhase(payload: Bytes, phase: Phase)
    requires |payload| >= OFF_TERMS && payload[..OFF_TERMS] == Header(phase)
    ensures payload[OFF_PHASE] == PhaseByte(phase)
    ensures forall q :: q != phase ==> payload[..OFF_TERMS] != Header(q)
  {
    assert payload[OFF_PHASE] == payload[..OFF_TERMS][OFF_PHASE];
    forall q | q != phase
      ensures Header(phase) != Header(q)
    {
      assert Header(q)[OFF_PHASE] == PhaseByte(q);
    }
  }
}
