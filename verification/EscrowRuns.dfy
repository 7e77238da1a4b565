/** Whole runs of an escrow: chains of transactions, each spending output 0 of the one before
    through the covenant script. */
module EscrowRuns {
  import opened ByteStrings
  import opened Primitives
  import opened ScriptNumbers
  import opened ScriptVm
  import opened ScriptBytes
  import opened EscrowState
  import opened Covenant
  import opened CovenantPieces
  import opened CovenantMeaning
  import opened CovenantContract
  import Dispatcher

  // ----- transactions -------------------------------------------------------

  datatype TxIn = TxIn(txid: Digest, index: nat, sigScript: Bytes, sequence: nat)

  datatype Tx = Tx(inputs: seq<TxIn>, outputs: seq<Output>, payload: Bytes, lockTime: nat)

  /** `rest` serialises everything of a transaction but its payload and signature scripts;
      `signed` says whether a signature by a key covers an input of a transaction. */
  datatype World = World(
    prims: Primitives,
    rest: Tx -> Bytes,
    signed: (Tx, nat, Bytes, Bytes) -> bool)

  function TxId(w: World, tx: Tx): Digest {
    w.prims.blake2b(w.rest(tx) + tx.payload, TX_ID_KEY)
  }

  /** Pay-to-script-hash: hash the redeem script, compare. */
  function ScriptHashSpk(w: World, script: Bytes): Spk {
    [0, 0, OP_BLAKE2B, OP_DATA32] + w.prims.blake2b(script, []) + [OP_EQUAL]
  }

  function EscrowSpk(w: World, t: Terms): Spk {
    ScriptHashSpk(w, Dispatcher.CovenantBytes(w.prims, t))
  }

  /** A transaction together with the input that spends the escrow and the outputs its inputs spend. */
  datatype Move = Move(tx: Tx, input: nat, spent: seq<Output>)

  function ViewsOf(tx: Tx, spent: seq<Output>): seq<InputView>
    requires |spent| == |tx.inputs|
  {
    seq(|spent|, i requires 0 <= i < |spent| => InputView(tx.inputs[i].txid, spent[i], tx.inputs[i].sequence))
  }

  predicate Shaped(m: Move) {
    && m.input < |m.tx.inputs| < TWO32
    && |m.spent| == |m.tx.inputs|
    && |m.tx.payload| < TWO32
  }

  function ContextOf(w: World, m: Move): (c: Spend)
    requires Shaped(m)
    ensures InContext(c)
  {
    Spend(ViewsOf(m.tx, m.spent), m.input, m.tx.outputs, m.tx.payload, m.tx.lockTime,
          (sig, key) => w.signed(m.tx, m.input, sig, key), w.prims.blake2b)
  }

  function PushedItems(ops: seq<Op>): Option<seq<Bytes>> {
    if ops == [] then Some([])
    else if !ops[0].Push? then None
    else match PushedItems(ops[1..])
      case None => None
      case Some(items) => Some([ops[0].data] + items)
  }

  /** What a push-only signature script leaves, bottom first. */
  function SigItems(script: Bytes): Option<seq<Bytes>> {
    match Parse(script) case None => None case Some(ops) => PushedItems(ops)
  }

  /** The items of the escrow input's signature script. */
  function ItemsOf(m: Move): Option<seq<Bytes>> {
    if Shaped(m) then SigItems(m.tx.inputs[m.input].sigScript) else None
  }

  /** Consensus on a script-hash output: the last item hashes to it and then accepts as a script
      on the items below. */
  predicate Unlocks(w: World, m: Move)
    requires Shaped(m)
  {
    match ItemsOf(m)
    case None => false
    case Some(items) =>
      && items != []
      && m.spent[m.input].spk == ScriptHashSpk(w, items[|items| - 1])
      && ScriptAccepts(ContextOf(w, m), items[|items| - 1], StackOf(items[..|items| - 1]))
  }

  /** The move spends output 0 of `prev`, and consensus lets it. */
  predicate Legit(w: World, prev: Tx, m: Move) {
    && Shaped(m)
    && prev.outputs != []
    && m.tx.inputs[m.input].txid == TxId(w, prev) && m.tx.inputs[m.input].index == 0
    && m.spent[m.input] == prev.outputs[0]
    && Unlocks(w, m)
  }

  // ----- what a move claims about its past ----------------------------------

  datatype Evidence = Evidence(redeem: Bytes, selector: Bytes, payload: Bytes, rest: Bytes)

  /** The redeem script and the three items under it: selector, previous payload, previous rest. */
  function EvidenceIn(items: seq<Bytes>): Option<Evidence> {
    if |items| < 4 then None
    else Some(Evidence(items[|items| - 1], items[|items| - 2], items[|items| - 3], items[|items| - 4]))
  }

  function EvidenceOf(m: Move): Option<Evidence> {
    match ItemsOf(m) case None => None case Some(items) => EvidenceIn(items)
  }

  /** What lies below the evidence: the signatures. */
  function Signatures(m: Move): Stack {
    match ItemsOf(m)
    case Some(items) => if |items| < 4 then Bottom else StackOf(items[..|items| - 4])
    case None => Bottom
  }

  /** The supplied record is as long as the record really is. */
  predicate Faithful(prev: Tx, m: Move) {
    EvidenceOf(m).Some? ==> |EvidenceOf(m).value.payload| == |prev.payload|
  }

  /** What a transaction id hashes. */
  function Preimage(w: World, tx: Tx): Bytes {
    w.rest(tx) + tx.payload
  }

  /** Cut at `k`, the bytes read as some record of this job. */
  predicate ReadsAt(bytes: Bytes, k: nat, id: Digest) {
    k <= |bytes| && exists p: Phase :: RecordIs(bytes[k..], p, id)
  }

  /** A transaction whose bytes read as a record of this job at one place only: where its payload starts.
      Anyone can check it before building on the transaction. */
  predicate OneRecord(w: World, t: Terms, tx: Tx) {
    forall k :: 0 <= k <= |Preimage(w, tx)| && ReadsAt(Preimage(w, tx), k, TermsId(w.prims, t)) ==> k == |w.rest(tx)|
  }

  /** What ties one move to the record: the transaction allows one reading only, or this spender supplied
      the real one. */
  predicate Bound(w: World, t: Terms, prev: Tx, m: Move) {
    OneRecord(w, t, prev) || Faithful(prev, m)
  }

  /** Two messages with one hash under the same key. */
  datatype Incident = HashCollision(a: Bytes, b: Bytes, key: Bytes)

  predicate GenuineIncident(w: World, inc: Incident) {
    inc.a != inc.b && w.prims.blake2b(inc.a, inc.key) == w.prims.blake2b(inc.b, inc.key)
  }

  /** Recomputing the transaction id pins the bytes supplied, up to a hash collision. What it does not
      pin is where they are cut: the record is the real one exactly when its length is. */
  lemma SplitDecidesRecord(w: World, prev: Tx, rest: Bytes, payload: Bytes)
    requires w.prims.blake2b(rest + payload, TX_ID_KEY) == TxId(w, prev)
    ensures || GenuineIncident(w, HashCollision(rest + payload, w.rest(prev) + prev.payload, TX_ID_KEY))
            || (payload == prev.payload <==> |payload| == |prev.payload|)
  {
    if rest + payload == w.rest(prev) + prev.payload && |payload| == |prev.payload| {
      AppendEqual(rest, payload, w.rest(prev), prev.payload);
    }
  }

  /** The supplied state is as good as authenticated exactly when the transaction reads as a record at one
      place only: then, and only then, is every cut the covenant's check of the previous state lets
      through the transaction's own payload. `probe` is any spend of the transaction. */
  lemma OneRecordDecides(w: World, t: Terms, prev: Tx, probe: Spend)
    requires InContext(probe) && probe.blake2b == w.prims.blake2b && probe.inputs[probe.index].txid == TxId(w, prev)
    ensures (forall rest, payload, phase ::
               rest + payload == Preimage(w, prev) && Prior(probe, rest, payload, phase, TermsId(w.prims, t)) ==>
                 payload == prev.payload) <==>
            OneRecord(w, t, prev)
  {
    hide TermsId, RecordIs;
    var whole, id := Preimage(w, prev), TermsId(w.prims, t);
    if OneRecord(w, t, prev) {
      forall rest, payload, phase | rest + payload == whole && Prior(probe, rest, payload, phase, id)
        ensures payload == prev.payload
      {
        CutIsAt(rest, payload, phase, id);
        assert |rest| == |w.rest(prev)|;
        AppendEqual(rest, payload, w.rest(prev), prev.payload);
      }
    } else {
      var k :| 0 <= k <= |whole| && ReadsAt(whole, k, id) && k != |w.rest(prev)|;
      var phase: Phase :| RecordIs(whole[k..], phase, id);
      assert whole[..k] + whole[k..] == whole;
      assert Prior(probe, whole[..k], whole[k..], phase, id);
      assert |whole[k..]| != |prev.payload|;
    }
  }

  lemma CutIsAt(rest: Bytes, payload: Bytes, phase: Phase, id: Digest)
    requires RecordIs(payload, phase, id)
    ensures ReadsAt(rest + payload, |rest|, id)
  {
    hide RecordIs;
    assert (rest + payload)[|rest|..] == payload;
  }

  // ----- one move -----------------------------------------------------------

  function Value(t: Terms, phase: Phase): nat {
    if phase == Open then t.reward else t.reward + t.makerBond
  }

  /** An output that is this escrow with the phase's value, and a payload that is its record. */
  predicate HoldsRecord(w: World, t: Terms, out: Output, payload: Bytes, phase: Phase) {
    && out == Output(Value(t, phase), EscrowSpk(w, t))
    && |payload| == STATE_BYTES
    && payload[..OFF_TERMS] == Header(phase)
    && payload[OFF_TERMS..OFF_MAKER] == TermsId(w.prims, t)
  }

  predicate HoldsEscrow(w: World, t: Terms, tx: Tx, phase: Phase) {
    tx.outputs != [] && HoldsRecord(w, t, tx.outputs[0], tx.payload, phase)
  }

  function MakerOf(payload: Bytes): Bytes {
    if |payload| >= OFF_MAKER_REP then payload[OFF_MAKER..OFF_MAKER_REP] else []
  }

  function RepOf(payload: Bytes): Digest {
    if |payload| >= OFF_TRACKING then payload[OFF_MAKER_REP..OFF_TRACKING] else Zeros(32)
  }

  function SigScriptOf(m: Move): Bytes {
    if m.input < |m.tx.inputs| then m.tx.inputs[m.input].sigScript else []
  }

  ghost predicate SignedBy(w: World, m: Move, key: Bytes) {
    exists sig :: w.signed(m.tx, m.input, sig, key)
  }

  predicate Pays(m: Move, key: Bytes, amount: nat) {
    m.tx.outputs != [] && m.tx.outputs[0] == Output(amount, P2pk(key))
  }

  function From(b: Branch): Phase {
    match b
    case Claim | Refund => Open
    case Ship | Slash => Phase.Claimed
    case Settle | AutoRelease | Dispute => Shipped
    case ResolveToMaker | ResolveToBuyer => Disputed
  }

  /** The phase a branch leads to; none when it pays the escrow out. */
  function After(b: Branch): Option<Phase> {
    match b
    case Claim => Some(Phase.Claimed) case Ship => Some(Shipped) case Dispute => Some(Disputed)
    case _ => None
  }

  /** The relative lock, as numbers: only the low 32 bits of the delay and the sequence are compared. */
  predicate Waited(t: Terms, m: Move) {
    && Shaped(m)
    && var sequence := m.tx.inputs[m.input].sequence;
       && sequence < TWO63 && t.autoReleaseDelay % TWO32 <= sequence % TWO32
       && (t.autoReleaseDelay < TWO32 ==> t.autoReleaseDelay <= sequence)
  }

  /** What taking a branch does, in terms of the two transactions alone. */
  ghost predicate Effect(w: World, t: Terms, prev: Tx, m: Move, b: Branch) {
    && HoldsEscrow(w, t, prev, From(b))
    && (After(b).Some? ==> HoldsEscrow(w, t, m.tx, After(b).value))
    && var full := t.reward + t.makerBond;
       var maker := MakerOf(prev.payload);
       match b
       case Claim =>
         MakerOf(m.tx.payload) != Zeros(32) && SignedBy(w, m, m.tx.payload[OFF_MAKER_REP..OFF_TRACKING])
         && m.tx.payload[OFF_TRACKING..] == Zeros(40)
       case Ship =>
         MakerOf(m.tx.payload) == maker && SignedBy(w, m, maker)
         && m.tx.payload[OFF_TRACKING..OFF_SHIPPED_AT] != Zeros(32)
         && m.tx.lockTime < TWO63 && m.tx.payload[OFF_SHIPPED_AT..] == LeBytes(m.tx.lockTime, 8)
       case Dispute =>
         t.arbiter.Some? && SignedBy(w, m, t.buyer) && m.tx.payload[OFF_MAKER..] == prev.payload[OFF_MAKER..]
       case Settle =>
         SignedBy(w, m, t.buyer) && Pays(m, maker, full)
       case AutoRelease =>
         SignedBy(w, m, maker) && Pays(m, maker, full) && Waited(t, m)
       case ResolveToMaker =>
         t.arbiter.Some? && SignedBy(w, m, t.arbiter.value) && SignedBy(w, m, maker) && Pays(m, maker, full)
       case ResolveToBuyer =>
         t.arbiter.Some? && SignedBy(w, m, t.arbiter.value) && SignedBy(w, m, t.buyer) && Pays(m, t.buyer, full)
       case Slash =>
         m.tx.lockTime >= t.deadline && SignedBy(w, m, t.buyer) && Pays(m, t.buyer, full)
       case Refund =>
         m.tx.lockTime >= t.deadline && SignedBy(w, m, t.buyer) && Pays(m, t.buyer, t.reward) && m.tx.payload == []
  }

  /** The branch a move's selector names. */
  function BranchTaken(t: Terms, m: Move): (r: Option<Branch>)
    ensures r.Some? ==> Offered(t, r.value)
  {
    match EvidenceOf(m) case None => None case Some(e) => BranchFor(t, e.selector)
  }

  predicate SpendsEscrow(w: World, t: Terms, prev: Tx) {
    prev.outputs != [] && prev.outputs[0].spk == EscrowSpk(w, t)
  }

  /** A collision one move exhibits, if it does: another script behind the escrow's hash, or other
      bytes behind the previous transaction's id. */
  function IncidentIn(w: World, t: Terms, prev: Tx, m: Move): (inc: Option<Incident>)
    ensures inc.Some? ==> GenuineIncident(w, inc.value)
  {
    hide Legit, SpendsEscrow, ItemsOf, ScriptHashSpk, TxId, EvidenceIn;
    if !(Legit(w, prev, m) && SpendsEscrow(w, t, prev)) then None else
    LegitItems(w, t, prev, m);
    var items := ItemsOf(m).value;
    var redeem, covenant := items[|items| - 1], Dispatcher.CovenantBytes(w.prims, t);
    if redeem != covenant then
      ScriptHashesEqual(w, redeem, covenant);
      Some(HashCollision(redeem, covenant, []))
    else match EvidenceOf(m)
      case None => None
      case Some(e) => SplitIncident(w, prev, e.rest + e.payload)
  }

  /** Other bytes behind a transaction's id. */
  function SplitIncident(w: World, prev: Tx, supplied: Bytes): (inc: Option<Incident>)
    ensures inc.Some? ==> GenuineIncident(w, inc.value)
  {
    if supplied != w.rest(prev) + prev.payload && w.prims.blake2b(supplied, TX_ID_KEY) == TxId(w, prev)
      then Some(HashCollision(supplied, w.rest(prev) + prev.payload, TX_ID_KEY))
    else None
  }

  lemma LegitItems(w: World, t: Terms, prev: Tx, m: Move)
    requires Legit(w, prev, m) && SpendsEscrow(w, t, prev)
    ensures ItemsOf(m).Some? && ItemsOf(m).value != []
    ensures var items := ItemsOf(m).value;
            ScriptHashSpk(w, items[|items| - 1]) == ScriptHashSpk(w, Dispatcher.CovenantBytes(w.prims, t))
  {
    hide ScriptAccepts, SigItems, StackOf, ScriptHashSpk;
  }

  lemma ScriptHashesEqual(w: World, a: Bytes, b: Bytes)
    requires ScriptHashSpk(w, a) == ScriptHashSpk(w, b)
    ensures w.prims.blake2b(a, []) == w.prims.blake2b(b, [])
  {
    assert ScriptHashSpk(w, a)[4..36] == w.prims.blake2b(a, []) && ScriptHashSpk(w, b)[4..36] == w.prims.blake2b(b, []);
  }

  lemma StackItems(items: seq<Bytes>)
    requires items != []
    ensures StackOf(items) == On(items[|items| - 1], StackOf(items[..|items| - 1]))
  {
  }

  /** Three items below the script, read off the stack it runs on. */
  lemma StackShape(items: seq<Bytes>)
    requires |items| >= 4
    ensures StackOf(items[..|items| - 1]) ==
            On(items[|items| - 2], On(items[|items| - 3], On(items[|items| - 4], StackOf(items[..|items| - 4]))))
  {
    var a, b, c := items[..|items| - 1], items[..|items| - 2], items[..|items| - 3];
    StackItems(a);
    assert a[..|a| - 1] == b;
    StackItems(b);
    assert b[..|b| - 1] == c;
    StackItems(c);
    assert c[..|c| - 1] == items[..|items| - 4];
  }

  predicate AtLeastThree(s: Stack) {
    s.On? && s.below.On? && s.below.below.On?
  }

  lemma ShallowStack(items: seq<Bytes>)
    requires |items| < 3
    ensures !AtLeastThree(StackOf(items))
  {
    if items != [] {
      var front := items[..|items| - 1];
      StackItems(items);
      if front != [] {
        StackItems(front);
      }
    }
  }

  /** A deadline argument asks for the deadline. */
  lemma DeadlineArgument(n: nat)
    requires n < TWO63
    ensures LeValue(EncodeNum(n)) == n
  {
    var m := Magnitude(n);
    if m != [] {
      if m[|m| - 1] >= 128 {
        LeTrailingZero(m);
      } else {
        assert EncodeNum(n) == m;
      }
    }
  }

  /** What the delay opcode asks, for any delay the terms can carry. */
  lemma SequenceMeans(n: nat, sequence: nat)
    requires n < TWO63
    ensures SequenceMet(EncodeNum(n), sequence) <==> sequence < TWO63 && n % TWO32 <= sequence % TWO32
  {
    hide EncodeNum, LeValue;
    DeadlineArgument(n);
    NumRoundTrip(n);
  }

  /** What the lock-time opcode asks: the same kind of time, not before it, on an input that is not final. */
  lemma LockTimeMeans(n: nat, lockTime: nat, sequence: nat)
    requires n < TWO63
    ensures LockTimeMet(EncodeNum(n), lockTime, sequence) <==>
            && n <= lockTime && (n < 500_000_000_000 <==> lockTime < 500_000_000_000)
            && sequence != 0xffff_ffff_ffff_ffff
  {
    hide EncodeNum, LeValue;
    DeadlineArgument(n);
    NumRoundTrip(n);
  }

  /** Meeting the opcode means waiting out the delay exactly for delays below 2^32. */
  lemma DelayHolds(n: nat)
    requires n < TWO63
    ensures (forall sequence: nat :: SequenceMet(EncodeNum(n), sequence) ==> n <= sequence) <==> n < TWO32
  {
    hide EncodeNum, SequenceMet;
    forall sequence: nat
      ensures SequenceMet(EncodeNum(n), sequence) <==> sequence < TWO63 && n % TWO32 <= sequence % TWO32
    {
      SequenceMeans(n, sequence);
    }
    if n >= TWO32 {
      var short: nat := n % TWO32;
      assert SequenceMet(EncodeNum(n), short);
    }
  }

  /** What an accepted move tells us: its evidence, its branch, and that branch's rule. */
  lemma MoveObeysRule(w: World, t: Terms, prev: Tx, m: Move)
    requires SmallTerms(t) && Legit(w, prev, m) && SpendsEscrow(w, t, prev)
    requires IncidentIn(w, t, prev, m) == None
    ensures EvidenceOf(m).Some? && BranchTaken(t, m).Some?
    ensures var e := EvidenceOf(m).value;
            BranchRule(ContextOf(w, m), t, TermsId(w.prims, t), BranchTaken(t, m).value,
                       On(e.payload, On(e.rest, Signatures(m))))
  {
    hide ScriptAccepts, BranchFor, SigItems, ScriptHashSpk, TermsId;
    var items := ItemsOf(m).value;
    var c := ContextOf(w, m);
    var s := StackOf(items[..|items| - 1]);
    CovenantMeans(c, w.prims, t, s);
    if |items| < 4 {
      ShallowStack(items[..|items| - 1]);
      RuleNeedsState(c, t, TermsId(w.prims, t), BranchFor(t, s.top).value, s);
    } else {
      StackShape(items);
    }
  }

  lemma RuleNeedsState(c: Spend, t: Terms, id: Digest, b: Branch, s: Stack)
    requires InContext(c) && Offered(t, b) && s.On? && !AtLeastThree(s)
    ensures !BranchRule(c, t, id, b, s.below)
  {
  }

  /** A bound record is the record itself. */
  lemma RecordIsReal(w: World, t: Terms, prev: Tx, m: Move)
    requires SmallTerms(t) && Legit(w, prev, m) && SpendsEscrow(w, t, prev)
    requires IncidentIn(w, t, prev, m) == None && Bound(w, t, prev, m)
    ensures Faithful(prev, m)
    ensures EvidenceOf(m).Some? && EvidenceOf(m).value.payload == prev.payload
  {
    hide ScriptAccepts, BranchFor, SigItems, ScriptHashSpk, TermsId, BranchTaken, BranchRule, Signatures, EscrowSpk;
    hide RecordIs, OneRecord;
    MoveObeysRule(w, t, prev, m);
    var e := EvidenceOf(m).value;
    var c := ContextOf(w, m);
    var id := TermsId(w.prims, t);
    RuleAuthenticates(c, t, id, BranchTaken(t, m).value, e.payload, e.rest, Signatures(m));
    assert c.inputs[c.index].txid == TxId(w, prev);
    assert e.rest + e.payload == Preimage(w, prev);
    if OneRecord(w, t, prev) {
      CutIsAt(e.rest, e.payload, From(BranchTaken(t, m).value), id);
      OnlyCut(w, t, prev, |e.rest|);
    }
    AppendEqual(e.rest, e.payload, w.rest(prev), prev.payload);
  }

  lemma OnlyCut(w: World, t: Terms, prev: Tx, k: nat)
    requires OneRecord(w, t, prev) && ReadsAt(Preimage(w, prev), k, TermsId(w.prims, t))
    ensures k == |w.rest(prev)|
  {
  }

  lemma RuleAuthenticates(c: Spend, t: Terms, id: Digest, b: Branch, payload: Bytes, rest: Bytes, below: Stack)
    requires InContext(c) && Offered(t, b) && BranchRule(c, t, id, b, On(payload, On(rest, below)))
    ensures Prior(c, rest, payload, From(b), id)
  {
  }

  /** A rule that holds has the effect its branch promises. */
  lemma MoveHasEffect(w: World, t: Terms, prev: Tx, m: Move, phase: Phase)
    requires SmallTerms(t) && HoldsEscrow(w, t, prev, phase) && Legit(w, prev, m)
    requires IncidentIn(w, t, prev, m) == None && Bound(w, t, prev, m)
    ensures BranchTaken(t, m).Some? && Effect(w, t, prev, m, BranchTaken(t, m).value)
    ensures phase == From(BranchTaken(t, m).value)
  {
    hide ScriptAccepts, BranchFor, SigItems, ScriptHashSpk, TermsId, BranchTaken, EvidenceOf, BranchRule, Effect;
    hide Signatures, IncidentIn, EscrowSpk, Unlocks, Bound;
    MoveObeysRule(w, t, prev, m);
    RecordIsReal(w, t, prev, m);
    var b := BranchTaken(t, m).value;
    var e := EvidenceOf(m).value;
    var below := Signatures(m);
    RuleAuthenticates(ContextOf(w, m), t, TermsId(w.prims, t), b, prev.payload, e.rest, below);
    assert prev.payload[..OFF_TERMS][OFF_PHASE] == prev.payload[OFF_PHASE..OFF_PHASE + 1][0];
    assert phase == From(b);
    RuleEffect(w, t, prev, m, b, e.rest, below);
  }

  lemma RuleEffect(w: World, t: Terms, prev: Tx, m: Move, b: Branch, rest: Bytes, below: Stack)
    requires SmallTerms(t) && Shaped(m) && Offered(t, b) && HoldsEscrow(w, t, prev, From(b))
    requires m.spent[m.input] == prev.outputs[0]
    requires BranchRule(ContextOf(w, m), t, TermsId(w.prims, t), b, On(prev.payload, On(rest, below)))
    ensures Effect(w, t, prev, m, b)
  {
    hide BranchRule, Effect, HoldsEscrow, TermsId, SmallTerms;
    if After(b).Some? {
      AdvanceEffect(w, t, prev, m, b, rest, below);
    } else {
      PayoutEffect(w, t, prev, m, b, rest, below);
    }
  }

  lemma AdvanceEffect(w: World, t: Terms, prev: Tx, m: Move, b: Branch, rest: Bytes, below: Stack)
    requires SmallTerms(t) && Shaped(m) && Offered(t, b) && HoldsEscrow(w, t, prev, From(b)) && After(b).Some?
    requires m.spent[m.input] == prev.outputs[0]
    requires BranchRule(ContextOf(w, m), t, TermsId(w.prims, t), b, On(prev.payload, On(rest, below)))
    ensures Effect(w, t, prev, m, b)
  {
    hide Effect, HoldsEscrow, TermsId, SmallTerms, ClaimRule, ShipRule, DisputeRule, ContextOf;
    match b
    case Claim => ClaimEffect(w, t, prev, m, rest, below);
    case Ship => ShipEffect(w, t, prev, m, rest, below);
    case Dispute => DisputeEffect(w, t, prev, m, rest, below);
  }

  lemma SignatureOf(w: World, m: Move, sig: Bytes, key: Bytes)
    requires Shaped(m) && ContextOf(w, m).sigOk(sig, key)
    ensures SignedBy(w, m, key)
  {
  }

  lemma ClaimEffect(w: World, t: Terms, prev: Tx, m: Move, rest: Bytes, below: Stack)
    requires SmallTerms(t) && Shaped(m) && HoldsEscrow(w, t, prev, Open) && m.spent[m.input] == prev.outputs[0]
    requires ClaimRule(ContextOf(w, m), t, TermsId(w.prims, t), On(prev.payload, On(rest, below)))
    ensures Effect(w, t, prev, m, Claim)
  {
    hide ScriptHashSpk, EscrowSpk, TermsId, Prior, Header, SignedBy, P2pk;
    var c := ContextOf(w, m);
    assert c.inputs[c.index].spent == prev.outputs[0];
    SignatureOf(w, m, below.top, m.tx.payload[OFF_MAKER_REP..OFF_TRACKING]);
  }

  lemma ShipEffect(w: World, t: Terms, prev: Tx, m: Move, rest: Bytes, below: Stack)
    requires SmallTerms(t) && Shaped(m) && HoldsEscrow(w, t, prev, Phase.Claimed) && m.spent[m.input] == prev.outputs[0]
    requires ShipRule(ContextOf(w, m), TermsId(w.prims, t), On(prev.payload, On(rest, below)))
    ensures Effect(w, t, prev, m, Ship)
  {
    hide ScriptHashSpk, EscrowSpk, TermsId, Prior, Header, SignedBy, LeBytes, P2pk;
    var c := ContextOf(w, m);
    assert c.inputs[c.index].spent == prev.outputs[0];
    SignatureOf(w, m, below.top, MakerOf(prev.payload));
  }

  lemma DisputeEffect(w: World, t: Terms, prev: Tx, m: Move, rest: Bytes, below: Stack)
    requires SmallTerms(t) && Shaped(m) && HoldsEscrow(w, t, prev, Shipped) && m.spent[m.input] == prev.outputs[0]
    requires t.arbiter.Some? && DisputeRule(ContextOf(w, m), t, TermsId(w.prims, t), On(prev.payload, On(rest, below)))
    ensures Effect(w, t, prev, m, Dispute)
  {
    hide ScriptHashSpk, EscrowSpk, TermsId, Prior, Header, SignedBy, MakerOf, P2pk;
    var c := ContextOf(w, m);
    assert prev.payload[OFF_MAKER..STATE_BYTES] == prev.payload[OFF_MAKER..];
    assert c.inputs[c.index].spent == prev.outputs[0];
    SignatureOf(w, m, below.top, t.buyer);
  }

  lemma PayoutEffect(w: World, t: Terms, prev: Tx, m: Move, b: Branch, rest: Bytes, below: Stack)
    requires SmallTerms(t) && Shaped(m) && Offered(t, b) && HoldsEscrow(w, t, prev, From(b)) && After(b).None?
    requires m.spent[m.input] == prev.outputs[0]
    requires BranchRule(ContextOf(w, m), t, TermsId(w.prims, t), b, On(prev.payload, On(rest, below)))
    ensures Effect(w, t, prev, m, b)
  {
    hide ScriptHashSpk, EscrowSpk, TermsId, Prior, P2pk, LeBytes, EncodeNum, Header, SignedBy, SequenceMet;
    var c := ContextOf(w, m);
    assert c.inputs[c.index].spent == prev.outputs[0];
    DeadlineArgument(t.deadline);
    SequenceMeans(t.autoReleaseDelay, c.inputs[c.index].sequence);
    forall sig, key | c.sigOk(sig, key)
      ensures SignedBy(w, m, key)
    {
      SignatureOf(w, m, sig, key);
    }
  }
}
