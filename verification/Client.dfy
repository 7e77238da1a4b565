/** The client's commands: each builds the next transaction of an escrow from what the client remembers. */
module Client {
  import opened ByteStrings
  import opened Primitives
  import opened ScriptNumbers
  import opened ScriptVm
  import opened EscrowState
  import opened Covenant
  import opened CovenantPieces
  import opened CovenantMeaning
  import opened CovenantContract
  import opened EscrowRuns
  import opened ClientTx
  import Dispatcher
  import ScriptBytes

  /** What the client keeps between commands. An address is the key it pays to. */
  datatype Live = Live(
    outpoint: Outpoint,
    value: nat,
    phase: string,
    prevRest: Bytes,
    prevPayload: Bytes,
    feeOutpoint: Option<Outpoint>,
    feeValue: nat,
    feeAddress: Option<Digest>)

  datatype Utxo = Utxo(outpoint: Outpoint, amount: nat)

  /** What the node answers: the DAA score, the fee to budget, the signer's spendable outputs. */
  datatype Node = Node(daa: nat, fee: nat, utxos: seq<Utxo>)

  datatype ClientError =
    | TooEarly(short: nat)
    | NoFunds
    | BadIdCount
    | NoArbiter
    | NoMaker
    | Unreadable(why: StateError)

  datatype Step = Step(tx: Tx, next: Live, funding: Utxo)

  // ----- the common shape ---------------------------------------------------

  /** The largest output above `need`; the last of equals. */
  method Largest(utxos: seq<Utxo>, need: nat) returns (r: Option<Utxo>)
    ensures r.None? <==> forall u :: u in utxos ==> u.amount <= need
    ensures r.Some? ==> r.value in utxos && r.value.amount > need
    ensures r.Some? ==> forall u :: u in utxos ==> u.amount <= r.value.amount
  {
    r := None;
    for i := 0 to |utxos|
      invariant r.None? <==> forall u :: u in utxos[..i] ==> u.amount <= need
      invariant r.Some? ==> r.value in utxos[..i] && r.value.amount > need
      invariant r.Some? ==> forall u :: u in utxos[..i] ==> u.amount <= r.value.amount
    {
      assert utxos[..i + 1] == utxos[..i] + [utxos[i]];
      if utxos[i].amount > need && (r.None? || utxos[i].amount >= r.value.amount) {
        r := Some(utxos[i]);
      }
    }
    assert utxos[..|utxos|] == utxos;
  }

  /** The recorded change is this signer's and covers the need. */
  predicate OwnChange(live: Live, pub: Digest, need: nat) {
    live.feeAddress == Some(pub) && live.feeOutpoint.Some? && live.feeValue >= need
  }

  /** Some funds exist for this signer. */
  predicate Funded(live: Live, pub: Digest, node: Node, extra: nat) {
    OwnChange(live, pub, node.fee + extra) || exists u :: u in node.utxos && u.amount > node.fee + extra
  }

  /** Who is acting, on which terms, against which node. */
  datatype Session = Session(w: World, sign: Sign, t: Terms, node: Node, key: Keypair)

  /** What a command asks of the common step. */
  datatype Order = Order(branch: Branch, signers: seq<Keypair>, extra: nat, out: Output, payload: Bytes, lockTime: nat)

  function CovenantInput(c: Session, live: Live, o: Order): FundedInput {
    FundedInput(live.outpoint, Output(live.value, EscrowSpk(c.w, c.t)),
                Branched(o.branch, live.prevRest, live.prevPayload, o.signers,
                         Dispatcher.CovenantBytes(c.w.prims, c.t)))
  }

  function FeeInput(key: Keypair, funding: Utxo): FundedInput {
    FundedInput(funding.outpoint, Output(funding.amount, P2pk(key.pub)), Wallet)
  }

  /** One covenant input, one fee input; the branch's output, then change. */
  function TransitionTx(c: Session, live: Live, o: Order, change: nat, funding: Utxo): Tx {
    BuiltTx(c.sign, c.key, [CovenantInput(c, live, o), FeeInput(c.key, funding)],
            [o.out, Output(change, P2pk(c.key.pub))], o.payload, o.lockTime)
  }

  function NextLive(w: World, tx: Tx, change: nat, pub: Digest, phase: string): Live
    requires tx.outputs != []
  {
    var id := TxId(w, tx);
    Live(Outpoint(id, 0), tx.outputs[0].amount, phase, w.rest(tx), tx.payload,
         Some(Outpoint(id, |tx.outputs| - 1)), change, Some(pub))
  }

  /** What a finished step is made of. */
  predicate Stepped(c: Session, live: Live, o: Order, phase: string, s: Step) {
    && s.funding.amount >= c.node.fee + o.extra
    && (if OwnChange(live, c.key.pub, c.node.fee + o.extra)
        then s.funding == Utxo(live.feeOutpoint.value, live.feeValue)
        else s.funding in c.node.utxos)
    && var change := s.funding.amount - c.node.fee - o.extra;
       && s.tx == TransitionTx(c, live, o, change, s.funding)
       && s.next == NextLive(c.w, s.tx, change, c.key.pub, phase)
  }

  predicate Early(c: Session, o: Order) {
    o.lockTime > 0 && c.node.daa <= o.lockTime
  }

  method Transition(c: Session, live: Live, o: Order, phase: string) returns (r: Result<Step, ClientError>)
    ensures Early(c, o) ==> r == Err(TooEarly(o.lockTime - c.node.daa + 1))
    ensures !Early(c, o) && !Funded(live, c.key.pub, c.node, o.extra) ==> r == Err(NoFunds)
    ensures !Early(c, o) && Funded(live, c.key.pub, c.node, o.extra) ==> r.Ok? && Stepped(c, live, o, phase, r.value)
  {
    hide BuiltTx, P2pk, EscrowSpk, Dispatcher.CovenantBytes, TxId;
    var key, node := c.key, c.node;
    if o.lockTime > 0 {
      if node.daa <= o.lockTime {
        return Err(TooEarly(o.lockTime - node.daa + 1));
      }
    }
    var funding;
    if OwnChange(live, key.pub, node.fee + o.extra) {
      funding := Utxo(live.feeOutpoint.value, live.feeValue);
    } else {
      var found := Largest(node.utxos, node.fee + o.extra);
      if found.None? {
        return Err(NoFunds);
      }
      funding := found.value;
    }
    var change := funding.amount - node.fee - o.extra;
    var inputs := [CovenantInput(c, live, o), FeeInput(key, funding)];
    var outputs := [o.out];
    outputs := outputs + [Output(change, P2pk(key.pub))];
    assert outputs == [o.out, Output(change, P2pk(key.pub))];
    var tx := Build(c.sign, key, inputs, outputs, o.payload, o.lockTime);
    BuiltParts(c.sign, key, inputs, outputs, o.payload, o.lockTime);
    var next := NextLive(c.w, tx, change, key.pub, "");
    next := next.(phase := phase);
    r := Ok(Step(tx, next, funding));
  }

  lemma BuiltParts(sign: Sign, wallet: Keypair, inputs: seq<FundedInput>, outputs: seq<Output>, payload: Bytes,
                   lockTime: nat)
    ensures var tx := BuiltTx(sign, wallet, inputs, outputs, payload, lockTime);
      tx.outputs == outputs && tx.payload == payload && tx.lockTime == lockTime && |tx.inputs| == |inputs|
  {
    hide ScriptFor;
  }

  // ----- what the client knows ----------------------------------------------

  function PhaseName(p: Phase): string {
    match p case Open => "open" case Claimed => "claimed" case Shipped => "shipped" case Disputed => "disputed"
  }

  /** The remembered facts are those of the transaction that holds the escrow now. */
  ghost predicate Consistent(w: World, t: Terms, prev: Tx, live: Live, phase: Phase) {
    && HoldsEscrow(w, t, prev, phase)
    && live.outpoint == Outpoint(TxId(w, prev), 0) && live.value == prev.outputs[0].amount
    && live.phase == PhaseName(phase)
    && live.prevRest == w.rest(prev) && live.prevPayload == prev.payload
    && DecodeState(w.prims, prev.payload).Ok?
    && live.feeOutpoint == Some(Outpoint(TxId(w, prev), |prev.outputs| - 1))
    && live.feeAddress.Some?
    && prev.outputs[|prev.outputs| - 1] == Output(live.feeValue, P2pk(live.feeAddress.value))
  }

  /** A session over a consistent record whose parts are small enough to push. */
  ghost predicate Setting(c: Session, prev: Tx, live: Live, phase: Phase) {
    && SmallTerms(c.t) && SignsFor(c.w, c.sign) && Consistent(c.w, c.t, prev, live, phase)
    && |c.w.rest(prev)| < TWO32
    && !c.w.prims.validKey(Zeros(32))
  }

  /** The step as consensus sees it. */
  function MoveOf(c: Session, live: Live, s: Step): Move {
    Move(s.tx, 0, [Output(live.value, EscrowSpk(c.w, c.t)), Output(s.funding.amount, P2pk(c.key.pub))])
  }

  function Total(outputs: seq<Output>): nat {
    if outputs == [] then 0 else outputs[0].amount + Total(outputs[1..])
  }

  /** What goes in comes out, less the fee. */
  predicate LosesOnlyFee(c: Session, live: Live, s: Step) {
    Total(MoveOf(c, live, s).spent) == Total(s.tx.outputs) + c.node.fee
  }
}
