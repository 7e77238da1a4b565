/** The scan and the covenant agree on what a slash is. */
module SlashLink {
  import opened ByteStrings
  import opened Primitives
  import opened ScriptNumbers
  import opened ScriptVm
  import opened ScriptBytes
  import opened EscrowState
  import opened Covenant
  import opened CovenantContract
  import opened EscrowRuns
  import Scan
  import Roots
  import RootsResume
  import Dispatcher

  // ----- the two readings of a signature script -----------------------------

  /** The scan's items leave the same bytes on the stack, and small ones are small. */
  predicate SameItems(items: seq<Item>, data: seq<Bytes>) {
    |items| == |data| && forall i :: 0 <= i < |items| ==> Faces(items[i], data[i])
  }

  predicate Faces(item: Item, d: Bytes) {
    ItemBytes(item) == d && (item.Small? ==> -1 <= item.n <= 16)
  }

  lemma ReadFaces(script: Bytes)
    requires script != [] && ReadOp(script).Some? && ReadOp(script).value.0.Push?
    ensures ReadItem(script).Some? && ReadItem(script).value.1 == ReadOp(script).value.1
    ensures Faces(ReadItem(script).value.0, ReadOp(script).value.0.data)
  {
    hide EncodePush, ItemBytes, LeValue;
  }

  /** Whatever a push-only script leaves on the stack, the scan reads. */
  lemma {:induction false} ScanReadsSigItems(script: Bytes)
    requires SigItems(script).Some?
    ensures Scan.ParseItems(script).Some? && SameItems(Scan.ParseItems(script).value, SigItems(script).value)
    decreases |script|
  {
    hide ReadItem, ReadOp, Faces;
    if script != [] {
      var (op, n) := ReadOp(script).value;
      var tail := Parse(script[n..]).value;
      var ops := Parse(script).value;
      assert ops == [op] + tail && ops[0] == op && ops[1..] == tail;
      ReadFaces(script);
      ScanReadsSigItems(script[n..]);
    }
  }

  lemma SelectorItem(item: Item, k: nat)
    requires k <= 8 && Faces(item, EncodeNum(k))
    ensures Scan.ItemNumber(item) == Some(k)
  {
    hide EncodeNum;
    SmallNums();
    if item.Data? && k > 0 {
      assert item.data == [k] && LeValue([k][1..]) == 0;
    }
  }

  /** The scan recovers the branch of every move the covenant lets through. */
  lemma SelectorSeen(t: Terms, m: Move)
    requires Shaped(m) && BranchTaken(t, m).Some?
    ensures Scan.BranchSelector(m.tx.inputs[m.input].sigScript) == Some(Selector(BranchTaken(t, m).value))
  {
    hide BranchFor, EncodeNum, Scan.ItemNumber, SigItems;
    var script := m.tx.inputs[m.input].sigScript;
    ScanReadsSigItems(script);
    var items, data := Scan.ParseItems(script).value, SigItems(script).value;
    SelectorNumber(t, data[|data| - 2]);
    SelectorItem(items[|items| - 2], Selector(BranchTaken(t, m).value));
  }

  // ----- defaults are slashes -----------------------------------------------

  /** For every accepted move on an escrow, the scan records a default exactly when the covenant took its
      slash branch and the record decodes, and then it is the pseudonym the record binds. */
  lemma DefaultIsSlash(w: World, t: Terms, prev: Tx, m: Move, phase: Phase)
    requires SmallTerms(t) && HoldsEscrow(w, t, prev, phase) && Legit(w, prev, m)
    requires IncidentIn(w, t, prev, m) == None && Bound(w, t, prev, m)
    ensures var rep := Scan.DefaultFromSpend(w.prims, prev.payload, m.tx.inputs[m.input].sigScript,
                                             Roots.SLASH_SELECTOR);
      && (rep.Some? <==> BranchTaken(t, m) == Some(Slash) && DecodeState(w.prims, prev.payload).Ok?)
      && (rep.Some? ==> rep.value == prev.payload[OFF_MAKER_REP..OFF_TRACKING])
  {
    hide Unlocks, EscrowSpk, TermsId, Header, IncidentIn, Bound, Effect, BranchTaken, Scan.BranchSelector, DecodeState;
    MoveHasEffect(w, t, prev, m, phase);
    SelectorSeen(t, m);
    if DecodeState(w.prims, prev.payload).Ok? && BranchTaken(t, m) == Some(Slash) {
      EffectHolds(w, t, prev, m, Slash);
      DecodedPhase(w.prims, prev.payload, Phase.Claimed);
    }
    SelectorsDiffer();
  }

  lemma EffectHolds(w: World, t: Terms, prev: Tx, m: Move, b: Branch)
    requires Effect(w, t, prev, m, b)
    ensures HoldsEscrow(w, t, prev, From(b))
  {
  }

  lemma SelectorsDiffer()
    ensures forall b :: Selector(b) == Roots.SLASH_SELECTOR <==> b == Slash
  {
  }

  lemma DecodedPhase(prims: Primitives, payload: Bytes, phase: Phase)
    requires DecodeState(prims, payload).Ok? && payload[..OFF_TERMS] == Header(phase) && phase == Phase.Claimed
    ensures DecodeState(prims, payload).value.phase == phase
    ensures DecodeState(prims, payload).value.makerRep == Some(payload[OFF_MAKER_REP..OFF_TRACKING])
  {
    hide LeValue;
    assert payload[OFF_PHASE] == payload[..OFF_TERMS][OFF_PHASE];
  }

  // ----- which accepted records decode ---------------------------------------

  predicate KeysValid(prims: Primitives, payload: Bytes) {
    && |payload| == STATE_BYTES
    && prims.validKey(payload[OFF_MAKER..OFF_MAKER_REP]) && prims.validKey(payload[OFF_MAKER_REP..OFF_TRACKING])
  }

  predicate NothingShipped(payload: Bytes) {
    |payload| == STATE_BYTES && payload[OFF_TRACKING..] == Zeros(40)
  }

  predicate WasShipped(payload: Bytes) {
    && |payload| == STATE_BYTES && payload[OFF_TRACKING..OFF_SHIPPED_AT] != Zeros(32)
    && LeValue(payload[OFF_SHIPPED_AT..]) != 0
  }

  /** A record past OPEN decodes exactly when both its keys are keys and its shipment fields fit its phase. */
  lemma RecordDecodes(prims: Primitives, b: Bytes, phase: Phase)
    requires |b| == STATE_BYTES && b[..OFF_TERMS] == Header(phase) && phase != Open
    requires !prims.validKey(Zeros(32))
    ensures DecodeState(prims, b).Ok? <==>
            KeysValid(prims, b) && if phase == Phase.Claimed then NothingShipped(b) else WasShipped(b)
  {
    hide LeValue;
    assert b[..OFF_VERSION] == b[..OFF_TERMS][..OFF_VERSION];
    assert b[OFF_VERSION] == b[..OFF_TERMS][OFF_VERSION] && b[OFF_PHASE] == b[..OFF_TERMS][OFF_PHASE];
    PhaseReads(phase);
    TailIsZero(b);
  }

  /** An OPEN record decodes exactly when everything after the job's id is zero. */
  lemma OpenRecordDecodes(prims: Primitives, b: Bytes)
    requires |b| == STATE_BYTES && b[..OFF_TERMS] == Header(Open) && !prims.validKey(Zeros(32))
    ensures DecodeState(prims, b).Ok? <==> b[OFF_MAKER..] == Zeros(104)
  {
    hide LeValue;
    assert b[..OFF_VERSION] == b[..OFF_TERMS][..OFF_VERSION];
    assert b[OFF_VERSION] == b[..OFF_TERMS][OFF_VERSION] && b[OFF_PHASE] == b[..OFF_TERMS][OFF_PHASE];
    TailIsZero(b);
    var keys, tail := b[OFF_MAKER..OFF_TRACKING], b[OFF_TRACKING..];
    var maker, rep := b[OFF_MAKER..OFF_MAKER_REP], b[OFF_MAKER_REP..OFF_TRACKING];
    assert keys == maker + rep && b[OFF_MAKER..] == keys + tail;
    assert Zeros(104) == Zeros(64) + Zeros(40) && Zeros(64) == Zeros(32) + Zeros(32);
    if b[OFF_MAKER..] == Zeros(104) {
      AppendEqual(keys, tail, Zeros(64), Zeros(40));
      AppendEqual(maker, rep, Zeros(32), Zeros(32));
    }
  }

  lemma TailIsZero(b: Bytes)
    requires |b| == STATE_BYTES
    ensures NothingShipped(b) <==> b[OFF_TRACKING..OFF_SHIPPED_AT] == Zeros(32) && LeValue(b[OFF_SHIPPED_AT..]) == 0
  {
    var tail, hash, time := b[OFF_TRACKING..], b[OFF_TRACKING..OFF_SHIPPED_AT], b[OFF_SHIPPED_AT..];
    assert tail == hash + time && Zeros(40) == Zeros(32) + Zeros(8);
    ZeroValue(8);
    if LeValue(time) == 0 {
      LeInverse(time);
      LeInverse(Zeros(8));
    }
    if tail == Zeros(40) {
      AppendEqual(hash, time, Zeros(32), Zeros(8));
    }
  }

  /** When the record a branch leaves behind decodes. */
  ghost predicate Readable(w: World, prev: Tx, m: Move, b: Branch) {
    match b
    case Claim => KeysValid(w.prims, m.tx.payload)
    case Ship => KeysValid(w.prims, m.tx.payload) && m.tx.lockTime != 0
    case Dispute => DecodeState(w.prims, prev.payload).Ok?
    case _ => false
  }

  /** For every accepted move that stays in the covenant: the record it leaves decodes exactly when its keys are
      keys, a shipment has a lock time, and a dispute contests a record that decodes. */
  lemma AcceptedDecodes(w: World, t: Terms, prev: Tx, m: Move, phase: Phase)
    requires SmallTerms(t) && HoldsEscrow(w, t, prev, phase) && Legit(w, prev, m)
    requires IncidentIn(w, t, prev, m) == None && Bound(w, t, prev, m)
    requires !w.prims.validKey(Zeros(32))
    ensures BranchTaken(t, m).Some?
    ensures var b := BranchTaken(t, m).value;
            After(b).Some? ==> (DecodeState(w.prims, m.tx.payload).Ok? <==> Readable(w, prev, m, b))
  {
    hide Legit, IncidentIn, Bound, BranchTaken, Effect, Readable, DecodeState, HoldsEscrow;
    MoveHasEffect(w, t, prev, m, phase);
    var b := BranchTaken(t, m).value;
    if After(b).Some? {
      EffectDecodes(w, t, prev, m, b);
    }
  }

  lemma EffectDecodes(w: World, t: Terms, prev: Tx, m: Move, b: Branch)
    requires Effect(w, t, prev, m, b) && After(b).Some? && !w.prims.validKey(Zeros(32))
    ensures DecodeState(w.prims, m.tx.payload).Ok? <==> Readable(w, prev, m, b)
  {
    hide TermsId, EscrowSpk, DecodeState, Header, LeValue, LeBytes, SignedBy;
    RecordDecodes(w.prims, m.tx.payload, After(b).value);
    match b
    case Claim =>
    case Ship =>
      Pow256Values();
      LeRoundTrip(m.tx.lockTime, 8);
    case Dispute =>
      RecordDecodes(w.prims, prev.payload, Shipped);
      SameFields(prev.payload, m.tx.payload);
  }

  lemma SameFields(a: Bytes, b: Bytes)
    requires |a| == |b| == STATE_BYTES && a[OFF_MAKER..] == b[OFF_MAKER..]
    ensures a[OFF_MAKER..OFF_MAKER_REP] == b[OFF_MAKER..OFF_MAKER_REP]
    ensures a[OFF_MAKER_REP..OFF_TRACKING] == b[OFF_MAKER_REP..OFF_TRACKING]
    ensures a[OFF_TRACKING..OFF_SHIPPED_AT] == b[OFF_TRACKING..OFF_SHIPPED_AT]
    ensures a[OFF_SHIPPED_AT..] == b[OFF_SHIPPED_AT..]
  {
    var x, y := a[OFF_MAKER..], b[OFF_MAKER..];
    assert x[..32] == y[..32] && x[32..64] == y[32..64] && x[64..96] == y[64..96] && x[96..] == y[96..];
    assert a[OFF_MAKER..OFF_MAKER_REP] == x[..32] && b[OFF_MAKER..OFF_MAKER_REP] == y[..32];
    assert a[OFF_MAKER_REP..OFF_TRACKING] == x[32..64] && b[OFF_MAKER_REP..OFF_TRACKING] == y[32..64];
    assert a[OFF_TRACKING..OFF_SHIPPED_AT] == x[64..96] && b[OFF_TRACKING..OFF_SHIPPED_AT] == y[64..96];
    assert a[OFF_SHIPPED_AT..] == x[96..] && b[OFF_SHIPPED_AT..] == y[96..];
  }

  lemma {:induction false} ZeroValue(n: nat)
    ensures LeValue(Zeros(n)) == 0
  {
    if n > 0 {
      ZeroValue(n - 1);
      assert Zeros(n)[1..] == Zeros(n - 1);
    }
  }

  /** Named by something other than this slash. */
  ghost predicate NamedOtherwise(prims: Primitives, window: RootsResume.Window, prior: Roots.Prior, input: Roots.Input,
                                 rep: Digest) {
    || rep in prior.defaulted
    || exists s, p :: s != input && s in Roots.Slashes(window.accepted, window.txs)
                      && RootsResume.Knows(prior.escrows, window.txs, s.outpoint.txid, p)
                      && RootsResume.Names(prims, s, p, rep)
  }

  /** A slash seen by a scan that knows the escrow's payload puts the recorded pseudonym in the accumulator exactly
      when the record decodes: both its keys are keys and nothing has been shipped. */
  lemma SlashReachesAccumulator(w: World, t: Terms, prev: Tx, m: Move, o: Roots.Orders, window: RootsResume.Window,
                                prior: Roots.Prior, body: Roots.Tx, input: Roots.Input)
    requires SmallTerms(t) && HoldsEscrow(w, t, prev, Phase.Claimed) && Legit(w, prev, m)
    requires IncidentIn(w, t, prev, m) == None && Bound(w, t, prev, m)
    requires BranchTaken(t, m) == Some(Slash) && !w.prims.validKey(Zeros(32))
    requires body in window.txs && Roots.Counts(window.accepted, body) && input in body.inputs
    requires input.sigScript == SigScriptOf(m) && input.outpoint.txid == TxId(w, prev)
    requires RootsResume.PayloadsAgree(prior.escrows, window.txs)
    requires RootsResume.Knows(prior.escrows, window.txs, TxId(w, prev), prev.payload)
    ensures RepOf(prev.payload) in RootsResume.After(w.prims, o, window, prior).defaulted <==>
            (KeysValid(w.prims, prev.payload) && NothingShipped(prev.payload))
            || NamedOtherwise(w.prims, window, prior, input, RepOf(prev.payload))
  {
    hide Unlocks, EscrowSpk, TermsId, Header, IncidentIn, Bound, BranchTaken, Scan.BranchSelector, DecodeState;
    hide RootsResume.After, KeysValid, NothingShipped, Legit;
    hide Scan.DefaultFromSpend, Roots.Slashes, RootsResume.Knows, RootsResume.PayloadsAgree, Roots.SlashInputs;
    var rep := RepOf(prev.payload);
    MoveIsShaped(w, prev, m);
    DefaultIsSlash(w, t, prev, m, Phase.Claimed);
    RecordDecodes(w.prims, prev.payload, Phase.Claimed);
    SelectorSeen(t, m);
    assert Roots.IsSlash(input);
    RootsResume.SlashInputsFound(body.inputs, input);
    RootsResume.SlashesFound(window.accepted, window.txs, input);
    RootsResume.DefaultedMeans(w.prims, o, window, prior, rep);
    forall p | RootsResume.Knows(prior.escrows, window.txs, TxId(w, prev), p)
      ensures p == prev.payload
    {
      RootsResume.KnowsOnce(prior.escrows, window.txs, TxId(w, prev), p, prev.payload);
    }
    assert RootsResume.Names(w.prims, input, prev.payload, rep) <==>
           KeysValid(w.prims, prev.payload) && NothingShipped(prev.payload);
  }

  lemma MoveIsShaped(w: World, prev: Tx, m: Move)
    requires Legit(w, prev, m)
    ensures Shaped(m)
  {
  }
}
