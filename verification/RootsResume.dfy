/** A scan that stops and resumes agrees with one long scan, and what a scan's sets mean. */
module RootsResume {
  import opened ByteStrings
  import opened Primitives
  import opened FieldHash
  import opened EscrowState
  import opened Canonical
  import opened Merkle
  import opened Scan
  import opened Roots

  // ----- what each derived sequence contains --------------------------------

  lemma {:induction false} LeavesFound(accepted: set<Digest>, txs: seq<Tx>, leaf: Bytes)
    ensures leaf in RawLeaves(accepted, txs) <==> exists tx :: tx in txs && leaf in TxLeaves(accepted, tx)
  {
    hide TxLeaves;
    if txs != [] {
      var front, last := txs[..|txs| - 1], txs[|txs| - 1];
      LeavesFound(accepted, front, leaf);
      assert forall tx :: tx in txs <==> tx in front || tx == last;
    }
  }

  lemma {:induction false} SlashesFound(accepted: set<Digest>, txs: seq<Tx>, s: Input)
    ensures s in Slashes(accepted, txs) <==> exists tx :: tx in txs && s in TxSlashes(accepted, tx)
  {
    hide TxSlashes;
    if txs != [] {
      var front, last := txs[..|txs| - 1], txs[|txs| - 1];
      SlashesFound(accepted, front, s);
      assert forall tx :: tx in txs <==> tx in front || tx == last;
    }
  }

  lemma {:induction false} SlashInputsFound(inputs: seq<Input>, s: Input)
    ensures s in SlashInputs(inputs) <==> s in inputs && IsSlash(s)
  {
    hide IsSlash;
    if inputs != [] {
      var front, last := inputs[..|inputs| - 1], inputs[|inputs| - 1];
      SlashInputsFound(front, s);
      assert s in inputs <==> s in front || s == last;
    }
  }

  lemma {:induction false} ResolvedFound(prims: Primitives, payloads: map<Digest, Bytes>, slashes: seq<Input>,
                                         rep: Digest)
    ensures rep in Resolve(prims, payloads, slashes) <==>
            exists s :: s in slashes && Defaulter(prims, payloads, s) == Some(rep)
  {
    hide Defaulter;
    if slashes != [] {
      var front, last := slashes[..|slashes| - 1], slashes[|slashes| - 1];
      ResolvedFound(prims, payloads, front, rep);
      assert forall s :: s in slashes <==> s in front || s == last;
    }
  }

  /** A payload the scan can look up: from a body, or from the seed. */
  predicate Shows(txs: seq<Tx>, id: Digest, payload: Bytes) {
    exists tx :: tx in txs && tx.id == Some(id) && tx.payload == payload
  }

  predicate Knows(known: map<Digest, Bytes>, txs: seq<Tx>, id: Digest, payload: Bytes) {
    Shows(txs, id, payload) || (id in known && known[id] == payload)
  }

  /** A transaction id determines its payload, among the bodies and against the seed. */
  ghost predicate PayloadsAgree(known: map<Digest, Bytes>, txs: seq<Tx>) {
    && (forall t, u :: t in txs && u in txs && t.id.Some? && t.id == u.id ==> t.payload == u.payload)
    && (forall t :: t in txs && t.id.Some? && t.id.value in known ==> known[t.id.value] == t.payload)
  }

  lemma {:induction false} PayloadsKnow(known: map<Digest, Bytes>, txs: seq<Tx>, id: Digest, payload: Bytes)
    requires PayloadsAgree(known, txs)
    ensures id in Payloads(known, txs) && Payloads(known, txs)[id] == payload <==> Knows(known, txs, id, payload)
  {
    if txs != [] {
      var front, last := txs[..|txs| - 1], txs[|txs| - 1];
      assert forall tx :: tx in txs <==> tx in front || tx == last;
      PayloadsKnow(known, front, id, payload);
    }
  }

  lemma KnowsOnce(known: map<Digest, Bytes>, txs: seq<Tx>, id: Digest, p: Bytes, q: Bytes)
    requires PayloadsAgree(known, txs) && Knows(known, txs, id, p) && Knows(known, txs, id, q)
    ensures p == q
  {
  }

  /** A scan looks payloads up only by id, so what it knows is all that matters. */
  lemma DefaulterKnows(prims: Primitives, known: map<Digest, Bytes>, txs: seq<Tx>, s: Input, rep: Digest)
    requires PayloadsAgree(known, txs)
    ensures Defaulter(prims, Payloads(known, txs), s) == Some(rep) <==>
            exists p :: Knows(known, txs, s.outpoint.txid, p)
                        && DefaultFromSpend(prims, p, s.sigScript, SLASH_SELECTOR) == Some(rep)
  {
    hide DefaultFromSpend, Knows;
    var payloads := Payloads(known, txs);
    var id := s.outpoint.txid;
    if id in payloads {
      PayloadsKnow(known, txs, id, payloads[id]);
    }
    forall p | Knows(known, txs, id, p)
      ensures id in payloads && payloads[id] == p
    {
      PayloadsKnow(known, txs, id, p);
    }
  }

  // ----- two windows and one ------------------------------------------------

  datatype Window = Window(accepted: set<Digest>, txs: seq<Tx>)

  function After(prims: Primitives, o: Orders, w: Window, prior: Prior): Prior {
    Carry(prims, o, w.accepted, w.txs, prior)
  }

  predicate Counted(w: Window, tx: Tx) {
    tx in w.txs && Counts(w.accepted, tx)
  }

  /** The long window counts the bodies its halves count. Bodies nobody counts, such as those paged in past the
      end of a window, may differ. */
  ghost predicate SameCounted(whole: Window, first: Window, second: Window) {
    forall tx :: Counted(whole, tx) <==> Counted(first, tx) || Counted(second, tx)
  }

  /** What the theorems below suppose: agreement on what is counted, and that an id determines its payload. */
  ghost predicate Setting(o: Orders, whole: Window, first: Window, second: Window, prior: Prior) {
    && OrdersOk(o) && SameCounted(whole, first, second)
    && PayloadsAgree(prior.escrows, whole.txs + first.txs + second.txs)
  }

  lemma RawLeavesInHalves(whole: Window, first: Window, second: Window, leaf: Bytes)
    requires SameCounted(whole, first, second)
    ensures leaf in RawLeaves(whole.accepted, whole.txs) <==>
            leaf in RawLeaves(first.accepted, first.txs) || leaf in RawLeaves(second.accepted, second.txs)
  {
    LeavesCounted(whole, leaf);
    LeavesCounted(first, leaf);
    LeavesCounted(second, leaf);
  }

  lemma LeavesCounted(w: Window, leaf: Bytes)
    ensures leaf in RawLeaves(w.accepted, w.txs) <==>
            exists tx :: Counted(w, tx) && leaf in LeavesOf(SpentIn(tx.inputs), tx.payload)
  {
    hide LeavesOf;
    LeavesFound(w.accepted, w.txs, leaf);
  }

  lemma SlashesInHalves(whole: Window, first: Window, second: Window, s: Input)
    requires SameCounted(whole, first, second)
    ensures s in Slashes(whole.accepted, whole.txs) <==>
            s in Slashes(first.accepted, first.txs) || s in Slashes(second.accepted, second.txs)
  {
    SlashesCounted(whole, s);
    SlashesCounted(first, s);
    SlashesCounted(second, s);
  }

  lemma SlashesCounted(w: Window, s: Input)
    ensures s in Slashes(w.accepted, w.txs) <==> exists tx :: Counted(w, tx) && s in SlashInputs(tx.inputs)
  {
    hide SlashInputs;
    SlashesFound(w.accepted, w.txs, s);
  }

  /** What the second half can look up: what it shows, and what the first half knew. */
  predicate SecondKnows(first: Window, second: Window, prior: Prior, id: Digest, p: Bytes) {
    Shows(second.txs, id, p) || Knows(prior.escrows, first.txs, id, p)
  }

  /** The escrow payloads carried between the halves lose only payloads that name no default. */
  lemma KnowsInHalves(prims: Primitives, o: Orders, whole: Window, first: Window, second: Window, prior: Prior,
                      id: Digest, p: Bytes)
    requires PayloadsAgree(prior.escrows, whole.txs + first.txs + second.txs)
    ensures PayloadsAgree(prior.escrows, whole.txs) && PayloadsAgree(prior.escrows, first.txs)
    ensures PayloadsAgree(After(prims, o, first, prior).escrows, second.txs)
    ensures Knows(After(prims, o, first, prior).escrows, second.txs, id, p) ==> SecondKnows(first, second, prior, id, p)
    ensures EscrowShaped(p) && SecondKnows(first, second, prior, id, p) ==>
            Knows(After(prims, o, first, prior).escrows, second.txs, id, p)
  {
    hide EscrowShaped, RawLeaves, Slashes, Resolve, SortDedup;
    var carried := After(prims, o, first, prior).escrows;
    var all := whole.txs + first.txs + second.txs;
    assert forall t :: t in all <==> t in whole.txs || t in first.txs || t in second.txs;
    forall k, v
      ensures k in carried && carried[k] == v <==> Knows(prior.escrows, first.txs, k, v) && EscrowShaped(v)
    {
      PayloadsKnow(prior.escrows, first.txs, k, v);
    }
    forall t | t in second.txs && t.id.Some? && t.id.value in carried
      ensures carried[t.id.value] == t.payload
    {
      assert Knows(prior.escrows, first.txs, t.id.value, carried[t.id.value]);
      assert t in all;
    }
  }

  predicate Names(prims: Primitives, s: Input, payload: Bytes, rep: Digest) {
    DefaultFromSpend(prims, payload, s.sigScript, SLASH_SELECTOR) == Some(rep)
  }

  lemma NamedIsEscrow(prims: Primitives, s: Input, payload: Bytes, rep: Digest)
    requires Names(prims, s, payload, rep)
    ensures EscrowShaped(payload)
  {
    if !EscrowShaped(payload) {
      NoMagicNoDefault(prims, payload, s.sigScript, SLASH_SELECTOR);
    }
  }

  /** Some counted slash of the window spends an escrow the scan knows, and names this pseudonym. */
  ghost predicate SlashNames(prims: Primitives, w: Window, known: map<Digest, Bytes>, rep: Digest) {
    exists s, p :: s in Slashes(w.accepted, w.txs) && Knows(known, w.txs, s.outpoint.txid, p) && Names(prims, s, p, rep)
  }

  lemma DefaultedMeans(prims: Primitives, o: Orders, w: Window, prior: Prior, rep: Digest)
    requires PayloadsAgree(prior.escrows, w.txs)
    ensures rep in After(prims, o, w, prior).defaulted <==>
            rep in prior.defaulted || SlashNames(prims, w, prior.escrows, rep)
  {
    hide Slashes, Knows, Payloads, KeepEscrows, RawLeaves, Defaulter, DefaultFromSpend;
    var slashes := Slashes(w.accepted, w.txs);
    ResolvedFound(prims, Payloads(prior.escrows, w.txs), slashes, rep);
    forall s
      ensures Defaulter(prims, Payloads(prior.escrows, w.txs), s) == Some(rep) <==>
              exists p :: Knows(prior.escrows, w.txs, s.outpoint.txid, p) && Names(prims, s, p, rep)
    {
      DefaulterKnows(prims, prior.escrows, w.txs, s, rep);
    }
  }

  /** A half counts this slash, and can look this payload up for it. */
  predicate HalfKnows(first: Window, second: Window, prior: Prior, s: Input, p: Bytes) {
    || (s in Slashes(first.accepted, first.txs) && Knows(prior.escrows, first.txs, s.outpoint.txid, p))
    || (s in Slashes(second.accepted, second.txs) && SecondKnows(first, second, prior, s.outpoint.txid, p))
  }

  predicate WholeKnows(whole: Window, prior: Prior, s: Input, p: Bytes) {
    s in Slashes(whole.accepted, whole.txs) && Knows(prior.escrows, whole.txs, s.outpoint.txid, p)
  }

  /** Named by a slash whose escrow the long scan can look up and no half counting the slash can. */
  ghost predicate Lost(prims: Primitives, whole: Window, first: Window, second: Window, prior: Prior, rep: Digest) {
    exists s, p :: WholeKnows(whole, prior, s, p) && Names(prims, s, p, rep) && !HalfKnows(first, second, prior, s, p)
  }

  /** The other way round. */
  ghost predicate Gained(prims: Primitives, whole: Window, first: Window, second: Window, prior: Prior, rep: Digest) {
    exists s, p :: HalfKnows(first, second, prior, s, p) && Names(prims, s, p, rep) && !WholeKnows(whole, prior, s, p)
  }

  /** How resuming can differ from one long scan, exactly: by slashes whose escrow one of the two can look up and
      the other cannot. */
  lemma ResumeDiffersOnlyBy(prims: Primitives, o: Orders, whole: Window, first: Window, second: Window, prior: Prior,
                            rep: Digest)
    requires Setting(o, whole, first, second, prior)
    ensures rep in After(prims, o, whole, prior).defaulted || Gained(prims, whole, first, second, prior, rep) <==>
            rep in After(prims, o, second, After(prims, o, first, prior)).defaulted
            || Lost(prims, whole, first, second, prior, rep)
  {
    hide After, Slashes, Shows, Knows, Names, EscrowShaped, SecondKnows;
    var mid := After(prims, o, first, prior);
    KnowsInHalves(prims, o, whole, first, second, prior, rep, []);
    DefaultedMeans(prims, o, whole, prior, rep);
    DefaultedMeans(prims, o, first, prior, rep);
    DefaultedMeans(prims, o, second, mid, rep);
    forall s, p | Names(prims, s, p, rep)
      ensures Knows(mid.escrows, second.txs, s.outpoint.txid, p) <==>
        SecondKnows(first, second, prior, s.outpoint.txid, p)
    {
      NamedIsEscrow(prims, s, p, rep);
      KnowsInHalves(prims, o, whole, first, second, prior, s.outpoint.txid, p);
    }
    HalvesName(prims, first, second, prior, mid, rep);
    assert SlashNames(prims, whole, prior.escrows, rep) <==>
           exists s, p :: WholeKnows(whole, prior, s, p) && Names(prims, s, p, rep);
  }

  lemma HalvesName(prims: Primitives, first: Window, second: Window, prior: Prior, mid: Prior, rep: Digest)
    requires forall s: Input, p | Names(prims, s, p, rep) ::
      Knows(mid.escrows, second.txs, s.outpoint.txid, p) <==> SecondKnows(first, second, prior, s.outpoint.txid, p)
    ensures SlashNames(prims, first, prior.escrows, rep) || SlashNames(prims, second, mid.escrows, rep) <==>
            exists s, p :: HalfKnows(first, second, prior, s, p) && Names(prims, s, p, rep)
  {
    hide Slashes, Knows, Names, SecondKnows;
  }

  /** A half that counts a slash knows its escrow exactly when the long scan does. */
  ghost predicate SameKnowledge(whole: Window, first: Window, second: Window, prior: Prior) {
    forall s, p :: EscrowShaped(p) ==> (WholeKnows(whole, prior, s, p) <==> HalfKnows(first, second, prior, s, p))
  }

  /** Two scans carry the leaves and the defaults one long scan does, whatever else they page in, when they count
      the same bodies and know the escrows those slash. */
  lemma ResumeAgrees(prims: Primitives, o: Orders, whole: Window, first: Window, second: Window, prior: Prior)
    requires Setting(o, whole, first, second, prior) && SameKnowledge(whole, first, second, prior)
    ensures var long, short := After(prims, o, whole, prior), After(prims, o, second, After(prims, o, first, prior));
            short.leaves == long.leaves && short.defaulted == long.defaulted
  {
    hide After, WholeKnows, HalfKnows, EscrowShaped, Names;
    var long, short := After(prims, o, whole, prior), After(prims, o, second, After(prims, o, first, prior));
    LeavesSame(prims, o, whole, first, second, prior);
    forall rep
      ensures rep in short.defaulted <==> rep in long.defaulted
    {
      ResumeDiffersOnlyBy(prims, o, whole, first, second, prior, rep);
      forall s, p | Names(prims, s, p, rep)
        ensures WholeKnows(whole, prior, s, p) <==> HalfKnows(first, second, prior, s, p)
      {
        NamedIsEscrow(prims, s, p, rep);
      }
    }
    DefaultedSorted(prims, o, second, After(prims, o, first, prior));
    DefaultedSorted(prims, o, whole, prior);
    StrictUnique(o.digest, short.defaulted, long.defaulted);
  }

  // ----- the whole carried state --------------------------------------------

  lemma LeavesSame(prims: Primitives, o: Orders, whole: Window, first: Window, second: Window, prior: Prior)
    requires Setting(o, whole, first, second, prior)
    ensures After(prims, o, second, After(prims, o, first, prior)).leaves == After(prims, o, whole, prior).leaves
  {
    hide RawLeaves, Slashes, Resolve, Payloads, KeepEscrows;
    var mid := After(prims, o, first, prior);
    var a := mid.leaves + RawLeaves(second.accepted, second.txs);
    var b := prior.leaves + RawLeaves(whole.accepted, whole.txs);
    forall leaf
      ensures leaf in a <==> leaf in b
    {
      RawLeavesInHalves(whole, first, second, leaf);
    }
    SortDedupCanonical(o.bytes, a, b);
  }

  // ----- the halves' bodies and no others -----------------------------------

  /** The long window shows exactly the halves' bodies, in any order, and accepts what they accept. */
  ghost predicate Covers(whole: Window, first: Window, second: Window) {
    && whole.accepted == first.accepted + second.accepted
    && forall tx :: tx in whole.txs <==> tx in first.txs || tx in second.txs
  }

  /** A window that accepts a transaction also shows its bodies. */
  ghost predicate OwnBodies(first: Window, second: Window) {
    && (forall tx :: tx in second.txs && Counts(first.accepted, tx) ==> tx in first.txs)
    && (forall tx :: tx in first.txs && Counts(second.accepted, tx) ==> tx in second.txs)
  }

  ghost predicate ExactSetting(o: Orders, whole: Window, first: Window, second: Window, prior: Prior) {
    && OrdersOk(o) && Covers(whole, first, second) && OwnBodies(first, second)
    && PayloadsAgree(prior.escrows, whole.txs)
  }

  lemma ExactIsSetting(o: Orders, whole: Window, first: Window, second: Window, prior: Prior)
    requires ExactSetting(o, whole, first, second, prior)
    ensures Setting(o, whole, first, second, prior)
    ensures forall id, p :: Knows(prior.escrows, whole.txs, id, p) <==> SecondKnows(first, second, prior, id, p)
  {
    assert forall t :: t in whole.txs + first.txs + second.txs <==> t in whole.txs;
  }

  /** A slash the first window counts although the escrow it spends first shows up in the second. */
  ghost predicate Late(first: Window, second: Window, prior: Prior, s: Input) {
    && s in Slashes(first.accepted, first.txs)
    && (exists p :: Shows(second.txs, s.outpoint.txid, p))
    && !exists p :: Knows(prior.escrows, first.txs, s.outpoint.txid, p)
  }

  ghost predicate NoneLate(first: Window, second: Window, prior: Prior) {
    forall s :: s in Slashes(first.accepted, first.txs) ==> !Late(first, second, prior, s)
  }

  lemma NoneLateKnows(o: Orders, whole: Window, first: Window, second: Window, prior: Prior)
    requires ExactSetting(o, whole, first, second, prior) && NoneLate(first, second, prior)
    ensures SameKnowledge(whole, first, second, prior)
  {
    hide Slashes, Shows, Knows, EscrowShaped, PayloadsAgree;
    ExactIsSetting(o, whole, first, second, prior);
    forall s, p
      ensures WholeKnows(whole, prior, s, p) <==> HalfKnows(first, second, prior, s, p)
    {
      SlashesInHalves(whole, first, second, s);
      if Shows(second.txs, s.outpoint.txid, p) && s in Slashes(first.accepted, first.txs) {
        var q :| Knows(prior.escrows, first.txs, s.outpoint.txid, q);
        KnownOnce(whole, first, second, prior, s.outpoint.txid, p, q);
      }
    }
  }

  lemma KnownOnce(whole: Window, first: Window, second: Window, prior: Prior, id: Digest, p: Bytes, q: Bytes)
    requires Covers(whole, first, second) && PayloadsAgree(prior.escrows, whole.txs)
    requires Shows(second.txs, id, p) && Knows(prior.escrows, first.txs, id, q)
    ensures p == q
  {
  }

  lemma EscrowsSame(prims: Primitives, o: Orders, whole: Window, first: Window, second: Window, prior: Prior)
    requires ExactSetting(o, whole, first, second, prior)
    ensures After(prims, o, second, After(prims, o, first, prior)).escrows == After(prims, o, whole, prior).escrows
  {
    hide RawLeaves, Slashes, Resolve, SortDedup, EscrowShaped, Knows, Shows, SecondKnows, PayloadsAgree;
    var mid := After(prims, o, first, prior);
    var a, b := After(prims, o, second, mid).escrows, After(prims, o, whole, prior).escrows;
    ExactIsSetting(o, whole, first, second, prior);
    forall id: Digest, p: Bytes
      ensures Maps(a, id, p) <==> Maps(b, id, p)
    {
      KnowsInHalves(prims, o, whole, first, second, prior, id, p);
      PayloadsKnow(mid.escrows, second.txs, id, p);
      PayloadsKnow(prior.escrows, whole.txs, id, p);
    }
    SameMaps(a, b);
  }

  predicate Maps(m: map<Digest, Bytes>, id: Digest, p: Bytes) {
    id in m && m[id] == p
  }

  lemma SameMaps(a: map<Digest, Bytes>, b: map<Digest, Bytes>)
    requires forall id: Digest, p: Bytes :: Maps(a, id, p) <==> Maps(b, id, p)
    ensures a == b
  {
    forall id: Digest
      ensures id in a <==> id in b
      ensures id in a ==> a[id] == b[id]
    {
      if id in a { assert Maps(a, id, a[id]); }
      if id in b { assert Maps(b, id, b[id]); }
    }
  }

  /** When the long scan also shows no other bodies, everything carried is the same, the escrows included. */
  lemma ResumeEqualsRescan(prims: Primitives, o: Orders, whole: Window, first: Window, second: Window, prior: Prior)
    requires ExactSetting(o, whole, first, second, prior) && NoneLate(first, second, prior)
    ensures After(prims, o, second, After(prims, o, first, prior)) == After(prims, o, whole, prior)
  {
    hide After, Setting, SameKnowledge, NoneLate, ExactSetting;
    ExactIsSetting(o, whole, first, second, prior);
    NoneLateKnows(o, whole, first, second, prior);
    ResumeAgrees(prims, o, whole, first, second, prior);
    EscrowsSame(prims, o, whole, first, second, prior);
  }

  lemma DefaultedSorted(prims: Primitives, o: Orders, w: Window, prior: Prior)
    requires OrdersOk(o)
    ensures Strict(o.digest, After(prims, o, w, prior).defaulted)
  {
    var payloads := Payloads(prior.escrows, w.txs);
    SortDedupStrict(o.digest, prior.defaulted + Resolve(prims, payloads, Slashes(w.accepted, w.txs)));
  }

  // ----- success and roots --------------------------------------------------

  /** A scan that gets its replies succeeds exactly when its leaves fit. */
  ghost predicate Fits(prims: Primitives, o: Orders, w: Window, prior: Prior, depth: nat) {
    && !Outgrows(o, w.accepted, w.txs, prior, depth)
    && |SortedLeaves(prims.perm, o.field, After(prims, o, w, prior).leaves)| <= Pow2(depth)
  }

  /** The two-step scan succeeds exactly when the long one does. */
  lemma ResumeFits(prims: Primitives, o: Orders, whole: Window, first: Window, second: Window, prior: Prior, depth: nat)
    requires Setting(o, whole, first, second, prior)
    ensures Fits(prims, o, whole, prior, depth) <==>
            Fits(prims, o, first, prior, depth) && Fits(prims, o, second, After(prims, o, first, prior), depth)
  {
    hide RawLeaves, Slashes, Resolve, Payloads, KeepEscrows, SortDedup, AnyCounts, HashLeaf;
    var mid := After(prims, o, first, prior);
    LeavesSame(prims, o, whole, first, second, prior);
    AnyInHalves(whole, first, second);
    MidWithinFinal(prims, o, whole, first, second, prior);
    if !AnyCounts(second.accepted, second.txs) {
      NoneCounted(second.accepted, second.txs);
      assert mid.leaves + [] == mid.leaves;
      assert |SortDedup(o.bytes, mid.leaves)| <= |mid.leaves|;
    }
  }

  lemma {:induction false} NoneCounted(accepted: set<Digest>, txs: seq<Tx>)
    requires !AnyCounts(accepted, txs)
    ensures RawLeaves(accepted, txs) == []
  {
    hide Counts;
    if txs != [] {
      var front, last := txs[..|txs| - 1], txs[|txs| - 1];
      assert forall i :: 0 <= i < |front| ==> front[i] == txs[i];
      assert !AnyCounts(accepted, front) && !Counts(accepted, txs[|txs| - 1]);
      NoneCounted(accepted, front);
    }
  }

  lemma AnyInHalves(whole: Window, first: Window, second: Window)
    requires SameCounted(whole, first, second)
    ensures AnyCounts(whole.accepted, whole.txs) <==>
            AnyCounts(first.accepted, first.txs) || AnyCounts(second.accepted, second.txs)
  {
    hide Counts;
    AnyIsCounted(whole);
    AnyIsCounted(first);
    AnyIsCounted(second);
  }

  lemma AnyIsCounted(w: Window)
    ensures AnyCounts(w.accepted, w.txs) <==> exists tx :: Counted(w, tx)
  {
    hide Counts;
    if i :| 0 <= i < |w.txs| && Counts(w.accepted, w.txs[i]) {
      assert Counted(w, w.txs[i]);
    }
  }

  lemma MidWithinFinal(prims: Primitives, o: Orders, whole: Window, first: Window, second: Window, prior: Prior)
    requires Setting(o, whole, first, second, prior)
    ensures var mid, final := After(prims, o, first, prior).leaves, After(prims, o, whole, prior).leaves;
      |mid| <= |final| && |SortedLeaves(prims.perm, o.field, mid)| <= |SortedLeaves(prims.perm, o.field, final)|
  {
    hide RawLeaves, Slashes, Resolve, Payloads, KeepEscrows, HashLeaf;
    var a := prior.leaves + RawLeaves(first.accepted, first.txs);
    var b := prior.leaves + RawLeaves(whole.accepted, whole.txs);
    forall leaf | leaf in a
      ensures leaf in b
    {
      RawLeavesInHalves(whole, first, second, leaf);
    }
    DistinctGrows(o.bytes, a, b);
    var mid, final := SortDedup(o.bytes, a), SortDedup(o.bytes, b);
    var x, y := LeafHashes(prims.perm, mid), LeafHashes(prims.perm, final);
    forall h | h in x
      ensures h in y
    {
      var i :| 0 <= i < |x| && x[i] == h;
      assert mid[i] in final;
      var j :| 0 <= j < |final| && final[j] == mid[i];
      assert y[j] == h;
    }
    DistinctGrows(o.field, x, y);
  }

  /** Equal carried leaves give equal trees, so the roots agree as well. */
  lemma SameLeavesSameRoot(prims: Primitives, o: Orders, leaves: seq<Bytes>, s: MerkleTree, t: MerkleTree, depth: nat)
    requires IsFixed(prims.perm, s, SortedLeaves(prims.perm, o.field, leaves), depth)
    requires IsFixed(prims.perm, t, SortedLeaves(prims.perm, o.field, leaves), depth)
    ensures Root(s) == Root(t)
  {
    hide SortedLeaves, HashNode;
    var sorted := SortedLeaves(prims.perm, o.field, leaves);
    FixedRootIsPaddedRoot(prims.perm, s, sorted, depth);
    FixedRootIsPaddedRoot(prims.perm, t, sorted, depth);
  }

  // ----- what membership means ----------------------------------------------

  /** The body spends this outpoint through one of its inputs. */
  predicate Spends(tx: Tx, op: SpentOutpoint) {
    exists i :: 0 <= i < |tx.inputs| && tx.inputs[i].outpoint == op
  }

  /** What is carried to the next update: every payload known that starts with the magic, and no other. */
  lemma CarriedEscrows(prims: Primitives, o: Orders, w: Window, prior: Prior, id: Digest, p: Bytes)
    requires PayloadsAgree(prior.escrows, w.txs)
    ensures Maps(After(prims, o, w, prior).escrows, id, p) <==>
            Knows(prior.escrows, w.txs, id, p) && |p| >= 4 && p[..4] == [0x6b, 0x45, 0x53, 0x43]
  {
    hide RawLeaves, Slashes, Resolve, SortDedup, Knows;
    PayloadsKnow(prior.escrows, w.txs, id, p);
  }

  /** An anchor leaf is in a fresh scan's set exactly when some accepted body of the window spends the
      outpoint and commits the id. */
  lemma ScannedLeafMeans(prims: Primitives, o: Orders, w: Window, op: SpentOutpoint, id: Digest)
    requires op.index < TWO32
    requires forall tx :: tx in w.txs ==> IndicesFit(SpentIn(tx.inputs))
    ensures AnchorLeaf(op, id) in After(prims, o, w, Prior([], [], map[])).leaves <==>
            exists tx :: tx in w.txs && Counts(w.accepted, tx) && Spends(tx, op)
                         && PayloadCommits(Scanned(tx.payload), id)
  {
    hide LeavesOf, PayloadCommits, Counts, Slashes, Resolve, Payloads, RawLeaves, AnchorLeaf;
    var leaf := AnchorLeaf(op, id);
    LeavesFound(w.accepted, w.txs, leaf);
    assert [] + RawLeaves(w.accepted, w.txs) == RawLeaves(w.accepted, w.txs);
    forall tx | tx in w.txs
      ensures leaf in LeavesOf(SpentIn(tx.inputs), tx.payload) <==>
              Spends(tx, op) && PayloadCommits(Scanned(tx.payload), id)
    {
      SpentAreOutpoints(tx.inputs, op);
      LeafMeansCommitment(SpentIn(tx.inputs), tx.payload, op, id);
    }
  }
}
