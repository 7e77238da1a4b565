/** The second pass and the whole scan, as the loops run them. */
module RootsBuild {
  import opened ByteStrings
  import opened Primitives
  import opened FieldHash
  import opened Canonical
  import opened Merkle
  import opened Scan
  import opened Roots
  import SmtProofs

  datatype ScanError =
    | CallFailed
    /** More distinct leaves than slots. */
    | Outgrew
    /** The tree refuses its leaves, where the source panics. */
    | TreeFull

  datatype Harvest = Harvest(leaves: seq<Bytes>, payloads: map<Digest, Bytes>, pending: seq<Input>, acceptedTxs: nat)

  function CountOf(accepted: set<Digest>, txs: seq<Tx>): nat {
    if txs == [] then 0
    else CountOf(accepted, txs[..|txs| - 1]) + if Counts(accepted, txs[|txs| - 1]) then 1 else 0
  }

  /** What the locals hold after the bodies `txs`. The leaves may have been sorted along the way. */
  ghost predicate Harvested(accepted: set<Digest>, prior: Prior, depth: nat, txs: seq<Tx>, h: Harvest) {
    && (forall x :: x in h.leaves <==> x in prior.leaves + RawLeaves(accepted, txs))
    && (AnyCounts(accepted, txs) ==> |h.leaves| <= Pow2(depth))
    && h.payloads == Payloads(prior.escrows, txs)
    && h.pending == Slashes(accepted, txs)
    && h.acceptedTxs == CountOf(accepted, txs)
  }

  lemma NothingYet(accepted: set<Digest>, prior: Prior, depth: nat)
    ensures Harvested(accepted, prior, depth, [], Harvest(prior.leaves, prior.escrows, [], 0))
  {
    assert prior.leaves + [] == prior.leaves;
  }

  /** One more body, appended to each derived sequence. */
  lemma OneMore(accepted: set<Digest>, known: map<Digest, Bytes>, txs: seq<Tx>, tx: Tx)
    ensures RawLeaves(accepted, txs + [tx]) == RawLeaves(accepted, txs) + TxLeaves(accepted, tx)
    ensures Slashes(accepted, txs + [tx]) == Slashes(accepted, txs) + TxSlashes(accepted, tx)
    ensures Payloads(known, txs + [tx]) ==
      if tx.id.Some? then Payloads(known, txs)[tx.id.value := tx.payload] else Payloads(known, txs)
    ensures CountOf(accepted, txs + [tx]) == CountOf(accepted, txs) + if Counts(accepted, tx) then 1 else 0
    ensures AnyCounts(accepted, txs + [tx]) <==> AnyCounts(accepted, txs) || Counts(accepted, tx)
  {
    hide Counts, TxLeaves, TxSlashes;
    var all := txs + [tx];
    assert all[..|all| - 1] == txs && all[|all| - 1] == tx;
    assert forall i :: 0 <= i < |txs| ==> all[i] == txs[i];
  }

  method SlashesIn(inputs: seq<Input>) returns (out: seq<Input>)
    ensures out == SlashInputs(inputs)
  {
    hide IsSlash;
    out := [];
    for i := 0 to |inputs|
      invariant out == SlashInputs(inputs[..i])
    {
      assert inputs[..i + 1][..i] == inputs[..i];
      if IsSlash(inputs[i]) {
        out := out + [inputs[i]];
      }
    }
    assert inputs[..|inputs|] == inputs;
  }

  /** One body: remember its payload, and if it was accepted take its leaves and slashes, checking the
      capacity on the way. `None` when the distinct leaves no longer fit. */
  method TakeTx(o: Orders, accepted: set<Digest>, depth: nat, h: Harvest, tx: Tx, ghost prior: Prior,
                ghost txs: seq<Tx>)
    returns (r: Option<Harvest>)
    requires OrdersOk(o) && Harvested(accepted, prior, depth, txs, h)
    ensures r.Some? ==> Harvested(accepted, prior, depth, txs + [tx], r.value)
    ensures r.None? <==> Outgrows(o, accepted, txs + [tx], prior, depth)
  {
    hide LeavesOf, SlashInputs, SortDedup, Payloads, Slashes, RawLeaves, CountOf, AnyCounts;
    OneMore(accepted, prior.escrows, txs, tx);
    ghost var all := prior.leaves + RawLeaves(accepted, txs + [tx]);
    if tx.id.None? {
      SameElements(o, h.leaves, all);
      return Some(h);
    }
    var payloads := h.payloads[tx.id.value := tx.payload];
    if tx.id.value !in accepted {
      SameElements(o, h.leaves, all);
      return Some(h.(payloads := payloads));
    }
    var found := LeavesForTx(SpentIn(tx.inputs), tx.payload);
    var leaves := h.leaves + found;
    SameElements(o, leaves, all);
    if |leaves| > Pow2(depth) {
      leaves := SortDedup(o.bytes, leaves);
      if |leaves| > Pow2(depth) {
        return None;
      }
      SortedHasSame(o, h.leaves + found);
    }
    var slashes := SlashesIn(tx.inputs);
    r := Some(Harvest(leaves, payloads, h.pending + slashes, h.acceptedTxs + 1));
  }

  lemma SortedHasSame(o: Orders, a: seq<Bytes>)
    ensures forall x :: x in SortDedup(o.bytes, a) <==> x in a
  {
  }

  lemma SameElements(o: Orders, a: seq<Bytes>, b: seq<Bytes>)
    requires OrdersOk(o) && forall x :: x in a <==> x in b
    ensures SortDedup(o.bytes, a) == SortDedup(o.bytes, b)
    ensures |SortDedup(o.bytes, b)| <= |a|
  {
    SortDedupCanonical(o.bytes, a, b);
  }

  // ----- growing prefixes ---------------------------------------------------

  lemma {:induction false} RawLeavesAppend(accepted: set<Digest>, a: seq<Tx>, b: seq<Tx>)
    ensures RawLeaves(accepted, a + b) == RawLeaves(accepted, a) + RawLeaves(accepted, b)
  {
    hide TxLeaves;
    if b == [] {
      assert a + b == a;
    } else {
      var front, last := b[..|b| - 1], b[|b| - 1];
      var all := a + b;
      assert all[..|all| - 1] == a + front && all[|all| - 1] == last;
      RawLeavesAppend(accepted, a, front);
      var x, y, z := RawLeaves(accepted, a), RawLeaves(accepted, front), TxLeaves(accepted, last);
      assert (x + y) + z == x + (y + z);
    }
  }

  /** A set that has outgrown the tree never fits again. */
  lemma OutgrowsStays(o: Orders, accepted: set<Digest>, a: seq<Tx>, b: seq<Tx>, prior: Prior, depth: nat)
    requires OrdersOk(o) && Outgrows(o, accepted, a, prior, depth)
    ensures Outgrows(o, accepted, a + b, prior, depth)
  {
    hide Counts, RawLeaves, SortDedup;
    RawLeavesAppend(accepted, a, b);
    DistinctGrows(o.bytes, prior.leaves + RawLeaves(accepted, a), prior.leaves + RawLeaves(accepted, a + b));
    var i :| 0 <= i < |a| && Counts(accepted, a[i]);
    assert Counts(accepted, (a + b)[i]);
  }

  /** A body list that outgrows the tree at some prefix outgrows it as a whole. */
  lemma PrefixOutgrows(o: Orders, accepted: set<Digest>, part: seq<Tx>, whole: seq<Tx>, prior: Prior, depth: nat)
    requires OrdersOk(o) && Outgrows(o, accepted, part, prior, depth) && part <= whole
    ensures Outgrows(o, accepted, whole, prior, depth)
  {
    hide Outgrows;
    assert whole == part + whole[|part|..];
    OutgrowsStays(o, accepted, part, whole[|part|..], prior, depth);
  }

  // ----- the loops ----------------------------------------------------------

  /** One block's bodies. */
  method TakeBlock(o: Orders, accepted: set<Digest>, depth: nat, h: Harvest, block: Block,
                   ghost prior: Prior, ghost txs: seq<Tx>) returns (r: Option<Harvest>)
    requires OrdersOk(o) && Harvested(accepted, prior, depth, txs, h) && !Outgrows(o, accepted, txs, prior, depth)
    ensures r.Some? ==> Harvested(accepted, prior, depth, txs + block.txs, r.value)
    ensures r.None? <==> Outgrows(o, accepted, txs + block.txs, prior, depth)
  {
    hide Harvested, Outgrows;
    var now := h;
    assert txs + block.txs[..0] == txs;
    for i := 0 to |block.txs|
      invariant Harvested(accepted, prior, depth, txs + block.txs[..i], now)
      invariant !Outgrows(o, accepted, txs + block.txs[..i], prior, depth)
    {
      ghost var seen := txs + block.txs[..i];
      var step := TakeTx(o, accepted, depth, now, block.txs[i], prior, seen);
      assert seen + [block.txs[i]] == txs + block.txs[..i + 1];
      if step.None? {
        PrefixOutgrows(o, accepted, seen + [block.txs[i]], txs + block.txs, prior, depth);
        return None;
      }
      now := step.value;
    }
    assert block.txs[..|block.txs|] == block.txs;
    r := Some(now);
  }

  /** One reply's blocks, noting whether the end block is among them. */
  method TakeReply(o: Orders, accepted: set<Digest>, depth: nat, h: Harvest, blocks: seq<Block>, end: Digest,
                   ghost prior: Prior, ghost txs: seq<Tx>) returns (r: Option<Harvest>, pastEnd: bool)
    requires OrdersOk(o) && Harvested(accepted, prior, depth, txs, h) && !Outgrows(o, accepted, txs, prior, depth)
    ensures r.Some? ==> Harvested(accepted, prior, depth, txs + TxsOf(blocks), r.value)
    ensures r.Some? ==> pastEnd == Reaches(blocks, end)
    ensures r.None? <==> Outgrows(o, accepted, txs + TxsOf(blocks), prior, depth)
  {
    hide Harvested, Outgrows;
    var now := h;
    pastEnd := false;
    assert txs + TxsOf(blocks[..0]) == txs;
    for i := 0 to |blocks|
      invariant Harvested(accepted, prior, depth, txs + TxsOf(blocks[..i]), now)
      invariant !Outgrows(o, accepted, txs + TxsOf(blocks[..i]), prior, depth)
      invariant pastEnd == Reaches(blocks[..i], end)
    {
      var block := blocks[i];
      ghost var seen := txs + TxsOf(blocks[..i]);
      assert blocks[..i + 1][..i] == blocks[..i] && blocks[..i + 1][i] == block;
      assert seen + block.txs == txs + TxsOf(blocks[..i + 1]);
      var step := TakeBlock(o, accepted, depth, now, block, prior, seen);
      if step.None? {
        TxsOfPrefix(blocks, i + 1);
        PrefixOutgrows(o, accepted, seen + block.txs, txs + TxsOf(blocks), prior, depth);
        return None, pastEnd;
      }
      now := step.value;
      assert Reaches(blocks[..i + 1], end) <==> Reaches(blocks[..i], end) || block.hash == Some(end) by {
        assert blocks[..i + 1] == blocks[..i] + [block];
        ReachesOneMore(blocks[..i], block, end);
      }
      if block.hash == Some(end) {
        pastEnd := true;
      }
    }
    assert blocks[..|blocks|] == blocks;
    r := Some(now);
  }

  lemma ReachesOneMore(blocks: seq<Block>, block: Block, end: Digest)
    ensures Reaches(blocks + [block], end) <==> Reaches(blocks, end) || block.hash == Some(end)
  {
    assert (blocks + [block])[|blocks|] == block;
    if Reaches(blocks, end) {
      var i :| 0 <= i < |blocks| && blocks[i].hash == Some(end);
      assert (blocks + [block])[i] == blocks[i];
    }
  }

  lemma {:induction false} TxsOfPrefix(blocks: seq<Block>, n: nat)
    requires n <= |blocks|
    ensures TxsOf(blocks[..n]) <= TxsOf(blocks)
  {
    if n < |blocks| {
      TxsOfPrefix(blocks[..|blocks| - 1], n);
      assert blocks[..|blocks| - 1][..n] == blocks[..n];
    } else {
      assert blocks[..n] == blocks;
    }
  }

  /** Bodies in bulk, from `start` until the reply that holds `end`. */
  method PassTwo(o: Orders, replies: seq<BlocksReply>, start: Digest, end: Digest, accepted: set<Digest>, depth: nat,
                 prior: Prior) returns (r: Result<Harvest, ScanError>, blocksScanned: nat)
    requires OrdersOk(o)
    ensures Fetched(replies, start, end).None? ==> r.Err?
    ensures Fetched(replies, start, end).Some? ==>
      var txs := Fetched(replies, start, end).value;
      if Outgrows(o, accepted, txs, prior, depth) then r == Err(Outgrew)
      else r.Ok? && Harvested(accepted, prior, depth, txs, r.value)
  {
    hide Harvested, Outgrows, Reaches, TxsOf;
    var h := Harvest(prior.leaves, prior.escrows, [], 0);
    NothingYet(accepted, prior, depth);
    NothingOutgrows(o, accepted, prior, depth);
    blocksScanned := 0;
    var low := start;
    ghost var seen: seq<Tx> := [];
    assert replies[0..] == replies;
    BeforeAny(Fetched(replies, start, end));
    var n := 0;
    while true
      invariant n <= |replies|
      invariant Harvested(accepted, prior, depth, seen, h) && !Outgrows(o, accepted, seen, prior, depth)
      invariant Fetched(replies, start, end) == Before(seen, Fetched(replies[n..], low, end))
      decreases |replies| - n
    {
      if n == |replies| {
        return Err(CallFailed), blocksScanned;
      }
      var resp := replies[n];
      assert replies[n..][0] == resp && replies[n..][1..] == replies[n + 1..];
      if resp.blocks == [] {
        assert seen + [] == seen;
        break;
      }
      blocksScanned := blocksScanned + |resp.blocks|;
      var step, pastEnd := TakeReply(o, accepted, depth, h, resp.blocks, end, prior, seen);
      BeforeTwice(seen, TxsOf(resp.blocks), Fetched(replies[n + 1..], LastOr(resp.hashes, low), end));
      if step.None? {
        if Fetched(replies, start, end).Some? {
          PrefixOutgrows(o, accepted, seen + TxsOf(resp.blocks), Fetched(replies, start, end).value, prior, depth);
        }
        return Err(Outgrew), blocksScanned;
      }
      h := step.value;
      seen := seen + TxsOf(resp.blocks);
      if pastEnd {
        break;
      }
      match Advance(resp.hashes, low) {
        case Some(next) =>
          low := next;
        case None =>
          break;
      }
      n := n + 1;
    }
    r := Ok(h);
  }

  function LastOr(hashes: seq<Digest>, low: Digest): Digest {
    if hashes == [] then low else hashes[|hashes| - 1]
  }

  lemma NothingOutgrows(o: Orders, accepted: set<Digest>, prior: Prior, depth: nat)
    ensures !Outgrows(o, accepted, [], prior, depth)
  {
  }

  lemma BeforeAny(r: Option<seq<Tx>>)
    ensures Before([], r) == r
  {
    if r.Some? {
      assert [] + r.value == r.value;
    }
  }

  lemma BeforeTwice(a: seq<Tx>, b: seq<Tx>, r: Option<seq<Tx>>)
    ensures Before(a, Before(b, r)) == Before(a + b, r)
  {
    if r.Some? {
      assert a + (b + r.value) == (a + b) + r.value;
    }
  }

  method ResolveAll(prims: Primitives, payloads: map<Digest, Bytes>, pending: seq<Input>, seed: seq<Digest>)
    returns (defaulted: seq<Digest>)
    ensures defaulted == seed + Resolve(prims, payloads, pending)
  {
    hide Defaulter;
    defaulted := seed;
    for i := 0 to |pending|
      invariant defaulted == seed + Resolve(prims, payloads, pending[..i])
    {
      assert pending[..i + 1][..i] == pending[..i];
      match Defaulter(prims, payloads, pending[i]) {
        case Some(rep) =>
          defaulted := defaulted + [rep];
        case None =>
      }
    }
    assert pending[..|pending|] == pending;
  }

  datatype Accumulators = Accumulators(
    anchored: MerkleTree,
    defaults: SmtProofs.SparseMerkleTree,
    carried: Prior,
    end: Digest,
    reachedTip: bool,
    blocksScanned: nat,
    acceptedTxs: nat)

  /** A finished scan holds exactly what its window and its seed determine. */
  ghost predicate ScanHolds(prims: Primitives, o: Orders, reach: Reach, txs: seq<Tx>, depth: nat, prior: Prior,
                            s: Accumulators)
    reads s.defaults
  {
    && s.carried == Carry(prims, o, reach.accepted, txs, prior)
    && IsFixed(prims.perm, s.anchored, SortedLeaves(prims.perm, o.field, s.carried.leaves), depth)
    && s.defaults.Valid() && s.defaults.perm == prims.perm
    && s.defaults.entries.Keys == (set k | k in s.carried.defaulted)
    && s.end == reach.end && s.reachedTip == reach.reachedTip && s.acceptedTxs == CountOf(reach.accepted, txs)
  }

  /** Scan forward from `start`, on top of what an earlier scan left behind. */
  method Build(prims: Primitives, o: Orders, batches: seq<Batch>, replies: seq<BlocksReply>, start: Digest,
               maxBatches: nat, depth: nat, prior: Prior) returns (r: Result<Accumulators, ScanError>)
    requires OrdersOk(o)
    ensures Follow(batches, start, maxBatches).None? ==> r == Err(CallFailed)
    ensures Follow(batches, start, maxBatches).Some? ==>
      var reach := Follow(batches, start, maxBatches).value;
      match Fetched(replies, start, reach.end)
      case None => r.Err?
      case Some(txs) =>
        var leaves := Carry(prims, o, reach.accepted, txs, prior).leaves;
        if Outgrows(o, reach.accepted, txs, prior, depth) then r == Err(Outgrew)
        else if |SortedLeaves(prims.perm, o.field, leaves)| > Pow2(depth) then r == Err(TreeFull)
        else r.Ok? && ScanHolds(prims, o, reach, txs, depth, prior, r.value)
  {
    hide Follow, Fetched, Outgrows, IsFixed, SortedLeaves, RawLeaves, Slashes, Payloads, Resolve, SortDedup;
    hide KeepEscrows;
    var passOne := PassOne(batches, start, maxBatches);
    if passOne.None? {
      return Err(CallFailed);
    }
    var reach := passOne.value;
    var passTwo, blocksScanned := PassTwo(o, replies, start, reach.end, reach.accepted, depth, prior);
    if passTwo.Err? {
      return Err(passTwo.error);
    }
    var h := passTwo.value;
    var defaulted := ResolveAll(prims, h.payloads, h.pending, prior.defaulted);
    var escrows := KeepEscrows(h.payloads);
    var leaves := SortDedup(o.bytes, h.leaves);
    defaulted := SortDedup(o.digest, defaulted);
    var anchored := BuildFixedDepth(prims.perm, o.field, leaves, depth);
    var fetched := Fetched(replies, start, reach.end);
    if fetched.Some? {
      SameElements(o, h.leaves, prior.leaves + RawLeaves(reach.accepted, fetched.value));
    }
    if anchored.None? {
      return Err(TreeFull);
    }
    var defaults := new SmtProofs.SparseMerkleTree(prims.perm);
    defaults.InsertAll(defaulted);
    r := Ok(Accumulators(anchored.value, defaults, Prior(leaves, defaulted, escrows), reach.end, reach.reachedTip,
                 blocksScanned, h.acceptedTxs));
  }
}
