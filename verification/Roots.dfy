/** Rebuilding both accumulators from a node: an acceptance pass, then a pass over block bodies. The
    node's replies are parameters, in the order the scan asks for them; running out of replies stands
    for a failed call. */
module Roots {
  import opened ByteStrings
  import opened Primitives
  import opened FieldHash
  import opened EscrowState
  import opened Canonical
  import opened Merkle
  import opened Scan
  import SmtProofs

  const SLASH_SELECTOR: int := 7

  datatype Input = Input(outpoint: SpentOutpoint, sigScript: Bytes)

  /** `id` is absent when the node sent no verbose data. */
  datatype Tx = Tx(id: Option<Digest>, payload: Bytes, inputs: seq<Input>)

  datatype Block = Block(hash: Option<Digest>, txs: seq<Tx>)

  /** One reply of the virtual chain: accepted ids by block, and the chain blocks added. */
  datatype Batch = Batch(accepted: seq<seq<Digest>>, added: seq<Digest>)

  datatype BlocksReply = BlocksReply(blocks: seq<Block>, hashes: seq<Digest>)

  datatype Prior = Prior(leaves: seq<Bytes>, defaulted: seq<Digest>, escrows: map<Digest, Bytes>)

  /** The sort orders, as order-preserving numberings. */
  datatype Orders = Orders(field: Field -> int, bytes: Bytes -> int, digest: Digest -> int)

  ghost predicate OrdersOk(o: Orders) {
    Injective(o.field) && Injective(o.bytes) && Injective(o.digest)
  }

  // ----- pass one: acceptance -----------------------------------------------

  datatype Reach = Reach(accepted: set<Digest>, end: Digest, reachedTip: bool)

  function IdsOf(lists: seq<seq<Digest>>): (ids: set<Digest>) {
    set i, j | 0 <= i < |lists| && 0 <= j < |lists[i]| :: lists[i][j]
  }

  /** The chain block a reply advances to, if it advances. */
  function Advance(added: seq<Digest>, cursor: Digest): Option<Digest> {
    if added == [] || added[|added| - 1] == cursor then None else Some(added[|added| - 1])
  }

  function AlsoAccepting(ids: set<Digest>, r: Option<Reach>): Option<Reach> {
    match r case None => None case Some(reach) => Some(reach.(accepted := ids + reach.accepted))
  }

  lemma AcceptingTwice(a: set<Digest>, b: set<Digest>, r: Option<Reach>)
    ensures AlsoAccepting(a, AlsoAccepting(b, r)) == AlsoAccepting(a + b, r)
    ensures AlsoAccepting({}, r) == r
  {
    if r.Some? {
      assert a + (b + r.value.accepted) == (a + b) + r.value.accepted;
      assert {} + r.value.accepted == r.value.accepted;
    }
  }

  /** Follow the virtual chain for at most `budget` replies. */
  function Follow(batches: seq<Batch>, cursor: Digest, budget: nat): Option<Reach>
    decreases budget
  {
    if budget == 0 then Some(Reach({}, cursor, false))
    else if batches == [] then None
    else
      match Advance(batches[0].added, cursor)
      case None => Some(Reach(IdsOf(batches[0].accepted), cursor, true))
      case Some(next) => AlsoAccepting(IdsOf(batches[0].accepted), Follow(batches[1..], next, budget - 1))
  }

  method PassOne(batches: seq<Batch>, start: Digest, maxBatches: nat) returns (r: Option<Reach>)
    ensures r == Follow(batches, start, maxBatches)
    ensures r.Some? ==> exists n :: Reads(batches, start, maxBatches, n, r.value)
  {
    hide IdsOf, Reads;
    if Follow(batches, start, maxBatches).Some? {
      var n := FollowReads(batches, start, maxBatches);
    }
    var accepted: set<Digest> := {};
    var cursor, reachedTip := start, false;
    var n := 0;
    assert batches[0..] == batches;
    AcceptingTwice({}, {}, Follow(batches, start, maxBatches));
    while n < maxBatches
      invariant n <= maxBatches && n <= |batches| && !reachedTip
      invariant Follow(batches, start, maxBatches) ==
                AlsoAccepting(accepted, Follow(batches[n..], cursor, maxBatches - n))
    {
      if n == |batches| {
        return None;
      }
      var batch := batches[n];
      assert batches[n..][0] == batch && batches[n..][1..] == batches[n + 1..];
      var ids := IdsOf(batch.accepted);
      match Advance(batch.added, cursor) {
        case Some(next) =>
          AcceptingTwice(accepted, ids, Follow(batches[n + 1..], next, maxBatches - n - 1));
          accepted := accepted + ids;
          cursor := next;
        case None =>
          accepted := accepted + ids;
          reachedTip := true;
          break;
      }
      n := n + 1;
    }
    r := Some(Reach(accepted, cursor, reachedTip));
    assert accepted + {} == accepted;
  }

  /** Stopping at a budget and carrying on from where that stopped follows the same chain: the second
      half sees exactly the acceptances the first did not, and ends where one long walk would. */
  lemma {:induction false} FollowSplits(batches: seq<Batch>, start: Digest, first: nat, second: nat)
    requires first <= |batches|
    ensures Follow(batches, start, first + second) ==
      match Follow(batches, start, first)
      case None => None
      case Some(a) =>
        if a.reachedTip then Some(a)
        else AlsoAccepting(a.accepted, Follow(batches[first..], a.end, second))
  {
    if first > 0 {
      match Advance(batches[0].added, start) {
        case None =>
        case Some(next) =>
          assert batches[1..][first - 1..] == batches[first..];
          FollowSplits(batches[1..], next, first - 1, second);
          var half := Follow(batches[1..], next, first - 1);
          if half.Some? {
            AcceptingTwice(IdsOf(batches[0].accepted), half.value.accepted,
                           Follow(batches[first..], half.value.end, second));
          }
      }
    } else {
      assert batches[0..] == batches;
      AcceptingTwice({}, {}, Follow(batches, start, second));
    }
  }

  // ----- what following reads -----------------------------------------------

  /** Some block of the reply accepts this id. */
  predicate Accepts(b: Batch, id: Digest) {
    exists j, k :: 0 <= j < |b.accepted| && 0 <= k < |b.accepted[j]| && b.accepted[j][k] == id
  }

  lemma IdsAreAll(b: Batch, id: Digest)
    ensures id in IdsOf(b.accepted) <==> Accepts(b, id)
  {
  }

  /** The last chain block added by the first `n` replies, or where the walk began. */
  function CursorAfter(batches: seq<Batch>, start: Digest, n: nat): Digest
    requires n <= |batches|
  {
    if n == 0 then start
    else if batches[n - 1].added == [] then CursorAfter(batches, start, n - 1)
    else batches[n - 1].added[|batches[n - 1].added| - 1]
  }

  predicate Moves(batches: seq<Batch>, start: Digest, k: nat)
    requires k < |batches|
  {
    CursorAfter(batches, start, k + 1) != CursorAfter(batches, start, k)
  }

  /** A walk that read `n` replies: it accepts what they accept, ends where they end, and stopped at the first reply
      that did not move it, which is the tip, or at its budget. */
  ghost predicate Reads(batches: seq<Batch>, start: Digest, budget: nat, n: nat, r: Reach) {
    && n <= |batches| && n <= budget
    && (forall id :: id in r.accepted <==> exists k :: 0 <= k < n && Accepts(batches[k], id))
    && r.end == CursorAfter(batches, start, n)
    && (if r.reachedTip
        then n > 0 && !Moves(batches, start, n - 1) && forall k :: 0 <= k < n - 1 ==> Moves(batches, start, k)
        else n == budget && forall k :: 0 <= k < n ==> Moves(batches, start, k))
  }

  /** A walk that succeeds has read some number of replies that way. */
  lemma {:induction false} FollowReads(batches: seq<Batch>, start: Digest, budget: nat) returns (n: nat)
    requires Follow(batches, start, budget).Some?
    ensures Reads(batches, start, budget, n, Follow(batches, start, budget).value)
  {
    hide IdsOf, Accepts;
    if budget == 0 {
      return 0;
    }
    var r := Follow(batches, start, budget).value;
    match Advance(batches[0].added, start) {
      case None =>
        n := 1;
        ReadsOne(batches, start, budget, r);
      case Some(next) =>
        var rest := FollowReads(batches[1..], next, budget - 1);
        n := rest + 1;
        ReadsMore(batches, start, budget, next, rest, Follow(batches[1..], next, budget - 1).value, r);
    }
  }

  lemma ReadsOne(batches: seq<Batch>, start: Digest, budget: nat, r: Reach)
    requires batches != [] && budget > 0 && Advance(batches[0].added, start) == None
    requires r == Reach(IdsOf(batches[0].accepted), start, true)
    ensures Reads(batches, start, budget, 1, r)
  {
    hide IdsOf, Accepts;
    forall id
      ensures id in r.accepted <==> Accepts(batches[0], id)
    {
      IdsAreAll(batches[0], id);
    }
    assert CursorAfter(batches, start, 0) == start;
  }

  lemma {:induction false} CursorShifts(batches: seq<Batch>, start: Digest, next: Digest, k: nat)
    requires k + 1 <= |batches| && Advance(batches[0].added, start) == Some(next)
    ensures CursorAfter(batches, start, k + 1) == CursorAfter(batches[1..], next, k)
  {
    if k > 0 {
      CursorShifts(batches, start, next, k - 1);
      assert batches[1..][k - 1] == batches[k];
    }
  }

  lemma ReadsMore(batches: seq<Batch>, start: Digest, budget: nat, next: Digest, rest: nat, later: Reach, r: Reach)
    requires batches != [] && budget > 0 && Advance(batches[0].added, start) == Some(next)
    requires Reads(batches[1..], next, budget - 1, rest, later)
    requires r == later.(accepted := IdsOf(batches[0].accepted) + later.accepted)
    ensures Reads(batches, start, budget, rest + 1, r)
  {
    hide IdsOf, Accepts, CursorAfter;
    CursorShifts(batches, start, next, rest);
    FirstMoves(batches, start, next);
    forall k | 0 < k < |batches|
      ensures Moves(batches, start, k) <==> Moves(batches[1..], next, k - 1)
    {
      CursorShifts(batches, start, next, k - 1);
      CursorShifts(batches, start, next, k);
    }
    forall id
      ensures id in r.accepted <==> exists k :: 0 <= k < rest + 1 && Accepts(batches[k], id)
    {
      IdsAreAll(batches[0], id);
      if k :| 0 <= k < rest && Accepts(batches[1..][k], id) {
        assert Accepts(batches[k + 1], id);
      }
      if k :| 0 <= k < rest + 1 && Accepts(batches[k], id) {
        assert k > 0 ==> batches[1..][k - 1] == batches[k];
      }
    }
  }

  lemma FirstMoves(batches: seq<Batch>, start: Digest, next: Digest)
    requires batches != [] && Advance(batches[0].added, start) == Some(next)
    ensures Moves(batches, start, 0)
  {
    assert CursorAfter(batches, start, 0) == start;
  }

  // ----- pass two: bodies ---------------------------------------------------

  function TxsOf(blocks: seq<Block>): seq<Tx> {
    if blocks == [] then [] else TxsOf(blocks[..|blocks| - 1]) + blocks[|blocks| - 1].txs
  }

  predicate Reaches(blocks: seq<Block>, end: Digest) {
    exists i :: 0 <= i < |blocks| && blocks[i].hash == Some(end)
  }

  /** Every body the second pass looks at, up to the reply that holds the end block. */
  function Fetched(replies: seq<BlocksReply>, low: Digest, end: Digest): Option<seq<Tx>>
    decreases |replies|
  {
    if replies == [] then None
    else
      var txs := TxsOf(replies[0].blocks);
      if replies[0].blocks == [] then Some([])
      else if Reaches(replies[0].blocks, end) then Some(txs)
      else match Advance(replies[0].hashes, low)
        case None => Some(txs)
        case Some(next) =>
          Before(txs, Fetched(replies[1..], next, end))
  }

  function Before(txs: seq<Tx>, rest: Option<seq<Tx>>): Option<seq<Tx>> {
    match rest case None => None case Some(more) => Some(txs + more)
  }

  // ----- what fetching reads ------------------------------------------------

  predicate InBlocks(blocks: seq<Block>, tx: Tx) {
    exists i :: 0 <= i < |blocks| && tx in blocks[i].txs
  }

  lemma {:induction false} TxsAreAll(blocks: seq<Block>, tx: Tx)
    ensures tx in TxsOf(blocks) <==> InBlocks(blocks, tx)
  {
    if blocks != [] {
      var front := blocks[..|blocks| - 1];
      TxsAreAll(front, tx);
      if i :| 0 <= i < |front| && tx in front[i].txs {
        assert tx in blocks[i].txs;
      }
      if i :| 0 <= i < |blocks| && tx in blocks[i].txs {
        assert i < |front| ==> tx in front[i].txs;
      }
    }
  }

  /** The last block the first `n` replies walked to. */
  function LowAfter(replies: seq<BlocksReply>, low: Digest, n: nat): Digest
    requires n <= |replies|
  {
    if n == 0 then low
    else if replies[n - 1].hashes == [] then LowAfter(replies, low, n - 1)
    else replies[n - 1].hashes[|replies[n - 1].hashes| - 1]
  }

  /** The walk stops at this reply: it is empty, holds the end block, or goes no further. */
  predicate StopsAt(replies: seq<BlocksReply>, low: Digest, end: Digest, k: nat)
    requires k < |replies|
  {
    || replies[k].blocks == [] || Reaches(replies[k].blocks, end)
    || LowAfter(replies, low, k + 1) == LowAfter(replies, low, k)
  }

  /** The bodies are all the transactions of the replies up to the first that stops the walk. */
  ghost predicate Gathers(replies: seq<BlocksReply>, low: Digest, end: Digest, n: nat, txs: seq<Tx>) {
    && 0 < n <= |replies|
    && StopsAt(replies, low, end, n - 1) && (forall k :: 0 <= k < n - 1 ==> !StopsAt(replies, low, end, k))
    && forall tx :: tx in txs <==> exists k :: 0 <= k < n && InBlocks(replies[k].blocks, tx)
  }

  lemma {:induction false} FetchedReads(replies: seq<BlocksReply>, low: Digest, end: Digest) returns (n: nat)
    requires Fetched(replies, low, end).Some?
    ensures Gathers(replies, low, end, n, Fetched(replies, low, end).value)
    decreases |replies|
  {
    hide TxsOf, InBlocks, Reaches;
    var blocks := replies[0].blocks;
    forall tx
      ensures tx in TxsOf(blocks) <==> InBlocks(blocks, tx)
    {
      TxsAreAll(blocks, tx);
    }
    assert LowAfter(replies, low, 0) == low;
    if blocks == [] || Reaches(blocks, end) || Advance(replies[0].hashes, low) == None {
      n := 1;
      if blocks == [] {
        NoTxs();
      }
    } else {
      var next := Advance(replies[0].hashes, low).value;
      var rest := FetchedReads(replies[1..], next, end);
      n := rest + 1;
      GathersMore(replies, low, end, next, rest, Fetched(replies[1..], next, end).value);
    }
  }

  lemma NoTxs()
    ensures TxsOf([]) == []
  {
  }

  lemma {:induction false} LowShifts(replies: seq<BlocksReply>, low: Digest, next: Digest, k: nat)
    requires k + 1 <= |replies| && Advance(replies[0].hashes, low) == Some(next)
    ensures LowAfter(replies, low, k + 1) == LowAfter(replies[1..], next, k)
  {
    if k > 0 {
      LowShifts(replies, low, next, k - 1);
      assert replies[1..][k - 1] == replies[k];
    }
  }

  lemma StopShifts(replies: seq<BlocksReply>, low: Digest, end: Digest, next: Digest, k: nat)
    requires k + 1 < |replies| && Advance(replies[0].hashes, low) == Some(next)
    ensures StopsAt(replies, low, end, k + 1) <==> StopsAt(replies[1..], next, end, k)
  {
    hide LowAfter, Reaches;
    LowShifts(replies, low, next, k);
    LowShifts(replies, low, next, k + 1);
  }

  lemma GathersMore(replies: seq<BlocksReply>, low: Digest, end: Digest, next: Digest, rest: nat, later: seq<Tx>)
    requires replies != [] && Advance(replies[0].hashes, low) == Some(next)
    requires replies[0].blocks != [] && !Reaches(replies[0].blocks, end)
    requires Gathers(replies[1..], next, end, rest, later)
    ensures Gathers(replies, low, end, rest + 1, TxsOf(replies[0].blocks) + later)
  {
    hide TxsOf, InBlocks, Reaches, StopsAt;
    var tail := replies[1..];
    assert !StopsAt(replies, low, end, 0) by { FirstGoesOn(replies, low, end, next); }
    forall k | 0 < k <= rest
      ensures StopsAt(replies, low, end, k) <==> StopsAt(tail, next, end, k - 1)
    {
      StopShifts(replies, low, end, next, k - 1);
    }
    forall tx
      ensures tx in TxsOf(replies[0].blocks) + later <==>
              exists k :: 0 <= k < rest + 1 && InBlocks(replies[k].blocks, tx)
    {
      TxsAreAll(replies[0].blocks, tx);
      if k :| 0 <= k < rest && InBlocks(tail[k].blocks, tx) {
        assert InBlocks(replies[k + 1].blocks, tx);
      }
      if k :| 0 <= k < rest + 1 && InBlocks(replies[k].blocks, tx) {
        assert k > 0 ==> tail[k - 1] == replies[k];
      }
    }
  }

  lemma FirstGoesOn(replies: seq<BlocksReply>, low: Digest, end: Digest, next: Digest)
    requires replies != [] && Advance(replies[0].hashes, low) == Some(next)
    requires replies[0].blocks != [] && !Reaches(replies[0].blocks, end)
    ensures !StopsAt(replies, low, end, 0)
  {
    hide Reaches;
    assert LowAfter(replies, low, 0) == low;
  }

  /** A body the scan counts: it has an id and that id was accepted. */
  predicate Counts(accepted: set<Digest>, tx: Tx) {
    tx.id.Some? && tx.id.value in accepted
  }

  function SpentIn(inputs: seq<Input>): (s: seq<SpentOutpoint>)
    ensures |s| == |inputs|
  {
    seq(|inputs|, i requires 0 <= i < |inputs| => inputs[i].outpoint)
  }

  lemma SpentAreOutpoints(inputs: seq<Input>, op: SpentOutpoint)
    ensures op in SpentIn(inputs) <==> exists i :: 0 <= i < |inputs| && inputs[i].outpoint == op
  {
    if i :| 0 <= i < |inputs| && inputs[i].outpoint == op {
      assert SpentIn(inputs)[i] == op;
    }
  }

  /** Every payload by transaction id, a later copy replacing an earlier one. */
  function Payloads(known: map<Digest, Bytes>, txs: seq<Tx>): map<Digest, Bytes> {
    if txs == [] then known
    else
      var before := Payloads(known, txs[..|txs| - 1]);
      var tx := txs[|txs| - 1];
      if tx.id.Some? then before[tx.id.value := tx.payload] else before
  }

  function TxLeaves(accepted: set<Digest>, tx: Tx): seq<Bytes> {
    if Counts(accepted, tx) then LeavesOf(SpentIn(tx.inputs), tx.payload) else []
  }

  function RawLeaves(accepted: set<Digest>, txs: seq<Tx>): seq<Bytes> {
    if txs == [] then [] else RawLeaves(accepted, txs[..|txs| - 1]) + TxLeaves(accepted, txs[|txs| - 1])
  }

  predicate IsSlash(i: Input) {
    BranchSelector(i.sigScript) == Some(SLASH_SELECTOR)
  }

  function SlashInputs(inputs: seq<Input>): seq<Input> {
    if inputs == [] then []
    else
      var before, last := SlashInputs(inputs[..|inputs| - 1]), inputs[|inputs| - 1];
      if IsSlash(last) then before + [last] else before
  }

  function TxSlashes(accepted: set<Digest>, tx: Tx): seq<Input> {
    if Counts(accepted, tx) then SlashInputs(tx.inputs) else []
  }

  function Slashes(accepted: set<Digest>, txs: seq<Tx>): seq<Input> {
    if txs == [] then [] else Slashes(accepted, txs[..|txs| - 1]) + TxSlashes(accepted, txs[|txs| - 1])
  }

  /** The pseudonym one slash resolves to. */
  function Defaulter(prims: Primitives, payloads: map<Digest, Bytes>, slash: Input): Option<Digest> {
    if slash.outpoint.txid in payloads
      then DefaultFromSpend(prims, payloads[slash.outpoint.txid], slash.sigScript, SLASH_SELECTOR)
    else None
  }

  function Resolve(prims: Primitives, payloads: map<Digest, Bytes>, slashes: seq<Input>): seq<Digest> {
    if slashes == [] then []
    else
      var before := Resolve(prims, payloads, slashes[..|slashes| - 1]);
      match Defaulter(prims, payloads, slashes[|slashes| - 1])
      case Some(rep) => before + [rep]
      case None => before
  }

  predicate EscrowShaped(p: Bytes) {
    |p| >= 4 && p[..4] == MAGIC
  }

  function KeepEscrows(payloads: map<Digest, Bytes>): map<Digest, Bytes> {
    map id | id in payloads && EscrowShaped(payloads[id]) :: payloads[id]
  }

  /** What a scan of these bodies leaves behind. */
  function Carry(prims: Primitives, o: Orders, accepted: set<Digest>, txs: seq<Tx>, prior: Prior): Prior {
    var payloads := Payloads(prior.escrows, txs);
    Prior(SortDedup(o.bytes, prior.leaves + RawLeaves(accepted, txs)),
          SortDedup(o.digest, prior.defaulted + Resolve(prims, payloads, Slashes(accepted, txs))),
          KeepEscrows(payloads))
  }

  predicate AnyCounts(accepted: set<Digest>, txs: seq<Tx>) {
    exists i :: 0 <= i < |txs| && Counts(accepted, txs[i])
  }

  /** The distinct leaves do not fit, and the scan notices: it only looks after an accepted body. */
  predicate Outgrows(o: Orders, accepted: set<Digest>, txs: seq<Tx>, prior: Prior, depth: nat) {
    && AnyCounts(accepted, txs)
    && |SortDedup(o.bytes, prior.leaves + RawLeaves(accepted, txs))| > Pow2(depth)
  }

  // ----- distinct leaves ----------------------------------------------------

  lemma {:induction false} StrictCardinality<T(!new)>(key: T -> int, s: seq<T>)
    requires Strict(key, s)
    ensures |set x | x in s| == |s|
  {
    if s != [] {
      var front, last := s[..|s| - 1], s[|s| - 1];
      StrictCardinality(key, front);
      assert (set x | x in s) == (set x | x in front) + {last};
    }
  }

  /** More elements, more distinct elements; and never more distinct ones than elements. */
  lemma DistinctGrows<T(!new)>(key: T -> int, a: seq<T>, b: seq<T>)
    requires Injective(key) && forall x :: x in a ==> x in b
    ensures |SortDedup(key, a)| <= |SortDedup(key, b)| <= |b|
  {
    SortDedupStrict(key, a);
    SortDedupStrict(key, b);
    var sa, sb := SortDedup(key, a), SortDedup(key, b);
    StrictCardinality(key, sa);
    StrictCardinality(key, sb);
    var xs, ys := set x | x in sa, set x | x in sb;
    assert xs <= ys;
    SubsetCardinality(xs, ys);
  }

  lemma SubsetCardinality<T>(xs: set<T>, ys: set<T>)
    requires xs <= ys
    ensures |xs| <= |ys|
  {
    assert ys == xs + (ys - xs);
  }
}
