/** Scan, save, update: against one long scan, over the scans the source actually runs. */
module RootsUpdate {
  import opened ByteStrings
  import opened Primitives
  import opened FieldHash
  import opened Merkle
  import opened Roots
  import opened RootsBuild
  import opened RootsResume
  import opened SavedScan
  import Smt
  import SmtProofs

  /** Two finished scans that a prover or a verifier cannot tell apart. */
  ghost predicate Agree(s: Accumulators, t: Accumulators)
    reads s.defaults, t.defaults
  {
    && s.carried.leaves == t.carried.leaves && s.carried.defaulted == t.carried.defaulted
    && Root(s.anchored) == Root(t.anchored)
    && s.defaults.Valid() && t.defaults.Valid() && s.defaults.Root() == t.defaults.Root()
  }

  /** Whatever chain of replies they came from: a resumed scan and a long one agree, roots included. */
  lemma AccumulatorsAgree(prims: Primitives, o: Orders, one: Reach, oneTxs: seq<Tx>, two: Reach, twoTxs: seq<Tx>,
                          whole: Reach, wholeTxs: seq<Tx>, depth: nat, prior: Prior, short: Accumulators,
                          long: Accumulators)
    requires var first, second := Window(one.accepted, oneTxs), Window(two.accepted, twoTxs);
             var all := Window(whole.accepted, wholeTxs);
             && Setting(o, all, first, second, prior) && SameKnowledge(all, first, second, prior)
             && ScanHolds(prims, o, two, twoTxs, depth, After(prims, o, first, prior), short)
             && ScanHolds(prims, o, whole, wholeTxs, depth, prior, long)
    ensures Agree(short, long)
  {
    hide Setting, SameKnowledge, Carry, IsFixed, Smt.TreeRoot, SortedLeaves, Root;
    var first, second := Window(one.accepted, oneTxs), Window(two.accepted, twoTxs);
    ResumeAgrees(prims, o, Window(whole.accepted, wholeTxs), first, second, prior);
    SameLeavesSameRoot(prims, o, long.carried.leaves, short.anchored, long.anchored, depth);
  }

  /** What the node answers one scan. */
  datatype Replies = Replies(batches: seq<Batch>, budget: nat, bodies: seq<BlocksReply>)

  function ReachOf(r: Replies, start: Digest): Reach {
    match Follow(r.batches, start, r.budget) case Some(reach) => reach case None => Reach({}, start, true)
  }

  function BodiesOf(r: Replies, start: Digest): seq<Tx> {
    match Fetched(r.bodies, start, ReachOf(r, start).end) case Some(txs) => txs case None => []
  }

  /** Every call of the scan is answered. */
  predicate Answered(r: Replies, start: Digest) {
    Follow(r.batches, start, r.budget).Some? && Fetched(r.bodies, start, ReachOf(r, start).end).Some?
  }

  /** What the scan sees. */
  function WindowOf(r: Replies, start: Digest): Window {
    Window(ReachOf(r, start).accepted, BodiesOf(r, start))
  }

  /** The windows of a scan, its update and a long scan count the same bodies and know the escrows those slash. */
  ghost predicate Comparable(o: Orders, long: Window, first: Window, second: Window, prior: Prior) {
    Setting(o, long, first, second, prior) && SameKnowledge(long, first, second, prior)
  }

  /** Scan, save the file, later update from it; and scan once. Whether or not the first scan reached the tip, and
      whatever each is answered, the two ways succeed together and agree on leaves, defaults and both roots. */
  method RescanAgrees(prims: Primitives, o: Orders, one: Replies, two: Replies, whole: Replies, start: Digest,
                      depth: nat, prior: Prior)
    returns (short: Result<Accumulators, ScanError>, long: Result<Accumulators, ScanError>)
    requires OrdersOk(o) && Answered(one, start) && Answered(whole, start)
    requires Answered(two, ReachOf(one, start).end)
    requires Comparable(o, WindowOf(whole, start), WindowOf(one, start), WindowOf(two, ReachOf(one, start).end), prior)
    ensures short.Ok? <==> long.Ok?
    ensures long.Ok? ==> Agree(short.value, long.value)
    ensures long.Ok? ==> long.value.end == ReachOf(whole, start).end
                         && long.value.reachedTip == ReachOf(whole, start).reachedTip
    ensures short.Ok? ==> short.value.end == ReachOf(two, ReachOf(one, start).end).end
                          && short.value.reachedTip == ReachOf(two, ReachOf(one, start).end).reachedTip
  {
    hide Follow, Fetched, Outgrows, Carry, IsFixed, SortedLeaves, Setting, SameKnowledge, Sound, Agree, Root;
    ghost var next := ReachOf(one, start).end;
    ghost var first, second := WindowOf(one, start), WindowOf(two, next);
    ResumeFits(prims, o, WindowOf(whole, start), first, second, prior, depth);
    long := RootsBuild.Build(prims, o, whole.batches, whole.bodies, start, whole.budget, depth, prior);
    var scan := RootsBuild.Build(prims, o, one.batches, one.bodies, start, one.budget, depth, prior);
    if scan.Err? {
      return scan, long;
    }
    var file := FromScan(prims, o, scan.value, depth, ReachOf(one, start), BodiesOf(one, start), prior);
    short := RootsBuild.Build(prims, o, two.batches, two.bodies, file.tip.value, two.budget, depth, PriorOf(file));
    if short.Ok? {
      AccumulatorsAgree(prims, o, ReachOf(one, start), BodiesOf(one, start), ReachOf(two, next), BodiesOf(two, next),
                        ReachOf(whole, start), BodiesOf(whole, start), depth, prior, short.value, long.value);
    }
  }

  // ----- one chain, one list of replies --------------------------------------

  /** Stopped on its budget, a scan resumed on the rest of the replies reaches what one walk over both budgets does. */
  lemma SharedReach(batches: seq<Batch>, first: nat, second: nat, start: Digest)
    requires first <= |batches|
    requires Follow(batches, start, first).Some? && !Follow(batches, start, first).value.reachedTip
    requires Follow(batches[first..], Follow(batches, start, first).value.end, second).Some?
    ensures var a := Follow(batches, start, first).value;
            var b := Follow(batches[first..], a.end, second).value;
            Follow(batches, start, first + second) == Some(Reach(a.accepted + b.accepted, b.end, b.reachedTip))
  {
    hide Follow;
    FollowSplits(batches, start, first, second);
  }

  /** Then the update also ends where the long scan does. */
  method UpdateAgrees(prims: Primitives, o: Orders, one: Replies, second: nat, bodiesTwo: seq<BlocksReply>,
                      bodiesLong: seq<BlocksReply>, start: Digest, depth: nat, prior: Prior)
    returns (short: Result<Accumulators, ScanError>, long: Result<Accumulators, ScanError>)
    requires OrdersOk(o) && one.budget <= |one.batches|
    requires Answered(one, start) && !ReachOf(one, start).reachedTip
    requires Answered(Replies(one.batches[one.budget..], second, bodiesTwo), ReachOf(one, start).end)
    requires Answered(Replies(one.batches, one.budget + second, bodiesLong), start)
    requires Comparable(o, WindowOf(Replies(one.batches, one.budget + second, bodiesLong), start), WindowOf(one, start),
                        WindowOf(Replies(one.batches[one.budget..], second, bodiesTwo), ReachOf(one, start).end), prior)
    ensures short.Ok? <==> long.Ok?
    ensures long.Ok? ==> Agree(short.value, long.value)
    ensures long.Ok? ==> short.value.end == long.value.end && short.value.reachedTip == long.value.reachedTip
  {
    hide Follow, Fetched, Setting, SameKnowledge, Agree;
    var two := Replies(one.batches[one.budget..], second, bodiesTwo);
    var whole := Replies(one.batches, one.budget + second, bodiesLong);
    SharedReach(one.batches, one.budget, second, start);
    short, long := RescanAgrees(prims, o, one, two, whole, start, depth, prior);
  }
}
