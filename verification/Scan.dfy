/** Deriving accumulator entries from transactions: anchor leaves from payloads, defaults from slashes. */
module Scan {
  import opened ByteStrings
  import opened Primitives
  import opened ScriptNumbers
  import opened ScriptBytes
  import opened EscrowState

  const MAX_PAYLOAD_SCANNED: nat := 4096

  /** A spent output: transaction id and 32-bit output index. */
  datatype SpentOutpoint = SpentOutpoint(txid: Digest, index: nat)

  function AnchorLeaf(op: SpentOutpoint, id: Digest): (leaf: Bytes)
    ensures |leaf| == 68
  {
    op.txid + LeBytes(op.index, 4) + id
  }

  lemma AnchorLeafInjective(p: SpentOutpoint, a: Digest, q: SpentOutpoint, b: Digest)
    requires p.index < TWO32 && q.index < TWO32
    ensures AnchorLeaf(p, a) == AnchorLeaf(q, b) <==> p == q && a == b
  {
    hide LeBytes;
    if AnchorLeaf(p, a) == AnchorLeaf(q, b) {
      AppendEqual(p.txid + LeBytes(p.index, 4), a, q.txid + LeBytes(q.index, 4), b);
      AppendEqual(p.txid, LeBytes(p.index, 4), q.txid, LeBytes(q.index, 4));
      Pow256Values();
      LeInjective(p.index, q.index, 4);
    }
  }

  // ----- anchoring ----------------------------------------------------------

  /** The whole 32-byte slots of a payload, in order; a ragged tail is not one. */
  function Slots(payload: Bytes): (s: seq<Digest>)
    ensures |s| == |payload| / 32
  {
    seq(|payload| / 32, i requires 0 <= i < |payload| / 32 => payload[32 * i..32 * i + 32])
  }

  /** The verifier's rule, over the whole payload. */
  predicate PayloadCommits(payload: Bytes, id: Digest) {
    exists i :: 0 <= i < |payload| / 32 && payload[32 * i..32 * i + 32] == id
  }

  function Scanned(payload: Bytes): Bytes {
    if |payload| <= MAX_PAYLOAD_SCANNED then payload else payload[..MAX_PAYLOAD_SCANNED]
  }

  function Row(op: SpentOutpoint, ids: seq<Digest>): (r: seq<Bytes>)
    ensures |r| == |ids|
  {
    seq(|ids|, i requires 0 <= i < |ids| => AnchorLeaf(op, ids[i]))
  }

  function Rows(spent: seq<SpentOutpoint>, ids: seq<Digest>): seq<Bytes> {
    if spent == [] then [] else Row(spent[0], ids) + Rows(spent[1..], ids)
  }

  function LeavesOf(spent: seq<SpentOutpoint>, payload: Bytes): seq<Bytes> {
    Rows(spent, Slots(Scanned(payload)))
  }

  method LeavesForTx(spent: seq<SpentOutpoint>, payload: Bytes) returns (out: seq<Bytes>)
    ensures out == LeavesOf(spent, payload)
  {
    hide AnchorLeaf, Row, Rows, Slots;
    if |payload| < 32 || spent == [] {
      NoSlots(spent, payload);
      return [];
    }
    var scanned := Scanned(payload);
    ghost var ids := Slots(scanned);
    out := [];
    assert spent[0..] == spent;
    assert [] + Rows(spent, ids) == Rows(spent, ids);
    for n := 0 to |spent|
      invariant out + Rows(spent[n..], ids) == LeavesOf(spent, payload)
    {
      ghost var before := out;
      NextRow(spent, ids, n, before);
      for i := 0 to |scanned| / 32
        invariant out == before + Row(spent[n], ids)[..i]
      {
        var id: Digest := scanned[32 * i..32 * i + 32];
        RowEntry(spent[n], scanned, i);
        out := out + [AnchorLeaf(spent[n], id)];
      }
      assert Row(spent[n], ids)[..|scanned| / 32] == Row(spent[n], ids);
    }
    NoRows(ids);
    assert spent[|spent|..] == [] && out + [] == out;
  }

  lemma NextRow(spent: seq<SpentOutpoint>, ids: seq<Digest>, n: nat, before: seq<Bytes>)
    requires n < |spent|
    ensures before + Rows(spent[n..], ids) == (before + Row(spent[n], ids)) + Rows(spent[n + 1..], ids)
  {
    hide AnchorLeaf, Row;
    assert spent[n..][1..] == spent[n + 1..];
    var row, rest := Row(spent[n], ids), Rows(spent[n + 1..], ids);
    assert before + (row + rest) == (before + row) + rest;
  }

  lemma RowEntry(op: SpentOutpoint, scanned: Bytes, i: nat)
    requires i < |scanned| / 32
    ensures var row := Row(op, Slots(scanned));
      row[..i + 1] == row[..i] + [AnchorLeaf(op, scanned[32 * i..32 * i + 32])]
  {
    hide AnchorLeaf;
  }

  lemma NoRows(ids: seq<Digest>)
    ensures Rows([], ids) == []
  {
  }

  lemma {:induction false} NoSlots(spent: seq<SpentOutpoint>, payload: Bytes)
    requires |payload| < 32 || spent == []
    ensures LeavesOf(spent, payload) == []
    decreases |spent|
  {
    if spent != [] {
      NoSlots(spent[1..], payload);
    }
  }

  lemma {:induction false} RowsContain(spent: seq<SpentOutpoint>, ids: seq<Digest>, leaf: Bytes)
    ensures leaf in Rows(spent, ids) <==>
            exists n, i :: 0 <= n < |spent| && 0 <= i < |ids| && leaf == AnchorLeaf(spent[n], ids[i])
  {
    hide AnchorLeaf;
    if spent != [] {
      RowsContain(spent[1..], ids, leaf);
      if leaf in Row(spent[0], ids) {
        var i :| 0 <= i < |ids| && Row(spent[0], ids)[i] == leaf;
        assert leaf == AnchorLeaf(spent[0], ids[i]);
      } else if leaf in Rows(spent[1..], ids) {
        var n, i :| 0 <= n < |spent| - 1 && 0 <= i < |ids| && leaf == AnchorLeaf(spent[1..][n], ids[i]);
        assert leaf == AnchorLeaf(spent[n + 1], ids[i]);
      }
      if n, i :| 0 <= n < |spent| && 0 <= i < |ids| && leaf == AnchorLeaf(spent[n], ids[i]) {
        if n == 0 {
          assert Row(spent[0], ids)[i] == leaf;
        } else {
          assert leaf == AnchorLeaf(spent[1..][n - 1], ids[i]);
        }
      }
    }
  }

  predicate IndicesFit(spent: seq<SpentOutpoint>) {
    forall n :: 0 <= n < |spent| ==> spent[n].index < TWO32
  }

  /** The accumulator indexes an outpoint and id exactly when the transaction spends the outpoint and its
      scanned payload commits the id. */
  lemma LeafMeansCommitment(spent: seq<SpentOutpoint>, payload: Bytes, op: SpentOutpoint, id: Digest)
    requires IndicesFit(spent) && op.index < TWO32
    ensures AnchorLeaf(op, id) in LeavesOf(spent, payload) <==> op in spent && PayloadCommits(Scanned(payload), id)
  {
    hide AnchorLeaf;
    var ids := Slots(Scanned(payload));
    RowsContain(spent, ids, AnchorLeaf(op, id));
    if AnchorLeaf(op, id) in LeavesOf(spent, payload) {
      var n, i :| 0 <= n < |spent| && 0 <= i < |ids| && AnchorLeaf(op, id) == AnchorLeaf(spent[n], ids[i]);
      AnchorLeafInjective(op, id, spent[n], ids[i]);
      assert Scanned(payload)[32 * i..32 * i + 32] == id;
    }
    if op in spent && PayloadCommits(Scanned(payload), id) {
      var n :| 0 <= n < |spent| && spent[n] == op;
      var i :| 0 <= i < |Scanned(payload)| / 32 && Scanned(payload)[32 * i..32 * i + 32] == id;
      assert AnchorLeaf(op, id) == AnchorLeaf(spent[n], ids[i]);
    }
  }

  lemma SlotKept(payload: Bytes, i: nat)
    requires i < |payload| / 32 && i < MAX_PAYLOAD_SCANNED / 32
    ensures i < |Scanned(payload)| / 32 && Scanned(payload)[32 * i..32 * i + 32] == payload[32 * i..32 * i + 32]
  {
    assert |payload| > MAX_PAYLOAD_SCANNED ==>
      payload[..MAX_PAYLOAD_SCANNED][32 * i..32 * i + 32] == payload[32 * i..32 * i + 32];
  }

  /** Against the verifier's rule: indexed implies committed at any payload size, and the two agree
      exactly unless the commitment sits past the first 4096 bytes. */
  lemma ScanAgreesWithVerifier(payload: Bytes, id: Digest)
    ensures PayloadCommits(Scanned(payload), id) ==> PayloadCommits(payload, id)
    ensures |payload| <= MAX_PAYLOAD_SCANNED ==> (PayloadCommits(Scanned(payload), id) <==> PayloadCommits(payload, id))
    ensures PayloadCommits(payload, id) ==>
      PayloadCommits(Scanned(payload), id) ||
      exists i :: MAX_PAYLOAD_SCANNED / 32 <= i < |payload| / 32 && payload[32 * i..32 * i + 32] == id
  {
    var short := Scanned(payload);
    if PayloadCommits(short, id) {
      var i :| 0 <= i < |short| / 32 && short[32 * i..32 * i + 32] == id;
      SlotKept(payload, i);
      assert payload[32 * i..32 * i + 32] == id;
    }
    if PayloadCommits(payload, id) {
      var i :| 0 <= i < |payload| / 32 && payload[32 * i..32 * i + 32] == id;
      if i < MAX_PAYLOAD_SCANNED / 32 {
        SlotKept(payload, i);
        assert short[32 * i..32 * i + 32] == id;
      }
    }
  }

  /** Committed past the first 4096 bytes and nowhere before. */
  predicate OnlyPast(payload: Bytes, id: Digest) {
    && (exists i :: MAX_PAYLOAD_SCANNED / 32 <= i < |payload| / 32 && payload[32 * i..32 * i + 32] == id)
    && !exists i :: 0 <= i < |payload| / 32 && i < MAX_PAYLOAD_SCANNED / 32 && payload[32 * i..32 * i + 32] == id
  }

  /** For each id, the scan's rule and the verifier's agree exactly unless it is committed only there. */
  lemma RulesAgreeExactlyWhen(payload: Bytes, id: Digest)
    ensures (PayloadCommits(Scanned(payload), id) <==> PayloadCommits(payload, id)) <==> !OnlyPast(payload, id)
  {
    ScanAgreesWithVerifier(payload, id);
    if i :| 0 <= i < |payload| / 32 && i < MAX_PAYLOAD_SCANNED / 32 && payload[32 * i..32 * i + 32] == id {
      SlotKept(payload, i);
      assert Scanned(payload)[32 * i..32 * i + 32] == id;
    }
    if PayloadCommits(Scanned(payload), id) {
      var i :| 0 <= i < |Scanned(payload)| / 32 && Scanned(payload)[32 * i..32 * i + 32] == id;
      SlotKept(payload, i);
      assert payload[32 * i..32 * i + 32] == id;
    }
    if OnlyPast(payload, id) {
      var i :| MAX_PAYLOAD_SCANNED / 32 <= i < |payload| / 32 && payload[32 * i..32 * i + 32] == id;
    }
  }

  // ----- signature scripts --------------------------------------------------

  function ParseItems(script: Bytes): Option<seq<Item>>
    decreases |script|
  {
    if script == [] then Some([])
    else match ReadItem(script)
      case None => None
      case Some((item, n)) =>
        match ParseItems(script[n..])
        case None => None
        case Some(items) => Some([item] + items)
  }

  function Behind(items: seq<Item>, rest: Option<seq<Item>>): Option<seq<Item>> {
    match rest case None => None case Some(more) => Some(items + more)
  }

  lemma BehindTwice(a: seq<Item>, item: Item, rest: Option<seq<Item>>)
    ensures Behind(a, Behind([item], rest)) == Behind(a + [item], rest)
    ensures Behind([], rest) == rest
  {
    if rest.Some? {
      assert a + ([item] + rest.value) == (a + [item]) + rest.value;
      assert [] + rest.value == rest.value;
    }
  }

  /** The index-advancing walk; anything that is not a push ends it. */
  method ParsePushes(script: Bytes) returns (out: Option<seq<Item>>)
    ensures out == ParseItems(script)
  {
    hide ReadItem;
    var items: seq<Item> := [];
    var i := 0;
    assert script[0..] == script;
    BehindTwice([], Small(0), ParseItems(script));
    while i < |script|
      invariant 0 <= i <= |script|
      invariant ParseItems(script) == Behind(items, ParseItems(script[i..]))
    {
      match ReadItem(script[i..])
      case None => return None;
      case Some((item, n)) =>
        assert script[i..][n..] == script[i + n..];
        BehindTwice(items, item, ParseItems(script[i + n..]));
        items := items + [item];
        i := i + n;
    }
    assert items + [] == items;
    out := Some(items);
  }

  /** A signature script as the client writes one: each datum pushed the shortest way. */
  function EncodePushes(data: seq<Bytes>): Bytes {
    if data == [] then [] else EncodePush(data[0]) + EncodePushes(data[1..])
  }

  predicate Pushable(data: seq<Bytes>) {
    forall i :: 0 <= i < |data| ==> |data[i]| < TWO32
  }

  function ItemsFor(data: seq<Bytes>): (items: seq<Item>)
    ensures |items| == |data|
  {
    seq(|data|, i requires 0 <= i < |data| => ItemFor(data[i]))
  }

  /** Parsing undoes pushing, for every list of data. */
  lemma {:induction false} ParseUndoesPush(data: seq<Bytes>)
    requires Pushable(data)
    ensures ParseItems(EncodePushes(data)) == Some(ItemsFor(data))
  {
    hide ReadItem, EncodePush, ItemFor;
    if data != [] {
      var rest := EncodePushes(data[1..]);
      ReadPush(data[0], rest);
      assert EncodePushes(data)[|EncodePush(data[0])|..] == rest;
      ParseUndoesPush(data[1..]);
      assert ItemsFor(data) == [ItemFor(data[0])] + ItemsFor(data[1..]);
    }
  }

  /** A push whose bytes are all there: nothing, a small number, or data behind its length. */
  predicate StartsWithPush(script: Bytes) {
    && script != []
    && var op := script[0];
       || op == 0 || op == 0x4f || 0x51 <= op <= 0x60
       || (1 <= op <= 75 && 1 + op <= |script|)
       || (op == 0x4c && Holds(script, 1)) || (op == 0x4d && Holds(script, 2))
       || (op == 0x4e && Holds(script, 4))
  }

  /** A length of that width, and that much data after it. */
  predicate Holds(script: Bytes, width: nat) {
    1 + width <= |script| && 1 + width + LeValue(script[1..1 + width]) <= |script|
  }

  /** A script is read exactly when it is pushes to its end; any other instruction, or a push cut short, makes it
      unreadable. */
  lemma ReadExactlyWhen(script: Bytes)
    ensures script == [] ==> ParseItems(script) == Some([])
    ensures script != [] ==> (ReadItem(script).Some? <==> StartsWithPush(script))
    ensures script != [] ==>
      (ParseItems(script).Some? <==> StartsWithPush(script) && ParseItems(script[ReadItem(script).value.1..]).Some?)
  {
    hide LeValue;
  }

  /** A number is read little-endian from up to eight bytes, and from no more. */
  lemma NumberRead(n: nat, width: nat)
    requires width <= 8 && n < Pow256(width) && n < TWO63
    ensures ItemNumber(Data(LeBytes(n, width))) == Some(n)
    ensures forall d: Bytes :: |d| > 8 ==> ItemNumber(Data(d)) == None
  {
    LeRoundTrip(n, width);
  }

  function ItemNumber(item: Item): Option<int> {
    match item
    case Small(v) => Some(v)
    case Data(d) => if |d| <= 8 then Some(AsI64(LeValue(d))) else None
  }

  /** The selector sits just below the redeem script. */
  function BranchSelector(script: Bytes): Option<int> {
    match ParseItems(script)
    case None => None
    case Some(items) => if |items| < 2 then None else ItemNumber(items[|items| - 2])
  }

  /** The pseudonym a slash defaults, if the spend is one. */
  function DefaultFromSpend(prims: Primitives, escrowPayload: Bytes, script: Bytes, slash: int): Option<Digest> {
    match BranchSelector(script)
    case None => None
    case Some(k) =>
      if k != slash then None
      else match DecodeState(prims, escrowPayload)
        case Err(_) => None
        case Ok(state) => if state.phase == Open then None else state.makerRep
  }

  /** Payloads without the magic never decode, so dropping them loses no default. */
  lemma NoMagicNoDefault(prims: Primitives, payload: Bytes, script: Bytes, slash: int)
    requires |payload| < 4 || payload[..4] != MAGIC
    ensures DefaultFromSpend(prims, payload, script, slash) == None
  {
  }
}
