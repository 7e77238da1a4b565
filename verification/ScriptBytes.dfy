/** Scripts as bytes: the canonical push encoding, and reading it back. */
module ScriptBytes {
  import opened ByteStrings
  import opened ScriptNumbers
  import opened ScriptVm

  /** A push as it is written: small numbers are opcodes of their own, everything else is data. */
  datatype Item = Small(n: int) | Data(data: Bytes)

  /** What a push leaves on the stack. */
  function ItemBytes(item: Item): Bytes {
    match item
    case Small(n) => if n == 0 then [] else if n == -1 then [0x81] else if 0 < n < 256 then [n] else []
    case Data(d) => d
  }

  function ItemFor(d: Bytes): (item: Item)
    ensures ItemBytes(item) == d
  {
    if d == [] then Small(0)
    else if |d| == 1 && 1 <= d[0] <= 16 then Small(d[0])
    else if d == [0x81] then Small(-1)
    else Data(d)
  }

  /** The shortest push of `d`. */
  function EncodePush(d: Bytes): (b: Bytes)
    ensures b != []
  {
    if d == [] then [0]
    else if |d| == 1 && 1 <= d[0] <= 16 then [OP_1 - 1 + d[0]]
    else if d == [0x81] then [OP_1NEGATE]
    else if |d| <= 75 then [|d|] + d
    else if |d| <= 255 then [OP_PUSHDATA1, |d|] + d
    else if |d| <= 65535 then [OP_PUSHDATA2] + LeBytes(|d|, 2) + d
    else [OP_PUSHDATA4] + LeBytes(|d|, 4) + d
  }

  /** A length field of `width` bytes followed by that much data. */
  function Sized(script: Bytes, width: nat): Option<(Item, nat)>
    requires script != []
  {
    if 1 + width > |script| then None
    else
      var n := LeValue(script[1..1 + width]);
      if 1 + width + n > |script| then None
      else Some((Data(script[1 + width..1 + width + n]), 1 + width + n))
  }

  /** The push at the front of a script and how many bytes it took. */
  function ReadItem(script: Bytes): (r: Option<(Item, nat)>)
    requires script != []
    ensures r.Some? ==> 0 < r.value.1 <= |script|
  {
    var op := script[0];
    if op == 0 then Some((Small(0), 1))
    else if op == OP_1NEGATE then Some((Small(-1), 1))
    else if OP_1 <= op <= OP_16 then Some((Small(op - OP_1 + 1), 1))
    else if op <= 75 then
      if 1 + op > |script| then None else Some((Data(script[1..1 + op]), 1 + op))
    else if op == OP_PUSHDATA1 then Sized(script, 1)
    else if op == OP_PUSHDATA2 then Sized(script, 2)
    else if op == OP_PUSHDATA4 then Sized(script, 4)
    else None
  }

  lemma SizedReads(script: Bytes, d: Bytes, width: nat)
    requires |d| < Pow256(width)
    requires |script| >= 1 + width + |d|
    requires script[1..1 + width] == LeBytes(|d|, width)
    requires script[1 + width..1 + width + |d|] == d
    ensures Sized(script, width) == Some((Data(d), 1 + width + |d|))
  {
    hide LeBytes, LeValue, Pow256;
    LeRoundTrip(|d|, width);
  }

  lemma OneLeByte(n: nat)
    requires n < 256
    ensures LeBytes(n, 1) == [n]
  {
    assert LeBytes(n / 256, 0) == [];
  }

  /** A push is read back as written, whatever follows it. */
  lemma ReadPush(d: Bytes, rest: Bytes)
    requires |d| < TWO32
    ensures ReadItem(EncodePush(d) + rest) == Some((ItemFor(d), |EncodePush(d)|))
  {
    hide LeBytes, LeValue, Pow256;
    var script := EncodePush(d) + rest;
    Pow256Values();
    if d == [] || (|d| == 1 && 1 <= d[0] <= 16) || d == [0x81] {
    } else if |d| <= 75 {
      assert script[1..1 + |d|] == d;
    } else if |d| <= 255 {
      OneLeByte(|d|);
      SizedReads(script, d, 1);
    } else if |d| <= 65535 {
      SizedReads(script, d, 2);
    } else {
      SizedReads(script, d, 4);
    }
  }

  // ----- whole scripts ------------------------------------------------------

  function EncodeOp(op: Op): (b: Bytes)
    ensures b != []
  {
    match op
    case Push(d) => EncodePush(d)
    case Code(c) => [c]
  }

  function EncodeOps(ops: seq<Op>): Bytes {
    if ops == [] then [] else EncodeOp(ops[0]) + EncodeOps(ops[1..])
  }

  lemma {:induction false} EncodeCat(a: seq<Op>, b: seq<Op>)
    ensures EncodeOps(a + b) == EncodeOps(a) + EncodeOps(b)
  {
    hide EncodeOp;
    if a == [] {
      assert a + b == b;
    } else {
      EncodeCat(a[1..], b);
      assert (a + b)[1..] == a[1..] + b;
    }
  }

  lemma EncodeSnoc(a: seq<Op>, op: Op)
    ensures EncodeOps(a + [op]) == EncodeOps(a) + EncodeOp(op)
  {
    EncodeCat(a, [op]);
    assert EncodeOps([op]) == EncodeOp(op) + EncodeOps([op][1..]);
  }

  /** What the code generators emit: data that fits a push and opcodes above the push range. */
  predicate WellFormed(op: Op) {
    match op
    case Push(d) => |d| < TWO32
    case Code(c) => c > OP_16
  }

  predicate AllWellFormed(ops: seq<Op>) {
    forall i :: 0 <= i < |ops| ==> WellFormed(ops[i])
  }

  /** The instruction at the front; a push must be the shortest one for its data. */
  function ReadOp(script: Bytes): (r: Option<(Op, nat)>)
    requires script != []
    ensures r.Some? ==> 0 < r.value.1 <= |script|
  {
    if script[0] > OP_16 then Some((Code(script[0]), 1))
    else match ReadItem(script)
      case None => None
      case Some((item, n)) =>
        if EncodePush(ItemBytes(item)) == script[..n] then Some((Push(ItemBytes(item)), n)) else None
  }

  function Parse(script: Bytes): Option<seq<Op>>
    decreases |script|
  {
    if script == [] then Some([])
    else match ReadOp(script)
      case None => None
      case Some((op, n)) =>
        match Parse(script[n..])
        case None => None
        case Some(ops) => Some([op] + ops)
  }

  lemma ReadEncoded(op: Op, rest: Bytes)
    requires WellFormed(op)
    ensures ReadOp(EncodeOp(op) + rest) == Some((op, |EncodeOp(op)|))
  {
    var script := EncodeOp(op) + rest;
    match op
    case Code(c) =>
    case Push(d) =>
      ReadPush(d, rest);
      assert script[..|EncodePush(d)|] == EncodePush(d);
  }

  /** Parsing undoes encoding, and what follows is parsed on its own: a byte inside push data
      is never read as an instruction. */
  lemma {:induction false} ParseEncoded(ops: seq<Op>, rest: Bytes)
    requires AllWellFormed(ops)
    ensures Parse(EncodeOps(ops) + rest) ==
            match Parse(rest) case None => None case Some(more) => Some(ops + more)
  {
    hide EncodeOp, ReadOp, WellFormed;
    if ops == [] {
      assert EncodeOps(ops) + rest == rest;
      assert Parse(rest).Some? ==> ops + Parse(rest).value == Parse(rest).value;
    } else {
      var tail := EncodeOps(ops[1..]) + rest;
      var script := EncodeOps(ops) + rest;
      assert script == EncodeOp(ops[0]) + tail;
      ReadEncoded(ops[0], tail);
      assert script[|EncodeOp(ops[0])|..] == tail;
      ParseEncoded(ops[1..], rest);
      if Parse(rest).Some? {
        assert [ops[0]] + (ops[1..] + Parse(rest).value) == ops + Parse(rest).value;
      }
    }
  }

  lemma ParseExactly(ops: seq<Op>)
    requires AllWellFormed(ops)
    ensures Parse(EncodeOps(ops)) == Some(ops)
  {
    ParseEncoded(ops, []);
    assert EncodeOps(ops) + [] == EncodeOps(ops);
    assert ops + [] == ops;
  }

  // ----- the builder --------------------------------------------------------

  /** Appends to one growing buffer; `ops` records the calls that were made. */
  class ScriptBuilder {
    var bytes: Bytes
    ghost var ops: seq<Op>

    ghost predicate Valid()
      reads this
    {
      bytes == EncodeOps(ops)
    }

    constructor ()
      ensures Valid() && bytes == [] && ops == []
    {
      bytes := [];
      ops := [];
    }

    method AddOp(code: byte)
      requires Valid()
      modifies this
      ensures Valid() && bytes == old(bytes) + [code] && ops == old(ops) + [Code(code)]
    {
      EncodeSnoc(ops, Code(code));
      bytes := bytes + [code];
      ops := ops + [Code(code)];
    }

    method AddData(data: Bytes)
      requires Valid()
      modifies this
      ensures Valid() && bytes == old(bytes) + EncodePush(data) && ops == old(ops) + [Push(data)]
    {
      EncodeSnoc(ops, Push(data));
      bytes := bytes + EncodePush(data);
      ops := ops + [Push(data)];
    }

    method AddI64(n: int)
      requires Valid()
      modifies this
      ensures Valid() && bytes == old(bytes) + EncodePush(EncodeNum(n)) && ops == old(ops) + [Push(EncodeNum(n))]
    {
      AddData(EncodeNum(n));
    }
  }
}
