/** The part of the transaction-script machine the escrow covenant is written for.
    A script is a byte string; it is parsed into pushes and opcodes and run on a stack. */
module ScriptVm {
  import opened ByteStrings
  import opened ScriptNumbers

  // ----- opcodes ------------------------------------------------------------

  const OP_PUSHDATA1: byte := 0x4c
  const OP_PUSHDATA2: byte := 0x4d
  const OP_PUSHDATA4: byte := 0x4e
  const OP_1NEGATE: byte := 0x4f
  const OP_1: byte := 0x51
  const OP_16: byte := 0x60
  const OP_IF: byte := 0x63
  const OP_ELSE: byte := 0x67
  const OP_ENDIF: byte := 0x68
  const OP_VERIFY: byte := 0x69
  const OP_DROP: byte := 0x75
  const OP_DUP: byte := 0x76
  const OP_ROT: byte := 0x7b
  const OP_SWAP: byte := 0x7c
  const OP_CAT: byte := 0x7e
  const OP_SUBSTR: byte := 0x7f
  const OP_EQUAL: byte := 0x87
  const OP_EQUAL_VERIFY: byte := 0x88
  const OP_NOT: byte := 0x91
  const OP_ADD: byte := 0x93
  const OP_NUM_EQUAL: byte := 0x9c
  const OP_NUM_EQUAL_VERIFY: byte := 0x9d
  const OP_BLAKE2B_WITH_KEY: byte := 0xa7
  const OP_BLAKE2B: byte := 0xaa
  const OP_CHECK_SIG: byte := 0xac
  const OP_CHECK_SIG_VERIFY: byte := 0xad
  const OP_CHECK_LOCK_TIME_VERIFY: byte := 0xb0
  const OP_CHECK_SEQUENCE_VERIFY: byte := 0xb1
  const OP_TX_LOCK_TIME: byte := 0xb5
  const OP_TX_PAYLOAD_SUBSTR: byte := 0xb8
  const OP_TX_INPUT_INDEX: byte := 0xb9
  const OP_OUTPOINT_TX_ID: byte := 0xba
  const OP_TX_INPUT_AMOUNT: byte := 0xbe
  const OP_TX_INPUT_SPK: byte := 0xbf
  const OP_TX_OUTPUT_AMOUNT: byte := 0xc2
  const OP_TX_OUTPUT_SPK: byte := 0xc3
  const OP_TX_PAYLOAD_LEN: byte := 0xc4
  const OP_NUM2BIN: byte := 0xcd
  const OP_DATA32: byte := 0x20

  datatype Op = Push(data: Bytes) | Code(code: byte)

  predicate Conditional(op: Op) {
    op == Code(OP_IF) || op == Code(OP_ELSE) || op == Code(OP_ENDIF)
  }

  // ----- what a running script can see --------------------------------------

  /** Version big-endian then script, as the introspection opcodes push it. */
  type Spk = Bytes

  datatype Output = Output(amount: nat, spk: Spk)

  /** An input together with the output it spends. */
  datatype InputView = InputView(txid: Digest, spent: Output, sequence: nat)

  /** The spending transaction with the two primitives scripts use.
      `sigOk(sig, key)` is a signature check over this very transaction and input. */
  datatype Spend = Spend(
    inputs: seq<InputView>,
    index: nat,
    outputs: seq<Output>,
    payload: Bytes,
    lockTime: nat,
    sigOk: (Bytes, Bytes) -> bool,
    blake2b: (Bytes, Bytes) -> Digest)

  /** The index names an input, and sizes are what memory can hold. */
  predicate InContext(tx: Spend) {
    tx.index < |tx.inputs| < TWO32 && |tx.payload| < TWO32
  }

  // ----- the stack ----------------------------------------------------------

  datatype Stack = Bottom | On(top: Bytes, below: Stack)

  function StackOf(items: seq<Bytes>): Stack {
    if items == [] then Bottom else On(items[|items| - 1], StackOf(items[..|items| - 1]))
  }

  function Truth(b: bool): Bytes {
    if b then [1] else []
  }

  /** Any non-zero byte makes an item true, except the sign bit of a negative zero. */
  predicate IsTrue(item: Bytes) {
    exists i :: 0 <= i < |item| && item[i] != 0 && (i == |item| - 1 ==> item[i] != 128)
  }

  function PushNum(n: int, s: Stack): Option<Stack> {
    if -TWO63 < n < TWO63 then Some(On(EncodeNum(n), s)) else None
  }

  /** A stack item used as a position. */
  function Index(item: Bytes): Option<nat> {
    match DecodeNum(item)
    case Some(n) => if n >= 0 then Some(n as nat) else None
    case None => None
  }

  function Slice(data: Bytes, start: Bytes, end: Bytes): Option<Bytes> {
    match (Index(start), Index(end))
    case (Some(i), Some(j)) => if i <= j <= |data| then Some(data[i..j]) else None
    case _ => None
  }

  function Num2Bin(item: Bytes, size: Bytes): Option<Bytes> {
    match (DecodeNum(item), Index(size))
    case (Some(n), Some(w)) =>
      if 0 <= n < TWO63 && w == 8 then Some(LeBytes(n, 8))
      else None
    case _ => None
  }

  const LOCK_TIME_THRESHOLD: nat := 500_000_000_000
  const SEQUENCE_FINAL: nat := 0xffff_ffff_ffff_ffff

  /** The time a lock-time argument asks for: its bytes read as an unsigned number. */
  predicate LockTimeMet(item: Bytes, lockTime: nat, sequence: nat) {
    && |item| <= 8
    && (LeValue(item) < LOCK_TIME_THRESHOLD <==> lockTime < LOCK_TIME_THRESHOLD)
    && LeValue(item) <= lockTime
    && sequence != SEQUENCE_FINAL
  }

  /** Relative lock: the top bit disables it, the low thirty-two bits carry the distance. */
  predicate SequenceMet(item: Bytes, sequence: nat) {
    && |item| <= 8
    && (LeValue(item) < TWO63 ==> sequence < TWO63 && LeValue(item) % TWO32 <= sequence % TWO32)
  }

  function Guard(ok: bool, s: Stack): Option<Stack> {
    if ok then Some(s) else None
  }

  // ----- single steps -------------------------------------------------------

  /** One unconditional instruction; `None` is script failure. */
  function Step(tx: Spend, op: Op, s: Stack): Option<Stack>
    requires InContext(tx)
  {
    match op
    case Push(d) => Some(On(d, s))
    case Code(c) =>
      if c == OP_TX_INPUT_INDEX then PushNum(tx.index, s)
      else if c == OP_TX_PAYLOAD_LEN then PushNum(|tx.payload|, s)
      else if c == OP_TX_LOCK_TIME then PushNum(tx.lockTime, s)
      else match s
        case Bottom => None
        case On(a, r) =>
          if IsUnary(c) then StepUnary(tx, c, a, r)
          else match r
            case Bottom => None
            case On(b, q) =>
              if IsBinary(c) then StepBinary(tx, c, a, b, q)
              else match q
                case Bottom => None
                case On(d, t) =>
                  if c == OP_ROT then Some(On(d, On(a, On(b, t))))
                  else if c == OP_SUBSTR then
                    match Slice(d, b, a) { case Some(x) => Some(On(x, t)) case None => None }
                  else None
  }

  predicate IsUnary(c: byte) {
    c in {OP_DUP, OP_DROP, OP_VERIFY, OP_NOT, OP_OUTPOINT_TX_ID, OP_TX_INPUT_SPK, OP_TX_INPUT_AMOUNT,
          OP_TX_OUTPUT_SPK, OP_TX_OUTPUT_AMOUNT, OP_CHECK_LOCK_TIME_VERIFY, OP_CHECK_SEQUENCE_VERIFY}
  }

  /** Instructions that read only the top item `a`. */
  function StepUnary(tx: Spend, c: byte, a: Bytes, r: Stack): Option<Stack>
    requires InContext(tx) && IsUnary(c)
  {
    if c == OP_DUP then Some(On(a, On(a, r)))
    else if c == OP_DROP then Some(r)
    else if c == OP_VERIFY then Guard(IsTrue(a), r)
    else if c == OP_NOT then
      match DecodeNum(a) { case Some(n) => Some(On(Truth(n == 0), r)) case None => None }
    else if c == OP_CHECK_LOCK_TIME_VERIFY then
      Guard(LockTimeMet(a, tx.lockTime, tx.inputs[tx.index].sequence), r)
    else if c == OP_CHECK_SEQUENCE_VERIFY then
      Guard(SequenceMet(a, tx.inputs[tx.index].sequence), r)
    else
      match Index(a)
      case None => None
      case Some(i) =>
        if c == OP_TX_OUTPUT_SPK then if i < |tx.outputs| then Some(On(tx.outputs[i].spk, r)) else None
        else if c == OP_TX_OUTPUT_AMOUNT then if i < |tx.outputs| then PushNum(tx.outputs[i].amount, r) else None
        else if i >= |tx.inputs| then None
        else if c == OP_OUTPOINT_TX_ID then Some(On(tx.inputs[i].txid, r))
        else if c == OP_TX_INPUT_SPK then Some(On(tx.inputs[i].spent.spk, r))
        else PushNum(tx.inputs[i].spent.amount, r)
  }

  predicate IsBinary(c: byte) {
    c in {OP_SWAP, OP_CAT, OP_EQUAL, OP_EQUAL_VERIFY, OP_NUM_EQUAL, OP_NUM_EQUAL_VERIFY, OP_ADD, OP_NUM2BIN,
          OP_TX_PAYLOAD_SUBSTR, OP_CHECK_SIG_VERIFY, OP_BLAKE2B_WITH_KEY}
  }

  /** Instructions that read the top item `a` and the one below it, `b`. */
  function StepBinary(tx: Spend, c: byte, a: Bytes, b: Bytes, q: Stack): Option<Stack>
    requires IsBinary(c)
  {
    if c == OP_SWAP then Some(On(b, On(a, q)))
    else if c == OP_CAT then Some(On(b + a, q))
    else if c == OP_EQUAL then Some(On(Truth(a == b), q))
    else if c == OP_EQUAL_VERIFY then Guard(a == b, q)
    else if c == OP_CHECK_SIG_VERIFY then Guard(tx.sigOk(b, a), q)
    else if c == OP_BLAKE2B_WITH_KEY then Some(On(tx.blake2b(b, a), q))
    else if c == OP_TX_PAYLOAD_SUBSTR then
      match Slice(tx.payload, b, a) { case Some(x) => Some(On(x, q)) case None => None }
    else if c == OP_NUM2BIN then
      match Num2Bin(b, a) { case Some(x) => Some(On(x, q)) case None => None }
    else
      match (DecodeNum(b), DecodeNum(a))
      case (Some(m), Some(n)) =>
        if c == OP_NUM_EQUAL then Some(On(Truth(m == n), q))
        else if c == OP_NUM_EQUAL_VERIFY then Guard(m == n, q)
        else PushNum(m + n, q)
      case _ => None
  }

  // ----- straight-line code -------------------------------------------------

  function RunFrom(tx: Spend, ops: seq<Op>, at: nat, s: Stack): Option<Stack>
    requires InContext(tx) && at <= |ops|
    decreases |ops| - at
  {
    if at == |ops| then Some(s)
    else match Step(tx, ops[at], s)
      case None => None
      case Some(t) => RunFrom(tx, ops, at + 1, t)
  }

  function Run(tx: Spend, ops: seq<Op>, s: Stack): Option<Stack>
    requires InContext(tx)
  {
    RunFrom(tx, ops, 0, s)
  }

  function Chain(tx: Spend, first: Option<Stack>, ops: seq<Op>): Option<Stack>
    requires InContext(tx)
  {
    match first case None => None case Some(t) => Run(tx, ops, t)
  }

  lemma {:induction false} RunFromTail(tx: Spend, a: seq<Op>, b: seq<Op>, at: nat, s: Stack)
    requires InContext(tx) && at <= |b|
    ensures RunFrom(tx, a + b, |a| + at, s) == RunFrom(tx, b, at, s)
    decreases |b| - at
  {
    if at < |b| {
      assert (a + b)[|a| + at] == b[at];
      match Step(tx, b[at], s)
      case None =>
      case Some(t) => RunFromTail(tx, a, b, at + 1, t);
    }
  }

  lemma {:induction false} RunFromCat(tx: Spend, a: seq<Op>, b: seq<Op>, at: nat, s: Stack)
    requires InContext(tx) && at <= |a|
    ensures RunFrom(tx, a + b, at, s) == Chain(tx, RunFrom(tx, a, at, s), b)
    decreases |a| - at
  {
    if at == |a| {
      RunFromTail(tx, a, b, 0, s);
    } else {
      assert (a + b)[at] == a[at];
      match Step(tx, a[at], s)
      case None =>
      case Some(t) => RunFromCat(tx, a, b, at + 1, t);
    }
  }

  lemma RunLast(tx: Spend, ops: seq<Op>, at: nat, s: Stack)
    requires InContext(tx) && at + 1 == |ops|
    ensures RunFrom(tx, ops, at, s) == Step(tx, ops[at], s)
  {
    hide Step;
    match Step(tx, ops[at], s)
    case None =>
    case Some(t) => assert RunFrom(tx, ops, at + 1, t) == Some(t);
  }

  /** Code runs piece by piece. */
  lemma RunCat(tx: Spend, a: seq<Op>, b: seq<Op>, s: Stack)
    requires InContext(tx)
    ensures Run(tx, a + b, s) == Chain(tx, Run(tx, a, s), b)
  {
    RunFromCat(tx, a, b, 0, s);
  }

  /** What the machine demands at the end: one item left, and it is true. */
  predicate Accepting(r: Option<Stack>) {
    r.Some? && r.value.On? && r.value.below == Bottom && IsTrue(r.value.top)
  }
}
