/** All branches under one script: a nested IF/ELSE chain keyed by a selector. */
module Dispatcher {
  import opened ByteStrings
  import opened Primitives
  import opened ScriptNumbers
  import opened ScriptVm
  import opened ScriptBytes
  import opened EscrowState
  import opened Covenant
  import opened CovenantPieces

  // ----- running code with conditionals -------------------------------------

  /** `Skipped` is an IF met while not executing. */
  datatype Cond = Taken | NotTaken | Skipped

  datatype Conds = NoCond | In(cond: Cond, outer: Conds)

  datatype Machine = Machine(stack: Stack, conds: Conds)

  predicate Executing(conds: Conds) {
    conds == NoCond || conds.cond == Taken
  }

  function Flip(c: Cond): Cond {
    match c case Taken => NotTaken case NotTaken => Taken case Skipped => Skipped
  }

  function ExecStep(tx: Spend, op: Op, m: Machine): Option<Machine>
    requires InContext(tx)
  {
    if op == Code(OP_IF) then
      if !Executing(m.conds) then Some(m.(conds := In(Skipped, m.conds)))
      else match m.stack
        case Bottom => None
        case On(a, r) =>
          if a == [1] then Some(Machine(r, In(Taken, m.conds)))
          else if a == [] then Some(Machine(r, In(NotTaken, m.conds)))
          else None
    else if op == Code(OP_ELSE) then
      if m.conds == NoCond then None else Some(m.(conds := In(Flip(m.conds.cond), m.conds.outer)))
    else if op == Code(OP_ENDIF) then
      if m.conds == NoCond then None else Some(m.(conds := m.conds.outer))
    else if !Executing(m.conds) then Some(m)
    else match Step(tx, op, m.stack)
      case None => None
      case Some(t) => Some(m.(stack := t))
  }

  function Exec(tx: Spend, ops: seq<Op>, m: Machine): Option<Machine>
    requires InContext(tx)
  {
    if ops == [] then Some(m)
    else match ExecStep(tx, ops[0], m)
      case None => None
      case Some(n) => Exec(tx, ops[1..], n)
  }

  function ExecChain(tx: Spend, r: Option<Machine>, ops: seq<Op>): Option<Machine>
    requires InContext(tx)
  {
    match r case None => None case Some(m) => Exec(tx, ops, m)
  }

  lemma {:induction false} ExecCat(tx: Spend, a: seq<Op>, b: seq<Op>, m: Machine)
    requires InContext(tx)
    ensures Exec(tx, a + b, m) == ExecChain(tx, Exec(tx, a, m), b)
  {
    hide ExecStep;
    if a == [] {
      assert a + b == b;
    } else {
      assert (a + b)[1..] == a[1..] + b;
      match ExecStep(tx, a[0], m)
      case None =>
      case Some(n) => ExecCat(tx, a[1..], b, n);
    }
  }

  lemma ExecSingle(tx: Spend, op: Op, m: Machine)
    requires InContext(tx)
    ensures Exec(tx, [op], m) == ExecStep(tx, op, m)
  {
    hide ExecStep;
    match ExecStep(tx, op, m)
    case None =>
    case Some(n) => assert Exec(tx, [op][1..], n) == Some(n);
  }

  predicate Straight(ops: seq<Op>) {
    forall i :: 0 <= i < |ops| ==> !Conditional(ops[i])
  }

  function OnStack(r: Option<Stack>, conds: Conds): Option<Machine> {
    match r case None => None case Some(t) => Some(Machine(t, conds))
  }

  /** Straight-line code runs as before inside a taken branch. */
  lemma {:induction false} ExecStraight(tx: Spend, ops: seq<Op>, m: Machine)
    requires InContext(tx) && Straight(ops) && Executing(m.conds)
    ensures Exec(tx, ops, m) == OnStack(Run(tx, ops, m.stack), m.conds)
  {
    hide Step;
    if ops != [] {
      assert !Conditional(ops[0]);
      assert ops == [ops[0]] + ops[1..];
      RunCat(tx, [ops[0]], ops[1..], m.stack);
      SingleRuns(tx, ops[0], m.stack);
      match Step(tx, ops[0], m.stack)
      case None =>
      case Some(t) => ExecStraight(tx, ops[1..], m.(stack := t));
    }
  }

  /** ... and does nothing at all inside one that is not. */
  lemma {:induction false} SkipStraight(tx: Spend, ops: seq<Op>, m: Machine)
    requires InContext(tx) && Straight(ops) && !Executing(m.conds)
    ensures Exec(tx, ops, m) == Some(m)
  {
    if ops != [] {
      assert !Conditional(ops[0]);
      SkipStraight(tx, ops[1..], m);
    }
  }

  // ----- the chain of arms --------------------------------------------------

  datatype Arm = Arm(selector: nat, code: seq<Op>)

  function Test(selector: nat): seq<Op> {
    [Code(OP_DUP), Num(selector), Code(OP_NUM_EQUAL)]
  }

  function Head(selector: nat): seq<Op> {
    Test(selector) + [Code(OP_IF), Code(OP_DROP)]
  }

  function Nest(arms: seq<Arm>): seq<Op> {
    if arms == [] then [Push([])]
    else Head(arms[0].selector) + arms[0].code + [Code(OP_ELSE)] + Nest(arms[1..]) + [Code(OP_ENDIF)]
  }

  predicate StraightArms(arms: seq<Arm>) {
    forall i :: 0 <= i < |arms| ==> Straight(arms[i].code) && arms[i].selector < TWO63
  }

  /** The first arm with this selector. */
  function Choose(arms: seq<Arm>, k: int): (r: Option<seq<Op>>)
    ensures r.Some? ==> exists i :: 0 <= i < |arms| && arms[i].selector == k && arms[i].code == r.value
    ensures r.None? ==> forall i :: 0 <= i < |arms| ==> arms[i].selector != k
  {
    if arms == [] then None
    else if arms[0].selector == k then Some(arms[0].code)
    else Choose(arms[1..], k)
  }

  lemma {:induction false} SkipNest(tx: Spend, arms: seq<Arm>, m: Machine)
    requires InContext(tx) && StraightArms(arms) && !Executing(m.conds)
    ensures Exec(tx, Nest(arms), m) == Some(m)
  {
    if arms == [] {
      SkipStraight(tx, [Push([])], m);
    } else {
      var test, code := Test(arms[0].selector), arms[0].code;
      var inner := m.(conds := In(Skipped, m.conds));
      SkipStraight(tx, test, m);
      ExecSingle(tx, Code(OP_IF), m);
      SkipStraight(tx, [Code(OP_DROP)], inner);
      SkipStraight(tx, code, inner);
      ExecSingle(tx, Code(OP_ELSE), inner);
      SkipNest(tx, arms[1..], inner);
      ExecSingle(tx, Code(OP_ENDIF), inner);
      NestCat(tx, arms, m);
    }
  }

  /** A non-empty chain runs as its seven parts in turn. */
  lemma NestCat(tx: Spend, arms: seq<Arm>, m: Machine)
    requires InContext(tx) && arms != []
    ensures var a := Exec(tx, Test(arms[0].selector), m);
            var b := ExecChain(tx, a, [Code(OP_IF)]);
            var c := ExecChain(tx, b, [Code(OP_DROP)]);
            var d := ExecChain(tx, c, arms[0].code);
            var e := ExecChain(tx, d, [Code(OP_ELSE)]);
            var f := ExecChain(tx, e, Nest(arms[1..]));
            Exec(tx, Nest(arms), m) == ExecChain(tx, f, [Code(OP_ENDIF)])
  {
    hide Exec, ExecStep, Test;
    var test, code, rest := Test(arms[0].selector), arms[0].code, Nest(arms[1..]);
    var p2 := test + [Code(OP_IF)];
    var p3 := p2 + [Code(OP_DROP)];
    assert Head(arms[0].selector) == p3;
    var p4 := p3 + code;
    var p5 := p4 + [Code(OP_ELSE)];
    var p6 := p5 + rest;
    ExecCat(tx, test, [Code(OP_IF)], m);
    ExecCat(tx, p2, [Code(OP_DROP)], m);
    ExecCat(tx, p3, code, m);
    ExecCat(tx, p4, [Code(OP_ELSE)], m);
    ExecCat(tx, p5, rest, m);
    ExecCat(tx, p6, [Code(OP_ENDIF)], m);
  }

  function DoTest(selector: nat, s: Stack): Option<Stack> {
    match s
    case Bottom => None
    case On(sel, _) =>
      match DecodeNum(sel)
      case None => None
      case Some(k) => Some(On(Truth(k == selector), s))
  }

  lemma TestRuns(tx: Spend, selector: nat, s: Stack)
    requires InContext(tx) && selector < TWO63
    ensures Run(tx, Test(selector), s) == DoTest(selector, s)
  {
    hide EncodeNum, DecodeNum, LeValue;
    var ops := Test(selector);
    NumRoundTrip(selector);
    if s.On? {
      var two := On(EncodeNum(selector), On(s.top, s));
      assert RunFrom(tx, ops, 2, two) == RunFrom(tx, ops, 0, s);
      RunLast(tx, ops, 2, two);
    }
  }

  /** The chain behaves as the selected branch alone on the stack below the selector. */
  lemma {:induction false} DispatchRuns(tx: Spend, arms: seq<Arm>, sel: Bytes, rest: Stack, conds: Conds)
    requires InContext(tx) && StraightArms(arms) && Executing(conds)
    requires DecodeNum(sel).Some?
    ensures Exec(tx, Nest(arms), Machine(On(sel, rest), conds)) ==
            match Choose(arms, DecodeNum(sel).value)
            case Some(code) => OnStack(Run(tx, code, rest), conds)
            case None => Some(Machine(On([], On(sel, rest)), conds))
  {
    hide DecodeNum, EncodeNum, Test, Run;
    var s := On(sel, rest);
    var m := Machine(s, conds);
    if arms == [] {
      ExecSingle(tx, Push([]), m);
    } else {
      var k := DecodeNum(sel).value;
      var hit := k == arms[0].selector;
      NestCat(tx, arms, m);
      assert Straight(Test(arms[0].selector)) by { StraightTest(arms[0].selector); }
      ExecStraight(tx, Test(arms[0].selector), m);
      TestRuns(tx, arms[0].selector, s);
      ExecSingle(tx, Code(OP_IF), Machine(On(Truth(hit), s), conds));
      var inside := In(if hit then Taken else NotTaken, conds);
      ExecSingle(tx, Code(OP_DROP), Machine(s, inside));
      if hit {
        ExecStraight(tx, arms[0].code, Machine(rest, inside));
        match Run(tx, arms[0].code, rest)
        case None =>
        case Some(t) =>
          var out := In(NotTaken, conds);
          ExecSingle(tx, Code(OP_ELSE), Machine(t, inside));
          SkipNest(tx, arms[1..], Machine(t, out));
          ExecSingle(tx, Code(OP_ENDIF), Machine(t, out));
      } else {
        var taken := In(Taken, conds);
        SkipStraight(tx, arms[0].code, Machine(s, inside));
        ExecSingle(tx, Code(OP_ELSE), Machine(s, inside));
        DispatchRuns(tx, arms[1..], sel, rest, taken);
        match Exec(tx, Nest(arms[1..]), Machine(s, taken))
        case None =>
        case Some(n) => ExecSingle(tx, Code(OP_ENDIF), n);
      }
    }
  }

  lemma StraightTest(selector: nat)
    ensures Straight(Test(selector))
  {
  }

  /** A selector that is not a number, or a missing one, fails before any arm. */
  lemma DispatchNeedsNumber(tx: Spend, arms: seq<Arm>, s: Stack)
    requires InContext(tx) && StraightArms(arms) && arms != []
    requires s == Bottom || DecodeNum(s.top).None?
    ensures Exec(tx, Nest(arms), Machine(s, NoCond)) == None
  {
    hide DecodeNum, EncodeNum, Run;
    var m := Machine(s, NoCond);
    NestCat(tx, arms, m);
    ExecStraight(tx, Test(arms[0].selector), m);
    TestRuns(tx, arms[0].selector, s);
  }

  // ----- the emitted bytes --------------------------------------------------

  function HeadOf(arm: Arm): seq<Op> {
    Head(arm.selector) + arm.code + [Code(OP_ELSE)]
  }

  function Heads(arms: seq<Arm>): seq<Op> {
    if arms == [] then [] else Heads(arms[..|arms| - 1]) + HeadOf(arms[|arms| - 1])
  }

  function EndIfs(n: nat): seq<Op> {
    seq(n, _ => Code(OP_ENDIF))
  }

  /** The order the generator writes things in: every head, the failing default, every ENDIF. */
  function DispatchOps(arms: seq<Arm>): seq<Op> {
    Heads(arms) + [Push([])] + EndIfs(|arms|)
  }

  lemma {:induction false} HeadsFirst(arms: seq<Arm>)
    requires arms != []
    ensures Heads(arms) == HeadOf(arms[0]) + Heads(arms[1..])
  {
    hide HeadOf;
    var front, last := arms[..|arms| - 1], HeadOf(arms[|arms| - 1]);
    if |arms| > 1 {
      HeadsFirst(front);
      assert front[1..] == arms[1..][..|arms| - 2];
      assert Heads(arms[1..]) == Heads(front[1..]) + last;
      assert (HeadOf(arms[0]) + Heads(front[1..])) + last == HeadOf(arms[0]) + (Heads(front[1..]) + last);
    } else {
      assert Heads(arms[1..]) == [] && Heads(front) == [];
    }
  }

  /** The flat order is the nested chain. */
  lemma {:induction false} FlatIsNested(arms: seq<Arm>)
    ensures DispatchOps(arms) == Nest(arms)
  {
    hide Head;
    if arms == [] {
      assert EndIfs(0) == [];
    } else {
      HeadsFirst(arms);
      FlatIsNested(arms[1..]);
      var first := HeadOf(arms[0]);
      assert EndIfs(|arms|) == EndIfs(|arms| - 1) + [Code(OP_ENDIF)];
      assert first + Heads(arms[1..]) + [Push([])] + (EndIfs(|arms| - 1) + [Code(OP_ENDIF)])
          == first + (Heads(arms[1..]) + [Push([])] + EndIfs(|arms| - 1)) + [Code(OP_ENDIF)];
    }
  }

  function ArmsOf(t: Terms, id: Digest): seq<Arm> {
    [Arm(Selector(Claim), ClaimOps(t, id)), Arm(Selector(Ship), ShipOps(id)), Arm(Selector(Settle), SettleOps(t, id)),
     Arm(Selector(AutoRelease), AutoReleaseOps(t, id)), Arm(Selector(Slash), SlashOps(t, id)),
     Arm(Selector(Refund), RefundOps(t, id))]
    + match t.arbiter
      case None => []
      case Some(a) =>
        [Arm(Selector(Dispute), DisputeOps(t, id)), Arm(Selector(ResolveToMaker), ResolveOps(t, id, a, true)),
         Arm(Selector(ResolveToBuyer), ResolveOps(t, id, a, false))]
  }

  function CovenantBytes(prims: Primitives, t: Terms): Bytes {
    EncodeOps(DispatchOps(ArmsOf(t, TermsId(prims, t))))
  }

  datatype RawArm = RawArm(selector: nat, code: Bytes)

  ghost predicate SameArms(raw: seq<RawArm>, arms: seq<Arm>) {
    |raw| == |arms| &&
    forall i :: 0 <= i < |raw| ==> raw[i].selector == arms[i].selector && raw[i].code == EncodeOps(arms[i].code)
  }

  method EmitHead(b: ScriptBuilder, selector: nat)
    requires b.Valid()
    modifies b
    ensures b.Valid() && b.bytes == old(b.bytes) + EncodeOps(Head(selector))
  {
    hide EncodeOps, EncodePush, EncodeNum;
    ghost var before := b.ops;
    b.AddOp(OP_DUP);
    b.AddI64(selector);
    b.AddOp(OP_NUM_EQUAL);
    b.AddOp(OP_IF);
    b.AddOp(OP_DROP);
    assert b.ops == before + Head(selector);
    EncodeCat(before, Head(selector));
  }

  /** Branch code is appended byte by byte, as opcodes. */
  method EmitRaw(b: ScriptBuilder, code: Bytes)
    requires b.Valid()
    modifies b
    ensures b.Valid() && b.bytes == old(b.bytes) + code
  {
    hide EncodeOps;
    for i := 0 to |code|
      invariant b.Valid() && b.bytes == old(b.bytes) + code[..i]
    {
      b.AddOp(code[i]);
      assert code[..i + 1] == code[..i] + [code[i]];
    }
    assert code[..|code|] == code;
  }

  method AssembleArms(raw: seq<RawArm>, ghost arms: seq<Arm>) returns (code: Bytes)
    requires SameArms(raw, arms)
    ensures code == EncodeOps(DispatchOps(arms))
  {
    hide EncodeOps, EncodePush, Head;
    var b := new ScriptBuilder();
    assert EncodeOps(Heads(arms[..0])) == [] by { EncodeNothing(); }
    for i := 0 to |raw|
      invariant b.Valid() && b.bytes == EncodeOps(Heads(arms[..i]))
    {
      EmitHead(b, raw[i].selector);
      EmitRaw(b, raw[i].code);
      b.AddOp(OP_ELSE);
      NextHead(arms, i);
    }
    assert arms[..|raw|] == arms;
    b.AddData([]);
    EncodeSnoc(Heads(arms), Push([]));
    var flat := Heads(arms) + [Push([])];
    assert flat + EndIfs(0) == flat;
    for i := 0 to |raw|
      invariant b.Valid() && b.bytes == EncodeOps(flat + EndIfs(i))
    {
      b.AddOp(OP_ENDIF);
      assert flat + EndIfs(i) + [Code(OP_ENDIF)] == flat + EndIfs(i + 1);
      EncodeSnoc(flat + EndIfs(i), Code(OP_ENDIF));
    }
    code := b.bytes;
  }

  lemma EncodeNothing()
    ensures EncodeOps([]) == []
  {
  }

  lemma NextHead(arms: seq<Arm>, i: nat)
    requires i < |arms|
    ensures EncodeOps(Heads(arms[..i + 1])) ==
            EncodeOps(Heads(arms[..i])) + EncodeOps(Head(arms[i].selector)) + EncodeOps(arms[i].code) + [OP_ELSE]
  {
    hide EncodeOps, Head;
    assert arms[..i + 1][..i] == arms[..i];
    var head := Head(arms[i].selector);
    EncodeCat(Heads(arms[..i]), head + arms[i].code + [Code(OP_ELSE)]);
    EncodeSnoc(head + arms[i].code, Code(OP_ELSE));
    EncodeCat(head, arms[i].code);
  }

  /** The generator: six arms always, three more when someone can adjudicate. */
  method CovenantScript(prims: Primitives, t: Terms) returns (code: Bytes)
    ensures code == CovenantBytes(prims, t)
  {
    hide EncodeOps, DispatchOps, ClaimOps, ShipOps, SettleOps, AutoReleaseOps, SlashOps, RefundOps, DisputeOps;
    hide ResolveOps;
    var claim := ClaimBranch(prims, t);
    var ship := ShipBranch(prims, t);
    var settle := SettleBranch(prims, t);
    var auto := AutoReleaseBranch(prims, t);
    var slash := SlashBranch(prims, t);
    var refund := RefundBranch(prims, t);
    var arms := [RawArm(Selector(Claim), claim), RawArm(Selector(Ship), ship), RawArm(Selector(Settle), settle),
                 RawArm(Selector(AutoRelease), auto), RawArm(Selector(Slash), slash), RawArm(Selector(Refund), refund)];
    var dispute := DisputeBranch(prims, t);
    if dispute.Some? {
      var toMaker := ResolveBranch(prims, t, true);
      var toBuyer := ResolveBranch(prims, t, false);
      arms := arms + [RawArm(Selector(Dispute), dispute.value), RawArm(Selector(ResolveToMaker), toMaker.value),
                      RawArm(Selector(ResolveToBuyer), toBuyer.value)];
    }
    code := AssembleArms(arms, ArmsOf(t, TermsId(prims, t)));
  }
}
