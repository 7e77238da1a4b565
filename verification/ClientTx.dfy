/** Assembling and signing the transactions that move an escrow. */
module ClientTx {
  import opened ByteStrings
  import opened Primitives
  import opened ScriptNumbers
  import opened ScriptVm
  import opened ScriptBytes
  import opened EscrowState
  import opened Covenant
  import opened CovenantContract
  import opened EscrowRuns
  import Dispatcher

  datatype Keypair = Keypair(secret: Bytes, pub: Digest)

  datatype Outpoint = Outpoint(txid: Digest, index: nat)

  datatype Unlock =
    | Wallet
    /** Signers in push order, bottom first. */
    | Branched(branch: Branch, prevRest: Bytes, prevPayload: Bytes, signers: seq<Keypair>, script: Bytes)

  datatype FundedInput = FundedInput(outpoint: Outpoint, entry: Output, unlock: Unlock)

  /** A signature over an unsigned transaction, the outputs it spends, and an input index. */
  type Sign = (Tx, seq<Output>, nat, Keypair) -> Bytes

  function EntriesOf(inputs: seq<FundedInput>): (e: seq<Output>)
    ensures |e| == |inputs|
  {
    seq(|inputs|, i requires 0 <= i < |inputs| => inputs[i].entry)
  }

  function Skeleton(inputs: seq<FundedInput>, scripts: seq<Bytes>, outputs: seq<Output>, payload: Bytes,
                    lockTime: nat): Tx
    requires |scripts| == |inputs|
  {
    Tx(seq(|inputs|, i requires 0 <= i < |inputs| =>
             TxIn(inputs[i].outpoint.txid, inputs[i].outpoint.index, scripts[i], 0)),
       outputs, payload, lockTime)
  }

  function NoScripts(n: nat): (s: seq<Bytes>)
    ensures |s| == n
  {
    seq(n, _ => [])
  }

  /** What gets signed: the transaction before any signature script is filled in. */
  function Unsigned(inputs: seq<FundedInput>, outputs: seq<Output>, payload: Bytes, lockTime: nat): Tx {
    Skeleton(inputs, NoScripts(|inputs|), outputs, payload, lockTime)
  }

  /** Signature scripts are not themselves signed: a signature made on the unsigned transaction is good
      for the filled-in one, under the signer's own key and no other. */
  ghost predicate SignsFor(w: World, sign: Sign) {
    && (forall tx, spent, i, k :: |sign(tx, spent, i, k)| < TWO32)
    && forall inputs: seq<FundedInput>, scripts: seq<Bytes>, outputs, payload, lockTime, i, k, key |
         |scripts| == |inputs| ::
         var sig := sign(Unsigned(inputs, outputs, payload, lockTime), EntriesOf(inputs), i, k);
         key == k.pub <==> w.signed(Skeleton(inputs, scripts, outputs, payload, lockTime), i, sig, key)
  }

  // ----- signature scripts --------------------------------------------------

  function SigsBy(sign: Sign, tx: Tx, spent: seq<Output>, i: nat, signers: seq<Keypair>): (s: seq<Bytes>)
    ensures |s| == |signers|
  {
    seq(|signers|, k requires 0 <= k < |signers| => sign(tx, spent, i, signers[k]))
  }

  /** The data a signature script pushes, bottom first. */
  function DataFor(sign: Sign, tx: Tx, spent: seq<Output>, i: nat, wallet: Keypair, unlock: Unlock): seq<Bytes> {
    match unlock
    case Wallet => [sign(tx, spent, i, wallet)]
    case Branched(branch, rest, payload, signers, script) =>
      SigsBy(sign, tx, spent, i, signers) + [rest, payload, EncodeNum(Selector(branch)), script]
  }

  function PushOps(data: seq<Bytes>): (ops: seq<Op>)
    ensures |ops| == |data|
  {
    seq(|data|, i requires 0 <= i < |data| => Push(data[i]))
  }

  function ScriptFor(sign: Sign, tx: Tx, spent: seq<Output>, i: nat, wallet: Keypair, unlock: Unlock): Bytes {
    EncodeOps(PushOps(DataFor(sign, tx, spent, i, wallet, unlock)))
  }

  function ScriptsFor(sign: Sign, wallet: Keypair, inputs: seq<FundedInput>, tx: Tx): (s: seq<Bytes>)
    ensures |s| == |inputs|
  {
    seq(|inputs|, i requires 0 <= i < |inputs| => ScriptFor(sign, tx, EntriesOf(inputs), i, wallet, inputs[i].unlock))
  }

  lemma PushOneMore(data: seq<Bytes>, d: Bytes)
    ensures PushOps(data + [d]) == PushOps(data) + [Push(d)]
  {
  }

  method SignatureScript(sign: Sign, tx: Tx, spent: seq<Output>, i: nat, wallet: Keypair, unlock: Unlock)
    returns (script: Bytes)
    ensures script == ScriptFor(sign, tx, spent, i, wallet, unlock)
  {
    hide EncodeOps, EncodePush, EncodeNum, PushOps;
    var b := new ScriptBuilder();
    ghost var data: seq<Bytes> := [];
    assert PushOps([]) == [];
    match unlock
    case Wallet =>
      var sig := sign(tx, spent, i, wallet);
      PushOneMore([], sig);
      assert [] + [sig] == [sig];
      b.AddData(sig);
      return b.bytes;
    case Branched(branch, rest, payload, signers, code) =>
      for k := 0 to |signers|
        invariant b.Valid() && fresh(b) && b.ops == PushOps(SigsBy(sign, tx, spent, i, signers)[..k])
      {
        ghost var all := SigsBy(sign, tx, spent, i, signers);
        assert all[..k + 1] == all[..k] + [all[k]];
        PushOneMore(all[..k], all[k]);
        b.AddData(sign(tx, spent, i, signers[k]));
      }
      ghost var sigs := SigsBy(sign, tx, spent, i, signers);
      assert sigs[..|signers|] == sigs;
      PushOneMore(sigs, rest);
      PushOneMore(sigs + [rest], payload);
      PushOneMore(sigs + [rest] + [payload], EncodeNum(Selector(branch)));
      PushOneMore(sigs + [rest] + [payload] + [EncodeNum(Selector(branch))], code);
      assert sigs + [rest, payload, EncodeNum(Selector(branch)), code]
          == sigs + [rest] + [payload] + [EncodeNum(Selector(branch))] + [code];
      b.AddData(rest);
      b.AddData(payload);
      b.AddI64(Selector(branch));
      b.AddData(code);
      return b.bytes;
  }

  /** Sign against the unsigned skeleton, then fill the scripts in. */
  method Build(sign: Sign, wallet: Keypair, inputs: seq<FundedInput>, outputs: seq<Output>, payload: Bytes,
               lockTime: nat)
    returns (tx: Tx)
    ensures tx == BuiltTx(sign, wallet, inputs, outputs, payload, lockTime)
  {
    hide ScriptFor;
    var empty := Unsigned(inputs, outputs, payload, lockTime);
    var entries := EntriesOf(inputs);
    var scripts: seq<Bytes> := [];
    for i := 0 to |inputs|
      invariant scripts == ScriptsFor(sign, wallet, inputs, empty)[..i]
    {
      var script := SignatureScript(sign, empty, entries, i, wallet, inputs[i].unlock);
      scripts := scripts + [script];
    }
    tx := Skeleton(inputs, scripts, outputs, payload, lockTime);
  }

  function BuiltTx(sign: Sign, wallet: Keypair, inputs: seq<FundedInput>, outputs: seq<Output>, payload: Bytes,
                   lockTime: nat): Tx {
    Skeleton(inputs, ScriptsFor(sign, wallet, inputs, Unsigned(inputs, outputs, payload, lockTime)), outputs, payload,
             lockTime)
  }

  // ----- what such a script does to the covenant ----------------------------

  predicate Pushable(data: seq<Bytes>) {
    forall i :: 0 <= i < |data| ==> |data[i]| < TWO32
  }

  lemma {:induction false} PushedBack(data: seq<Bytes>)
    ensures PushedItems(PushOps(data)) == Some(data)
  {
    if data != [] {
      PushedBack(data[1..]);
      assert PushOps(data)[1..] == PushOps(data[1..]);
      assert data == [data[0]] + data[1..];
    }
  }

  /** The items consensus sees are the data that was pushed. */
  lemma SigItemsBuilt(data: seq<Bytes>)
    requires Pushable(data)
    ensures SigItems(EncodeOps(PushOps(data))) == Some(data)
  {
    hide EncodeOps, Parse, PushedItems;
    ParseExactly(PushOps(data));
    PushedBack(data);
  }

  lemma SelectorBytes(b: Branch, t: Terms)
    ensures |EncodeNum(Selector(b))| <= 1
    ensures BranchFor(t, EncodeNum(Selector(b))) == if Offered(t, b) then Some(b) else None
  {
    hide EncodeNum;
    SmallNums();
  }

  /** A built covenant input unlocks exactly when the terms offer the branch and its rule holds of the
      supplied state and signatures. */
  lemma BuiltUnlocks(w: World, t: Terms, m: Move, b: Branch, rest: Bytes, payload: Bytes, sigs: seq<Bytes>)
    requires SmallTerms(t) && Shaped(m)
    requires var data := sigs + [rest, payload, EncodeNum(Selector(b)), Dispatcher.CovenantBytes(w.prims, t)];
             Pushable(data) && m.tx.inputs[m.input].sigScript == EncodeOps(PushOps(data))
    requires m.spent[m.input].spk == EscrowSpk(w, t)
    ensures Unlocks(w, m) <==>
            Offered(t, b) && BranchRule(ContextOf(w, m), t, TermsId(w.prims, t), b,
                                        On(payload, On(rest, StackOf(sigs))))
    ensures EvidenceOf(m) == Some(Evidence(Dispatcher.CovenantBytes(w.prims, t), EncodeNum(Selector(b)), payload, rest))
    ensures BranchTaken(t, m) == if Offered(t, b) then Some(b) else None
  {
    hide EncodeOps, PushOps, SigItems, EncodeNum, BranchFor, BranchRule, ScriptAccepts, TermsId, ScriptHashSpk;
    hide Dispatcher.CovenantBytes;
    var script := Dispatcher.CovenantBytes(w.prims, t);
    var items := sigs + [rest, payload, EncodeNum(Selector(b)), script];
    SigItemsBuilt(items);
    StackShape(items);
    assert items[..|items| - 4] == sigs;
    SelectorBytes(b, t);
    CovenantMeans(ContextOf(w, m), w.prims, t, StackOf(items[..|items| - 1]));
  }
}
