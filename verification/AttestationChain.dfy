/** The append-only chain of one pseudonym's attestations. */
module AttestationChain {
  import opened ByteStrings
  import opened Primitives
  import opened Attestation

  // ----- what a chain promises ----------------------------------------------

  function HeadOf(prims: Primitives, atts: seq<Attestation>): Option<Digest> {
    if atts == [] then None else Some(Id(prims, atts[|atts| - 1]))
  }

  /** Entry `i` belongs to the owner, sits at its own index, points at its predecessor and verifies. */
  predicate LinkedAt(prims: Primitives, owner: Digest, atts: seq<Attestation>, i: nat)
    requires i < |atts|
  {
    && atts[i].body.owner == owner
    && atts[i].body.index == i
    && atts[i].body.prev == HeadOf(prims, atts[..i])
    && VerifyOne(prims, atts[i]).Ok?
  }

  predicate Linked(prims: Primitives, owner: Digest, atts: seq<Attestation>) {
    forall i :: 0 <= i < |atts| ==> LinkedAt(prims, owner, atts, i)
  }

  /** The four checks an append makes. */
  predicate AppendAccepts(prims: Primitives, owner: Digest, atts: seq<Attestation>, att: Attestation) {
    && att.body.owner == owner
    && att.body.index == |atts|
    && att.body.prev == HeadOf(prims, atts)
    && VerifyOne(prims, att).Ok?
  }

  /** They are the link the grown chain needs at its end. */
  lemma AppendLinks(prims: Primitives, owner: Digest, atts: seq<Attestation>, att: Attestation)
    ensures AppendAccepts(prims, owner, atts, att) <==> LinkedAt(prims, owner, atts + [att], |atts|)
  {
    hide VerifyOne, HeadOf;
    assert (atts + [att])[..|atts|] == atts;
  }

  predicate InOrder(atts: seq<Attestation>) {
    forall i :: 0 < i < |atts| ==> atts[i - 1].body.ts <= atts[i].body.ts
  }

  /** A relying party's view of the chain: anchoring and covenant witnesses, each possibly unknown. */
  datatype AnchorVerifier = AnchorVerifier(
    isAnchored: (Digest, Outpoint) -> Result<bool, string>,
    covenantWitnessed: (Outpoint, CovenantWitness, Digest) -> Result<bool, string>)

  function AnchorCheck(prims: Primitives, av: AnchorVerifier, a: Attestation, i: nat): Result<(), KrepError> {
    match av.isAnchored(Id(prims, a), a.body.anchor)
    case Err(why) => Err(AnchorUnknown(i, why))
    case Ok(false) => Err(ChainError(i, "attestation not anchored on-chain"))
    case Ok(true) =>
      match a.auth
      case CoSigned(_, _) => Ok(())
      case ByCovenant(w) =>
        match av.covenantWitnessed(a.body.anchor, w, a.body.owner)
        case Err(why) => Err(AnchorUnknown(i, why))
        case Ok(false) => Err(ChainError(i, "covenant witness does not authorize this attestation"))
        case Ok(true) => Ok(())
  }

  // ----- the chain ----------------------------------------------------------

  class Chain {
    const owner: Digest
    var attestations: seq<Attestation>

    constructor (o: Digest)
      ensures owner == o && attestations == []
    {
      owner := o;
      attestations := [];
    }

    function Head(prims: Primitives): Option<Digest>
      reads this
    {
      HeadOf(prims, attestations)
    }

    /** Accepts exactly what keeps the chain linked. Timestamps are not looked at. */
    method Append(prims: Primitives, att: Attestation) returns (r: Result<(), KrepError>)
      modifies this`attestations
      ensures attestations == if r.Ok? then old(attestations) + [att] else old(attestations)
      ensures r.Ok? <==> AppendAccepts(prims, owner, old(attestations), att)
      ensures Linked(prims, owner, old(attestations)) ==>
        (r.Ok? <==> Linked(prims, owner, old(attestations) + [att]))
    {
      hide VerifyOne, Id;
      LinkedSnoc(prims, owner, attestations, att);
      AppendLinks(prims, owner, attestations, att);
      var expectedIndex := |attestations|;
      var expectedPrev := Head(prims);
      assert (attestations + [att])[..expectedIndex] == attestations;
      if att.body.owner != owner {
        return Err(ChainError(expectedIndex, "attestation owner != chain owner"));
      }
      if att.body.index != expectedIndex {
        return Err(ChainError(expectedIndex, "unexpected index"));
      }
      if att.body.prev != expectedPrev {
        return Err(ChainError(expectedIndex, "prev does not match current head"));
      }
      match VerifyOne(prims, att)
      case Err(e) => return Err(e);
      case Ok(_) =>
        attestations := attestations + [att];
        r := Ok(());
    }

    /** Accepts exactly the linked chains whose timestamps never go back. */
    method Verify(prims: Primitives) returns (r: Result<(), KrepError>)
      ensures r.Ok? <==> Linked(prims, owner, attestations) && InOrder(attestations)
    {
      hide VerifyOne, Id;
      var prevId: Option<Digest> := None;
      var prevTs := 0;
      for i := 0 to |attestations|
        invariant prevId == HeadOf(prims, attestations[..i])
        invariant prevTs == if i == 0 then 0 else attestations[i - 1].body.ts
        invariant forall j :: 0 <= j < i ==> LinkedAt(prims, owner, attestations, j)
        invariant forall j :: 0 < j < i ==> attestations[j - 1].body.ts <= attestations[j].body.ts
      {
        var att := attestations[i];
        if att.body.owner != owner {
          assert !LinkedAt(prims, owner, attestations, i);
          return Err(ChainError(i, "owner mismatch"));
        }
        if att.body.index != i {
          assert !LinkedAt(prims, owner, attestations, i);
          return Err(ChainError(i, "index mismatch"));
        }
        if att.body.prev != prevId {
          assert !LinkedAt(prims, owner, attestations, i);
          return Err(ChainError(i, "broken prev link"));
        }
        if att.body.ts < prevTs {
          assert attestations[i - 1].body.ts > attestations[i].body.ts;
          return Err(ChainError(i, "timestamp regression"));
        }
        var one := VerifyOne(prims, att);
        if one.Err? {
          assert !LinkedAt(prims, owner, attestations, i);
          return Err(one.error);
        }
        assert attestations[..i + 1][i] == att;
        prevId := Some(Id(prims, att));
        prevTs := att.body.ts;
      }
      r := Ok(());
    }

    /** Adds on-chain anchoring of every entry. What a node could not say is reported as unknown, never
        as a negative. */
    method VerifyAnchored(prims: Primitives, av: AnchorVerifier) returns (r: Result<(), KrepError>)
      ensures r.Ok? <==>
        && Linked(prims, owner, attestations) && InOrder(attestations)
        && forall i :: 0 <= i < |attestations| ==> Anchored(prims, av, attestations[i])
      ensures Linked(prims, owner, attestations) && InOrder(attestations) && r.Err? ==>
        exists i :: 0 <= i < |attestations| && r == AnchorCheck(prims, av, attestations[i], i)
                    && forall j :: 0 <= j < i ==> AnchorCheck(prims, av, attestations[j], j).Ok?
    {
      hide VerifyOne, Id, Linked;
      forall i | 0 <= i < |attestations|
        ensures AnchorCheck(prims, av, attestations[i], i).Ok? <==> Anchored(prims, av, attestations[i])
      {
        AnchoredExactlyWhen(prims, av, attestations[i], i);
      }
      var base := Verify(prims);
      if base.Err? {
        return base;
      }
      for i := 0 to |attestations|
        invariant forall j :: 0 <= j < i ==> AnchorCheck(prims, av, attestations[j], j).Ok?
      {
        var att := attestations[i];
        var anchored := av.isAnchored(Id(prims, att), att.body.anchor);
        if anchored.Err? {
          r := Err(AnchorUnknown(i, anchored.error));
          assert r == AnchorCheck(prims, av, attestations[i], i);
          return;
        }
        if !anchored.value {
          r := Err(ChainError(i, "attestation not anchored on-chain"));
          assert r == AnchorCheck(prims, av, attestations[i], i);
          return;
        }
        if att.auth.ByCovenant? {
          var authorized := av.covenantWitnessed(att.body.anchor, att.auth.cov, att.body.owner);
          if authorized.Err? {
            r := Err(AnchorUnknown(i, authorized.error));
            assert r == AnchorCheck(prims, av, attestations[i], i);
            return;
          }
          if !authorized.value {
            r := Err(ChainError(i, "covenant witness does not authorize this attestation"));
            assert r == AnchorCheck(prims, av, attestations[i], i);
            return;
          }
        }
      }
      r := Ok(());
    }
  }

  // ----- what acceptance establishes -----------------------------------------

  /** Every entry of a linked chain was signed by its owner and its counterparty, or speaks through a covenant and
      is no success; so every success was signed by both. */
  lemma LinkedIsSigned(prims: Primitives, owner: Digest, atts: seq<Attestation>, i: nat)
    requires Linked(prims, owner, atts) && i < |atts|
    ensures Sane(atts[i].body) && atts[i].body.owner == owner
    ensures BothSigned(prims, atts[i]) || CovenantSpeaks(atts[i])
    ensures atts[i].body.outcome == Success ==> BothSigned(prims, atts[i])
  {
    hide VerifyOne, Id, Sane;
    assert LinkedAt(prims, owner, atts, i);
    AcceptedExactlyWhen(prims, atts[i]);
  }

  /** The verifier says the entry's own id is anchored at the entry's own outpoint, and a covenant entry is
      witnessed there, by its own witness, for its owner. */
  predicate Anchored(prims: Primitives, av: AnchorVerifier, a: Attestation) {
    && av.isAnchored(Id(prims, a), a.body.anchor) == Ok(true)
    && (a.auth.ByCovenant? ==> av.covenantWitnessed(a.body.anchor, a.auth.cov, a.body.owner) == Ok(true))
  }

  lemma AnchoredExactlyWhen(prims: Primitives, av: AnchorVerifier, a: Attestation, i: nat)
    ensures AnchorCheck(prims, av, a, i).Ok? <==> Anchored(prims, av, a)
    ensures AnchorCheck(prims, av, a, i).Err? && AnchorCheck(prims, av, a, i).error.AnchorUnknown? <==>
            || av.isAnchored(Id(prims, a), a.body.anchor).Err?
            || (av.isAnchored(Id(prims, a), a.body.anchor) == Ok(true) && a.auth.ByCovenant?
                && av.covenantWitnessed(a.body.anchor, a.auth.cov, a.body.owner).Err?)
  {
    hide Id;
  }

  lemma LinkedSnoc(prims: Primitives, owner: Digest, atts: seq<Attestation>, att: Attestation)
    ensures Linked(prims, owner, atts + [att]) <==>
            Linked(prims, owner, atts) && LinkedAt(prims, owner, atts + [att], |atts|)
  {
    hide VerifyOne, Id;
    var all := atts + [att];
    forall i | 0 <= i < |atts|
      ensures LinkedAt(prims, owner, all, i) <==> LinkedAt(prims, owner, atts, i)
    {
      assert all[..i] == atts[..i];
    }
    if Linked(prims, owner, all) {
      assert forall i :: 0 <= i < |atts| ==> LinkedAt(prims, owner, all, i);
      assert LinkedAt(prims, owner, all, |atts|);
    }
  }

  // ----- the head commits to the history ------------------------------------

  predicate AllFit(atts: seq<Attestation>) {
    forall i :: 0 <= i < |atts| ==> FieldsFit(atts[i])
  }

  lemma LastLinked(prims: Primitives, owner: Digest, atts: seq<Attestation>)
    requires Linked(prims, owner, atts) && atts != []
    ensures LinkedAt(prims, owner, atts, |atts| - 1) && Linked(prims, owner, atts[..|atts| - 1])
    ensures ValidateFields(atts[|atts| - 1].body).Ok?
  {
    hide ValidateFields, Id;
    var front, last := atts[..|atts| - 1], atts[|atts| - 1];
    assert atts == front + [last];
    LinkedSnoc(prims, owner, front, last);
  }

  /** Equal heads mean equal histories, entry by entry and in length, or a break of the hashes behind an id is
      returned. */
  function HeadsDiffer(prims: Primitives, o: Digest, a: seq<Attestation>, p: Digest, b: seq<Attestation>):
      (r: Option<IdBreak>)
    requires Linked(prims, o, a) && Linked(prims, p, b) && AllFit(a) && AllFit(b)
    requires HeadOf(prims, a) == HeadOf(prims, b)
    ensures r.Some? ==> GenuineIdBreak(prims, r.value)
    ensures r.None? ==> a == b && (a != [] ==> o == p)
    decreases |a|
  {
    hide PreimageOf, HashPreimage, ValidateFields, VerifyOne, FieldsFit, Linked, GenuineIdBreak;
    if a == [] then None
    else
      var x, y := a[|a| - 1], b[|b| - 1];
      LastLinked(prims, o, a);
      LastLinked(prims, p, b);
      if PreimageOf(x) != PreimageOf(y) then Some(IdsMeet(prims, x, y))
      else
        PreimageInjective(x, y);
        var front, back := a[..|a| - 1], b[..|b| - 1];
        assert a == front + [x] && b == back + [y];
        match HeadsDiffer(prims, o, front, p, back)
        case Some(c) => Some(c)
        case None => None
  }

  /** Building a chain by accepted appends is the same as ending with a linked one, so `verify` accepts a
      built chain exactly when its timestamps never decrease: the one condition `append` does not check. */
  lemma {:induction false} BuiltByAppends(prims: Primitives, owner: Digest, atts: seq<Attestation>)
    ensures (forall i :: 0 <= i < |atts| ==> AppendAccepts(prims, owner, atts[..i], atts[i])) <==>
            Linked(prims, owner, atts)
  {
    hide VerifyOne, Id, HeadOf;
    forall i | 0 <= i < |atts|
      ensures AppendAccepts(prims, owner, atts[..i], atts[i]) <==> LinkedAt(prims, owner, atts, i)
    {
      AppendLinks(prims, owner, atts[..i], atts[i]);
      assert (atts[..i] + [atts[i]])[..i] == atts[..i];
    }
  }
}
