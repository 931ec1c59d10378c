/** Record validation and the two join filters of the batch job
    (pharmacy_app/data_validator.py). A raw record is a JSON object: a
    dictionary from field names to values. Validation converts price, quantity
    and timestamp in the dictionary to typed values; the model returns the
    rewritten dictionary rather than changing the caller's. */
module DataValidator {
  import opened Wrappers
  import opened Seqs

  /** A parsed ISO 8601 date-time; its internal form is left abstract. */
  type Instant = int

  /** A field value: JSON null, a string, or a value validation put there. */
  datatype Value = Null | Text(s: string) | Number(x: real) | Time(t: Instant)

  type Record = map<string, Value>

  /** Python's `float(s)` and `datetime.fromisoformat(s)`: partial parses,
      `None` where the library raises ValueError. */
  datatype Parsers = Parsers(number: string -> Option<real>, dateTime: string -> Option<Instant>)

  type NonZero = q: real | q != 0.0 witness 1.0

  /** A claim as validation leaves it: every field present and typed. */
  datatype Claim = Claim(id: string, npi: string, ndc: string, price: real, quantity: NonZero, timestamp: Instant)

  /** A revert as validation leaves it. */
  datatype Revert = Revert(id: string, claimId: string, timestamp: Instant)

  const ClaimFields: seq<string> := ["id", "npi", "ndc", "price", "quantity", "timestamp"]
  const RevertFields: seq<string> := ["id", "claim_id", "timestamp"]

  /** Records as read from JSON: every value is null or a string. */
  predicate IsRaw(r: Record)
  {
    forall f :: f in r ==> r[f].Null? || r[f].Text?
  }

  predicate AllRaw(rs: seq<Record>)
  {
    forall i :: 0 <= i < |rs| ==> IsRaw(rs[i])
  }

  /** The field is there and is neither null nor the empty string. */
  predicate Present(r: Record, f: string)
  {
    f in r && r[f] != Null && r[f] != Text("")
  }

  predicate AllPresent(r: Record, fields: seq<string>)
  {
    forall i :: 0 <= i < |fields| ==> Present(r, fields[i])
  }

  /** The required fields of a claim, each present and non-empty. */
  predicate HasClaimFields(r: Record)
  {
    Present(r, "id") && Present(r, "npi") && Present(r, "ndc")
    && Present(r, "price") && Present(r, "quantity") && Present(r, "timestamp")
  }

  /** The required fields of a revert, each present and non-empty. */
  predicate HasRevertFields(r: Record)
  {
    Present(r, "id") && Present(r, "claim_id") && Present(r, "timestamp")
  }

  /** Checking the fields in list order decides the same thing. */
  lemma FieldListsAgree(r: Record)
    ensures AllPresent(r, ClaimFields) <==> HasClaimFields(r)
    ensures AllPresent(r, RevertFields) <==> HasRevertFields(r)
  {
    if HasClaimFields(r) {
      forall i | 0 <= i < |ClaimFields| ensures Present(r, ClaimFields[i]) {
        assert ClaimFields[i] in {"id", "npi", "ndc", "price", "quantity", "timestamp"};
      }
    }
    if HasRevertFields(r) {
      forall i | 0 <= i < |RevertFields| ensures Present(r, RevertFields[i]) {
        assert RevertFields[i] in {"id", "claim_id", "timestamp"};
      }
    }
    if AllPresent(r, ClaimFields) {
      assert Present(r, ClaimFields[0]) && Present(r, ClaimFields[1]) && Present(r, ClaimFields[2]);
      assert Present(r, ClaimFields[3]) && Present(r, ClaimFields[4]) && Present(r, ClaimFields[5]);
    }
    if AllPresent(r, RevertFields) {
      assert Present(r, RevertFields[0]) && Present(r, RevertFields[1]) && Present(r, RevertFields[2]);
    }
  }

  /** The string held by a present field of a raw record. */
  function TextOf(r: Record, f: string): string
    requires IsRaw(r) && Present(r, f)
  {
    r[f].s
  }

  // ---------------------------------------------------------------- claims

  /** When a claim passes validation: all six fields present and non-empty,
      price and quantity numbers, quantity not zero, timestamp a date-time. */
  predicate ClaimAcceptable(r: Record, p: Parsers)
    requires IsRaw(r)
  {
    HasClaimFields(r)
    && p.number(TextOf(r, "price")).Some?
    && p.number(TextOf(r, "quantity")).Some?
    && p.number(TextOf(r, "quantity")).value != 0.0
    && p.dateTime(TextOf(r, "timestamp")).Some?
  }

  /** The record after `validate_claim` ran on it, accepted or not: price is
      rewritten once it parses, quantity once it parses too, and the timestamp
      only when everything passed. */
  function ClaimAfterValidation(r: Record, p: Parsers): Record
    requires IsRaw(r)
  {
    if !HasClaimFields(r) then r
    else
      var price := p.number(TextOf(r, "price"));
      if price.None? then r
      else
        var r1 := r["price" := Number(price.value)];
        var quantity := p.number(TextOf(r, "quantity"));
        if quantity.None? then r1
        else
          var r2 := r1["quantity" := Number(quantity.value)];
          var stamp := p.dateTime(TextOf(r, "timestamp"));
          if quantity.value == 0.0 || stamp.None? then r2
          else r2["timestamp" := Time(stamp.value)]
  }

  /** The typed claim that an accepted record holds. */
  function ClaimOf(r: Record, p: Parsers): Claim
    requires IsRaw(r) && ClaimAcceptable(r, p)
  {
    Claim(TextOf(r, "id"), TextOf(r, "npi"), TextOf(r, "ndc"),
          p.number(TextOf(r, "price")).value,
          p.number(TextOf(r, "quantity")).value,
          p.dateTime(TextOf(r, "timestamp")).value)
  }

  /** `validate_claim`: checks the required fields one by one, then converts
      price, quantity and timestamp, returning at the first failure. */
  method ValidateClaim(claim: Record, p: Parsers) returns (ok: bool, updated: Record)
    requires IsRaw(claim)
    ensures ok == ClaimAcceptable(claim, p)
    ensures updated == ClaimAfterValidation(claim, p)
  {
    updated := claim;
    for i := 0 to |ClaimFields|
      invariant AllPresent(claim, ClaimFields[..i])
    {
      var field := ClaimFields[i];
      if field !in claim || claim[field] == Null || claim[field] == Text("") {
        assert !Present(claim, ClaimFields[i]);
        return false, claim;
      }
    }
    assert ClaimFields[..|ClaimFields|] == ClaimFields;
    FieldListsAgree(claim);
    var price := p.number(claim["price"].s);
    if price.None? {
      return false, claim;
    }
    updated := updated["price" := Number(price.value)];
    var quantity := p.number(claim["quantity"].s);
    if quantity.None? {
      return false, updated;
    }
    updated := updated["quantity" := Number(quantity.value)];
    if quantity.value == 0.0 {
      return false, updated;
    }
    var stamp := p.dateTime(claim["timestamp"].s);
    if stamp.None? {
      return false, updated;
    }
    updated := updated["timestamp" := Time(stamp.value)];
    ok := true;
  }

  /** Rejection of a claim for each of its causes. */
  lemma ClaimRejections(r: Record, p: Parsers)
    requires IsRaw(r)
    ensures (exists i :: 0 <= i < |ClaimFields| && !Present(r, ClaimFields[i])) ==> !ClaimAcceptable(r, p)
    ensures HasClaimFields(r) && p.number(TextOf(r, "price")).None? ==> !ClaimAcceptable(r, p)
    ensures HasClaimFields(r) && p.number(TextOf(r, "quantity")).None? ==> !ClaimAcceptable(r, p)
    ensures HasClaimFields(r) && p.number(TextOf(r, "quantity")) == Some(0.0) ==> !ClaimAcceptable(r, p)
    ensures HasClaimFields(r) && p.dateTime(TextOf(r, "timestamp")).None? ==> !ClaimAcceptable(r, p)
  {
    FieldListsAgree(r);
  }

  /** Validation rewrites price, quantity and timestamp only: no field is added
      or removed, and id, npi, ndc and every other field keep their values. */
  lemma ClaimValidationFrame(r: Record, p: Parsers)
    requires IsRaw(r)
    ensures ClaimAfterValidation(r, p).Keys == r.Keys
    ensures forall f :: (f in r && f != "price" && f != "quantity" && f != "timestamp")
                          ==> ClaimAfterValidation(r, p)[f] == r[f]
  {
  }

  /** An accepted record is rewritten to exactly the typed claim it holds, with
      a quantity that is not zero, so price/quantity is defined downstream. */
  lemma AcceptedClaimIsTyped(r: Record, p: Parsers)
    requires IsRaw(r) && ClaimAcceptable(r, p)
    ensures var c := ClaimOf(r, p);
      ClaimAfterValidation(r, p)
        == r["price" := Number(c.price)]["quantity" := Number(c.quantity)]["timestamp" := Time(c.timestamp)]
      && c.quantity != 0.0
      && c.id == TextOf(r, "id") && c.npi == TextOf(r, "npi") && c.ndc == TextOf(r, "ndc")
  {
  }

  // ---------------------------------------------------------------- reverts

  /** When a revert passes validation: id, claim_id and timestamp present and
      non-empty, and the timestamp a date-time. No number is parsed. */
  predicate RevertAcceptable(r: Record, p: Parsers)
    requires IsRaw(r)
  {
    HasRevertFields(r) && p.dateTime(TextOf(r, "timestamp")).Some?
  }

  /** The record after `validate_revert`: only the timestamp, and only on
      success, is rewritten. */
  function RevertAfterValidation(r: Record, p: Parsers): Record
    requires IsRaw(r)
  {
    if RevertAcceptable(r, p) then r["timestamp" := Time(p.dateTime(TextOf(r, "timestamp")).value)] else r
  }

  function RevertOf(r: Record, p: Parsers): Revert
    requires IsRaw(r) && RevertAcceptable(r, p)
  {
    Revert(TextOf(r, "id"), TextOf(r, "claim_id"), p.dateTime(TextOf(r, "timestamp")).value)
  }

  /** `validate_revert`. */
  method ValidateRevert(revert: Record, p: Parsers) returns (ok: bool, updated: Record)
    requires IsRaw(revert)
    ensures ok == RevertAcceptable(revert, p)
    ensures updated == RevertAfterValidation(revert, p)
  {
    for i := 0 to |RevertFields|
      invariant AllPresent(revert, RevertFields[..i])
    {
      var field := RevertFields[i];
      if field !in revert || revert[field] == Null || revert[field] == Text("") {
        assert !Present(revert, RevertFields[i]);
        return false, revert;
      }
    }
    assert RevertFields[..|RevertFields|] == RevertFields;
    FieldListsAgree(revert);
    var stamp := p.dateTime(revert["timestamp"].s);
    if stamp.None? {
      return false, revert;
    }
    updated := revert["timestamp" := Time(stamp.value)];
    ok := true;
  }

  /** A revert is rejected exactly when a required field is missing or empty
      or the timestamp does not parse; its other fields are never touched. */
  lemma RevertValidationFrame(r: Record, p: Parsers)
    requires IsRaw(r)
    ensures !RevertAcceptable(r, p) <==>
      (exists i :: 0 <= i < |RevertFields| && !Present(r, RevertFields[i]))
      || (HasRevertFields(r) && p.dateTime(TextOf(r, "timestamp")).None?)
    ensures RevertAfterValidation(r, p).Keys == r.Keys
    ensures forall f :: f in r && f != "timestamp" ==> RevertAfterValidation(r, p)[f] == r[f]
  {
    FieldListsAgree(r);
  }

  // ---------------------------------------------------------------- join filters

  /** The claims `filter_claims` keeps: they validate and name a known pharmacy. */
  predicate KeepsClaim(r: Record, pharmacies: map<string, string>, p: Parsers)
    requires IsRaw(r)
  {
    ClaimAcceptable(r, p) && TextOf(r, "npi") in pharmacies
  }

  /** The typed claims kept, in input order. */
  function KeptClaims(claims: seq<Record>, pharmacies: map<string, string>, p: Parsers): seq<Claim>
    requires AllRaw(claims)
  {
    if claims == [] then []
    else
      var last := claims[|claims| - 1];
      KeptClaims(claims[..|claims| - 1], pharmacies, p)
        + (if KeepsClaim(last, pharmacies, p) then [ClaimOf(last, p)] else [])
  }

  /** The positions of the kept claims in the input, increasing. */
  function KeptClaimPositions(claims: seq<Record>, pharmacies: map<string, string>, p: Parsers): (ks: seq<nat>)
    requires AllRaw(claims)
    ensures |ks| <= |claims|
    ensures forall k :: 0 <= k < |ks| ==> ks[k] < |claims|
    ensures forall k, l :: 0 <= k < l < |ks| ==> ks[k] < ks[l]
    ensures forall i :: 0 <= i < |claims| ==> (i in ks <==> KeepsClaim(claims[i], pharmacies, p))
  {
    if claims == [] then []
    else
      var n := |claims| - 1;
      KeptClaimPositions(claims[..n], pharmacies, p) + (if KeepsClaim(claims[n], pharmacies, p) then [n] else [])
  }

  lemma KeptClaimsSnoc(done: seq<Record>, r: Record, pharmacies: map<string, string>, p: Parsers)
    requires AllRaw(done) && IsRaw(r)
    ensures AllRaw(done + [r])
    ensures KeptClaims(done + [r], pharmacies, p) ==
      KeptClaims(done, pharmacies, p) + (if KeepsClaim(r, pharmacies, p) then [ClaimOf(r, p)] else [])
  {
    var s := done + [r];
    assert s[..|s| - 1] == done && s[|s| - 1] == r;
  }

  /** `filter_claims`: validates each claim and appends those whose npi is a
      key of the pharmacy directory. */
  method FilterClaims(claims: seq<Record>, pharmacies: map<string, string>, p: Parsers) returns (filtered: seq<Claim>)
    requires AllRaw(claims)
    ensures filtered == KeptClaims(claims, pharmacies, p)
  {
    filtered := [];
    ghost var done: seq<Record> := [];
    for i := 0 to |claims|
      invariant done == claims[..i]
      invariant filtered == KeptClaims(done, pharmacies, p)
    {
      var ok, validated := ValidateClaim(claims[i], p);
      ClaimValidationFrame(claims[i], p);
      KeptClaimsSnoc(done, claims[i], pharmacies, p);
      if ok && validated["npi"].s in pharmacies {
        filtered := filtered + [ClaimOf(claims[i], p)];
      }
      PrefixSnoc(claims, i);
      done := done + [claims[i]];
    }
    assert done == claims;
  }

  /** `filter_claims` keeps exactly the claims that validate and name a known
      pharmacy, in input order: its output is the typed form of the inputs at
      increasing positions, and every such input is among them. */
  lemma {:induction false} FilterClaimsSelects(claims: seq<Record>, pharmacies: map<string, string>, p: Parsers)
    requires AllRaw(claims)
    ensures var out, ks := KeptClaims(claims, pharmacies, p), KeptClaimPositions(claims, pharmacies, p);
      |out| == |ks| <= |claims|
      && forall k :: 0 <= k < |ks| ==> KeepsClaim(claims[ks[k]], pharmacies, p) && out[k] == ClaimOf(claims[ks[k]], p)
  {
    if claims != [] {
      var n := |claims| - 1;
      var pre := claims[..n];
      FilterClaimsSelects(pre, pharmacies, p);
      var out, ks := KeptClaims(claims, pharmacies, p), KeptClaimPositions(claims, pharmacies, p);
      var out0, ks0 := KeptClaims(pre, pharmacies, p), KeptClaimPositions(pre, pharmacies, p);
      assert out == out0 + (if KeepsClaim(claims[n], pharmacies, p) then [ClaimOf(claims[n], p)] else []);
      assert ks == ks0 + (if KeepsClaim(claims[n], pharmacies, p) then [n] else []);
      forall k | 0 <= k < |ks|
        ensures KeepsClaim(claims[ks[k]], pharmacies, p) && out[k] == ClaimOf(claims[ks[k]], p)
      {
        if k < |ks0| {
          assert claims[ks0[k]] == pre[ks0[k]];
        }
      }
    }
  }

  /** Every kept claim names a known pharmacy, and every input claim that
      validates with a known pharmacy is kept. */
  lemma FilterClaimsSoundAndComplete(claims: seq<Record>, pharmacies: map<string, string>, p: Parsers)
    requires AllRaw(claims)
    ensures forall c :: c in KeptClaims(claims, pharmacies, p) ==> c.npi in pharmacies
    ensures forall i :: (0 <= i < |claims| && KeepsClaim(claims[i], pharmacies, p))
                          ==> ClaimOf(claims[i], p) in KeptClaims(claims, pharmacies, p)
  {
    FilterClaimsSelects(claims, pharmacies, p);
    var out, ks := KeptClaims(claims, pharmacies, p), KeptClaimPositions(claims, pharmacies, p);
    forall i | 0 <= i < |claims| && KeepsClaim(claims[i], pharmacies, p)
      ensures ClaimOf(claims[i], p) in out
    {
      var k :| 0 <= k < |ks| && ks[k] == i;
      assert out[k] == ClaimOf(claims[i], p);
    }
  }

  /** A claim that is not kept (a zero quantity, say) leaves no trace: the
      output is as if it had never been in the input. */
  lemma {:induction false} RejectedClaimLeavesNoTrace(a: seq<Record>, x: Record, b: seq<Record>, pharmacies: map<string, string>, p: Parsers)
    requires AllRaw(a) && IsRaw(x) && AllRaw(b)
    requires !KeepsClaim(x, pharmacies, p)
    ensures AllRaw(a + [x] + b) && AllRaw(a + b)
    ensures KeptClaims(a + [x] + b, pharmacies, p) == KeptClaims(a + b, pharmacies, p)
  {
    if b == [] {
      assert a + [x] + b == a + [x] && a + b == a;
      assert (a + [x])[..|a|] == a;
    } else {
      var b', y := b[..|b| - 1], b[|b| - 1];
      RejectedClaimLeavesNoTrace(a, x, b', pharmacies, p);
      assert (a + [x] + b)[..|a + [x] + b| - 1] == a + [x] + b';
      assert (a + b)[..|a + b| - 1] == a + b';
    }
  }

  /** The reverts `filter_reverts` keeps: they validate and reference a claim
      id of the supplied set. */
  predicate KeepsRevert(r: Record, validClaimIds: set<string>, p: Parsers)
    requires IsRaw(r)
  {
    RevertAcceptable(r, p) && TextOf(r, "claim_id") in validClaimIds
  }

  function KeptReverts(reverts: seq<Record>, validClaimIds: set<string>, p: Parsers): seq<Revert>
    requires AllRaw(reverts)
  {
    if reverts == [] then []
    else
      var last := reverts[|reverts| - 1];
      KeptReverts(reverts[..|reverts| - 1], validClaimIds, p)
        + (if KeepsRevert(last, validClaimIds, p) then [RevertOf(last, p)] else [])
  }

  function KeptRevertPositions(reverts: seq<Record>, validClaimIds: set<string>, p: Parsers): (ks: seq<nat>)
    requires AllRaw(reverts)
    ensures |ks| <= |reverts|
    ensures forall k :: 0 <= k < |ks| ==> ks[k] < |reverts|
    ensures forall k, l :: 0 <= k < l < |ks| ==> ks[k] < ks[l]
    ensures forall i :: 0 <= i < |reverts| ==> (i in ks <==> KeepsRevert(reverts[i], validClaimIds, p))
  {
    if reverts == [] then []
    else
      var n := |reverts| - 1;
      KeptRevertPositions(reverts[..n], validClaimIds, p) + (if KeepsRevert(reverts[n], validClaimIds, p) then [n] else [])
  }

  lemma KeptRevertsSnoc(done: seq<Record>, r: Record, validClaimIds: set<string>, p: Parsers)
    requires AllRaw(done) && IsRaw(r)
    ensures AllRaw(done + [r])
    ensures KeptReverts(done + [r], validClaimIds, p) ==
      KeptReverts(done, validClaimIds, p) + (if KeepsRevert(r, validClaimIds, p) then [RevertOf(r, p)] else [])
  {
    var s := done + [r];
    assert s[..|s| - 1] == done && s[|s| - 1] == r;
  }

  /** `filter_reverts`: validates each revert and appends those whose
      claim_id is in the set of valid claim ids. */
  method FilterReverts(reverts: seq<Record>, validClaimIds: set<string>, p: Parsers) returns (filtered: seq<Revert>)
    requires AllRaw(reverts)
    ensures filtered == KeptReverts(reverts, validClaimIds, p)
  {
    filtered := [];
    ghost var done: seq<Record> := [];
    for i := 0 to |reverts|
      invariant done == reverts[..i]
      invariant filtered == KeptReverts(done, validClaimIds, p)
    {
      var ok, validated := ValidateRevert(reverts[i], p);
      RevertValidationFrame(reverts[i], p);
      KeptRevertsSnoc(done, reverts[i], validClaimIds, p);
      if ok && validated["claim_id"].s in validClaimIds {
        filtered := filtered + [RevertOf(reverts[i], p)];
      }
      PrefixSnoc(reverts, i);
      done := done + [reverts[i]];
    }
    assert done == reverts;
  }

  /** `filter_reverts` keeps exactly the reverts that validate and reference a
      valid claim id, in input order. */
  lemma {:induction false} FilterRevertsSelects(reverts: seq<Record>, validClaimIds: set<string>, p: Parsers)
    requires AllRaw(reverts)
    ensures var out, ks := KeptReverts(reverts, validClaimIds, p), KeptRevertPositions(reverts, validClaimIds, p);
      |out| == |ks| <= |reverts|
      && forall k :: 0 <= k < |ks| ==> KeepsRevert(reverts[ks[k]], validClaimIds, p) && out[k] == RevertOf(reverts[ks[k]], p)
  {
    if reverts != [] {
      var n := |reverts| - 1;
      var pre := reverts[..n];
      FilterRevertsSelects(pre, validClaimIds, p);
      var out, ks := KeptReverts(reverts, validClaimIds, p), KeptRevertPositions(reverts, validClaimIds, p);
      var out0, ks0 := KeptReverts(pre, validClaimIds, p), KeptRevertPositions(pre, validClaimIds, p);
      assert out == out0 + (if KeepsRevert(reverts[n], validClaimIds, p) then [RevertOf(reverts[n], p)] else []);
      assert ks == ks0 + (if KeepsRevert(reverts[n], validClaimIds, p) then [n] else []);
      forall k | 0 <= k < |ks|
        ensures KeepsRevert(reverts[ks[k]], validClaimIds, p) && out[k] == RevertOf(reverts[ks[k]], p)
      {
        if k < |ks0| {
          assert reverts[ks0[k]] == pre[ks0[k]];
        }
      }
    }
  }

  /** Referential integrity: every kept revert references a valid claim id,
      and every validating revert that does is kept. */
  lemma FilterRevertsSoundAndComplete(reverts: seq<Record>, validClaimIds: set<string>, p: Parsers)
    requires AllRaw(reverts)
    ensures forall v :: v in KeptReverts(reverts, validClaimIds, p) ==> v.claimId in validClaimIds
    ensures forall i :: (0 <= i < |reverts| && KeepsRevert(reverts[i], validClaimIds, p))
                          ==> RevertOf(reverts[i], p) in KeptReverts(reverts, validClaimIds, p)
  {
    FilterRevertsSelects(reverts, validClaimIds, p);
    var out, ks := KeptReverts(reverts, validClaimIds, p), KeptRevertPositions(reverts, validClaimIds, p);
    forall i | 0 <= i < |reverts| && KeepsRevert(reverts[i], validClaimIds, p)
      ensures RevertOf(reverts[i], p) in out
    {
      var k :| 0 <= k < |ks| && ks[k] == i;
      assert out[k] == RevertOf(reverts[i], p);
    }
  }
}
