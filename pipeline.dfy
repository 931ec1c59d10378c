/** The composition in `main` (main.py): the claims are filtered against the
    pharmacy directory, the reverts against the ids of the kept claims, and the
    three reports are computed from what was kept. Reading the input
    directories and writing the JSON files are left out. */
module Pipeline {
  import opened Wrappers
  import opened Seqs
  import opened DataValidator
  import opened MetricsCalculator

  /** `set(claim['id'] for claim in filtered_claims)`. */
  function ClaimIds(claims: seq<Claim>): (ids: set<string>)
    ensures forall c :: c in claims ==> c.id in ids
    ensures forall id :: id in ids ==> exists c :: c in claims && c.id == id
  {
    set c | c in claims :: c.id
  }

  /** The three reports `main` writes. */
  datatype Reports = Reports(metrics: seq<MetricsEntry>, recommendations: seq<Recommendation>,
                             commonQuantities: seq<CommonQuantity>)

  /** What `main` reports for the pharmacy directory and the raw claims and
      reverts. */
  function ReportsFor(pharmacies: map<string, string>, claims: seq<Record>, reverts: seq<Record>, p: Parsers): Reports
    requires AllRaw(claims) && AllRaw(reverts)
  {
    var kept := KeptClaims(claims, pharmacies, p);
    var keptReverts := KeptReverts(reverts, ClaimIds(kept), p);
    Reports(Metrics(kept, keptReverts), Recommendations(kept, pharmacies), CommonQuantities(kept))
  }

  /** `main`, between reading the inputs and writing the outputs. */
  method Run(pharmacies: map<string, string>, claims: seq<Record>, reverts: seq<Record>, p: Parsers)
    returns (reports: Reports)
    requires AllRaw(claims) && AllRaw(reverts)
    ensures reports == ReportsFor(pharmacies, claims, reverts, p)
  {
    var filteredClaims := FilterClaims(claims, pharmacies, p);
    var validClaimIds := ClaimIds(filteredClaims);
    var filteredReverts := FilterReverts(reverts, validClaimIds, p);
    var metrics := CalculateMetrics(filteredClaims, filteredReverts);
    var recommendations := CalculateChainRecommendations(filteredClaims, pharmacies);
    var commonQuantities := CalculateCommonQuantities(filteredClaims);
    reports := Reports(metrics, recommendations, commonQuantities);
  }

  /** Every revert that reaches the metrics cancels a claim that reached them
      too. */
  lemma RevertsReferenceKeptClaims(pharmacies: map<string, string>, claims: seq<Record>, reverts: seq<Record>, p: Parsers)
    requires AllRaw(claims) && AllRaw(reverts)
    ensures var kept := KeptClaims(claims, pharmacies, p);
      forall v :: v in KeptReverts(reverts, ClaimIds(kept), p) ==> exists c :: c in kept && c.id == v.claimId
  {
    var kept := KeptClaims(claims, pharmacies, p);
    FilterRevertsSoundAndComplete(reverts, ClaimIds(kept), p);
  }

  lemma {:induction false} KeyFromClaim(claims: seq<Claim>, k: Key)
    requires k in KeysOf(claims)
    ensures exists c :: c in claims && KeyOf(c) == k
  {
    var n := |claims| - 1;
    if k != KeyOf(claims[n]) {
      KeyFromClaim(claims[..n], k);
      var c :| c in claims[..n] && KeyOf(c) == k;
      assert c in claims;
    }
  }

  lemma {:induction false} EntryKeysIndex(es: seq<MetricsEntry>, j: nat)
    requires j < |es|
    ensures EntryKeys(es)[j] == Key(es[j].npi, es[j].ndc)
  {
    if j < |es| - 1 {
      EntryKeysIndex(es[..|es| - 1], j);
    }
  }

  /** Every metrics line is for a pharmacy of the directory. */
  lemma MetricsPharmaciesKnown(pharmacies: map<string, string>, claims: seq<Record>, reverts: seq<Record>, p: Parsers)
    requires AllRaw(claims) && AllRaw(reverts)
    ensures forall e :: e in ReportsFor(pharmacies, claims, reverts, p).metrics ==> e.npi in pharmacies
  {
    var kept := KeptClaims(claims, pharmacies, p);
    var es := ReportsFor(pharmacies, claims, reverts, p).metrics;
    FilterClaimsSoundAndComplete(claims, pharmacies, p);
    MetricsOnePerPair(kept, KeptReverts(reverts, ClaimIds(kept), p));
    forall e | e in es ensures e.npi in pharmacies {
      var j :| 0 <= j < |es| && es[j] == e;
      EntryKeysIndex(es, j);
      DedupContains(KeysOf(kept), Key(e.npi, e.ndc));
      KeyFromClaim(kept, Key(e.npi, e.ndc));
    }
  }

  lemma {:induction false} ChainKeysNamed(claims: seq<Claim>, pharmacies: map<string, string>, k: ChainKey)
    requires forall c :: c in claims ==> c.npi in pharmacies
    requires k in ChainKeysOf(claims, pharmacies)
    ensures exists c :: c in claims && k.ndc == c.ndc && c.npi in pharmacies && k.chain == Some(pharmacies[c.npi])
  {
    var n := |claims| - 1;
    if k != ChainKeyOf(claims[n], pharmacies) {
      ChainKeysNamed(claims[..n], pharmacies, k);
      var c :| c in claims[..n] && k.ndc == c.ndc && c.npi in pharmacies && k.chain == Some(pharmacies[c.npi]);
      assert c in claims;
    }
  }

  /** Every recommended chain is the chain of a directory pharmacy that filled
      the drug: since claims from pharmacies outside the directory are dropped,
      no recommendation names a missing chain. */
  lemma RecommendedChainsKnown(pharmacies: map<string, string>, claims: seq<Record>, p: Parsers, j: nat, i: nat)
    requires AllRaw(claims)
    requires j < |Recommendations(KeptClaims(claims, pharmacies, p), pharmacies)|
    requires i < |Recommendations(KeptClaims(claims, pharmacies, p), pharmacies)[j].chains|
    ensures var kept := KeptClaims(claims, pharmacies, p);
      var r := Recommendations(kept, pharmacies)[j];
      exists c :: c in kept && c.ndc == r.ndc && c.npi in pharmacies && r.chains[i].name == Some(pharmacies[c.npi])
  {
    var kept := KeptClaims(claims, pharmacies, p);
    var r := Recommendations(kept, pharmacies)[j];
    FilterClaimsSoundAndComplete(claims, pharmacies, p);
    assert r.chains == TopChains(DrugChainPrices(kept, pharmacies, r.ndc));
    CheapestChainsPriced(kept, pharmacies, r.ndc);
    ChainKeysNamed(kept, pharmacies, ChainKey(r.ndc, r.chains[i].name));
  }
}
