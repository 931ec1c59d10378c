/** The three aggregations over the filtered claims
    (pharmacy_app/metrics_calculator.py). Each fills a dictionary of
    accumulators in one loop and then turns it into an output list in a
    second; the dictionaries keep their keys in first-insertion order, which
    the model keeps as an explicit key sequence beside a map. Amounts are
    exact reals and nothing is rounded. */
module MetricsCalculator {
  import opened Wrappers
  import opened Seqs
  import opened Sorting
  import opened DataValidator

  function UnitPrice(c: Claim): real
  {
    c.price / c.quantity
  }

  // ================================================================ calculate_metrics

  /** A (pharmacy, drug) pair. */
  datatype Key = Key(npi: string, ndc: string)

  /** One line of the metrics report. */
  datatype MetricsEntry = MetricsEntry(npi: string, ndc: string, fills: nat, reverted: nat,
                                       avgPrice: real, totalPrice: real)

  /** The running totals kept for one pair. */
  datatype Tally = Tally(fills: nat, reverted: nat, unitPriceSum: real, priceSum: real)

  function KeyOf(c: Claim): Key
  {
    Key(c.npi, c.ndc)
  }

  /** The pair of every claim, in claim order. */
  function KeysOf(claims: seq<Claim>): (ks: seq<Key>)
    ensures |ks| == |claims|
  {
    if claims == [] then [] else KeysOf(claims[..|claims| - 1]) + [KeyOf(claims[|claims| - 1])]
  }

  lemma KeysOfSnoc(claims: seq<Claim>, c: Claim)
    ensures KeysOf(claims + [c]) == KeysOf(claims) + [KeyOf(c)]
  {
    assert (claims + [c])[..|claims|] == claims;
  }

  /** The claim ids that some revert points at:
      `set(revert['claim_id'] for revert in reverts)`. */
  function RevertedClaimIds(reverts: seq<Revert>): (ids: set<string>)
    ensures forall r :: r in reverts ==> r.claimId in ids
    ensures forall id :: id in ids ==> exists r :: r in reverts && r.claimId == id
  {
    set r | r in reverts :: r.claimId
  }

  /** How many claims of the pair have an id in `ids`. */
  function RevertedCount(claims: seq<Claim>, ids: set<string>, k: Key): nat
  {
    if claims == [] then 0
    else
      var c := claims[|claims| - 1];
      RevertedCount(claims[..|claims| - 1], ids, k) + (if KeyOf(c) == k && c.id in ids then 1 else 0)
  }

  /** The sum of price/quantity over the claims of the pair. */
  function UnitPriceSum(claims: seq<Claim>, k: Key): real
  {
    if claims == [] then 0.0
    else
      var c := claims[|claims| - 1];
      UnitPriceSum(claims[..|claims| - 1], k) + (if KeyOf(c) == k then UnitPrice(c) else 0.0)
  }

  /** The sum of prices over the claims of the pair. */
  function PriceSum(claims: seq<Claim>, k: Key): real
  {
    if claims == [] then 0.0
    else
      var c := claims[|claims| - 1];
      PriceSum(claims[..|claims| - 1], k) + (if KeyOf(c) == k then c.price else 0.0)
  }

  /** The totals of the pair over `claims`: what `metrics[key]` holds after
      the first loop has seen them. */
  function TallyOf(claims: seq<Claim>, ids: set<string>, k: Key): Tally
  {
    Tally(Count(KeysOf(claims), k), RevertedCount(claims, ids, k), UnitPriceSum(claims, k), PriceSum(claims, k))
  }

  /** The totals after one more claim: the first loop's body. */
  lemma TallySnoc(claims: seq<Claim>, c: Claim, ids: set<string>, k: Key)
    ensures TallyOf(claims + [c], ids, k) ==
      var t := TallyOf(claims, ids, k);
      if KeyOf(c) != k then t
      else Tally(t.fills + 1, t.reverted + (if c.id in ids then 1 else 0),
                 t.unitPriceSum + UnitPrice(c), t.priceSum + c.price)
  {
    assert (claims + [c])[..|claims|] == claims;
    KeysOfSnoc(claims, c);
    CountSnoc(KeysOf(claims), KeyOf(c), k);
  }

  /** A pair with no claim has all-zero totals. */
  lemma {:induction false} TallyOfAbsent(claims: seq<Claim>, ids: set<string>, k: Key)
    requires k !in KeysOf(claims)
    ensures TallyOf(claims, ids, k) == Tally(0, 0, 0.0, 0.0)
  {
    CountPositive(KeysOf(claims), k);
    if claims != [] {
      var n := |claims| - 1;
      assert KeysOf(claims)[..n] == KeysOf(claims[..n]);
      TallyOfAbsent(claims[..n], ids, k);
    }
  }

  /** The report line of a pair that has claims. */
  function EntryFor(claims: seq<Claim>, ids: set<string>, k: Key): MetricsEntry
    requires k in KeysOf(claims)
  {
    CountPositive(KeysOf(claims), k);
    var t := TallyOf(claims, ids, k);
    MetricsEntry(k.npi, k.ndc, t.fills, t.reverted, t.unitPriceSum / t.fills as real, t.priceSum)
  }

  function EntriesFor(keys: seq<Key>, claims: seq<Claim>, ids: set<string>): (es: seq<MetricsEntry>)
    requires forall j :: 0 <= j < |keys| ==> keys[j] in KeysOf(claims)
  {
    seq(|keys|, j requires 0 <= j < |keys| => EntryFor(claims, ids, keys[j]))
  }

  /** What `calculate_metrics` returns: one line per distinct pair, in the
      order the pairs first occur among the claims. */
  function Metrics(claims: seq<Claim>, reverts: seq<Revert>): seq<MetricsEntry>
  {
    DedupMembers(KeysOf(claims));
    EntriesFor(Dedup(KeysOf(claims)), claims, RevertedClaimIds(reverts))
  }

  /** The dictionary the first loop of `calculate_metrics` builds, one claim
      at a time; `TallyTableMeaning` says what it holds. */
  function TallyTable(claims: seq<Claim>, ids: set<string>): map<Key, Tally>
  {
    if claims == [] then map[]
    else
      var m := TallyTable(claims[..|claims| - 1], ids);
      var c := claims[|claims| - 1];
      var t := if KeyOf(c) in m then m[KeyOf(c)] else Tally(0, 0, 0.0, 0.0);
      m[KeyOf(c) := Tally(t.fills + 1, t.reverted + (if c.id in ids then 1 else 0),
                          t.unitPriceSum + UnitPrice(c), t.priceSum + c.price)]
  }

  /** One more claim, in the form the loop uses. */
  lemma TallyTableStep(done: seq<Claim>, ids: set<string>, m: map<Key, Tally>,
                       c: Claim, key: Key, unitPrice: real, t: Tally)
    requires m == TallyTable(done, ids)
    requires key == KeyOf(c) && unitPrice == UnitPrice(c)
    requires t == if key in m then m[key] else Tally(0, 0, 0.0, 0.0)
    ensures m[key := Tally(t.fills + 1, t.reverted + (if c.id in ids then 1 else 0),
                           t.unitPriceSum + unitPrice, t.priceSum + c.price)]
            == TallyTable(done + [c], ids)
  {
    var s := done + [c];
    assert s[..|s| - 1] == done && s[|s| - 1] == c;
  }

  /** The pair order after one more claim, in the form the loop uses. */
  lemma KeyOrderStep(done: seq<Claim>, ids: set<string>, order: seq<Key>, m: map<Key, Tally>, key: Key, c: Claim)
    requires order == Dedup(KeysOf(done)) && m == TallyTable(done, ids)
    requires key == KeyOf(c)
    ensures (if key in m then order else order + [key]) == Dedup(KeysOf(done + [c]))
  {
    KeysOfSnoc(done, c);
    DedupSnoc(KeysOf(done), key);
    TallyTableDomain(done, ids);
    DedupContains(KeysOf(done), key);
  }

  /** The dictionary has an entry for exactly the pairs that occur. */
  lemma {:induction false} TallyTableDomain(claims: seq<Claim>, ids: set<string>)
    ensures forall k :: k in TallyTable(claims, ids) <==> k in KeysOf(claims)
  {
    if claims != [] {
      var n := |claims| - 1;
      TallyTableDomain(claims[..n], ids);
      assert claims == claims[..n] + [claims[n]];
      KeysOfSnoc(claims[..n], claims[n]);
    }
  }

  /** Each entry holds the pair's totals over all claims. */
  lemma {:induction false} TallyTableMeaning(claims: seq<Claim>, ids: set<string>)
    ensures forall k :: k in TallyTable(claims, ids) ==> TallyTable(claims, ids)[k] == TallyOf(claims, ids, k)
  {
    if claims != [] {
      var n := |claims| - 1;
      var c := claims[n];
      var m := TallyTable(claims[..n], ids);
      TallyTableMeaning(claims[..n], ids);
      assert claims == claims[..n] + [c];
      if KeyOf(c) !in m {
        TallyTableDomain(claims[..n], ids);
        TallyOfAbsent(claims[..n], ids, KeyOf(c));
      }
      forall k | k in TallyTable(claims, ids)
        ensures TallyTable(claims, ids)[k] == TallyOf(claims, ids, k)
      {
        TallySnoc(claims[..n], c, ids, k);
      }
    }
  }

  /** The first loop of `calculate_metrics`. */
  method TallyMetrics(claims: seq<Claim>, revertedIds: set<string>) returns (order: seq<Key>, metrics: map<Key, Tally>)
    ensures order == Dedup(KeysOf(claims))
    ensures forall k :: k in metrics <==> k in order
    ensures forall k :: k in metrics ==> metrics[k] == TallyOf(claims, revertedIds, k)
  {
    order, metrics := [], map[];
    ghost var done: seq<Claim> := [];
    for i := 0 to |claims|
      invariant done == claims[..i]
      invariant order == Dedup(KeysOf(done))
      invariant metrics == TallyTable(done, revertedIds)
    {
      var claim := claims[i];
      var key := Key(claim.npi, claim.ndc);
      var unitPrice := UnitPrice(claim);
      var t := if key in metrics then metrics[key] else Tally(0, 0, 0.0, 0.0);
      KeyOrderStep(done, revertedIds, order, metrics, key, claim);
      TallyTableStep(done, revertedIds, metrics, claim, key, unitPrice, t);
      if key !in metrics {
        order := order + [key];
      }
      metrics := metrics[key := Tally(t.fills + 1, t.reverted + (if claim.id in revertedIds then 1 else 0),
                                      t.unitPriceSum + unitPrice, t.priceSum + claim.price)];
      PrefixSnoc(claims, i);
      done := done + [claim];
    }
    assert done == claims;
    TallyTableDomain(claims, revertedIds);
    TallyTableMeaning(claims, revertedIds);
    DedupMembers(KeysOf(claims));
  }

  /** `calculate_metrics`: tallies the claims, then emits one line per pair
      with the average unit price. */
  method CalculateMetrics(claims: seq<Claim>, reverts: seq<Revert>) returns (output: seq<MetricsEntry>)
    ensures output == Metrics(claims, reverts)
  {
    var revertedIds := RevertedClaimIds(reverts);
    var order, metrics := TallyMetrics(claims, revertedIds);
    DedupMembers(KeysOf(claims));
    ghost var spec := Metrics(claims, reverts);
    assert |spec| == |order|;
    output := [];
    for j := 0 to |order|
      invariant output == spec[..j]
    {
      var key := order[j];
      var entry := metrics[key];
      DedupContains(KeysOf(claims), key);
      CountPositive(KeysOf(claims), key);
      var avgPrice := entry.unitPriceSum / entry.fills as real;
      assert spec[j] == MetricsEntry(key.npi, key.ndc, entry.fills, entry.reverted, avgPrice, entry.priceSum);
      PrefixSnoc(spec, j);
      output := output + [MetricsEntry(key.npi, key.ndc, entry.fills, entry.reverted, avgPrice, entry.priceSum)];
    }
    assert spec[..|order|] == spec;
  }

  function EntryKeys(es: seq<MetricsEntry>): (ks: seq<Key>)
    ensures |ks| == |es|
  {
    if es == [] then [] else EntryKeys(es[..|es| - 1]) + [Key(es[|es| - 1].npi, es[|es| - 1].ndc)]
  }

  function TotalFills(es: seq<MetricsEntry>): nat
  {
    if es == [] then 0 else TotalFills(es[..|es| - 1]) + es[|es| - 1].fills
  }

  lemma {:induction false} EntriesForPrefix(keys: seq<Key>, claims: seq<Claim>, ids: set<string>, n: nat)
    requires forall j :: 0 <= j < |keys| ==> keys[j] in KeysOf(claims)
    requires n <= |keys|
    ensures EntriesFor(keys, claims, ids)[..n] == EntriesFor(keys[..n], claims, ids)
  {
  }

  /** The report has one line per distinct (npi, ndc) pair of the claims, in
      the order the pairs first occur, and so as many lines as there are
      distinct pairs. */
  lemma {:induction false} MetricsOnePerPair(claims: seq<Claim>, reverts: seq<Revert>)
    ensures EntryKeys(Metrics(claims, reverts)) == Dedup(KeysOf(claims))
    ensures |Metrics(claims, reverts)| == |set k | k in KeysOf(claims)|
  {
    var ks := Dedup(KeysOf(claims));
    var ids := RevertedClaimIds(reverts);
    DedupMembers(KeysOf(claims));
    DedupCard(KeysOf(claims));
    EntryKeysOf(ks, claims, ids);
  }

  lemma {:induction false} EntryKeysOf(keys: seq<Key>, claims: seq<Claim>, ids: set<string>)
    requires forall j :: 0 <= j < |keys| ==> keys[j] in KeysOf(claims)
    ensures EntryKeys(EntriesFor(keys, claims, ids)) == keys
  {
    if keys != [] {
      var n := |keys| - 1;
      EntriesForPrefix(keys, claims, ids, n);
      EntryKeysOf(keys[..n], claims, ids);
      assert keys == keys[..n] + [keys[n]];
    }
  }

  lemma {:induction false} TotalFillsOf(keys: seq<Key>, claims: seq<Claim>, ids: set<string>)
    requires forall j :: 0 <= j < |keys| ==> keys[j] in KeysOf(claims)
    ensures TotalFills(EntriesFor(keys, claims, ids)) == SumCounts(keys, KeysOf(claims))
  {
    if keys != [] {
      var n := |keys| - 1;
      EntriesForPrefix(keys, claims, ids, n);
      TotalFillsOf(keys[..n], claims, ids);
    }
  }

  /** Every claim is counted as a fill of exactly one line: the fills add up
      to the number of claims. */
  lemma MetricsFillsSum(claims: seq<Claim>, reverts: seq<Revert>)
    ensures TotalFills(Metrics(claims, reverts)) == |claims|
  {
    DedupMembers(KeysOf(claims));
    TotalFillsOf(Dedup(KeysOf(claims)), claims, RevertedClaimIds(reverts));
    SumCountsOfDedup(KeysOf(claims));
  }

  lemma {:induction false} RevertedAtMostFills(claims: seq<Claim>, ids: set<string>, k: Key)
    ensures RevertedCount(claims, ids, k) <= Count(KeysOf(claims), k)
  {
    if claims != [] {
      var n := |claims| - 1;
      RevertedAtMostFills(claims[..n], ids, k);
      assert KeysOf(claims)[..n] == KeysOf(claims[..n]);
    }
  }

  /** Each line is the pair's fills, the reverted claims among them, the total
      price, and the mean of the unit prices. */
  lemma MetricsLine(claims: seq<Claim>, reverts: seq<Revert>, j: nat)
    requires j < |Metrics(claims, reverts)|
    ensures var e, ids := Metrics(claims, reverts)[j], RevertedClaimIds(reverts);
      var k := Key(e.npi, e.ndc);
      0 < e.fills == Count(KeysOf(claims), k)
      && e.reverted == RevertedCount(claims, ids, k) <= e.fills
      && e.totalPrice == PriceSum(claims, k)
      && e.avgPrice == UnitPriceSum(claims, k) / (e.fills as real)
  {
    var ids := RevertedClaimIds(reverts);
    DedupMembers(KeysOf(claims));
    var k := Dedup(KeysOf(claims))[j];
    assert k in KeysOf(claims);
    var e := Metrics(claims, reverts)[j];
    assert e == EntryFor(claims, ids, k);
    CountPositive(KeysOf(claims), k);
    RevertedAtMostFills(claims, ids, k);
  }

  lemma {:induction false} RevertedIgnoresForeignId(claims: seq<Claim>, ids: set<string>, x: string, k: Key)
    requires forall i :: 0 <= i < |claims| ==> claims[i].id != x
    ensures RevertedCount(claims, ids + {x}, k) == RevertedCount(claims, ids, k)
  {
    if claims != [] {
      RevertedIgnoresForeignId(claims[..|claims| - 1], ids, x, k);
    }
  }

  /** A revert whose claim_id matches no claim changes no line. */
  lemma UnmatchedRevertChangesNothing(claims: seq<Claim>, reverts: seq<Revert>, r: Revert)
    requires forall i :: 0 <= i < |claims| ==> claims[i].id != r.claimId
    ensures Metrics(claims, reverts + [r]) == Metrics(claims, reverts)
  {
    var ids := RevertedClaimIds(reverts);
    assert RevertedClaimIds(reverts + [r]) == ids + {r.claimId};
    forall k ensures RevertedCount(claims, ids + {r.claimId}, k) == RevertedCount(claims, ids, k) {
      RevertedIgnoresForeignId(claims, ids, r.claimId, k);
    }
  }

  // ================================================================ calculate_chain_recommendations

  /** A (drug, chain) pair; the chain is absent when the npi has no entry in
      the pharmacy directory (`pharmacies.get(npi)` is None). */
  datatype ChainKey = ChainKey(ndc: string, chain: Option<string>)

  /** A chain and its mean unit price for one drug. */
  datatype ChainPrice = ChainPrice(name: Option<string>, avgPrice: real)

  /** The recommended chains for one drug. */
  datatype Recommendation = Recommendation(ndc: string, chains: seq<ChainPrice>)

  /** The running totals kept for one (drug, chain) pair. */
  datatype PriceTally = PriceTally(unitPriceSum: real, count: nat)

  function ChainOf(pharmacies: map<string, string>, npi: string): Option<string>
  {
    if npi in pharmacies then Some(pharmacies[npi]) else None
  }

  function ChainKeyOf(c: Claim, pharmacies: map<string, string>): ChainKey
  {
    ChainKey(c.ndc, ChainOf(pharmacies, c.npi))
  }

  /** The (drug, chain) pair of every claim, in claim order. */
  function ChainKeysOf(claims: seq<Claim>, pharmacies: map<string, string>): (ks: seq<ChainKey>)
    ensures |ks| == |claims|
  {
    if claims == [] then []
    else ChainKeysOf(claims[..|claims| - 1], pharmacies) + [ChainKeyOf(claims[|claims| - 1], pharmacies)]
  }

  lemma ChainKeysOfSnoc(claims: seq<Claim>, c: Claim, pharmacies: map<string, string>)
    ensures ChainKeysOf(claims + [c], pharmacies) == ChainKeysOf(claims, pharmacies) + [ChainKeyOf(c, pharmacies)]
  {
    assert (claims + [c])[..|claims|] == claims;
  }

  /** The sum of price/quantity over the claims of the pair. */
  function ChainUnitPriceSum(claims: seq<Claim>, pharmacies: map<string, string>, k: ChainKey): real
  {
    if claims == [] then 0.0
    else
      var c := claims[|claims| - 1];
      ChainUnitPriceSum(claims[..|claims| - 1], pharmacies, k)
        + (if ChainKeyOf(c, pharmacies) == k then UnitPrice(c) else 0.0)
  }

  /** What `ndc_chain_prices[(ndc, chain)]` holds after the first loop. */
  function PriceTallyOf(claims: seq<Claim>, pharmacies: map<string, string>, k: ChainKey): PriceTally
  {
    PriceTally(ChainUnitPriceSum(claims, pharmacies, k), Count(ChainKeysOf(claims, pharmacies), k))
  }

  lemma PriceTallySnoc(claims: seq<Claim>, c: Claim, pharmacies: map<string, string>, k: ChainKey)
    ensures PriceTallyOf(claims + [c], pharmacies, k) ==
      var t := PriceTallyOf(claims, pharmacies, k);
      if ChainKeyOf(c, pharmacies) != k then t
      else PriceTally(t.unitPriceSum + UnitPrice(c), t.count + 1)
  {
    assert (claims + [c])[..|claims|] == claims;
    ChainKeysOfSnoc(claims, c, pharmacies);
    CountSnoc(ChainKeysOf(claims, pharmacies), ChainKeyOf(c, pharmacies), k);
  }

  lemma {:induction false} PriceTallyAbsent(claims: seq<Claim>, pharmacies: map<string, string>, k: ChainKey)
    requires k !in ChainKeysOf(claims, pharmacies)
    ensures PriceTallyOf(claims, pharmacies, k) == PriceTally(0.0, 0)
  {
    CountPositive(ChainKeysOf(claims, pharmacies), k);
    if claims != [] {
      var n := |claims| - 1;
      assert ChainKeysOf(claims, pharmacies)[..n] == ChainKeysOf(claims[..n], pharmacies);
      PriceTallyAbsent(claims[..n], pharmacies, k);
    }
  }

  /** The mean unit price of a pair. The code only computes it for pairs that
      have claims (see `PairHasClaims`); the zero branch is never taken there. */
  function ChainPriceOf(claims: seq<Claim>, pharmacies: map<string, string>, k: ChainKey): ChainPrice
  {
    var t := PriceTallyOf(claims, pharmacies, k);
    ChainPrice(k.chain, if t.count == 0 then 0.0 else t.unitPriceSum / t.count as real)
  }

  lemma PairHasClaims(claims: seq<Claim>, pharmacies: map<string, string>, k: ChainKey)
    ensures k in ChainKeysOf(claims, pharmacies) <==> PriceTallyOf(claims, pharmacies, k).count > 0
  {
    CountPositive(ChainKeysOf(claims, pharmacies), k);
  }

  /** The drugs of the pairs, in pair order. */
  function NdcsOfKeys(keys: seq<ChainKey>): (ns: seq<string>)
    ensures |ns| == |keys|
  {
    if keys == [] then [] else NdcsOfKeys(keys[..|keys| - 1]) + [keys[|keys| - 1].ndc]
  }

  /** The priced chains of drug `ndc` among the pairs `keys`, in pair order:
      `ndc_chain_avg_prices[ndc]`. */
  function DrugPrices(keys: seq<ChainKey>, ndc: string, claims: seq<Claim>, pharmacies: map<string, string>): seq<ChainPrice>
  {
    if keys == [] then []
    else
      var k := keys[|keys| - 1];
      DrugPrices(keys[..|keys| - 1], ndc, claims, pharmacies)
        + (if k.ndc == ndc then [ChainPriceOf(claims, pharmacies, k)] else [])
  }

  function AvgPrice(cp: ChainPrice): real
  {
    cp.avgPrice
  }

  /** `sorted(chains, key=avg_price)[:2]`. */
  function TopChains(prices: seq<ChainPrice>): seq<ChainPrice>
  {
    Top(prices, AvgPrice, 2)
  }

  /** What `calculate_chain_recommendations` returns: per drug, in the order
      drugs first occur among the pairs, its two cheapest chains. */
  function Recommendations(claims: seq<Claim>, pharmacies: map<string, string>): seq<Recommendation>
  {
    var keys := Dedup(ChainKeysOf(claims, pharmacies));
    var ndcs := Dedup(NdcsOfKeys(keys));
    seq(|ndcs|, j requires 0 <= j < |ndcs| =>
      Recommendation(ndcs[j], TopChains(DrugPrices(keys, ndcs[j], claims, pharmacies))))
  }

  /** The dictionary `ndc_chain_prices` the first loop builds, one claim at
      a time; `PriceTableMeaning` says what it holds. */
  function PriceTable(claims: seq<Claim>, pharmacies: map<string, string>): map<ChainKey, PriceTally>
  {
    if claims == [] then map[]
    else
      var m := PriceTable(claims[..|claims| - 1], pharmacies);
      var c := claims[|claims| - 1];
      var key := ChainKeyOf(c, pharmacies);
      var t := if key in m then m[key] else PriceTally(0.0, 0);
      m[key := PriceTally(t.unitPriceSum + UnitPrice(c), t.count + 1)]
  }

  /** One more claim, in the form the loop uses. */
  lemma PriceTableStep(done: seq<Claim>, pharmacies: map<string, string>, m: map<ChainKey, PriceTally>,
                       c: Claim, key: ChainKey, unitPrice: real, t: PriceTally)
    requires m == PriceTable(done, pharmacies)
    requires key == ChainKeyOf(c, pharmacies) && unitPrice == UnitPrice(c)
    requires t == if key in m then m[key] else PriceTally(0.0, 0)
    ensures m[key := PriceTally(t.unitPriceSum + unitPrice, t.count + 1)] == PriceTable(done + [c], pharmacies)
  {
    var s := done + [c];
    assert s[..|s| - 1] == done && s[|s| - 1] == c;
  }

  /** The pair order after one more claim, in the form the loop uses. */
  lemma ChainOrderStep(done: seq<Claim>, pharmacies: map<string, string>, order: seq<ChainKey>,
                       m: map<ChainKey, PriceTally>, key: ChainKey, c: Claim)
    requires order == Dedup(ChainKeysOf(done, pharmacies)) && m == PriceTable(done, pharmacies)
    requires key == ChainKeyOf(c, pharmacies)
    ensures (if key in m then order else order + [key]) == Dedup(ChainKeysOf(done + [c], pharmacies))
  {
    ChainKeysOfSnoc(done, c, pharmacies);
    DedupSnoc(ChainKeysOf(done, pharmacies), key);
    PriceTableDomain(done, pharmacies);
    DedupContains(ChainKeysOf(done, pharmacies), key);
  }

  lemma {:induction false} PriceTableDomain(claims: seq<Claim>, pharmacies: map<string, string>)
    ensures forall k :: k in PriceTable(claims, pharmacies) <==> k in ChainKeysOf(claims, pharmacies)
  {
    if claims != [] {
      var n := |claims| - 1;
      PriceTableDomain(claims[..n], pharmacies);
      assert claims == claims[..n] + [claims[n]];
      ChainKeysOfSnoc(claims[..n], claims[n], pharmacies);
    }
  }

  /** One more claim keeps every entry equal to its pair's totals. */
  lemma PriceTableMeaningSnoc(done: seq<Claim>, c: Claim, pharmacies: map<string, string>)
    requires forall k :: k in PriceTable(done, pharmacies) ==>
      PriceTable(done, pharmacies)[k] == PriceTallyOf(done, pharmacies, k)
    ensures forall k :: k in PriceTable(done + [c], pharmacies) ==>
      PriceTable(done + [c], pharmacies)[k] == PriceTallyOf(done + [c], pharmacies, k)
  {
    var m := PriceTable(done, pharmacies);
    var key := ChainKeyOf(c, pharmacies);
    var t := if key in m then m[key] else PriceTally(0.0, 0);
    PriceTableStep(done, pharmacies, m, c, key, UnitPrice(c), t);
    if key !in m {
      PriceTableDomain(done, pharmacies);
      PriceTallyAbsent(done, pharmacies, key);
    }
    forall k | k in PriceTable(done + [c], pharmacies)
      ensures PriceTable(done + [c], pharmacies)[k] == PriceTallyOf(done + [c], pharmacies, k)
    {
      PriceTallySnoc(done, c, pharmacies, k);
    }
  }

  /** Each entry holds the pair's unit-price total and claim count. */
  lemma {:induction false} PriceTableMeaning(claims: seq<Claim>, pharmacies: map<string, string>)
    ensures forall k :: k in PriceTable(claims, pharmacies) ==>
      PriceTable(claims, pharmacies)[k] == PriceTallyOf(claims, pharmacies, k)
  {
    if claims != [] {
      var n := |claims| - 1;
      PriceTableMeaning(claims[..n], pharmacies);
      PriceTableMeaningSnoc(claims[..n], claims[n], pharmacies);
      assert claims == claims[..n] + [claims[n]];
    }
  }

  /** The first loop of `calculate_chain_recommendations`. */
  method TallyChainPrices(claims: seq<Claim>, pharmacies: map<string, string>)
    returns (order: seq<ChainKey>, tallies: map<ChainKey, PriceTally>)
    ensures order == Dedup(ChainKeysOf(claims, pharmacies))
    ensures forall k :: k in tallies <==> k in order
    ensures forall k :: k in tallies ==> tallies[k] == PriceTallyOf(claims, pharmacies, k)
  {
    order, tallies := [], map[];
    ghost var done: seq<Claim> := [];
    for i := 0 to |claims|
      invariant done == claims[..i]
      invariant order == Dedup(ChainKeysOf(done, pharmacies))
      invariant tallies == PriceTable(done, pharmacies)
    {
      var claim := claims[i];
      var chain := if claim.npi in pharmacies then Some(pharmacies[claim.npi]) else None;
      var key := ChainKey(claim.ndc, chain);
      var unitPrice := UnitPrice(claim);
      var t := if key in tallies then tallies[key] else PriceTally(0.0, 0);
      ChainOrderStep(done, pharmacies, order, tallies, key, claim);
      PriceTableStep(done, pharmacies, tallies, claim, key, unitPrice, t);
      if key !in tallies {
        order := order + [key];
      }
      tallies := tallies[key := PriceTally(t.unitPriceSum + unitPrice, t.count + 1)];
      PrefixSnoc(claims, i);
      done := done + [claim];
    }
    assert done == claims;
    PriceTableDomain(claims, pharmacies);
    PriceTableMeaning(claims, pharmacies);
    DedupMembers(ChainKeysOf(claims, pharmacies));
  }

  lemma {:induction false} DrugPricesAbsent(keys: seq<ChainKey>, ndc: string, claims: seq<Claim>, pharmacies: map<string, string>)
    requires ndc !in NdcsOfKeys(keys)
    ensures DrugPrices(keys, ndc, claims, pharmacies) == []
  {
    if keys != [] {
      var n := |keys| - 1;
      assert NdcsOfKeys(keys)[..n] == NdcsOfKeys(keys[..n]);
      DrugPricesAbsent(keys[..n], ndc, claims, pharmacies);
    }
  }

  lemma DrugPricesSnoc(keys: seq<ChainKey>, k: ChainKey, ndc: string, claims: seq<Claim>, pharmacies: map<string, string>)
    ensures DrugPrices(keys + [k], ndc, claims, pharmacies) ==
      DrugPrices(keys, ndc, claims, pharmacies) + (if k.ndc == ndc then [ChainPriceOf(claims, pharmacies, k)] else [])
  {
    assert (keys + [k])[..|keys|] == keys;
  }

  lemma NdcsOfKeysSnoc(keys: seq<ChainKey>, k: ChainKey)
    ensures NdcsOfKeys(keys + [k]) == NdcsOfKeys(keys) + [k.ndc]
  {
    assert (keys + [k])[..|keys|] == keys;
  }

  /** The dictionary `ndc_chain_avg_prices` the second loop builds, one pair
      at a time; `GroupTableMeaning` says what it holds. */
  function GroupTable(keys: seq<ChainKey>, claims: seq<Claim>, pharmacies: map<string, string>): map<string, seq<ChainPrice>>
  {
    if keys == [] then map[]
    else
      var m := GroupTable(keys[..|keys| - 1], claims, pharmacies);
      var k := keys[|keys| - 1];
      var prices := if k.ndc in m then m[k.ndc] else [];
      m[k.ndc := prices + [ChainPriceOf(claims, pharmacies, k)]]
  }

  /** One more pair, in the form the loop uses. */
  lemma GroupTableStep(done: seq<ChainKey>, claims: seq<Claim>, pharmacies: map<string, string>,
                       m: map<string, seq<ChainPrice>>, k: ChainKey, cp: ChainPrice, prices: seq<ChainPrice>)
    requires cp == ChainPriceOf(claims, pharmacies, k)
    requires m == GroupTable(done, claims, pharmacies)
    requires prices == if k.ndc in m then m[k.ndc] else []
    ensures m[k.ndc := prices + [cp]] == GroupTable(done + [k], claims, pharmacies)
  {
    var s := done + [k];
    assert s[..|s| - 1] == done && s[|s| - 1] == k;
  }

  /** The drug order after one more pair, in the form the loop uses. */
  lemma NdcOrderStep(done: seq<ChainKey>, claims: seq<Claim>, pharmacies: map<string, string>,
                     ndcOrder: seq<string>, m: map<string, seq<ChainPrice>>, k: ChainKey)
    requires ndcOrder == Dedup(NdcsOfKeys(done)) && m == GroupTable(done, claims, pharmacies)
    ensures (if k.ndc in m then ndcOrder else ndcOrder + [k.ndc]) == Dedup(NdcsOfKeys(done + [k]))
  {
    NdcsOfKeysSnoc(done, k);
    DedupSnoc(NdcsOfKeys(done), k.ndc);
    GroupTableDomain(done, claims, pharmacies);
    DedupContains(NdcsOfKeys(done), k.ndc);
  }

  lemma {:induction false} GroupTableDomain(keys: seq<ChainKey>, claims: seq<Claim>, pharmacies: map<string, string>)
    ensures forall n :: n in GroupTable(keys, claims, pharmacies) <==> n in NdcsOfKeys(keys)
  {
    if keys != [] {
      var j := |keys| - 1;
      GroupTableDomain(keys[..j], claims, pharmacies);
      assert keys == keys[..j] + [keys[j]];
      NdcsOfKeysSnoc(keys[..j], keys[j]);
    }
  }

  /** Each entry holds the drug's priced chains, in pair order. */
  lemma {:induction false} GroupTableMeaning(keys: seq<ChainKey>, claims: seq<Claim>, pharmacies: map<string, string>)
    ensures forall n :: n in GroupTable(keys, claims, pharmacies) ==>
      GroupTable(keys, claims, pharmacies)[n] == DrugPrices(keys, n, claims, pharmacies)
  {
    if keys != [] {
      var j := |keys| - 1;
      var k := keys[j];
      var m := GroupTable(keys[..j], claims, pharmacies);
      GroupTableMeaning(keys[..j], claims, pharmacies);
      assert keys == keys[..j] + [k];
      if k.ndc !in m {
        GroupTableDomain(keys[..j], claims, pharmacies);
        DrugPricesAbsent(keys[..j], k.ndc, claims, pharmacies);
      }
      forall n | n in GroupTable(keys, claims, pharmacies)
        ensures GroupTable(keys, claims, pharmacies)[n] == DrugPrices(keys, n, claims, pharmacies)
      {
        DrugPricesSnoc(keys[..j], k, n, claims, pharmacies);
      }
    }
  }

  /** The mean the loop computes from a pair's running totals is the pair's
      mean unit price, and its divisor is not zero. */
  lemma PairMean(claims: seq<Claim>, pharmacies: map<string, string>, key: ChainKey, data: PriceTally)
    requires key in Dedup(ChainKeysOf(claims, pharmacies))
    requires data == PriceTallyOf(claims, pharmacies, key)
    ensures data.count > 0
    ensures ChainPrice(key.chain, data.unitPriceSum / data.count as real) == ChainPriceOf(claims, pharmacies, key)
  {
    DedupContains(ChainKeysOf(claims, pharmacies), key);
    PairHasClaims(claims, pharmacies, key);
  }

  /** The second loop of `calculate_chain_recommendations`: each pair's mean
      price appended to its drug's list, drugs in first-seen order. */
  method AverageByDrug(claims: seq<Claim>, pharmacies: map<string, string>,
                       order: seq<ChainKey>, tallies: map<ChainKey, PriceTally>)
    returns (ndcOrder: seq<string>, byDrug: map<string, seq<ChainPrice>>)
    requires order == Dedup(ChainKeysOf(claims, pharmacies))
    requires forall k :: k in tallies <==> k in order
    requires forall k :: k in tallies ==> tallies[k] == PriceTallyOf(claims, pharmacies, k)
    ensures ndcOrder == Dedup(NdcsOfKeys(order))
    ensures byDrug == GroupTable(order, claims, pharmacies)
  {
    ndcOrder, byDrug := [], map[];
    ghost var done: seq<ChainKey> := [];
    for j := 0 to |order|
      invariant done == order[..j]
      invariant ndcOrder == Dedup(NdcsOfKeys(done))
      invariant byDrug == GroupTable(done, claims, pharmacies)
    {
      var key := order[j];
      var data := tallies[key];
      PairMean(claims, pharmacies, key, data);
      var avgPrice := data.unitPriceSum / data.count as real;
      var prices := if key.ndc in byDrug then byDrug[key.ndc] else [];
      NdcOrderStep(done, claims, pharmacies, ndcOrder, byDrug, key);
      GroupTableStep(done, claims, pharmacies, byDrug, key, ChainPrice(key.chain, avgPrice), prices);
      if key.ndc !in byDrug {
        ndcOrder := ndcOrder + [key.ndc];
      }
      byDrug := byDrug[key.ndc := prices + [ChainPrice(key.chain, avgPrice)]];
      PrefixSnoc(order, j);
      done := done + [key];
    }
    assert done == order;
  }

  /** Both loops of `calculate_chain_recommendations` up to the sort: the
      pairs' mean prices grouped by drug, drugs in first-seen order. */
  method GroupByDrug(claims: seq<Claim>, pharmacies: map<string, string>)
    returns (order: seq<ChainKey>, ndcOrder: seq<string>, byDrug: map<string, seq<ChainPrice>>)
    ensures order == Dedup(ChainKeysOf(claims, pharmacies))
    ensures ndcOrder == Dedup(NdcsOfKeys(order))
    ensures forall n :: n in byDrug <==> n in ndcOrder
    ensures forall n :: n in byDrug ==> byDrug[n] == DrugPrices(order, n, claims, pharmacies)
  {
    var tallies;
    order, tallies := TallyChainPrices(claims, pharmacies);
    ndcOrder, byDrug := AverageByDrug(claims, pharmacies, order, tallies);
    GroupTableDomain(order, claims, pharmacies);
    GroupTableMeaning(order, claims, pharmacies);
    DedupMembers(NdcsOfKeys(order));
  }

  /** `calculate_chain_recommendations`: tallies unit prices per (drug, chain),
      groups the chains' averages by drug, and keeps each drug's two cheapest. */
  method CalculateChainRecommendations(claims: seq<Claim>, pharmacies: map<string, string>)
    returns (recommendations: seq<Recommendation>)
    ensures recommendations == Recommendations(claims, pharmacies)
  {
    var order, ndcOrder, byDrug := GroupByDrug(claims, pharmacies);
    ghost var spec := Recommendations(claims, pharmacies);
    assert |spec| == |ndcOrder|;
    recommendations := [];
    for m := 0 to |ndcOrder|
      invariant |recommendations| == m
      invariant recommendations == spec[..m]
    {
      var ndc := ndcOrder[m];
      var sortedChains := InsertionSort(byDrug[ndc], AvgPrice);
      var cheapest := sortedChains[..Min(2, |sortedChains|)];
      assert cheapest == TopChains(DrugPrices(order, ndc, claims, pharmacies));
      assert spec[m] == Recommendation(ndc, cheapest);
      recommendations := recommendations + [Recommendation(ndc, cheapest)];
      PrefixSnoc(spec, m);
    }
    assert spec[..|ndcOrder|] == spec;
  }

  /** The drug of every claim, in claim order. */
  function NdcsOf(claims: seq<Claim>): (ns: seq<string>)
    ensures |ns| == |claims|
  {
    if claims == [] then [] else NdcsOf(claims[..|claims| - 1]) + [claims[|claims| - 1].ndc]
  }

  lemma {:induction false} NdcsOfChainKeys(claims: seq<Claim>, pharmacies: map<string, string>)
    ensures NdcsOfKeys(ChainKeysOf(claims, pharmacies)) == NdcsOf(claims)
  {
    if claims != [] {
      var n := |claims| - 1;
      NdcsOfChainKeys(claims[..n], pharmacies);
      assert ChainKeysOf(claims, pharmacies)[..n] == ChainKeysOf(claims[..n], pharmacies);
    }
  }

  lemma {:induction false} NdcOfKeyIn(keys: seq<ChainKey>, k: ChainKey)
    requires k in keys
    ensures k.ndc in NdcsOfKeys(keys)
  {
    var n := |keys| - 1;
    if keys[n] != k {
      assert k in keys[..n];
      NdcOfKeyIn(keys[..n], k);
      assert NdcsOfKeys(keys)[..n] == NdcsOfKeys(keys[..n]);
    }
  }

  /** Grouping the de-duplicated pairs by drug meets the drugs in the same
      first-seen order as grouping all claims would. */
  lemma {:induction false} DedupNdcsOfDedup(ks: seq<ChainKey>)
    ensures Dedup(NdcsOfKeys(Dedup(ks))) == Dedup(NdcsOfKeys(ks))
  {
    if ks != [] {
      var n := |ks| - 1;
      var x := ks[n];
      DedupNdcsOfDedup(ks[..n]);
      assert ks == ks[..n] + [x];
      DedupSnoc(ks[..n], x);
      NdcsOfKeysSnoc(ks[..n], x);
      DedupSnoc(NdcsOfKeys(ks[..n]), x.ndc);
      if x in Dedup(ks[..n]) {
        DedupContains(ks[..n], x);
        NdcOfKeyIn(ks[..n], x);
        DedupContains(NdcsOfKeys(ks[..n]), x.ndc);
      } else {
        NdcsOfKeysSnoc(Dedup(ks[..n]), x);
        DedupSnoc(NdcsOfKeys(Dedup(ks[..n])), x.ndc);
      }
    }
  }

  /** One recommendation per drug that has claims, in the order the drugs
      first occur among the claims. */
  lemma RecommendationDrugs(claims: seq<Claim>, pharmacies: map<string, string>)
    ensures var recs := Recommendations(claims, pharmacies);
      |recs| == |Dedup(NdcsOf(claims))|
      && forall j :: 0 <= j < |recs| ==> recs[j].ndc == Dedup(NdcsOf(claims))[j]
  {
    DedupNdcsOfDedup(ChainKeysOf(claims, pharmacies));
    NdcsOfChainKeys(claims, pharmacies);
  }

  /** Every priced chain of a drug is the mean price of one of its pairs. */
  lemma {:induction false} DrugPricesSound(keys: seq<ChainKey>, ndc: string, claims: seq<Claim>, pharmacies: map<string, string>)
    ensures forall cp :: cp in DrugPrices(keys, ndc, claims, pharmacies) ==>
      ChainKey(ndc, cp.name) in keys && cp == ChainPriceOf(claims, pharmacies, ChainKey(ndc, cp.name))
  {
    if keys != [] {
      var n := |keys| - 1;
      DrugPricesSound(keys[..n], ndc, claims, pharmacies);
      assert keys == keys[..n] + [keys[n]];
    }
  }

  /** Every pair of the drug contributes its mean price. */
  lemma {:induction false} DrugPricesComplete(keys: seq<ChainKey>, ndc: string, claims: seq<Claim>, pharmacies: map<string, string>)
    ensures forall k :: k in keys && k.ndc == ndc ==> ChainPriceOf(claims, pharmacies, k) in DrugPrices(keys, ndc, claims, pharmacies)
  {
    if keys != [] {
      var n := |keys| - 1;
      DrugPricesComplete(keys[..n], ndc, claims, pharmacies);
      assert keys == keys[..n] + [keys[n]];
    }
  }

  /** No chain is listed twice. */
  predicate DistinctNames(ps: seq<ChainPrice>)
  {
    forall i, j :: 0 <= i < j < |ps| ==> ps[i].name != ps[j].name
  }

  /** Distinct pairs give each chain at most one price per drug. */
  lemma {:induction false} DrugPricesDistinct(keys: seq<ChainKey>, ndc: string, claims: seq<Claim>, pharmacies: map<string, string>)
    requires Distinct(keys)
    ensures DistinctNames(DrugPrices(keys, ndc, claims, pharmacies))
  {
    if keys != [] {
      var n := |keys| - 1;
      var k := keys[n];
      var ps0 := DrugPrices(keys[..n], ndc, claims, pharmacies);
      DrugPricesDistinct(keys[..n], ndc, claims, pharmacies);
      DrugPricesSound(keys[..n], ndc, claims, pharmacies);
      if k.ndc == ndc {
        forall i | 0 <= i < |ps0|
          ensures ps0[i].name != k.chain
        {
          assert ps0[i] in ps0;
        }
        var ps := DrugPrices(keys, ndc, claims, pharmacies);
        assert ps == ps0 + [ChainPriceOf(claims, pharmacies, k)];
        forall i, j | 0 <= i < j < |ps|
          ensures ps[i].name != ps[j].name
        {
          if j < |ps0| {
            assert ps[i] == ps0[i] && ps[j] == ps0[j];
            assert ps0[i].name != ps0[j].name;
          } else {
            assert ps[i] == ps0[i] && ps[j].name == k.chain;
            assert ps0[i].name != k.chain;
          }
        }
      } else {
        assert DrugPrices(keys, ndc, claims, pharmacies) == ps0;
      }
    }
  }

  /** The priced chains of one drug, one per chain, in first-seen order:
      `ndc_chain_avg_prices[ndc]` after the second loop. */
  function DrugChainPrices(claims: seq<Claim>, pharmacies: map<string, string>, ndc: string): seq<ChainPrice>
  {
    DrugPrices(Dedup(ChainKeysOf(claims, pharmacies)), ndc, claims, pharmacies)
  }

  /** The chains recommended for a drug: at most two, in ascending mean price,
      ties in first-seen order, one entry per chain. */
  lemma CheapestChainsOrdered(claims: seq<Claim>, pharmacies: map<string, string>, ndc: string)
    ensures var all := DrugChainPrices(claims, pharmacies, ndc);
      var top := TopChains(all);
      && |top| == Min(2, |all|)
      && SortedBy(top, AvgPrice)
      && top == InsertionSort(all, AvgPrice)[..|top|]
      && (forall v :: WithKey(InsertionSort(all, AvgPrice), AvgPrice, v) == WithKey(all, AvgPrice, v))
      && DistinctNames(all)
  {
    var all := DrugChainPrices(claims, pharmacies, ndc);
    TopIsBest(all, AvgPrice, 2);
    DrugPricesDistinct(Dedup(ChainKeysOf(claims, pharmacies)), ndc, claims, pharmacies);
    assert |TopChains(all)| == Min(2, |all|);
    assert SortedBy(TopChains(all), AvgPrice);
    assert TopChains(all) == InsertionSort(all, AvgPrice)[..|TopChains(all)|];
  }

  /** The pairs of drug `ndc` among `keys`. */
  function DrugKeys(keys: seq<ChainKey>, ndc: string): set<ChainKey>
  {
    set k | k in keys && k.ndc == ndc
  }

  lemma DrugKeysSnoc(keys: seq<ChainKey>, x: ChainKey, ndc: string)
    ensures DrugKeys(keys + [x], ndc) == DrugKeys(keys, ndc) + (if x.ndc == ndc then {x} else {})
  {
  }

  /** Over distinct pairs, a drug's list has one entry per pair of the drug. */
  lemma {:induction false} DrugPricesCount(keys: seq<ChainKey>, ndc: string, claims: seq<Claim>, pharmacies: map<string, string>)
    requires Distinct(keys)
    ensures |DrugPrices(keys, ndc, claims, pharmacies)| == |DrugKeys(keys, ndc)|
  {
    if keys != [] {
      var n := |keys| - 1;
      var pre, x := keys[..n], keys[n];
      DistinctSnoc(pre, x);
      DrugPricesCount(pre, ndc, claims, pharmacies);
      DrugPricesSnoc(pre, x, ndc, claims, pharmacies);
      DrugKeysSnoc(pre, x, ndc);
      assert keys == pre + [x];
    }
  }

  /** A drug's list of priced chains has one entry per distinct (drug, chain)
      pair among its claims, so a recommendation names min(2, that number)
      chains. */
  lemma DrugChainCount(claims: seq<Claim>, pharmacies: map<string, string>, ndc: string)
    ensures |DrugChainPrices(claims, pharmacies, ndc)| == |DrugKeys(ChainKeysOf(claims, pharmacies), ndc)|
    ensures |TopChains(DrugChainPrices(claims, pharmacies, ndc))| == Min(2, |DrugKeys(ChainKeysOf(claims, pharmacies), ndc)|)
  {
    var keys := Dedup(ChainKeysOf(claims, pharmacies));
    DrugPricesCount(keys, ndc, claims, pharmacies);
    DedupMembers(ChainKeysOf(claims, pharmacies));
    assert DrugKeys(keys, ndc) == DrugKeys(ChainKeysOf(claims, pharmacies), ndc);
    TopIsBest(DrugChainPrices(claims, pharmacies, ndc), AvgPrice, 2);
  }

  /** Each recommended chain carries its true mean unit price over the drug's
      claims at that chain. */
  lemma CheapestChainsPriced(claims: seq<Claim>, pharmacies: map<string, string>, ndc: string)
    ensures var top := TopChains(DrugChainPrices(claims, pharmacies, ndc));
      forall i :: 0 <= i < |top| ==>
        ChainKey(ndc, top[i].name) in ChainKeysOf(claims, pharmacies)
        && top[i] == ChainPriceOf(claims, pharmacies, ChainKey(ndc, top[i].name))
  {
    var keys := Dedup(ChainKeysOf(claims, pharmacies));
    var all := DrugChainPrices(claims, pharmacies, ndc);
    var top := TopChains(all);
    TopIsBest(all, AvgPrice, 2);
    DrugPricesSound(keys, ndc, claims, pharmacies);
    forall i | 0 <= i < |top|
      ensures ChainKey(ndc, top[i].name) in ChainKeysOf(claims, pharmacies)
      ensures top[i] == ChainPriceOf(claims, pharmacies, ChainKey(ndc, top[i].name))
    {
      assert top[i] in all;
      DedupContains(ChainKeysOf(claims, pharmacies), ChainKey(ndc, top[i].name));
    }
  }

  /** No chain of the drug that was left out is cheaper than one kept. */
  lemma CheapestChainsCheapest(claims: seq<Claim>, pharmacies: map<string, string>, ndc: string)
    ensures var top := TopChains(DrugChainPrices(claims, pharmacies, ndc));
      forall k, i :: (k in ChainKeysOf(claims, pharmacies) && k.ndc == ndc
                      && ChainPriceOf(claims, pharmacies, k) !in top && 0 <= i < |top|)
                     ==> top[i].avgPrice <= ChainPriceOf(claims, pharmacies, k).avgPrice
  {
    var keys := Dedup(ChainKeysOf(claims, pharmacies));
    var all := DrugChainPrices(claims, pharmacies, ndc);
    var top := TopChains(all);
    TopIsBest(all, AvgPrice, 2);
    DrugPricesComplete(keys, ndc, claims, pharmacies);
    forall k, i | k in ChainKeysOf(claims, pharmacies) && k.ndc == ndc
                  && ChainPriceOf(claims, pharmacies, k) !in top && 0 <= i < |top|
      ensures top[i].avgPrice <= ChainPriceOf(claims, pharmacies, k).avgPrice
    {
      DedupContains(ChainKeysOf(claims, pharmacies), k);
      assert ChainPriceOf(claims, pharmacies, k) in all;
      assert AvgPrice(top[i]) <= AvgPrice(ChainPriceOf(claims, pharmacies, k));
    }
  }

  // ================================================================ calculate_common_quantities

  /** A quantity and how many claims of the drug were filled with it: one
      item of `ndc_quantities[ndc].items()`. */
  datatype QuantityCount = QuantityCount(quantity: real, count: nat)

  /** The most prescribed quantities of one drug. */
  datatype CommonQuantity = CommonQuantity(ndc: string, mostPrescribed: seq<real>)

  /** The inner dictionary `ndc_quantities[ndc]`: its keys in insertion order
      and the count of each. */
  datatype QuantityTable = QuantityTable(order: seq<real>, counts: map<real, nat>)

  /** The quantities of the drug's claims, in claim order. */
  function QuantitiesFor(claims: seq<Claim>, ndc: string): seq<real>
  {
    if claims == [] then []
    else
      var c := claims[|claims| - 1];
      QuantitiesFor(claims[..|claims| - 1], ndc) + (if c.ndc == ndc then [c.quantity as real] else [])
  }

  /** The items of a counter over `qs`: each distinct quantity once, in
      first-seen order, with its number of occurrences. */
  function Histogram(qs: seq<real>): (h: seq<QuantityCount>)
    ensures |h| == |Dedup(qs)|
  {
    var d := Dedup(qs);
    seq(|d|, j requires 0 <= j < |d| => QuantityCount(d[j], Count(qs, d[j])))
  }

  /** The sort key of `sorted(..., key=lambda x: x[1], reverse=True)`: the
      count, negated so that an ascending stable sort puts larger counts first
      and keeps equal counts in their original order, as Python's
      `reverse=True` does. */
  function CountKey(qc: QuantityCount): real
  {
    -(qc.count as real)
  }

  function QuantitiesOf(items: seq<QuantityCount>): (qs: seq<real>)
    ensures |qs| == |items|
  {
    seq(|items|, j requires 0 <= j < |items| => items[j].quantity)
  }

  /** `[q[0] for q in sorted_quantities[:5]]`. */
  function TopQuantities(qs: seq<real>): seq<real>
  {
    QuantitiesOf(Top(Histogram(qs), CountKey, 5))
  }

  /** What `calculate_common_quantities` returns: per drug, in the order the
      drugs first occur among the claims, its five most frequent quantities. */
  function CommonQuantities(claims: seq<Claim>): seq<CommonQuantity>
  {
    var ndcs := Dedup(NdcsOf(claims));
    seq(|ndcs|, j requires 0 <= j < |ndcs| =>
      CommonQuantity(ndcs[j], TopQuantities(QuantitiesFor(claims, ndcs[j]))))
  }

  /** The inner dictionary holds the counter of `qs`. */
  ghost predicate Counts(h: QuantityTable, qs: seq<real>)
  {
    h.order == Dedup(qs)
    && (forall q :: q in h.counts <==> q in h.order)
    && (forall q :: q in h.counts ==> h.counts[q] == Count(qs, q))
  }

  /** The dictionary `ndc_quantities` the first loop builds, one claim at a
      time; `QuantityTablesMeaning` says what it holds. */
  function QuantityTables(claims: seq<Claim>): map<string, QuantityTable>
  {
    if claims == [] then map[]
    else
      var m := QuantityTables(claims[..|claims| - 1]);
      var c := claims[|claims| - 1];
      var h := if c.ndc in m then m[c.ndc] else QuantityTable([], map[]);
      var q := c.quantity as real;
      var count := if q in h.counts then h.counts[q] else 0;
      var order := if q in h.counts then h.order else h.order + [q];
      m[c.ndc := QuantityTable(order, h.counts[q := count + 1])]
  }

  /** One more claim, in the form the loop uses. */
  lemma QuantityTablesStep(done: seq<Claim>, m: map<string, QuantityTable>,
                           c: Claim, q: real, h: QuantityTable, count: nat, order: seq<real>)
    requires q == c.quantity as real
    requires m == QuantityTables(done)
    requires h == if c.ndc in m then m[c.ndc] else QuantityTable([], map[])
    requires count == if q in h.counts then h.counts[q] else 0
    requires order == if q in h.counts then h.order else h.order + [q]
    ensures m[c.ndc := QuantityTable(order, h.counts[q := count + 1])] == QuantityTables(done + [c])
  {
    var s := done + [c];
    assert s[..|s| - 1] == done && s[|s| - 1] == c;
  }

  /** The drug order after one more claim, in the form the loop uses. */
  lemma NdcClaimOrderStep(done: seq<Claim>, ndcOrder: seq<string>, m: map<string, QuantityTable>, c: Claim)
    requires ndcOrder == Dedup(NdcsOf(done)) && m == QuantityTables(done)
    ensures (if c.ndc in m then ndcOrder else ndcOrder + [c.ndc]) == Dedup(NdcsOf(done + [c]))
  {
    var s := done + [c];
    assert s[..|s| - 1] == done && s[|s| - 1] == c;
    assert NdcsOf(s) == NdcsOf(done) + [c.ndc];
    DedupSnoc(NdcsOf(done), c.ndc);
    QuantityTablesDomain(done);
    DedupContains(NdcsOf(done), c.ndc);
  }

  lemma {:induction false} QuantityTablesDomain(claims: seq<Claim>)
    ensures forall n :: n in QuantityTables(claims) <==> n in NdcsOf(claims)
  {
    if claims != [] {
      var k := |claims| - 1;
      QuantityTablesDomain(claims[..k]);
      assert NdcsOf(claims) == NdcsOf(claims[..k]) + [claims[k].ndc];
    }
  }

  lemma QuantitiesForSnoc(claims: seq<Claim>, c: Claim, ndc: string)
    ensures QuantitiesFor(claims + [c], ndc) == QuantitiesFor(claims, ndc) + (if c.ndc == ndc then [c.quantity as real] else [])
  {
    assert (claims + [c])[..|claims|] == claims;
  }

  lemma {:induction false} QuantitiesForAbsent(claims: seq<Claim>, ndc: string)
    requires ndc !in NdcsOf(claims)
    ensures QuantitiesFor(claims, ndc) == []
  {
    if claims != [] {
      var k := |claims| - 1;
      assert NdcsOf(claims) == NdcsOf(claims[..k]) + [claims[k].ndc];
      QuantitiesForAbsent(claims[..k], ndc);
    }
  }

  /** Counting one more quantity into a counter keeps it a counter. */
  lemma CountsSnoc(h: QuantityTable, qs: seq<real>, q: real, count: nat, order: seq<real>)
    requires Counts(h, qs)
    requires count == if q in h.counts then h.counts[q] else 0
    requires order == if q in h.counts then h.order else h.order + [q]
    ensures Counts(QuantityTable(order, h.counts[q := count + 1]), qs + [q])
  {
    DedupSnoc(qs, q);
    DedupContains(qs, q);
    if q !in h.counts {
      CountPositive(qs, q);
    }
    forall p | p in h.counts[q := count + 1]
      ensures h.counts[q := count + 1][p] == Count(qs + [q], p)
    {
      CountSnoc(qs, q, p);
    }
  }

  /** Each inner dictionary is the counter of the drug's quantities. */
  ghost predicate TablesCount(claims: seq<Claim>)
  {
    forall n :: n in QuantityTables(claims) ==> Counts(QuantityTables(claims)[n], QuantitiesFor(claims, n))
  }

  lemma {:induction false} QuantityTablesMeaning(claims: seq<Claim>)
    ensures TablesCount(claims)
  {
    if claims != [] {
      var k := |claims| - 1;
      QuantityTablesMeaning(claims[..k]);
      QuantityTablesMeaningSnoc(claims[..k], claims[k]);
      assert claims == claims[..k] + [claims[k]];
    }
  }

  /** One more claim keeps every inner dictionary the counter of its drug's
      quantities. */
  lemma QuantityTablesMeaningSnoc(done: seq<Claim>, c: Claim)
    requires TablesCount(done)
    ensures TablesCount(done + [c])
  {
    var m := QuantityTables(done);
    var h := if c.ndc in m then m[c.ndc] else QuantityTable([], map[]);
    assert Counts(h, QuantitiesFor(done, c.ndc)) by {
      if c.ndc !in m {
        QuantityTablesDomain(done);
        QuantitiesForAbsent(done, c.ndc);
      }
    }
    var q := c.quantity as real;
    var count := if q in h.counts then h.counts[q] else 0;
    var order := if q in h.counts then h.order else h.order + [q];
    CountsSnoc(h, QuantitiesFor(done, c.ndc), q, count, order);
    QuantityTablesStep(done, m, c, q, h, count, order);
    forall n | n in QuantityTables(done + [c])
      ensures Counts(QuantityTables(done + [c])[n], QuantitiesFor(done + [c], n))
    {
      QuantitiesForSnoc(done, c, n);
      if n != c.ndc {
        assert QuantityTables(done + [c])[n] == m[n];
        assert QuantitiesFor(done + [c], n) == QuantitiesFor(done, n);
      }
    }
  }

  /** `ndc_quantities[ndc].items()`. */
  function Items(h: QuantityTable): (items: seq<QuantityCount>)
    requires forall j :: 0 <= j < |h.order| ==> h.order[j] in h.counts
    ensures |items| == |h.order|
  {
    seq(|h.order|, j requires 0 <= j < |h.order| => QuantityCount(h.order[j], h.counts[h.order[j]]))
  }

  /** The items of a counter are the histogram of what it counted. */
  lemma CounterItems(h: QuantityTable, qs: seq<real>)
    requires Counts(h, qs)
    ensures forall j :: 0 <= j < |h.order| ==> h.order[j] in h.counts
    ensures Items(h) == Histogram(qs)
  {
    forall j | 0 <= j < |h.order|
      ensures h.order[j] in h.counts
    {
      var q := h.order[j];
      assert q in h.order;
      assert q in h.counts;
    }
  }

  /** The first loop of `calculate_common_quantities`. */
  method CountQuantities(claims: seq<Claim>) returns (ndcOrder: seq<string>, tables: map<string, QuantityTable>)
    ensures ndcOrder == Dedup(NdcsOf(claims))
    ensures forall n :: n in tables <==> n in ndcOrder
    ensures forall n :: n in tables ==> Counts(tables[n], QuantitiesFor(claims, n))
  {
    ndcOrder, tables := [], map[];
    ghost var done: seq<Claim> := [];
    for i := 0 to |claims|
      invariant done == claims[..i]
      invariant ndcOrder == Dedup(NdcsOf(done))
      invariant tables == QuantityTables(done)
    {
      var claim := claims[i];
      var ndc := claim.ndc;
      var quantity := claim.quantity as real;
      NdcClaimOrderStep(done, ndcOrder, tables, claim);
      if ndc !in tables {
        ndcOrder := ndcOrder + [ndc];
      }
      var h := if ndc in tables then tables[ndc] else QuantityTable([], map[]);
      var count := if quantity in h.counts then h.counts[quantity] else 0;
      var order := if quantity in h.counts then h.order else h.order + [quantity];
      QuantityTablesStep(done, tables, claim, quantity, h, count, order);
      tables := tables[ndc := QuantityTable(order, h.counts[quantity := count + 1])];
      PrefixSnoc(claims, i);
      done := done + [claim];
    }
    assert done == claims;
    QuantityTablesDomain(claims);
    QuantityTablesMeaning(claims);
    DedupMembers(NdcsOf(claims));
  }

  /** The body of the second loop: `sorted(quantities.items(), key=lambda x:
      x[1], reverse=True)`, then the quantities of the first five items. */
  method MostPrescribed(h: QuantityTable, ghost qs: seq<real>) returns (top: seq<real>)
    requires Counts(h, qs)
    ensures top == TopQuantities(qs)
  {
    CounterItems(h, qs);
    var items := Items(h);
    var sortedQuantities := InsertionSort(items, CountKey);
    top := QuantitiesOf(sortedQuantities[..Min(5, |sortedQuantities|)]);
  }

  /** `calculate_common_quantities`: counts each drug's quantities, then keeps
      the five most frequent. */
  method CalculateCommonQuantities(claims: seq<Claim>) returns (commonQuantities: seq<CommonQuantity>)
    ensures commonQuantities == CommonQuantities(claims)
  {
    var ndcOrder, tables := CountQuantities(claims);
    ghost var spec := CommonQuantities(claims);
    commonQuantities := [];
    for m := 0 to |ndcOrder|
      invariant commonQuantities == spec[..m]
    {
      var ndc := ndcOrder[m];
      var topQuantities := MostPrescribed(tables[ndc], QuantitiesFor(claims, ndc));
      assert spec[m] == CommonQuantity(ndc, topQuantities);
      commonQuantities := commonQuantities + [CommonQuantity(ndc, topQuantities)];
      PrefixSnoc(spec, m);
    }
    assert spec[..|ndcOrder|] == spec;
  }

  /** Every quantity the drug was filled with appears in its histogram exactly
      once, with the number of claims filled with it, which is at least one. */
  lemma HistogramEntries(qs: seq<real>)
    ensures QuantitiesOf(Histogram(qs)) == Dedup(qs)
    ensures forall x :: x in Histogram(qs) ==> x.quantity in qs && x.count == Count(qs, x.quantity) && x.count > 0
    ensures forall q :: q in qs <==> QuantityCount(q, Count(qs, q)) in Histogram(qs)
  {
    var h, d := Histogram(qs), Dedup(qs);
    assert QuantitiesOf(h) == d;
    forall x | x in h
      ensures x.quantity in qs && x.count == Count(qs, x.quantity) && x.count > 0
    {
      var j :| 0 <= j < |h| && h[j] == x;
      DedupContains(qs, d[j]);
      CountPositive(qs, d[j]);
    }
    forall q | q in qs
      ensures QuantityCount(q, Count(qs, q)) in h
    {
      DedupContains(qs, q);
      var j :| 0 <= j < |d| && d[j] == q;
      assert h[j] == QuantityCount(q, Count(qs, q));
    }
  }

  /** The number of claims a list of items stands for. */
  function TotalCount(items: seq<QuantityCount>): nat
  {
    if items == [] then 0 else TotalCount(items[..|items| - 1]) + items[|items| - 1].count
  }

  lemma {:induction false} HistogramPrefixTotal(qs: seq<real>, n: nat)
    requires n <= |Dedup(qs)|
    ensures TotalCount(Histogram(qs)[..n]) == SumCounts(Dedup(qs)[..n], qs)
  {
    if n > 0 {
      HistogramPrefixTotal(qs, n - 1);
      var h, d := Histogram(qs), Dedup(qs);
      assert h[..n][..n - 1] == h[..n - 1];
      assert d[..n][..n - 1] == d[..n - 1];
    }
  }

  /** The counter of a drug accounts for each of its claims exactly once: its
      counts add up to the number of claims for the drug. */
  lemma HistogramTotal(claims: seq<Claim>, ndc: string)
    ensures TotalCount(Histogram(QuantitiesFor(claims, ndc))) == Count(NdcsOf(claims), ndc)
  {
    var qs := QuantitiesFor(claims, ndc);
    var h, d := Histogram(qs), Dedup(qs);
    HistogramPrefixTotal(qs, |d|);
    assert h[..|d|] == h;
    assert d[..|d|] == d;
    SumCountsOfDedup(qs);
    QuantitiesForLength(claims, ndc);
  }

  /** A drug has one quantity per claim for it. */
  lemma {:induction false} QuantitiesForLength(claims: seq<Claim>, ndc: string)
    ensures |QuantitiesFor(claims, ndc)| == Count(NdcsOf(claims), ndc)
  {
    if claims != [] {
      QuantitiesForLength(claims[..|claims| - 1], ndc);
    }
  }

  /** The common quantities of a drug: at most five, as many as five when the
      drug was filled with that many distinct quantities, each one it was
      filled with, none twice. */
  lemma MostPrescribedShape(qs: seq<real>)
    ensures |TopQuantities(qs)| == Min(5, |set q | q in qs|)
    ensures forall i :: 0 <= i < |TopQuantities(qs)| ==> TopQuantities(qs)[i] in qs
    ensures Distinct(TopQuantities(qs))
  {
    var h := Histogram(qs);
    var top := Top(h, CountKey, 5);
    TopIsBest(h, CountKey, 5);
    DedupCard(qs);
    HistogramEntries(qs);
    assert Distinct(h) by {
      forall i, j | 0 <= i < j < |h| ensures h[i] != h[j] {
        assert QuantitiesOf(h)[i] == h[i].quantity;
        assert QuantitiesOf(h)[j] == h[j].quantity;
      }
    }
    TopDistinct(h, CountKey, 5);
    var tq := QuantitiesOf(top);
    forall i | 0 <= i < |tq| ensures tq[i] in qs {
      assert top[i] in h;
    }
    forall i, j | 0 <= i < j < |tq| ensures tq[i] != tq[j] {
      assert top[i] in h && top[j] in h;
    }
  }

  /** The common quantities of a drug come most frequent first. */
  lemma MostPrescribedOrdered(qs: seq<real>)
    ensures var top := TopQuantities(qs);
      forall i, j :: 0 <= i < j < |top| ==> Count(qs, top[i]) >= Count(qs, top[j])
  {
    var h := Histogram(qs);
    var top := Top(h, CountKey, 5);
    var tq := QuantitiesOf(top);
    TopIsBest(h, CountKey, 5);
    HistogramEntries(qs);
    forall i, j | 0 <= i < j < |tq| ensures Count(qs, tq[i]) >= Count(qs, tq[j]) {
      assert top[i] in h && top[j] in h;
      assert CountKey(top[i]) <= CountKey(top[j]);
    }
  }

  /** No quantity of a drug that was left out was filled more often than one
      kept. */
  lemma MostPrescribedMostFrequent(qs: seq<real>)
    ensures var top := TopQuantities(qs);
      forall q, i :: q in qs && q !in top && 0 <= i < |top| ==> Count(qs, q) <= Count(qs, top[i])
  {
    var h := Histogram(qs);
    var top := Top(h, CountKey, 5);
    var tq := QuantitiesOf(top);
    TopIsBest(h, CountKey, 5);
    HistogramEntries(qs);
    forall q, i | q in qs && q !in tq && 0 <= i < |tq| ensures Count(qs, q) <= Count(qs, tq[i]) {
      var x := QuantityCount(q, Count(qs, q));
      assert x in h;
      forall k | 0 <= k < |top| ensures top[k] != x {
        assert tq[k] == top[k].quantity;
      }
      assert top[i] in h;
      assert CountKey(top[i]) <= CountKey(x);
    }
  }

  /** Quantities filled equally often keep the order in which the drug's claims
      first used them: the kept items are the head of a stable sort of the
      histogram. */
  lemma MostPrescribedTies(qs: seq<real>)
    ensures var h := Histogram(qs);
      var sorted := InsertionSort(h, CountKey);
      && TopQuantities(qs) == QuantitiesOf(sorted[..|TopQuantities(qs)|])
      && (forall v :: WithKey(sorted, CountKey, v) == WithKey(h, CountKey, v))
  {
    TopIsBest(Histogram(qs), CountKey, 5);
  }

  /** The report has one entry per drug that has claims, none twice, and lists
      at least one quantity for each. */
  lemma CommonQuantitiesDrugs(claims: seq<Claim>)
    ensures var cq := CommonQuantities(claims);
      forall c :: c in claims ==> exists j :: 0 <= j < |cq| && cq[j].ndc == c.ndc
    ensures var cq := CommonQuantities(claims);
      forall i, j :: 0 <= i < j < |cq| ==> cq[i].ndc != cq[j].ndc
    ensures var cq := CommonQuantities(claims);
      forall j :: 0 <= j < |cq| ==> cq[j].ndc in NdcsOf(claims) && cq[j].mostPrescribed != []
  {
    var cq := CommonQuantities(claims);
    var ndcs := Dedup(NdcsOf(claims));
    forall c | c in claims ensures exists j :: 0 <= j < |cq| && cq[j].ndc == c.ndc {
      var k :| 0 <= k < |claims| && claims[k] == c;
      assert NdcsOf(claims)[k] == c.ndc by { NdcsOfIndex(claims, k); }
      DedupContains(NdcsOf(claims), c.ndc);
      var j :| 0 <= j < |ndcs| && ndcs[j] == c.ndc;
      assert cq[j].ndc == c.ndc;
    }
    forall j | 0 <= j < |cq| ensures cq[j].ndc in NdcsOf(claims) && cq[j].mostPrescribed != [] {
      CommonQuantityEntry(claims, j);
    }
  }

  lemma CommonQuantityEntry(claims: seq<Claim>, j: nat)
    requires j < |CommonQuantities(claims)|
    ensures var e := CommonQuantities(claims)[j];
      e.ndc in NdcsOf(claims) && e.mostPrescribed != []
  {
    var n := Dedup(NdcsOf(claims))[j];
    DedupContains(NdcsOf(claims), n);
    CountPositive(NdcsOf(claims), n);
    QuantitiesForLength(claims, n);
    var qs := QuantitiesFor(claims, n);
    assert qs[0] in qs;
    MostPrescribedShape(qs);
    assert qs[0] in (set q | q in qs);
  }

  lemma {:induction false} NdcsOfIndex(claims: seq<Claim>, k: nat)
    requires k < |claims|
    ensures NdcsOf(claims)[k] == claims[k].ndc
  {
    if k < |claims| - 1 {
      NdcsOfIndex(claims[..|claims| - 1], k);
    }
  }
}
