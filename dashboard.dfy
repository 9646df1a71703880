/**
 * The decision-support dashboard: per-million-token rates derived from the
 * summary table, the capability tier of each model, the cost and CO2
 * projection for one model, the savings of one model against another, and
 * the weighted recommendation. Floats are modelled as reals.
 */
module Dashboard {
  import opened Ranking

  /** One row of the summary table: model_name, roi_tokens_per_dollar, co2_g. */
  datatype ModelRecord = ModelRecord(name: string, roi: real, co2: real)

  /** The table is used as a divisor everywhere: every rate must be positive. */
  predicate ValidRecord(r: ModelRecord)
  {
    r.roi > 0.0 && r.co2 > 0.0
  }

  predicate ValidDataset(ds: seq<ModelRecord>)
  {
    |ds| > 0 && forall i :: 0 <= i < |ds| ==> ValidRecord(ds[i])
  }

  /** The TOKENS constant: rates are quoted per million tokens. */
  const Tokens: real := 1000000.0

  // ---------------------------------------------------------------------
  // Per-record rates
  // ---------------------------------------------------------------------

  /** usd_per_million_tokens: dollars needed to buy a million tokens. */
  function UsdPerMillion(r: ModelRecord): (usd: real)
    requires r.roi > 0.0
    ensures usd > 0.0
    ensures usd * r.roi == Tokens
  {
    Tokens / r.roi
  }

  /** co2_g_per_million_tokens. */
  function Co2PerMillion(r: ModelRecord): (grams: real)
    requires ValidRecord(r)
    ensures grams > 0.0
    ensures grams * r.roi == r.co2 * Tokens
  {
    r.co2 / r.roi * Tokens
  }

  /** The CO2 rate is the dollar rate scaled by the CO2 of one dollar's worth. */
  lemma Co2RateIsCostRateTimesCo2(r: ModelRecord)
    requires ValidRecord(r)
    ensures Co2PerMillion(r) == r.co2 * UsdPerMillion(r)
  {
    calc {
      Co2PerMillion(r) * r.roi;
      r.co2 * Tokens;
      r.co2 * (UsdPerMillion(r) * r.roi);
      (r.co2 * UsdPerMillion(r)) * r.roi;
    }
  }

  // ---------------------------------------------------------------------
  // Strength tier
  // ---------------------------------------------------------------------

  /** The fixed name -> tier table. */
  const PowerTable: map<string, nat> := map[
    "gemma:2b" := 1,
    "gemma:7b" := 2,
    "codellama:7b" := 2,
    "llama3" := 2,
    "codellama:70b" := 3,
    "llama3:70b" := 3
  ]

  /** power_score: the listed tier, and 1 for a name the table does not list. */
  function PowerScore(name: string): (tier: nat)
    ensures 1 <= tier <= 3
    ensures name in PowerTable ==> tier == PowerTable[name]
    ensures name !in PowerTable ==> tier == 1
  {
    if name in PowerTable then PowerTable[name] else 1
  }

  // ---------------------------------------------------------------------
  // Time period and projection
  // ---------------------------------------------------------------------

  /** token_factor: months in the chosen period; any other choice counts as a year. */
  function PeriodFactor(period: string): (factor: nat)
    ensures factor == 1 <==> period == "Monthly"
    ensures factor == 3 <==> period == "Quarterly"
    ensures factor == 12 <==> period != "Monthly" && period != "Quarterly"
  {
    if period == "Monthly" then 1
    else if period == "Quarterly" then 3
    else 12
  }

  /** multiplier: the tokens of the whole period, in millions. */
  function Multiplier(monthlyTokens: nat, period: string): (m: real)
    ensures m >= 0.0
    ensures m * Tokens == (monthlyTokens * PeriodFactor(period)) as real
  {
    (monthlyTokens * PeriodFactor(period)) as real / Tokens
  }

  datatype Estimate = Estimate(cost: real, co2Kg: real)

  /** est_cost and est_co2_kg for one model over `multiplier` million tokens. */
  function Project(r: ModelRecord, multiplier: real): (e: Estimate)
    requires ValidRecord(r) && multiplier >= 0.0
    ensures e.cost >= 0.0 && e.co2Kg >= 0.0
    ensures e.cost * r.roi == multiplier * Tokens
    ensures e.co2Kg * 1000.0 == e.cost * r.co2
  {
    Co2RateIsCostRateTimesCo2(r);
    Estimate(UsdPerMillion(r) * multiplier, Co2PerMillion(r) * multiplier / 1000.0)
  }

  /** The projection is additive in the monthly token volume. */
  lemma ProjectAdditive(r: ModelRecord, a: nat, b: nat, period: string)
    requires ValidRecord(r)
    ensures Project(r, Multiplier(a + b, period)).cost
         == Project(r, Multiplier(a, period)).cost + Project(r, Multiplier(b, period)).cost
    ensures Project(r, Multiplier(a + b, period)).co2Kg
         == Project(r, Multiplier(a, period)).co2Kg + Project(r, Multiplier(b, period)).co2Kg
  {
    var f := PeriodFactor(period);
    assert (a + b) * f == a * f + b * f;
    assert Multiplier(a + b, period) == Multiplier(a, period) + Multiplier(b, period);
  }

  /** More volume never costs less and never emits less. */
  lemma ProjectMonotone(r: ModelRecord, a: nat, b: nat, period: string)
    requires ValidRecord(r) && a <= b
    ensures Project(r, Multiplier(a, period)).cost <= Project(r, Multiplier(b, period)).cost
    ensures Project(r, Multiplier(a, period)).co2Kg <= Project(r, Multiplier(b, period)).co2Kg
  {
    ProjectAdditive(r, a, b - a, period);
    assert a + (b - a) == b;
  }

  // ---------------------------------------------------------------------
  // Two-model comparison
  // ---------------------------------------------------------------------

  datatype Comparison = Comparison(moneySaved: real, percentSaved: real, co2SavedKg: real)

  /**
   * Savings of switching from `base` to `alt`: positive when `alt` is
   * cheaper (or cleaner). The percentage is 0 when the base costs nothing.
   */
  function Compare(base: ModelRecord, alt: ModelRecord, multiplier: real): (c: Comparison)
    requires ValidRecord(base) && ValidRecord(alt) && multiplier >= 0.0
    ensures c.moneySaved == Project(base, multiplier).cost - Project(alt, multiplier).cost
    ensures c.co2SavedKg == Project(base, multiplier).co2Kg - Project(alt, multiplier).co2Kg
    ensures Project(base, multiplier).cost > 0.0 ==>
              c.percentSaved * Project(base, multiplier).cost == c.moneySaved
    ensures Project(base, multiplier).cost == 0.0 ==> c.percentSaved == 0.0
    ensures c.percentSaved <= 1.0
    ensures c.percentSaved > 0.0 <==> c.moneySaved > 0.0
  {
    var baseCost := UsdPerMillion(base) * multiplier;
    var altCost := UsdPerMillion(alt) * multiplier;
    var saved := baseCost - altCost;
    var baseCo2 := Co2PerMillion(base) * multiplier / 1000.0;
    var altCo2 := Co2PerMillion(alt) * multiplier / 1000.0;
    SavedShare(baseCost, altCost);
    Comparison(saved, if baseCost > 0.0 then saved / baseCost else 0.0, baseCo2 - altCo2)
  }

  /** The zero-guarded share of a non-negative base cost that switching saves. */
  lemma SavedShare(baseCost: real, altCost: real)
    requires baseCost >= 0.0 && altCost >= 0.0
    ensures var saved := baseCost - altCost;
      var share := if baseCost > 0.0 then saved / baseCost else 0.0;
      && (baseCost > 0.0 ==> share * baseCost == saved)
      && share <= 1.0
      && (share > 0.0 <==> saved > 0.0)
  {
  }

  /** A model compared with itself saves nothing. */
  lemma CompareWithItself(r: ModelRecord, multiplier: real)
    requires ValidRecord(r) && multiplier >= 0.0
    ensures Compare(r, r, multiplier) == Comparison(0.0, 0.0, 0.0)
  {
  }

  /** Swapping the two models negates the money and the CO2 saved. */
  lemma CompareSwapped(a: ModelRecord, b: ModelRecord, multiplier: real)
    requires ValidRecord(a) && ValidRecord(b) && multiplier >= 0.0
    ensures Compare(b, a, multiplier).moneySaved == -Compare(a, b, multiplier).moneySaved
    ensures Compare(b, a, multiplier).co2SavedKg == -Compare(a, b, multiplier).co2SavedKg
  {
  }

  /**
   * For any positive volume, the percentage saved depends only on the two
   * token-per-dollar rates: it is 1 - base.roi / alt.roi.
   */
  lemma PercentSavedFromRates(base: ModelRecord, alt: ModelRecord, multiplier: real)
    requires ValidRecord(base) && ValidRecord(alt) && multiplier > 0.0
    ensures Compare(base, alt, multiplier).percentSaved * alt.roi == alt.roi - base.roi
  {
    var bc := Project(base, multiplier).cost;
    var ac := Project(alt, multiplier).cost;
    assert bc == UsdPerMillion(base) * multiplier;
    ShareFromRates(bc, ac, base.roi, alt.roi, multiplier * Tokens);
  }

  /** Two costs that buy the same tokens at rates `br` and `ar` differ by the share 1 - br / ar. */
  lemma ShareFromRates(bc: real, ac: real, br: real, ar: real, tokens: real)
    requires br > 0.0 && ar > 0.0 && tokens > 0.0
    requires bc * br == tokens && ac * ar == tokens
    ensures bc > 0.0
    ensures (bc - ac) / bc * ar == ar - br
  {
    assert bc > 0.0;
    var p := (bc - ac) / bc;
    assert p * bc == bc - ac;
    calc {
      p * ar * bc * br;
      (p * bc) * (ar * br);
      (bc - ac) * (ar * br);
      (bc * br) * ar - (ac * ar) * br;
      tokens * (ar - br);
      (ar - br) * bc * br;
    }
    assert bc * br > 0.0;
    CancelPositive(p * ar, ar - br, bc * br);
  }

  lemma CancelPositive(x: real, y: real, k: real)
    requires k > 0.0 && x * k == y * k
    ensures x == y
  {
    assert (x - y) * k == 0.0;
  }

  // ---------------------------------------------------------------------
  // Normalisation, score and recommendation
  // ---------------------------------------------------------------------

  /** The column maximum (a value of the column that no value exceeds). */
  function MaxOf(s: seq<real>): (m: real)
    requires |s| > 0
    ensures m in s
    ensures forall i :: 0 <= i < |s| ==> s[i] <= m
    decreases |s|
  {
    if |s| == 1 then s[0]
    else
      var rest := MaxOf(s[1..]);
      if s[0] >= rest then s[0] else rest
  }

  /** Each value divided by the column maximum: a fraction in (0, 1]. */
  function Normalize(s: seq<real>): (n: seq<real>)
    requires |s| > 0 && forall i :: 0 <= i < |s| ==> s[i] > 0.0
    ensures |n| == |s|
    ensures forall i :: 0 <= i < |s| ==> 0.0 < n[i] <= 1.0
  {
    var m := MaxOf(s);
    seq(|s|, i requires 0 <= i < |s| => Fraction(s[i], m))
  }

  function Fraction(x: real, m: real): (q: real)
    requires 0.0 < x <= m
    ensures 0.0 < q <= 1.0
  {
    x / m
  }

  /** Each normalised value is the raw value over the (positive) column maximum. */
  lemma NormalizeAt(s: seq<real>, i: int)
    requires |s| > 0 && forall k :: 0 <= k < |s| ==> s[k] > 0.0
    requires 0 <= i < |s|
    ensures MaxOf(s) > 0.0 && Normalize(s)[i] == s[i] / MaxOf(s)
  {
    assert Normalize(s)[i] == Fraction(s[i], MaxOf(s));
  }

  lemma DivOrder(a: real, b: real, m: real)
    requires m > 0.0
    ensures a <= b <==> a / m <= b / m
  {
  }

  lemma DivIsOne(x: real, m: real)
    requires m > 0.0
    ensures x / m == 1.0 <==> x == m
  {
  }

  /** A row normalises to exactly 1 when it holds the column maximum, and some row does. */
  lemma NormalizeTop(s: seq<real>)
    requires |s| > 0 && forall i :: 0 <= i < |s| ==> s[i] > 0.0
    ensures forall i :: 0 <= i < |s| ==> (Normalize(s)[i] == 1.0 <==> s[i] == MaxOf(s))
    ensures exists i :: 0 <= i < |s| && Normalize(s)[i] == 1.0
  {
    var n := Normalize(s);
    var m := MaxOf(s);
    forall i | 0 <= i < |s|
      ensures n[i] == 1.0 <==> s[i] == m
    {
      NormalizeAt(s, i);
      DivIsOne(s[i], m);
    }
    var top :| 0 <= top < |s| && s[top] == m;
    assert n[top] == 1.0;
  }

  /** Normalising keeps the order of the column, in both directions. */
  lemma NormalizeMonotone(s: seq<real>, i: int, j: int)
    requires |s| > 0 && forall k :: 0 <= k < |s| ==> s[k] > 0.0
    requires 0 <= i < |s| && 0 <= j < |s|
    ensures s[i] <= s[j] <==> Normalize(s)[i] <= Normalize(s)[j]
  {
    var n := Normalize(s);
    var m := MaxOf(s);
    NormalizeAt(s, i);
    NormalizeAt(s, j);
    DivOrder(s[i], s[j], m);
  }

  function CostColumn(ds: seq<ModelRecord>): (col: seq<real>)
    requires ValidDataset(ds)
    ensures |col| == |ds| && forall i :: 0 <= i < |ds| ==> col[i] > 0.0
  {
    seq(|ds|, i requires 0 <= i < |ds| => UsdPerMillion(ds[i]))
  }

  function Co2Column(ds: seq<ModelRecord>): (col: seq<real>)
    requires ValidDataset(ds)
    ensures |col| == |ds| && forall i :: 0 <= i < |ds| ==> col[i] > 0.0
  {
    seq(|ds|, i requires 0 <= i < |ds| => Co2PerMillion(ds[i]))
  }

  function PowerColumn(ds: seq<ModelRecord>): (col: seq<real>)
    ensures |col| == |ds| && forall i :: 0 <= i < |ds| ==> 1.0 <= col[i] <= 3.0
  {
    seq(|ds|, i requires 0 <= i < |ds| => PowerScore(ds[i].name) as real)
  }

  /** The three slider priorities: cost, carbon and model strength. */
  datatype Weights = Weights(cost: real, carbon: real, strength: real)

  predicate ValidWeights(w: Weights)
  {
    0.0 <= w.cost <= 1.0 && 0.0 <= w.carbon <= 1.0 && 0.0 <= w.strength <= 1.0
  }

  /** Cheap and clean rows score high; strong rows score high. */
  function RowScore(w: Weights, costNorm: real, co2Norm: real, strengthNorm: real): real
  {
    w.cost * (1.0 - costNorm) + w.carbon * (1.0 - co2Norm) + w.strength * strengthNorm
  }

  /** The score column. */
  function Scores(ds: seq<ModelRecord>, w: Weights): (scores: seq<real>)
    requires ValidDataset(ds)
    ensures |scores| == |ds|
  {
    var costNorm := Normalize(CostColumn(ds));
    var co2Norm := Normalize(Co2Column(ds));
    var strengthNorm := Normalize(PowerColumn(ds));
    seq(|ds|, i requires 0 <= i < |ds| => RowScore(w, costNorm[i], co2Norm[i], strengthNorm[i]))
  }

  /** One entry of the score column. */
  lemma ScoreAt(ds: seq<ModelRecord>, w: Weights, i: int)
    requires ValidDataset(ds) && 0 <= i < |ds|
    ensures Scores(ds, w)[i] == RowScore(w, Normalize(CostColumn(ds))[i],
                                         Normalize(Co2Column(ds))[i], Normalize(PowerColumn(ds))[i])
  {
  }

  lemma WeightedBounds(weight: real, x: real)
    requires 0.0 <= weight && 0.0 <= x <= 1.0
    ensures 0.0 <= weight * x <= weight
  {
    assert weight * x <= weight * 1.0;
  }

  lemma WeightedSumBounds(a: real, b: real, c: real, x: real, y: real, z: real)
    requires 0.0 <= a && 0.0 <= b && 0.0 <= c
    requires 0.0 < x <= 1.0 && 0.0 < y <= 1.0 && 0.0 < z <= 1.0
    ensures 0.0 <= a * (1.0 - x) + b * (1.0 - y) + c * z <= a + b + c
  {
    WeightedBounds(a, 1.0 - x);
    WeightedBounds(b, 1.0 - y);
    WeightedBounds(c, z);
  }

  /** A row score with normalised inputs lies in [0, sum of the weights]. */
  lemma RowScoreBounds(w: Weights, costNorm: real, co2Norm: real, strengthNorm: real)
    requires ValidWeights(w)
    requires 0.0 < costNorm <= 1.0 && 0.0 < co2Norm <= 1.0 && 0.0 < strengthNorm <= 1.0
    ensures 0.0 <= RowScore(w, costNorm, co2Norm, strengthNorm) <= w.cost + w.carbon + w.strength
  {
    WeightedSumBounds(w.cost, w.carbon, w.strength, costNorm, co2Norm, strengthNorm);
  }

  /** With slider weights in [0,1] every score lies in [0, cost + carbon + strength]. */
  lemma ScoresBounded(ds: seq<ModelRecord>, w: Weights)
    requires ValidDataset(ds) && ValidWeights(w)
    ensures forall i :: 0 <= i < |ds| ==>
              0.0 <= Scores(ds, w)[i] <= w.cost + w.carbon + w.strength
  {
    forall i | 0 <= i < |ds|
      ensures 0.0 <= Scores(ds, w)[i] <= w.cost + w.carbon + w.strength
    {
      ScoreAt(ds, w, i);
      RowScoreBounds(w, Normalize(CostColumn(ds))[i], Normalize(Co2Column(ds))[i],
                     Normalize(PowerColumn(ds))[i]);
    }
  }

  /** The first row after sorting the score column in descending order. */
  function RecommendedIndex(ds: seq<ModelRecord>, w: Weights): (best: int)
    requires ValidDataset(ds)
    ensures 0 <= best < |ds|
    ensures forall j :: 0 <= j < |ds| ==> Scores(ds, w)[j] <= Scores(ds, w)[best]
  {
    TopIndex(Scores(ds, w))
  }

  lemma CostOnlyScore(costNorm: real, co2Norm: real, strengthNorm: real)
    ensures RowScore(Weights(1.0, 0.0, 0.0), costNorm, co2Norm, strengthNorm) == 1.0 - costNorm
  {
  }

  lemma CarbonOnlyScore(costNorm: real, co2Norm: real, strengthNorm: real)
    ensures RowScore(Weights(0.0, 1.0, 0.0), costNorm, co2Norm, strengthNorm) == 1.0 - co2Norm
  {
  }

  /** With only the cost slider set, the recommendation is a cheapest model. */
  lemma CostOnlyRecommendsCheapest(ds: seq<ModelRecord>)
    requires ValidDataset(ds)
    ensures var best := RecommendedIndex(ds, Weights(1.0, 0.0, 0.0));
      forall j :: 0 <= j < |ds| ==> UsdPerMillion(ds[best]) <= UsdPerMillion(ds[j])
  {
    var w := Weights(1.0, 0.0, 0.0);
    var best := RecommendedIndex(ds, w);
    var costNorm := Normalize(CostColumn(ds));
    forall j | 0 <= j < |ds|
      ensures UsdPerMillion(ds[best]) <= UsdPerMillion(ds[j])
    {
      assert Scores(ds, w)[j] <= Scores(ds, w)[best];
      ScoreAt(ds, w, j);
      ScoreAt(ds, w, best);
      CostOnlyScore(costNorm[j], Normalize(Co2Column(ds))[j], Normalize(PowerColumn(ds))[j]);
      CostOnlyScore(costNorm[best], Normalize(Co2Column(ds))[best], Normalize(PowerColumn(ds))[best]);
      assert costNorm[best] <= costNorm[j];
      NormalizeMonotone(CostColumn(ds), best, j);
    }
  }

  /** With only the carbon slider set, the recommendation is a cleanest model. */
  lemma CarbonOnlyRecommendsCleanest(ds: seq<ModelRecord>)
    requires ValidDataset(ds)
    ensures var best := RecommendedIndex(ds, Weights(0.0, 1.0, 0.0));
      forall j :: 0 <= j < |ds| ==> Co2PerMillion(ds[best]) <= Co2PerMillion(ds[j])
  {
    var w := Weights(0.0, 1.0, 0.0);
    var best := RecommendedIndex(ds, w);
    var co2Norm := Normalize(Co2Column(ds));
    forall j | 0 <= j < |ds|
      ensures Co2PerMillion(ds[best]) <= Co2PerMillion(ds[j])
    {
      assert Scores(ds, w)[j] <= Scores(ds, w)[best];
      ScoreAt(ds, w, j);
      ScoreAt(ds, w, best);
      CarbonOnlyScore(Normalize(CostColumn(ds))[j], co2Norm[j], Normalize(PowerColumn(ds))[j]);
      CarbonOnlyScore(Normalize(CostColumn(ds))[best], co2Norm[best], Normalize(PowerColumn(ds))[best]);
      assert co2Norm[best] <= co2Norm[j];
      NormalizeMonotone(Co2Column(ds), best, j);
    }
  }

  lemma StrengthOnlyScore(costNorm: real, co2Norm: real, strengthNorm: real)
    ensures RowScore(Weights(0.0, 0.0, 1.0), costNorm, co2Norm, strengthNorm) == strengthNorm
  {
  }

  /** With only the strength slider set, the recommendation has the top tier. */
  lemma StrengthOnlyRecommendsStrongest(ds: seq<ModelRecord>)
    requires ValidDataset(ds)
    ensures var best := RecommendedIndex(ds, Weights(0.0, 0.0, 1.0));
      forall j :: 0 <= j < |ds| ==> PowerScore(ds[j].name) <= PowerScore(ds[best].name)
  {
    var w := Weights(0.0, 0.0, 1.0);
    var best := RecommendedIndex(ds, w);
    var strengthNorm := Normalize(PowerColumn(ds));
    forall j | 0 <= j < |ds|
      ensures PowerScore(ds[j].name) <= PowerScore(ds[best].name)
    {
      assert Scores(ds, w)[j] <= Scores(ds, w)[best];
      ScoreAt(ds, w, j);
      ScoreAt(ds, w, best);
      StrengthOnlyScore(Normalize(CostColumn(ds))[j], Normalize(Co2Column(ds))[j], strengthNorm[j]);
      StrengthOnlyScore(Normalize(CostColumn(ds))[best], Normalize(Co2Column(ds))[best], strengthNorm[best]);
      assert strengthNorm[j] <= strengthNorm[best];
      NormalizeMonotone(PowerColumn(ds), j, best);
    }
  }

  /** Moving weight onto cost shifts a row-score difference by the weight change times the cost gap. */
  lemma RowScoreCostShift(w: Weights, raised: Weights, ci: real, cj: real, oi: real, oj: real, si: real, sj: real)
    requires raised.carbon == w.carbon && raised.strength == w.strength
    ensures RowScore(raised, ci, oi, si) - RowScore(raised, cj, oj, sj)
         == RowScore(w, ci, oi, si) - RowScore(w, cj, oj, sj) + (raised.cost - w.cost) * (cj - ci)
  {
  }

  lemma NonNegativeProduct(x: real, y: real)
    requires x >= 0.0 && y >= 0.0
    ensures x * y >= 0.0
  {
  }

  /** The row-score form of the lemma below, over plain normalised values. */
  lemma CostWeightGap(w: Weights, raised: Weights, ci: real, cj: real, oi: real, oj: real, si: real, sj: real)
    requires w.cost <= raised.cost && raised.carbon == w.carbon && raised.strength == w.strength
    requires ci <= cj
    ensures RowScore(raised, ci, oi, si) - RowScore(raised, cj, oj, sj)
         >= RowScore(w, ci, oi, si) - RowScore(w, cj, oj, sj)
  {
    RowScoreCostShift(w, raised, ci, cj, oi, oj, si, sj);
    NonNegativeProduct(raised.cost - w.cost, cj - ci);
  }

  /**
   * Raising the cost priority, all else fixed, never shrinks the lead of a
   * cheaper row over a dearer one.
   */
  lemma CostWeightFavoursCheaper(ds: seq<ModelRecord>, w: Weights, raised: Weights, i: int, j: int)
    requires ValidDataset(ds) && 0 <= i < |ds| && 0 <= j < |ds|
    requires w.cost <= raised.cost && raised.carbon == w.carbon && raised.strength == w.strength
    requires UsdPerMillion(ds[i]) <= UsdPerMillion(ds[j])
    ensures Scores(ds, raised)[i] - Scores(ds, raised)[j] >= Scores(ds, w)[i] - Scores(ds, w)[j]
  {
    var costNorm := Normalize(CostColumn(ds));
    var co2Norm := Normalize(Co2Column(ds));
    var strengthNorm := Normalize(PowerColumn(ds));
    assert CostColumn(ds)[i] <= CostColumn(ds)[j];
    NormalizeMonotone(CostColumn(ds), i, j);
    ScoreAt(ds, w, i);
    ScoreAt(ds, w, j);
    ScoreAt(ds, raised, i);
    ScoreAt(ds, raised, j);
    CostWeightGap(w, raised, costNorm[i], costNorm[j], co2Norm[i], co2Norm[j],
                  strengthNorm[i], strengthNorm[j]);
  }

  // ---------------------------------------------------------------------
  // Overview ranking and row lookup
  // ---------------------------------------------------------------------

  /** The metrics the overview tab can rank by. */
  datatype Metric = UsdPerMillionTokens | Co2GPerMillionTokens | RoiTokensPerDollar

  function MetricValue(r: ModelRecord, m: Metric): real
    requires ValidRecord(r)
  {
    match m
    case UsdPerMillionTokens => UsdPerMillion(r)
    case Co2GPerMillionTokens => Co2PerMillion(r)
    case RoiTokensPerDollar => r.roi
  }

  /** (model_name, metric) for every row, in table order. */
  function MetricRows(ds: seq<ModelRecord>, m: Metric): (rows: seq<(string, real)>)
    requires ValidDataset(ds)
    ensures |rows| == |ds|
  {
    seq(|ds|, i requires 0 <= i < |ds| => (ds[i].name, MetricValue(ds[i], m)))
  }

  /** The bars of the overview chart: every row once, largest metric first. */
  function OverviewBars(ds: seq<ModelRecord>, m: Metric): (bars: seq<(string, real)>)
    requires ValidDataset(ds)
    ensures |bars| == |ds|
    ensures multiset(bars) == multiset(MetricRows(ds, m))
    ensures Descending(bars)
    ensures forall j :: 0 <= j < |ds| ==> MetricValue(ds[j], m) <= bars[0].1
  {
    var bars := SortDescending(MetricRows(ds, m));
    forall j | 0 <= j < |ds|
      ensures MetricValue(ds[j], m) <= bars[0].1
    {
      assert MetricRows(ds, m)[j] in multiset(bars);
      FirstIsMaximum(bars, MetricRows(ds, m)[j]);
    }
    bars
  }

  /** The first row whose model_name is the selected name. */
  function FindRow(ds: seq<ModelRecord>, name: string): (i: int)
    requires exists k :: 0 <= k < |ds| && ds[k].name == name
    ensures 0 <= i < |ds| && ds[i].name == name
    ensures forall k :: 0 <= k < i ==> ds[k].name != name
    decreases |ds|
  {
    if ds[0].name == name then 0
    else
      var k :| 0 <= k < |ds| && ds[k].name == name;
      assert ds[1..][k - 1].name == name;
      1 + FindRow(ds[1..], name)
  }

  // ---------------------------------------------------------------------
  // The table, with the columns the script adds to it in place
  // ---------------------------------------------------------------------

  /**
   * The loaded table. A derived column is the empty sequence until the
   * script adds it, and the function that defines it afterwards.
   */
  class SummaryFrame {
    var rows: seq<ModelRecord>
    var usdPerMillion: seq<real>
    var co2PerMillion: seq<real>
    var powerScore: seq<real>
    var score: seq<real>

    constructor Load(data: seq<ModelRecord>)
      requires ValidDataset(data)
      ensures rows == data
      ensures usdPerMillion == [] && co2PerMillion == [] && powerScore == [] && score == []
    {
      rows := data;
      usdPerMillion, co2PerMillion, powerScore, score := [], [], [], [];
    }

    /** Adds usd_per_million_tokens and co2_g_per_million_tokens. */
    method AddRateColumns()
      requires ValidDataset(rows)
      modifies this
      ensures rows == old(rows) && powerScore == old(powerScore) && score == old(score)
      ensures usdPerMillion == CostColumn(rows) && co2PerMillion == Co2Column(rows)
    {
      usdPerMillion := CostColumn(rows);
      co2PerMillion := Co2Column(rows);
    }

    /** Adds power_score. */
    method AddPowerColumn()
      modifies this
      ensures rows == old(rows) && usdPerMillion == old(usdPerMillion)
      ensures co2PerMillion == old(co2PerMillion) && score == old(score)
      ensures powerScore == PowerColumn(rows)
    {
      powerScore := PowerColumn(rows);
    }

    /** Adds (or replaces) the score column from the three rate columns. */
    method AddScoreColumn(w: Weights)
      requires ValidDataset(rows)
      requires usdPerMillion == CostColumn(rows) && co2PerMillion == Co2Column(rows)
      requires powerScore == PowerColumn(rows)
      modifies this
      ensures rows == old(rows) && usdPerMillion == old(usdPerMillion)
      ensures co2PerMillion == old(co2PerMillion) && powerScore == old(powerScore)
      ensures score == Scores(rows, w)
    {
      var count := |rows|;
      var costNorm := Normalize(usdPerMillion);
      var co2Norm := Normalize(co2PerMillion);
      var strengthNorm := Normalize(powerScore);
      score := seq(count, i requires 0 <= i < count =>
        RowScore(w, costNorm[i], co2Norm[i], strengthNorm[i]));
    }

    /** The top row of the table sorted by score, descending. */
    method Best() returns (best: ModelRecord)
      requires |rows| > 0 && |score| == |rows|
      ensures exists i :: 0 <= i < |rows| && best == rows[i] &&
                forall j :: 0 <= j < |rows| ==> score[j] <= score[i]
    {
      var i := TopIndex(score);
      best := rows[i];
    }
  }
}
