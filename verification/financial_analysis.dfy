/** The ratio engine of the financial-ratio dashboard (scripts/financial_analysis.py):
    five groups of ratios computed from one company-period record, the comparison
    of every ratio with its industry benchmark, and the overall health score.

    The record is the company's latest row of a pandas table, so its fields are
    numpy floats: a zero divisor gives an infinity or NaN rather than raising, and
    the analysis goes on with that value. Only a missing field raises (KeyError). */
module FinancialAnalysis {
  import opened Values
  import opened Dicts

  /** Ratio name to value, in the order the ratios are assigned. */
  type Ratios = Dict<string, Float>
  /** Category name (profitability, liquidity, ...) to that category's ratios. */
  type RatioSet = Dict<string, Ratios>
  /** One industry's benchmark table: category to ratio name to benchmark value. */
  type Benchmarks = map<string, map<string, real>>

  /** `data[num] / data[den]`, looking the fields up left to right. */
  function Quotient(d: Record, num: string, den: string): Result<Float> {
    var n :- Field(d, num);
    var m :- Field(d, den);
    Ok(NumpyDiv(n, m))
  }

  // ---------------------------------------------------------------------------
  // The five ratio categories

  predicate ProfitabilityFields(d: Record) {
    && "gross_profit" in d && "revenue" in d && "operating_income" in d
    && "net_income" in d && "total_assets" in d && "shareholders_equity" in d
  }

  function ProfitabilityRatios(d: Record): (r: Result<Ratios>)
    ensures r.Ok? <==> ProfitabilityFields(d)
    ensures r.Err? ==> r.error.KeyMissing?
    ensures r.Ok? ==> r.value == [
      ("gross_margin", NumpyDiv(d["gross_profit"], d["revenue"])),
      ("operating_margin", NumpyDiv(d["operating_income"], d["revenue"])),
      ("net_margin", NumpyDiv(d["net_income"], d["revenue"])),
      ("roa", NumpyDiv(d["net_income"], d["total_assets"])),
      ("roe", NumpyDiv(d["net_income"], d["shareholders_equity"]))]
    ensures r.Ok? ==>
      ((forall i :: 0 <= i < |r.value| ==> IsFinite(r.value[i].1)) <==>
       d["revenue"] != 0.0 && d["total_assets"] != 0.0 && d["shareholders_equity"] != 0.0)
  {
    var grossMargin :- Quotient(d, "gross_profit", "revenue");
    var operatingMargin :- Quotient(d, "operating_income", "revenue");
    var netMargin :- Quotient(d, "net_income", "revenue");
    var roa :- Quotient(d, "net_income", "total_assets");
    var roe :- Quotient(d, "net_income", "shareholders_equity");
    var ratios := [("gross_margin", grossMargin), ("operating_margin", operatingMargin),
                   ("net_margin", netMargin), ("roa", roa), ("roe", roe)];
    assert IsFinite(ratios[0].1) && IsFinite(ratios[3].1) && IsFinite(ratios[4].1) ==>
      d["revenue"] != 0.0 && d["total_assets"] != 0.0 && d["shareholders_equity"] != 0.0;
    Ok(ratios)
  }

  predicate LiquidityFields(d: Record) {
    "current_assets" in d && "current_liabilities" in d && "inventory" in d && "cash" in d
  }

  function LiquidityRatios(d: Record): (r: Result<Ratios>)
    ensures r.Ok? <==> LiquidityFields(d)
    ensures r.Err? ==> r.error.KeyMissing?
    ensures r.Ok? ==> r.value == [
      ("current_ratio", NumpyDiv(d["current_assets"], d["current_liabilities"])),
      ("quick_ratio", NumpyDiv(d["current_assets"] - d["inventory"], d["current_liabilities"])),
      ("cash_ratio", NumpyDiv(d["cash"], d["current_liabilities"]))]
    ensures r.Ok? ==>
      ((forall i :: 0 <= i < |r.value| ==> IsFinite(r.value[i].1)) <==> d["current_liabilities"] != 0.0)
  {
    var currentRatio :- Quotient(d, "current_assets", "current_liabilities");
    var inventory :- Field(d, "inventory");
    var quickRatio := NumpyDiv(d["current_assets"] - inventory, d["current_liabilities"]);
    var cashRatio :- Quotient(d, "cash", "current_liabilities");
    var ratios := [("current_ratio", currentRatio), ("quick_ratio", quickRatio), ("cash_ratio", cashRatio)];
    assert IsFinite(ratios[0].1) ==> d["current_liabilities"] != 0.0;
    Ok(ratios)
  }

  /** Interest coverage with interest assumed at 5% of long-term debt: unbounded when
      that assumed expense is not positive. */
  function Coverage(ebit: real, longTermDebt: real): (c: Ext)
    ensures c == PosInf <==> longTermDebt * 0.05 <= 0.0
    ensures c != PosInf ==> c == Finite(ebit / (longTermDebt * 0.05))
  {
    PositiveQuotient(ebit, longTermDebt * 0.05)
  }

  predicate LeverageFields(d: Record) {
    "total_liabilities" in d && "shareholders_equity" in d && "total_assets" in d
    && "operating_income" in d && "long_term_debt" in d
  }

  function LeverageRatios(d: Record): (r: Result<Ratios>)
    ensures r.Ok? <==> LeverageFields(d)
    ensures r.Err? ==> r.error.KeyMissing?
    ensures r.Ok? ==> r.value == [
      ("debt_to_equity", NumpyDiv(d["total_liabilities"], d["shareholders_equity"])),
      ("debt_ratio", NumpyDiv(d["total_liabilities"], d["total_assets"])),
      ("interest_coverage", Num(Coverage(d["operating_income"], d["long_term_debt"])))]
    ensures r.Ok? ==> (IsFinite(r.value[0].1) <==> d["shareholders_equity"] != 0.0)
    ensures r.Ok? ==> (IsFinite(r.value[1].1) <==> d["total_assets"] != 0.0)
    ensures r.Ok? ==> r.value[2].1 != NaN
  {
    var debtToEquity :- Quotient(d, "total_liabilities", "shareholders_equity");
    var debtRatio :- Quotient(d, "total_liabilities", "total_assets");
    var ebit :- Field(d, "operating_income");
    var longTermDebt :- Field(d, "long_term_debt");
    Ok([("debt_to_equity", debtToEquity), ("debt_ratio", debtRatio),
        ("interest_coverage", Num(Coverage(ebit, longTermDebt)))])
  }

  predicate EfficiencyFields(d: Record) {
    "revenue" in d && "total_assets" in d && "cogs" in d && "inventory" in d && "accounts_receivable" in d
  }

  /** Turnover ratios; inventory and receivables are annualised (times 4), asset
      turnover is not. */
  function EfficiencyRatios(d: Record): (r: Result<Ratios>)
    ensures r.Ok? <==> EfficiencyFields(d)
    ensures r.Err? ==> r.error.KeyMissing?
    ensures r.Ok? ==> r.value == [
      ("asset_turnover", NumpyDiv(d["revenue"], d["total_assets"])),
      ("inventory_turnover", NumpyDiv(d["cogs"] * 4.0, d["inventory"])),
      ("receivables_turnover", NumpyDiv(d["revenue"] * 4.0, d["accounts_receivable"]))]
    ensures r.Ok? ==>
      ((forall i :: 0 <= i < |r.value| ==> IsFinite(r.value[i].1)) <==>
       d["total_assets"] != 0.0 && d["inventory"] != 0.0 && d["accounts_receivable"] != 0.0)
  {
    var assetTurnover :- Quotient(d, "revenue", "total_assets");
    var cogs :- Field(d, "cogs");
    var inventory :- Field(d, "inventory");
    var inventoryTurnover := NumpyDiv(cogs * 4.0, inventory);
    var receivables :- Field(d, "accounts_receivable");
    var receivablesTurnover := NumpyDiv(d["revenue"] * 4.0, receivables);
    var ratios := [("asset_turnover", assetTurnover), ("inventory_turnover", inventoryTurnover),
                   ("receivables_turnover", receivablesTurnover)];
    assert IsFinite(ratios[0].1) && IsFinite(ratios[1].1) && IsFinite(ratios[2].1) ==>
      d["total_assets"] != 0.0 && d["inventory"] != 0.0 && d["accounts_receivable"] != 0.0;
    Ok(ratios)
  }

  /** `price / eps if eps > 0 else float('inf')`: an earnings per share that is not
      positive, or NaN, gives an unbounded ratio; an infinite one gives zero. */
  function PeRatio(price: real, eps: Float): (p: Float)
    ensures IsFinite(eps) && eps.x.r > 0.0 ==> p == Num(Finite(price / eps.x.r))
    ensures eps == Num(PosInf) ==> p == Num(Finite(0.0))
    ensures p == Num(PosInf) <==> !FloatGreater(eps, 0.0)
  {
    if FloatGreater(eps, 0.0) then DivBy(price, eps) else Num(PosInf)
  }

  predicate ValuationFields(d: Record) {
    "net_income" in d && "shares_outstanding" in d && "stock_price" in d
    && "shareholders_equity" in d && "revenue" in d
  }

  function ValuationRatios(d: Record): (r: Result<Ratios>)
    ensures r.Ok? <==> ValuationFields(d)
    ensures r.Err? ==> r.error.KeyMissing?
    ensures r.Ok? ==> r.value == [
      ("pe_ratio", PeRatio(d["stock_price"], NumpyDiv(d["net_income"], d["shares_outstanding"]))),
      ("pb_ratio", DivBy(d["stock_price"], NumpyDiv(d["shareholders_equity"], d["shares_outstanding"]))),
      ("ps_ratio", DivBy(d["stock_price"], NumpyDiv(d["revenue"], d["shares_outstanding"])))]
    ensures r.Ok? && d["shares_outstanding"] != 0.0 ==>
      && (IsFinite(r.value[1].1) <==> d["shareholders_equity"] != 0.0)
      && (IsFinite(r.value[2].1) <==> d["revenue"] != 0.0)
    ensures r.Ok? && d["shares_outstanding"] == 0.0 ==>
      && r.value[0].1 == (if d["net_income"] > 0.0 then Num(Finite(0.0)) else Num(PosInf))
      && (d["shareholders_equity"] != 0.0 ==> r.value[1].1 == Num(Finite(0.0)))
      && (d["revenue"] != 0.0 ==> r.value[2].1 == Num(Finite(0.0)))
  {
    var eps :- Quotient(d, "net_income", "shares_outstanding");
    // The price is only read when earnings per share are positive.
    var peRatio :- if FloatGreater(eps, 0.0) then (var p :- Field(d, "stock_price"); Ok(PeRatio(p, eps))) else Ok(Num(PosInf));
    var bookValuePerShare :- Quotient(d, "shareholders_equity", "shares_outstanding");
    var price :- Field(d, "stock_price");
    var pbRatio := DivBy(price, bookValuePerShare);
    var salesPerShare :- Quotient(d, "revenue", "shares_outstanding");
    var psRatio := DivBy(price, salesPerShare);
    Ok([("pe_ratio", peRatio), ("pb_ratio", pbRatio), ("ps_ratio", psRatio)])
  }

  /** The five categories, in the order `analyze_company` fills them. */
  function ComputeRatios(d: Record): (r: Result<RatioSet>)
    ensures r.Ok? <==> ProfitabilityFields(d) && LiquidityFields(d) && LeverageFields(d)
                       && EfficiencyFields(d) && ValuationFields(d)
    ensures r.Err? ==> r.error.KeyMissing?
    ensures r.Ok? ==> r.value == [
      ("profitability", ProfitabilityRatios(d).value), ("liquidity", LiquidityRatios(d).value),
      ("leverage", LeverageRatios(d).value), ("efficiency", EfficiencyRatios(d).value),
      ("valuation", ValuationRatios(d).value)]
  {
    var profitability :- ProfitabilityRatios(d);
    var liquidity :- LiquidityRatios(d);
    var leverage :- LeverageRatios(d);
    var efficiency :- EfficiencyRatios(d);
    var valuation :- ValuationRatios(d);
    Ok([("profitability", profitability), ("liquidity", liquidity), ("leverage", leverage),
        ("efficiency", efficiency), ("valuation", valuation)])
  }

  // ---------------------------------------------------------------------------
  // Benchmark comparison

  datatype Status = Above | Below

  datatype Comparison = Comparison(
    companyValue: Float, benchmarkValue: real, difference: Float, percentageDiff: Float, status: Status)

  type CategoryComparison = Dict<string, Comparison>
  type ComparisonSet = Dict<string, CategoryComparison>

  /** The entry for one ratio against a nonzero benchmark. A NaN ratio gives a NaN
      difference and percentage and is Below; an infinite one keeps its infinity,
      and its percentage takes the benchmark's sign. */
  function CompareOne(v: Float, b: real): (c: Comparison)
    requires b != 0.0
    ensures c.companyValue == v && c.benchmarkValue == b
    ensures c.status == Above <==> v == Num(PosInf) || (IsFinite(v) && v.x.r > b)
    ensures IsFinite(v) ==>
      c.difference == Num(Finite(v.x.r - b)) && c.percentageDiff == Num(Finite((v.x.r - b) / b * 100.0))
    ensures v == Num(PosInf) ==>
      c.difference == Num(PosInf) && c.percentageDiff == Num(if b > 0.0 then PosInf else NegInf)
    ensures v == Num(NegInf) ==>
      c.difference == Num(NegInf) && c.percentageDiff == Num(if b > 0.0 then NegInf else PosInf)
    ensures v == NaN ==> c.difference == NaN && c.percentageDiff == NaN
  {
    var difference := Sub(v, b);
    Comparison(v, b, difference, PercentOf(difference, b), if FloatGreater(difference, 0.0) then Above else Below)
  }

  /** A benchmark counts only when present and nonzero (`if benchmark_value:`). */
  predicate HasBenchmark(bench: map<string, real>, name: string) {
    name in bench && bench[name] != 0.0
  }

  /** The inner loop over one category's ratios. The category's benchmark table is
      read for every ratio, so a missing table raises as soon as there is a ratio. */
  function CompareCategory(rs: Ratios, category: string, benchmarks: Benchmarks): Result<CategoryComparison>
    decreases |rs|
  {
    if rs == [] then Ok([])
    else
      var acc :- CompareCategory(rs[..|rs| - 1], category, benchmarks);
      var (name, value) := rs[|rs| - 1];
      if category !in benchmarks then Err(KeyMissing(category))
      else if HasBenchmark(benchmarks[category], name) then
        Ok(Put(acc, name, CompareOne(value, benchmarks[category][name])))
      else Ok(acc)
  }

  /** The outer loop over the categories. */
  function Compare(ratios: RatioSet, benchmarks: Benchmarks): Result<ComparisonSet>
    decreases |ratios|
  {
    if ratios == [] then Ok([])
    else
      var acc :- Compare(ratios[..|ratios| - 1], benchmarks);
      var (category, rs) := ratios[|ratios| - 1];
      var inner :- CompareCategory(rs, category, benchmarks);
      Ok(Put(acc, category, inner))
  }

  lemma {:induction false} CompareCategoryErrPersists(rs: Ratios, n: nat, category: string, benchmarks: Benchmarks)
    requires n <= |rs| && CompareCategory(rs[..n], category, benchmarks).Err?
    ensures CompareCategory(rs, category, benchmarks) == CompareCategory(rs[..n], category, benchmarks)
    decreases |rs| - n
  {
    if n < |rs| {
      assert rs[..n + 1][..n] == rs[..n];
      CompareCategoryErrPersists(rs, n + 1, category, benchmarks);
    } else {
      assert rs[..n] == rs;
    }
  }

  lemma {:induction false} CompareErrPersists(ratios: RatioSet, n: nat, benchmarks: Benchmarks)
    requires n <= |ratios| && Compare(ratios[..n], benchmarks).Err?
    ensures Compare(ratios, benchmarks) == Compare(ratios[..n], benchmarks)
    decreases |ratios| - n
  {
    if n < |ratios| {
      assert ratios[..n + 1][..n] == ratios[..n];
      CompareErrPersists(ratios, n + 1, benchmarks);
    } else {
      assert ratios[..n] == ratios;
    }
  }

  /** `compare_with_benchmarks`: nested loops that fill the comparison dict. */
  method CompareWithBenchmarks(ratios: RatioSet, benchmarks: Benchmarks) returns (r: Result<ComparisonSet>)
    ensures r == Compare(ratios, benchmarks)
  {
    var comparison: ComparisonSet := [];
    for i := 0 to |ratios|
      invariant Compare(ratios[..i], benchmarks) == Ok(comparison)
    {
      var (category, rs) := ratios[i];
      assert ratios[..i + 1][..i] == ratios[..i];
      var inner: CategoryComparison := [];
      for j := 0 to |rs|
        invariant CompareCategory(rs[..j], category, benchmarks) == Ok(inner)
      {
        var (name, value) := rs[j];
        assert rs[..j + 1][..j] == rs[..j];
        if category !in benchmarks {
          CompareCategoryErrPersists(rs, j + 1, category, benchmarks);
          assert rs[..|rs|] == rs;
          CompareErrPersists(ratios, i + 1, benchmarks);
          return Err(KeyMissing(category));
        }
        if HasBenchmark(benchmarks[category], name) {
          inner := Put(inner, name, CompareOne(value, benchmarks[category][name]));
        }
      }
      assert rs[..|rs|] == rs;
      comparison := Put(comparison, category, inner);
    }
    assert ratios[..|ratios|] == ratios;
    return Ok(comparison);
  }

  // ---------------------------------------------------------------------------
  // Health assessment

  datatype Group = ProfitabilityGroup | LiquidityGroup

  /** One line of insight: the metric, its group (worded strong/weak for
      profitability, good/poor for liquidity) and whether it met its benchmark. */
  datatype Insight = Insight(metric: string, group: Group, passed: bool)

  datatype Rating = Excellent | Good | Fair | Poor

  datatype Health = Health(score: real, rating: Rating, insights: seq<Insight>)

  const ProfitabilityMetrics: seq<string> := ["net_margin", "roe", "roa"]
  const LiquidityMetrics: seq<string> := ["current_ratio", "quick_ratio"]

  /** The rating bucket of a health percentage. */
  function RatingOf(score: real): (r: Rating)
    ensures r == Excellent <==> score >= 80.0
    ensures r == Good <==> 60.0 <= score < 80.0
    ensures r == Fair <==> 40.0 <= score < 60.0
    ensures r == Poor <==> score < 40.0
  {
    if score >= 80.0 then Excellent
    else if score >= 60.0 then Good
    else if score >= 40.0 then Fair
    else Poor
  }

  function RatingRank(r: Rating): nat {
    match r
    case Poor => 0
    case Fair => 1
    case Good => 2
    case Excellent => 3
  }

  /** `ratios[name]` for a category. */
  function CategoryOf(ratios: RatioSet, name: string): Result<Ratios> {
    match Get(ratios, name)
    case Some(rs) => Ok(rs)
    case None => Err(KeyMissing(name))
  }

  /** The metrics of `metrics` that the category holds, in order. */
  function Present(rs: Ratios, metrics: seq<string>): (p: seq<string>)
    ensures |p| <= |metrics|
    decreases |metrics|
  {
    if metrics == [] then []
    else Present(rs, metrics[..|metrics| - 1]) + (if metrics[|metrics| - 1] in Keys(rs) then [metrics[|metrics| - 1]] else [])
  }

  /** One assessment loop: an insight for every metric the category holds, each
      metric's benchmark being read (and raising when absent). */
  function Evaluate(group: Group, category: string, rs: Ratios, benchmarks: Benchmarks, metrics: seq<string>)
    : Result<seq<Insight>>
    decreases |metrics|
  {
    if metrics == [] then Ok([])
    else
      var done :- Evaluate(group, category, rs, benchmarks, metrics[..|metrics| - 1]);
      var metric := metrics[|metrics| - 1];
      match Get(rs, metric)
      case None => Ok(done)
      case Some(v) =>
        if category !in benchmarks then Err(KeyMissing(category))
        else if metric !in benchmarks[category] then Err(KeyMissing(metric))
        else Ok(done + [Insight(metric, group, FloatAtLeast(v, benchmarks[category][metric]))])
  }

  /** Number of insights that met their benchmark. */
  function Passed(insights: seq<Insight>): nat
    decreases |insights|
  {
    if insights == [] then 0
    else Passed(insights[..|insights| - 1]) + (if insights[|insights| - 1].passed then 1 else 0)
  }

  /** `assess_financial_health`. */
  function Assess(ratios: RatioSet, benchmarks: Benchmarks): Result<Health> {
    var profitability :- CategoryOf(ratios, "profitability");
    var fromProfitability :- Evaluate(ProfitabilityGroup, "profitability", profitability, benchmarks, ProfitabilityMetrics);
    var liquidity :- CategoryOf(ratios, "liquidity");
    var fromLiquidity :- Evaluate(LiquidityGroup, "liquidity", liquidity, benchmarks, LiquidityMetrics);
    var insights := fromProfitability + fromLiquidity;
    if |insights| == 0 then Err(ZeroDivision)
    else
      var score := Passed(insights) as real / |insights| as real * 100.0;
      Ok(Health(score, RatingOf(score), insights))
  }

  lemma {:induction false} EvaluateErrPersists(group: Group, category: string, rs: Ratios, benchmarks: Benchmarks,
                                               metrics: seq<string>, n: nat)
    requires n <= |metrics| && Evaluate(group, category, rs, benchmarks, metrics[..n]).Err?
    ensures Evaluate(group, category, rs, benchmarks, metrics) == Evaluate(group, category, rs, benchmarks, metrics[..n])
    decreases |metrics| - n
  {
    if n < |metrics| {
      assert metrics[..n + 1][..n] == metrics[..n];
      EvaluateErrPersists(group, category, rs, benchmarks, metrics, n + 1);
    } else {
      assert metrics[..n] == metrics;
    }
  }

  lemma {:induction false} PassedAppend(a: seq<Insight>, b: seq<Insight>)
    ensures Passed(a + b) == Passed(a) + Passed(b)
    decreases |b|
  {
    if b != [] {
      assert (a + b)[..|a + b| - 1] == a + b[..|b| - 1];
      PassedAppend(a, b[..|b| - 1]);
    } else {
      assert a + b == a;
    }
  }

  /** One assessment loop over a metric list, with the counters it keeps. */
  method EvaluateMetrics(group: Group, category: string, rs: Ratios, benchmarks: Benchmarks, metrics: seq<string>)
    returns (r: Result<seq<Insight>>, healthScore: nat, totalMetrics: nat)
    ensures r == Evaluate(group, category, rs, benchmarks, metrics)
    ensures r.Ok? ==> healthScore == Passed(r.value) && totalMetrics == |r.value|
  {
    var insights: seq<Insight> := [];
    healthScore, totalMetrics := 0, 0;
    for i := 0 to |metrics|
      invariant Evaluate(group, category, rs, benchmarks, metrics[..i]) == Ok(insights)
      invariant healthScore == Passed(insights) && totalMetrics == |insights|
    {
      var metric := metrics[i];
      assert metrics[..i + 1][..i] == metrics[..i];
      match Get(rs, metric)
      case Some(companyVal) => {
        if category !in benchmarks {
          EvaluateErrPersists(group, category, rs, benchmarks, metrics, i + 1);
          return Err(KeyMissing(category)), healthScore, totalMetrics;
        }
        if metric !in benchmarks[category] {
          EvaluateErrPersists(group, category, rs, benchmarks, metrics, i + 1);
          return Err(KeyMissing(metric)), healthScore, totalMetrics;
        }
        var benchmarkVal := benchmarks[category][metric];
        var passed := FloatAtLeast(companyVal, benchmarkVal);
        if passed {
          healthScore := healthScore + 1;
        }
        insights := insights + [Insight(metric, group, passed)];
        totalMetrics := totalMetrics + 1;
      }
      case None =>
    }
    assert metrics[..|metrics|] == metrics;
    r := Ok(insights);
  }

  /** `assess_financial_health`: the two counting loops, then the percentage and its
      rating; with no metric evaluated, the percentage divides by zero. */
  method AssessFinancialHealth(ratios: RatioSet, benchmarks: Benchmarks) returns (r: Result<Health>)
    ensures r == Assess(ratios, benchmarks)
  {
    var profitability :- CategoryOf(ratios, "profitability");
    var fromProfitability, scoreP, totalP := EvaluateMetrics(ProfitabilityGroup, "profitability", profitability, benchmarks, ProfitabilityMetrics);
    if fromProfitability.Err? {
      return Err(fromProfitability.error);
    }
    var liquidity :- CategoryOf(ratios, "liquidity");
    var fromLiquidity, scoreL, totalL := EvaluateMetrics(LiquidityGroup, "liquidity", liquidity, benchmarks, LiquidityMetrics);
    if fromLiquidity.Err? {
      return Err(fromLiquidity.error);
    }
    var insights := fromProfitability.value + fromLiquidity.value;
    PassedAppend(fromProfitability.value, fromLiquidity.value);
    var healthScore, totalMetrics := scoreP + scoreL, totalP + totalL;
    if totalMetrics == 0 {
      return Err(ZeroDivision);
    }
    var healthPercentage := healthScore as real / totalMetrics as real * 100.0;
    r := Ok(Health(healthPercentage, RatingOf(healthPercentage), insights));
  }

  // ---------------------------------------------------------------------------
  // The analyzer and its results cache

  datatype Analysis = Analysis(
    companyName: string, industry: string, period: string,
    ratios: RatioSet, benchmarkComparison: ComparisonSet, financialHealth: Health)

  /** `data[data['company_id'] == id].iloc[-1]`: the last row of the company. */
  function LatestRow(data: seq<Row>, companyId: int): (r: Result<Row>)
    ensures r.Ok? <==> exists i :: 0 <= i < |data| && data[i].companyId == companyId
    ensures r.Err? ==> r.error == NoRows
    ensures r.Ok? ==> exists i :: 0 <= i < |data| && data[i] == r.value && r.value.companyId == companyId
                                  && forall j :: i < j < |data| ==> data[j].companyId != companyId
    decreases |data|
  {
    if data == [] then Err(NoRows)
    else if data[|data| - 1].companyId == companyId then Ok(data[|data| - 1])
    else
      var r := LatestRow(data[..|data| - 1], companyId);
      assert forall i :: 0 <= i < |data| - 1 ==> data[..|data| - 1][i] == data[i];
      r
  }

  /** `industry_benchmarks[industry]`. */
  function IndustryOf(industries: map<string, Benchmarks>, industry: string): Result<Benchmarks> {
    if industry in industries then Ok(industries[industry]) else Err(KeyMissing(industry))
  }

  /** Everything `analyze_company` computes and stores for one company. */
  function Analyze(data: seq<Row>, industries: map<string, Benchmarks>, companyId: int): Result<Analysis> {
    var row :- LatestRow(data, companyId);
    var ratios :- ComputeRatios(row.fields);
    var benchmarks :- IndustryOf(industries, row.industry);
    var comparison :- Compare(ratios, benchmarks);
    var health :- Assess(ratios, benchmarks);
    Ok(Analysis(row.companyName, row.industry, row.period, ratios, comparison, health))
  }

  class FinancialAnalyzer {
    /** The financial-statements table, one row per company and period. */
    const data: seq<Row>
    /** The benchmark tables, by industry. */
    const industryBenchmarks: map<string, Benchmarks>
    /** The results cache: the last analysis stored for each company. */
    var analysisResults: map<int, Analysis>

    constructor (data: seq<Row>, industryBenchmarks: map<string, Benchmarks>)
      ensures this.data == data && this.industryBenchmarks == industryBenchmarks
      ensures analysisResults == map[]
    {
      this.data := data;
      this.industryBenchmarks := industryBenchmarks;
      analysisResults := map[];
    }

    /** `analyze_company`: compute, compare and assess; store the result under the
        company's id (replacing an earlier one) and return the ratios. When any step
        raises, nothing is stored. */
    method AnalyzeCompany(companyId: int) returns (r: Result<RatioSet>)
      modifies this
      ensures var a := Analyze(data, industryBenchmarks, companyId);
        && (r.Ok? <==> a.Ok?)
        && (r.Ok? ==> r.value == a.value.ratios)
        && analysisResults == if a.Ok? then old(analysisResults)[companyId := a.value] else old(analysisResults)
    {
      var row :- LatestRow(data, companyId);
      var ratios :- ComputeRatios(row.fields);
      var benchmarks :- IndustryOf(industryBenchmarks, row.industry);
      var comparison :- CompareWithBenchmarks(ratios, benchmarks);
      var health :- AssessFinancialHealth(ratios, benchmarks);
      analysisResults := analysisResults[companyId := Analysis(row.companyName, row.industry, row.period, ratios, comparison, health)];
      return Ok(ratios);
    }
  }

  // ---------------------------------------------------------------------------
  // Properties of the comparison

  /** A category's comparison fails exactly when the category has ratios but the
      industry table has no such category. */
  lemma {:induction false} CompareCategoryOk(rs: Ratios, category: string, benchmarks: Benchmarks)
    ensures CompareCategory(rs, category, benchmarks).Ok? <==> rs == [] || category in benchmarks
    decreases |rs|
  {
    if rs != [] {
      CompareCategoryOk(rs[..|rs| - 1], category, benchmarks);
    }
  }

  /** The comparison of one category holds an entry for exactly the ratios whose
      benchmark is present and nonzero, each built by CompareOne. */
  lemma {:induction false} CompareCategoryEntries(rs: Ratios, category: string, benchmarks: Benchmarks)
    requires DistinctKeys(rs) && category in benchmarks
    ensures CompareCategory(rs, category, benchmarks).Ok?
    ensures var c := CompareCategory(rs, category, benchmarks).value;
      forall name :: Get(c, name) ==
        if name in Keys(rs) && HasBenchmark(benchmarks[category], name)
        then Some(CompareOne(Get(rs, name).value, benchmarks[category][name]))
        else None
    decreases |rs|
  {
    if rs != [] {
      var n := |rs| - 1;
      LastPair(rs);
      CompareCategoryEntries(rs[..n], category, benchmarks);
    }
  }

  /** The comparison fails exactly when some category with ratios is missing from
      the industry table. */
  lemma {:induction false} CompareOk(ratios: RatioSet, benchmarks: Benchmarks)
    ensures Compare(ratios, benchmarks).Ok? <==>
      forall i :: 0 <= i < |ratios| && ratios[i].1 != [] ==> ratios[i].0 in benchmarks
    decreases |ratios|
  {
    if ratios != [] {
      var n := |ratios| - 1;
      CompareOk(ratios[..n], benchmarks);
      CompareCategoryOk(ratios[n].1, ratios[n].0, benchmarks);
      assert forall i :: 0 <= i < n ==> ratios[..n][i] == ratios[i];
    }
  }

  /** Every category of the ratio set gets a key in the comparison, in the same
      order. */
  lemma {:induction false} CompareKeys(ratios: RatioSet, benchmarks: Benchmarks)
    requires DistinctKeys(ratios) && Compare(ratios, benchmarks).Ok?
    ensures Keys(Compare(ratios, benchmarks).value) == Keys(ratios)
    decreases |ratios|
  {
    if ratios != [] {
      var n := |ratios| - 1;
      LastPair(ratios);
      CompareKeys(ratios[..n], benchmarks);
      PutFresh(Compare(ratios[..n], benchmarks).value, ratios[n].0, CompareCategory(ratios[n].1, ratios[n].0, benchmarks).value);
    }
  }

  /** Under each category's key, the comparison holds that category's comparison. */
  lemma {:induction false} CompareGet(ratios: RatioSet, benchmarks: Benchmarks, i: nat)
    requires DistinctKeys(ratios) && Compare(ratios, benchmarks).Ok? && i < |ratios|
    ensures CompareCategory(ratios[i].1, ratios[i].0, benchmarks).Ok?
    ensures Get(Compare(ratios, benchmarks).value, ratios[i].0) == Some(CompareCategory(ratios[i].1, ratios[i].0, benchmarks).value)
    decreases |ratios|
  {
    var n := |ratios| - 1;
    LastPair(ratios);
    var prev := Compare(ratios[..n], benchmarks).value;
    var last := CompareCategory(ratios[n].1, ratios[n].0, benchmarks).value;
    assert Compare(ratios, benchmarks).value == Put(prev, ratios[n].0, last);
    if i < n {
      CompareGet(ratios[..n], benchmarks, i);
      assert ratios[..n][i] == ratios[i];
      assert Keys(ratios)[i] != Keys(ratios)[n];
    }
  }

  /** The comparison of a ratio set whose dicts hold each key once: for every ratio
      of every category, an entry exists exactly when its benchmark is present and
      nonzero, and it is that ratio's `CompareOne` entry: difference, percentage and
      status as `CompareOne` states them. */
  lemma CompareEntry(ratios: RatioSet, benchmarks: Benchmarks, i: nat, name: string)
    requires DistinctKeys(ratios) && forall j :: 0 <= j < |ratios| ==> DistinctKeys(ratios[j].1)
    requires Compare(ratios, benchmarks).Ok? && i < |ratios|
    ensures var (category, rs) := ratios[i];
      var c := Get(Compare(ratios, benchmarks).value, category);
      && c.Some?
      && (Get(c.value, name).Some? <==> name in Keys(rs) && category in benchmarks && HasBenchmark(benchmarks[category], name))
      && (Get(c.value, name).Some? ==>
            var e := Get(c.value, name).value;
            && e.companyValue == Get(rs, name).value
            && e.benchmarkValue == benchmarks[category][name] != 0.0
            && e == CompareOne(e.companyValue, e.benchmarkValue))
  {
    var (category, rs) := ratios[i];
    CompareGet(ratios, benchmarks, i);
    CompareOk(ratios, benchmarks);
    if rs != [] {
      CompareCategoryEntries(rs, category, benchmarks);
    }
  }

  // ---------------------------------------------------------------------------
  // Properties of the health assessment

  /** An assessment loop emits one insight per metric the category holds, in the
      order of the metric list, and a metric passes exactly when the company value
      is at least its benchmark; a NaN value never passes. */
  lemma {:induction false} EvaluateInsights(group: Group, category: string, rs: Ratios, benchmarks: Benchmarks, metrics: seq<string>)
    requires Evaluate(group, category, rs, benchmarks, metrics).Ok?
    ensures var ins := Evaluate(group, category, rs, benchmarks, metrics).value;
      && |ins| == |Present(rs, metrics)|
      && forall k :: 0 <= k < |ins| ==>
           && ins[k].metric == Present(rs, metrics)[k]
           && ins[k].group == group
           && ins[k].metric in Keys(rs)
           && category in benchmarks && ins[k].metric in benchmarks[category]
           && (ins[k].passed <==> MeetsBenchmark(rs, benchmarks, category, ins[k].metric))
           && (Get(rs, ins[k].metric).value == NaN ==> !ins[k].passed)
    decreases |metrics|
  {
    if metrics != [] {
      EvaluateInsights(group, category, rs, benchmarks, metrics[..|metrics| - 1]);
    }
  }

  /** The company value of a metric is at least its benchmark (`company_val >= benchmark_val`). */
  predicate MeetsBenchmark(rs: Ratios, benchmarks: Benchmarks, category: string, metric: string) {
    && metric in Keys(rs) && category in benchmarks && metric in benchmarks[category]
    && FloatAtLeast(Get(rs, metric).value, benchmarks[category][metric])
  }

  /** A category holding none of the metrics gives no insight and reads no benchmark. */
  lemma {:induction false} EvaluateNothingPresent(group: Group, category: string, rs: Ratios, benchmarks: Benchmarks, metrics: seq<string>)
    requires Present(rs, metrics) == []
    ensures Evaluate(group, category, rs, benchmarks, metrics) == Ok([])
    decreases |metrics|
  {
    if metrics != [] {
      var n := |metrics| - 1;
      assert Present(rs, metrics[..n]) == [];
      EvaluateNothingPresent(group, category, rs, benchmarks, metrics[..n]);
    }
  }

  /** No more insights pass than exist. */
  lemma {:induction false} PassedAtMost(insights: seq<Insight>)
    ensures Passed(insights) <= |insights|
    decreases |insights|
  {
    if insights != [] {
      PassedAtMost(insights[..|insights| - 1]);
    }
  }

  /** The two loops' insights make up a successful assessment. */
  lemma AssessParts(ratios: RatioSet, benchmarks: Benchmarks)
    requires Assess(ratios, benchmarks).Ok?
    ensures "profitability" in Keys(ratios) && "liquidity" in Keys(ratios)
    ensures var profitability := Get(ratios, "profitability").value;
      var liquidity := Get(ratios, "liquidity").value;
      var fromP := Evaluate(ProfitabilityGroup, "profitability", profitability, benchmarks, ProfitabilityMetrics);
      var fromL := Evaluate(LiquidityGroup, "liquidity", liquidity, benchmarks, LiquidityMetrics);
      var h := Assess(ratios, benchmarks).value;
      && fromP.Ok? && fromL.Ok?
      && h.insights == fromP.value + fromL.value
      && |h.insights| > 0
      && h.score == Passed(h.insights) as real / |h.insights| as real * 100.0
      && h.rating == RatingOf(h.score)
  {
  }

  /** A successful assessment evaluated between one and five metrics, and its score
      is a percentage in [0, 100]. */
  lemma AssessScore(ratios: RatioSet, benchmarks: Benchmarks)
    requires Assess(ratios, benchmarks).Ok?
    ensures var h := Assess(ratios, benchmarks).value;
      && 1 <= |h.insights| <= 5
      && 0.0 <= h.score <= 100.0
  {
    AssessParts(ratios, benchmarks);
    var profitability := Get(ratios, "profitability").value;
    var liquidity := Get(ratios, "liquidity").value;
    EvaluateInsights(ProfitabilityGroup, "profitability", profitability, benchmarks, ProfitabilityMetrics);
    EvaluateInsights(LiquidityGroup, "liquidity", liquidity, benchmarks, LiquidityMetrics);
    var h := Assess(ratios, benchmarks).value;
    PassedAtMost(h.insights);
    Percentage(Passed(h.insights), |h.insights|);
  }

  /** `passed / total * 100` lies in [0, 100] when `passed <= total`. */
  lemma Percentage(passed: nat, total: nat)
    requires passed <= total && total > 0
    ensures 0.0 <= passed as real / total as real * 100.0 <= 100.0
  {
    var p, t := passed as real, total as real;
    var q := p / t;
    assert q * t == p;
    assert (1.0 - q) * t == t - p;
  }

  /** When the two categories hold none of the five metrics, the percentage divides
      by zero. */
  lemma AssessNoMetrics(ratios: RatioSet, benchmarks: Benchmarks)
    requires "profitability" in Keys(ratios) && "liquidity" in Keys(ratios)
    requires Present(Get(ratios, "profitability").value, ProfitabilityMetrics) == []
    requires Present(Get(ratios, "liquidity").value, LiquidityMetrics) == []
    ensures Assess(ratios, benchmarks) == Err(ZeroDivision)
  {
    EvaluateNothingPresent(ProfitabilityGroup, "profitability", Get(ratios, "profitability").value, benchmarks, ProfitabilityMetrics);
    EvaluateNothingPresent(LiquidityGroup, "liquidity", Get(ratios, "liquidity").value, benchmarks, LiquidityMetrics);
  }

  /** A higher score never gets a lower rating. */
  lemma RatingMonotone(s1: real, s2: real)
    requires s1 <= s2
    ensures RatingRank(RatingOf(s1)) <= RatingRank(RatingOf(s2))
  {
  }
}
