/** The stand-alone ratio calculator (scripts/ratio_calculator.py).

    Each category is a `try:` block of successive assignments into a fresh dict
    whose handler catches ZeroDivisionError only: a zero divisor ends the
    category with the ratios assigned so far, while a missing field (KeyError)
    escapes to the caller. */
module RatioCalculator {
  import opened Values
  import opened Dicts
  import FinancialAnalysis

  type Ratios = Dict<string, Ext>

  /** One assignment `ratios[name] = <expression>` with the outcome of evaluating
      the expression. */
  type Step = (string, Result<Ext>)

  /** Runs the assignments in order; a division by zero stops them and keeps what
      was assigned, any other exception propagates. */
  function RunSteps(ratios: Ratios, steps: seq<Step>): Result<Ratios>
    decreases |steps|
  {
    if steps == [] then Ok(ratios)
    else match steps[0].1
      case Ok(v) => RunSteps(Put(ratios, steps[0].0, v), steps[1..])
      case Err(ZeroDivision) => Ok(ratios)
      case Err(e) => Err(e)
  }

  /** The position of the first assignment whose expression raises, or the
      number of assignments when none does. */
  function FirstFailure(steps: seq<Step>): (k: nat)
    ensures k <= |steps|
    ensures forall i :: 0 <= i < k ==> steps[i].1.Ok?
    ensures k < |steps| ==> steps[k].1.Err?
  {
    if steps == [] || steps[0].1.Err? then 0 else 1 + FirstFailure(steps[1..])
  }

  /** The pairs the first `k` assignments store. */
  function Assigned(steps: seq<Step>, k: nat): (d: Ratios)
    requires k <= |steps| && forall i :: 0 <= i < k ==> steps[i].1.Ok?
    ensures |d| == k && Keys(d) == Keys(steps)[..k]
  {
    seq(k, i requires 0 <= i < k => (steps[i].0, steps[i].1.value))
  }

  /** The pairs stored by a run that starts with a successful assignment. */
  lemma AssignedCons(steps: seq<Step>, k: nat)
    requires 1 <= k <= |steps| && forall i :: 0 <= i < k ==> steps[i].1.Ok?
    ensures Assigned(steps, k) == [(steps[0].0, steps[0].1.value)] + Assigned(steps[1..], k - 1)
  {
    var a, b := Assigned(steps, k), [(steps[0].0, steps[0].1.value)] + Assigned(steps[1..], k - 1);
    forall i | 0 <= i < k ensures a[i] == b[i] {
      if i > 0 {
        assert b[i] == Assigned(steps[1..], k - 1)[i - 1];
      }
    }
  }

  /** The first assigned name is fresh, and the rest stay distinct after it is stored. */
  lemma FreshHead(ratios: Ratios, steps: seq<Step>, v: Ext)
    requires steps != [] && Distinct(Keys(ratios) + Keys(steps))
    ensures steps[0].0 !in Keys(ratios)
    ensures Distinct(Keys(ratios + [(steps[0].0, v)]) + Keys(steps[1..]))
  {
    var all := Keys(ratios) + Keys(steps);
    var n := steps[0].0;
    forall i | 0 <= i < |ratios| ensures Keys(ratios)[i] != n {
      assert all[i] == Keys(ratios)[i] && all[|ratios|] == n;
    }
    var next := Keys(ratios + [(n, v)]) + Keys(steps[1..]);
    assert |next| == |all|;
    forall i | 0 <= i < |all| ensures next[i] == all[i] {
      if i > |ratios| {
        assert next[i] == Keys(steps[1..])[i - |ratios| - 1] == steps[i - |ratios|].0;
      }
    }
    assert next == all;
  }

  /** The pairs of a run in which every assignment succeeds. */
  lemma AssignedAll(steps: seq<Step>)
    requires forall i :: 0 <= i < |steps| ==> steps[i].1.Ok?
    ensures forall i :: 0 <= i < |steps| ==> Assigned(steps, |steps|)[i] == (steps[i].0, steps[i].1.value)
  {
  }

  /** Running the assignments stores exactly those before the first failure, and
      raises only when that failure is not a division by zero. */
  lemma {:induction false} RunStepsPrefix(ratios: Ratios, steps: seq<Step>)
    requires Distinct(Keys(ratios) + Keys(steps))
    ensures var k := FirstFailure(steps);
      RunSteps(ratios, steps) ==
        if k < |steps| && steps[k].1.error != ZeroDivision then Err(steps[k].1.error)
        else Ok(ratios + Assigned(steps, k))
    decreases |steps|
  {
    if steps == [] {
      assert ratios + Assigned(steps, 0) == ratios;
    } else if steps[0].1.Err? {
      assert FirstFailure(steps) == 0;
      assert ratios + Assigned(steps, 0) == ratios;
    } else {
      var next := ratios + [(steps[0].0, steps[0].1.value)];
      var rest := steps[1..];
      RunStepsHead(ratios, steps);
      RunStepsPrefix(next, rest);
      var k := FirstFailure(steps);
      if k < |steps| {
        assert rest[k - 1] == steps[k];
      }
      if k == |steps| || steps[k].1.error == ZeroDivision {
        AssignedTail(ratios, steps, k);
      }
    }
  }

  /** A run whose first assignment succeeds continues from the dict holding it. */
  lemma RunStepsHead(ratios: Ratios, steps: seq<Step>)
    requires steps != [] && steps[0].1.Ok? && Distinct(Keys(ratios) + Keys(steps))
    ensures var next := ratios + [(steps[0].0, steps[0].1.value)];
      && RunSteps(ratios, steps) == RunSteps(next, steps[1..])
      && Distinct(Keys(next) + Keys(steps[1..]))
      && FirstFailure(steps) == 1 + FirstFailure(steps[1..])
  {
    FreshHead(ratios, steps, steps[0].1.value);
    PutFresh(ratios, steps[0].0, steps[0].1.value);
  }

  /** Storing the first pair and then the others equals storing them all. */
  lemma AssignedTail(ratios: Ratios, steps: seq<Step>, k: nat)
    requires 1 <= k <= |steps| && forall i :: 0 <= i < k ==> steps[i].1.Ok?
    ensures (ratios + [(steps[0].0, steps[0].1.value)]) + Assigned(steps[1..], k - 1) == ratios + Assigned(steps, k)
  {
    AssignedCons(steps, k);
  }

  /** The `try:` block of one category, starting from an empty dict. */
  function Guard(steps: seq<Step>): Result<Ratios> {
    RunSteps([], steps)
  }

  /** A category keeps the ratios assigned before its first failure, in order; a
      division by zero never escapes it, and it stops early only on one. */
  lemma GuardResult(steps: seq<Step>)
    requires Distinct(Keys(steps))
    ensures var r := Guard(steps);
      && (r.Err? ==> r.error != ZeroDivision)
      && (r.Ok? ==> |r.value| <= |steps| && (forall i :: 0 <= i < |r.value| ==> steps[i].1.Ok?)
                    && r.value == Assigned(steps, |r.value|))
      && (r.Ok? && |r.value| < |steps| ==> steps[|r.value|].1 == Err(ZeroDivision))
      && ((forall i :: 0 <= i < |steps| ==> steps[i].1.Ok?) ==> r == Ok(Assigned(steps, |steps|)))
  {
    var empty: Ratios := [];
    assert Keys(empty) + Keys(steps) == Keys(steps);
    RunStepsPrefix(empty, steps);
    var k := FirstFailure(steps);
    assert empty + Assigned(steps, k) == Assigned(steps, k);
    if k < |steps| {
      assert steps[k].1.Err?;
    }
  }

  /** `data[num] / data[den]` as a ratio. */
  function Quotient(d: Record, num: string, den: string): Result<Ext> {
    var n :- Field(d, num);
    var m :- Field(d, den);
    var q :- Div(n, m);
    Ok(Finite(q))
  }

  // ---------------------------------------------------------------------------
  // The five categories

  const ProfitabilityNames: seq<string> :=
    ["gross_margin", "operating_margin", "net_margin", "roa", "roe", "ebitda_margin",
     "operating_cash_flow_margin"]

  function ProfitabilitySteps(d: Record): (s: seq<Step>)
    ensures Keys(s) == ProfitabilityNames
  {
    [("gross_margin", Quotient(d, "gross_profit", "revenue")),
     ("operating_margin", Quotient(d, "operating_income", "revenue")),
     ("net_margin", Quotient(d, "net_income", "revenue")),
     ("roa", Quotient(d, "net_income", "total_assets")),
     ("roe", Quotient(d, "net_income", "shareholders_equity")),
     ("ebitda_margin",
       var oi :- Field(d, "operating_income");
       var rev :- Field(d, "revenue");
       var q :- Div(oi + FieldOr(d, "depreciation", 0.0), rev);
       Ok(Finite(q))),
     ("operating_cash_flow_margin",
       // The default is evaluated before the lookup, so net_income must exist.
       var ni :- Field(d, "net_income");
       var rev :- Field(d, "revenue");
       var q :- Div(FieldOr(d, "operating_cash_flow", ni), rev);
       Ok(Finite(q)))]
  }

  predicate ProfitabilityDefined(d: Record) {
    && "gross_profit" in d && "revenue" in d && "operating_income" in d
    && "net_income" in d && "total_assets" in d && "shareholders_equity" in d
    && d["revenue"] != 0.0 && d["total_assets"] != 0.0 && d["shareholders_equity"] != 0.0
  }

  function ProfitabilityRatios(d: Record): (r: Result<Ratios>)
    ensures r.Err? ==> r.error != ZeroDivision
    ensures r.Ok? ==> |r.value| <= |ProfitabilityNames| && Keys(r.value) == ProfitabilityNames[..|r.value|]
    ensures "gross_profit" in d && "revenue" in d && d["revenue"] == 0.0 ==> r == Ok([])
    ensures ProfitabilityDefined(d) ==> r.Ok? && r.value == [
      ("gross_margin", Finite(d["gross_profit"] / d["revenue"])),
      ("operating_margin", Finite(d["operating_income"] / d["revenue"])),
      ("net_margin", Finite(d["net_income"] / d["revenue"])),
      ("roa", Finite(d["net_income"] / d["total_assets"])),
      ("roe", Finite(d["net_income"] / d["shareholders_equity"])),
      ("ebitda_margin", Finite((d["operating_income"] + FieldOr(d, "depreciation", 0.0)) / d["revenue"])),
      ("operating_cash_flow_margin",
        Finite(FieldOr(d, "operating_cash_flow", d["net_income"]) / d["revenue"]))]
  {
    NamesDistinct();
    var steps := ProfitabilitySteps(d);
    GuardResult(steps);
    if ProfitabilityDefined(d) then
      assert forall i :: 0 <= i < |steps| ==> steps[i].1.Ok?;
      AssignedAll(steps);
      Guard(steps)
    else
    Guard(steps)
  }

  const LiquidityNames: seq<string> :=
    ["current_ratio", "quick_ratio", "cash_ratio", "working_capital", "working_capital_ratio"]

  function LiquiditySteps(d: Record): (s: seq<Step>)
    ensures Keys(s) == LiquidityNames
  {
    [("current_ratio", Quotient(d, "current_assets", "current_liabilities")),
     ("quick_ratio",
       var ca :- Field(d, "current_assets");
       var inv :- Field(d, "inventory");
       var cl :- Field(d, "current_liabilities");
       var q :- Div(ca - inv, cl);
       Ok(Finite(q))),
     ("cash_ratio", Quotient(d, "cash", "current_liabilities")),
     ("working_capital",
       var ca :- Field(d, "current_assets");
       var cl :- Field(d, "current_liabilities");
       Ok(Finite(ca - cl))),
     ("working_capital_ratio", Quotient(d, "current_assets", "current_liabilities"))]
  }

  predicate LiquidityDefined(d: Record) {
    "current_assets" in d && "current_liabilities" in d && "inventory" in d && "cash" in d
    && d["current_liabilities"] != 0.0
  }

  function LiquidityRatios(d: Record): (r: Result<Ratios>)
    ensures r.Err? ==> r.error != ZeroDivision
    ensures r.Ok? ==> |r.value| <= |LiquidityNames| && Keys(r.value) == LiquidityNames[..|r.value|]
    ensures "current_assets" in d && "current_liabilities" in d && d["current_liabilities"] == 0.0 ==> r == Ok([])
    ensures r.Ok? && |r.value| == |LiquidityNames| ==> r.value[4].1 == r.value[0].1
    ensures LiquidityDefined(d) ==> r.Ok? && r.value == [
      ("current_ratio", Finite(d["current_assets"] / d["current_liabilities"])),
      ("quick_ratio", Finite((d["current_assets"] - d["inventory"]) / d["current_liabilities"])),
      ("cash_ratio", Finite(d["cash"] / d["current_liabilities"])),
      ("working_capital", Finite(d["current_assets"] - d["current_liabilities"])),
      ("working_capital_ratio", Finite(d["current_assets"] / d["current_liabilities"]))]
  {
    NamesDistinct();
    var steps := LiquiditySteps(d);
    GuardResult(steps);
    if LiquidityDefined(d) then
      assert forall i :: 0 <= i < |steps| ==> steps[i].1.Ok?;
      AssignedAll(steps);
      Guard(steps)
    else
    Guard(steps)
  }

  const LeverageNames: seq<string> :=
    ["debt_to_equity", "debt_ratio", "equity_ratio", "interest_coverage", "financial_leverage"]

  /** `data.get('interest_expense', data['long_term_debt'] * 0.05)`: the default is
      evaluated first, so a missing long_term_debt raises even when the interest
      expense is given. */
  function InterestExpense(d: Record): (r: Result<real>)
    ensures r.Err? <==> "long_term_debt" !in d
    ensures r.Ok? && "interest_expense" in d ==> r.value == d["interest_expense"]
    ensures r.Ok? && "interest_expense" !in d ==> r.value == d["long_term_debt"] * 0.05
  {
    var longTermDebt :- Field(d, "long_term_debt");
    Ok(FieldOr(d, "interest_expense", longTermDebt * 0.05))
  }

  function LeverageSteps(d: Record): (s: seq<Step>)
    ensures Keys(s) == LeverageNames
  {
    [("debt_to_equity", Quotient(d, "total_liabilities", "shareholders_equity")),
     ("debt_ratio", Quotient(d, "total_liabilities", "total_assets")),
     ("equity_ratio", Quotient(d, "shareholders_equity", "total_assets")),
     ("interest_coverage",
       var ebit :- Field(d, "operating_income");
       var interestExpense :- InterestExpense(d);
       Ok(PositiveQuotient(ebit, interestExpense))),
     ("financial_leverage", Quotient(d, "total_assets", "shareholders_equity"))]
  }

  predicate LeverageDefined(d: Record) {
    "total_liabilities" in d && "shareholders_equity" in d && "total_assets" in d
    && "operating_income" in d && "long_term_debt" in d
    && d["shareholders_equity"] != 0.0 && d["total_assets"] != 0.0
  }

  function LeverageRatios(d: Record): (r: Result<Ratios>)
    ensures r.Err? ==> r.error != ZeroDivision
    ensures r.Ok? ==> |r.value| <= |LeverageNames| && Keys(r.value) == LeverageNames[..|r.value|]
    ensures LeverageDefined(d) ==> r.Ok? && r.value == [
      ("debt_to_equity", Finite(d["total_liabilities"] / d["shareholders_equity"])),
      ("debt_ratio", Finite(d["total_liabilities"] / d["total_assets"])),
      ("equity_ratio", Finite(d["shareholders_equity"] / d["total_assets"])),
      ("interest_coverage", PositiveQuotient(d["operating_income"],
        FieldOr(d, "interest_expense", d["long_term_debt"] * 0.05))),
      ("financial_leverage", Finite(d["total_assets"] / d["shareholders_equity"]))]
  {
    NamesDistinct();
    var steps := LeverageSteps(d);
    GuardResult(steps);
    if LeverageDefined(d) then
      assert forall i :: 0 <= i < |steps| ==> steps[i].1.Ok?;
      AssignedAll(steps);
      Guard(steps)
    else
    Guard(steps)
  }

  const EfficiencyNames: seq<string> :=
    ["asset_turnover", "inventory_turnover", "receivables_turnover", "days_inventory",
     "days_receivables", "fixed_asset_turnover"]

  /** Days to turn over once a year at the given annual turnover, unbounded when
      the turnover is not positive. */
  function DaysOf(turnover: Result<Ext>): Result<Ext> {
    var t :- turnover;
    Ok(if t.Finite? then PositiveQuotient(365.0, t.r) else PosInf)
  }

  function EfficiencySteps(d: Record): (s: seq<Step>)
    ensures Keys(s) == EfficiencyNames
  {
    var inventoryTurnover :=
      (var cogs :- Field(d, "cogs");
       var inv :- Field(d, "inventory");
       var q :- Div(cogs * 4.0, inv);
       Ok(Finite(q)));
    var receivablesTurnover :=
      (var rev :- Field(d, "revenue");
       var ar :- Field(d, "accounts_receivable");
       var q :- Div(rev * 4.0, ar);
       Ok(Finite(q)));
    [("asset_turnover",
       var rev :- Field(d, "revenue");
       var ta :- Field(d, "total_assets");
       var q :- Div(rev * 4.0, ta);
       Ok(Finite(q))),
     ("inventory_turnover", inventoryTurnover),
     ("receivables_turnover", receivablesTurnover),
     ("days_inventory", DaysOf(inventoryTurnover)),
     ("days_receivables", DaysOf(receivablesTurnover)),
     ("fixed_asset_turnover",
       var ta :- Field(d, "total_assets");
       var ca :- Field(d, "current_assets");
       var rev :- Field(d, "revenue");
       Ok(PositiveQuotient(rev, ta - ca)))]
  }

  predicate EfficiencyDefined(d: Record) {
    "revenue" in d && "total_assets" in d && "cogs" in d && "inventory" in d
    && "accounts_receivable" in d && "current_assets" in d
    && d["total_assets"] != 0.0 && d["inventory"] != 0.0 && d["accounts_receivable"] != 0.0
  }

  /** Turnovers are annualised (times 4); days are 365 over a positive turnover. */
  function EfficiencyRatios(d: Record): (r: Result<Ratios>)
    ensures r.Err? ==> r.error != ZeroDivision
    ensures r.Ok? ==> |r.value| <= |EfficiencyNames| && Keys(r.value) == EfficiencyNames[..|r.value|]
    ensures EfficiencyDefined(d) ==> r.Ok? && r.value == [
      ("asset_turnover", Finite(d["revenue"] * 4.0 / d["total_assets"])),
      ("inventory_turnover", Finite(d["cogs"] * 4.0 / d["inventory"])),
      ("receivables_turnover", Finite(d["revenue"] * 4.0 / d["accounts_receivable"])),
      ("days_inventory", PositiveQuotient(365.0, d["cogs"] * 4.0 / d["inventory"])),
      ("days_receivables", PositiveQuotient(365.0, d["revenue"] * 4.0 / d["accounts_receivable"])),
      ("fixed_asset_turnover", PositiveQuotient(d["revenue"], d["total_assets"] - d["current_assets"]))]
  {
    NamesDistinct();
    var steps := EfficiencySteps(d);
    GuardResult(steps);
    if EfficiencyDefined(d) then
      assert forall i :: 0 <= i < |steps| ==> steps[i].1.Ok?;
      AssignedAll(steps);
      Guard(steps)
    else
    Guard(steps)
  }

  const ValuationNames: seq<string> :=
    ["pe_ratio", "pb_ratio", "ps_ratio", "ev_to_ebitda", "dividend_yield"]

  predicate EnterpriseValueInputs(d: Record) {
    "shares_outstanding" in d && "stock_price" in d && "long_term_debt" in d
    && "cash" in d && "operating_income" in d
  }

  /** Operating income plus depreciation, which defaults to a tenth of operating
      income when the record has none. */
  function Ebitda(d: Record): real
    requires "operating_income" in d
  {
    d["operating_income"] + FieldOr(d, "depreciation", d["operating_income"] * 0.1)
  }

  /** Enterprise value over EBITDA. Any failure inside is swallowed and reported as
      an unbounded ratio, and so is a non-positive EBITDA. */
  function EvToEbitda(d: Record): (r: Ext)
    ensures r != NegInf
    ensures !EnterpriseValueInputs(d) ==> r == PosInf
    ensures r.Finite? <==> EnterpriseValueInputs(d) && Ebitda(d) > 0.0
    ensures r.Finite? ==>
      r.r == (d["shares_outstanding"] * d["stock_price"] + d["long_term_debt"] - d["cash"]) / Ebitda(d)
  {
    if EnterpriseValueInputs(d) then
      var marketCap := d["shares_outstanding"] * d["stock_price"];
      PositiveQuotient(marketCap + d["long_term_debt"] - d["cash"], Ebitda(d))
    else
      PosInf
  }

  /** `dividends / price` for a positive price, else 0; dividends default to 0. */
  function DividendYield(d: Record, price: real): (y: real)
    ensures price <= 0.0 ==> y == 0.0
    ensures "dividends" !in d ==> y == 0.0
    ensures price > 0.0 && "dividends" in d ==> y == d["dividends"] / price
  {
    if price > 0.0 then FieldOr(d, "dividends", 0.0) / price else 0.0
  }

  function ValuationSteps(d: Record): (s: seq<Step>)
    ensures Keys(s) == ValuationNames
  {
    [("pe_ratio",
       var eps :- FieldQuotient(d, "net_income", "shares_outstanding");
       if eps > 0.0 then (var price :- Field(d, "stock_price"); Ok(PositiveQuotient(price, eps)))
       else Ok(PosInf)),
     ("pb_ratio",
       var bookValuePerShare :- FieldQuotient(d, "shareholders_equity", "shares_outstanding");
       var price :- Field(d, "stock_price");
       var q :- Div(price, bookValuePerShare);
       Ok(Finite(q))),
     ("ps_ratio",
       var salesPerShare :- FieldQuotient(d, "revenue", "shares_outstanding");
       var price :- Field(d, "stock_price");
       var q :- Div(price, salesPerShare);
       Ok(Finite(q))),
     ("ev_to_ebitda", Ok(EvToEbitda(d))),
     ("dividend_yield",
       var price :- Field(d, "stock_price");
       Ok(Finite(DividendYield(d, price))))]
  }

  /** `data[num] / data[den]` as a plain number. */
  function FieldQuotient(d: Record, num: string, den: string): Result<real> {
    var n :- Field(d, num);
    var m :- Field(d, den);
    Div(n, m)
  }

  predicate ValuationDefined(d: Record) {
    "net_income" in d && "shares_outstanding" in d && "stock_price" in d
    && "shareholders_equity" in d && "revenue" in d
    && d["shares_outstanding"] != 0.0 && d["shareholders_equity"] != 0.0 && d["revenue"] != 0.0
  }

  function ValuationRatios(d: Record): (r: Result<Ratios>)
    ensures r.Err? ==> r.error != ZeroDivision
    ensures r.Ok? ==> |r.value| <= |ValuationNames| && Keys(r.value) == ValuationNames[..|r.value|]
    ensures ValuationDefined(d) ==> r.Ok? && r.value == [
      ("pe_ratio", PositiveQuotient(d["stock_price"], d["net_income"] / d["shares_outstanding"])),
      ("pb_ratio", Finite(d["stock_price"] / (d["shareholders_equity"] / d["shares_outstanding"]))),
      ("ps_ratio", Finite(d["stock_price"] / (d["revenue"] / d["shares_outstanding"]))),
      ("ev_to_ebitda", EvToEbitda(d)),
      ("dividend_yield", Finite(DividendYield(d, d["stock_price"])))]
  {
    NamesDistinct();
    var steps := ValuationSteps(d);
    GuardResult(steps);
    if ValuationDefined(d) then
      assert forall i :: 0 <= i < |steps| ==> steps[i].1.Ok?;
      AssignedAll(steps);
      Guard(steps)
    else
    Guard(steps)
  }

  /** No ratio name occurs twice in one category. */
  lemma NamesDistinct()
    ensures Distinct(ProfitabilityNames) && Distinct(LiquidityNames) && Distinct(LeverageNames)
    ensures Distinct(EfficiencyNames) && Distinct(ValuationNames)
  {
  }

  /** Every later category's names are new to the earlier ones. */
  lemma NamesDisjoint()
    ensures forall x :: x in LiquidityNames ==> x !in ProfitabilityNames
    ensures forall x :: x in LeverageNames ==> x !in ProfitabilityNames + LiquidityNames
    ensures forall x :: x in EfficiencyNames ==> x !in ProfitabilityNames + LiquidityNames + LeverageNames
    ensures forall x :: x in ValuationNames ==>
      x !in ProfitabilityNames + LiquidityNames + LeverageNames + EfficiencyNames
  {
  }

  // ---------------------------------------------------------------------------
  // All ratios

  /** `calculate_all_ratios`: the five categories merged into one dict with
      `update`, in category order. A missing field in any category raises. */
  function CalculateAllRatios(d: Record): (r: Result<Ratios>)
    ensures r.Ok? <==> ProfitabilityRatios(d).Ok? && LiquidityRatios(d).Ok? && LeverageRatios(d).Ok?
                       && EfficiencyRatios(d).Ok? && ValuationRatios(d).Ok?
    ensures r.Err? ==> r.error != ZeroDivision
  {
    var profitability :- ProfitabilityRatios(d);
    var liquidity :- LiquidityRatios(d);
    var leverage :- LeverageRatios(d);
    var efficiency :- EfficiencyRatios(d);
    var valuation :- ValuationRatios(d);
    var empty: Ratios := [];
    Ok(Update(Update(Update(Update(Update(empty, profitability), liquidity), leverage), efficiency), valuation))
  }

  /** Every name of `d` is one of `names`. */
  predicate Within(d: Ratios, names: seq<string>) {
    forall i :: 0 <= i < |d| ==> d[i].0 in names
  }

  /** A dict keyed by a prefix of distinct names has distinct keys. */
  lemma PrefixKeysDistinct(e: Ratios, names: seq<string>)
    requires |e| <= |names| && Keys(e) == names[..|e|] && Distinct(names)
    ensures DistinctKeys(e)
    ensures forall i :: 0 <= i < |e| ==> e[i].0 in names
  {
    forall i | 0 <= i < |e| ensures e[i].0 in names {
      assert e[i].0 == Keys(e)[i] == names[i];
    }
  }

  /** No key of `e` is a key of `acc` when their names are drawn from disjoint lists. */
  lemma FreshKeys(acc: Ratios, e: Ratios, accNames: seq<string>, names: seq<string>)
    requires Within(acc, accNames) && Within(e, names)
    requires forall x :: x in names ==> x !in accNames
    ensures forall i :: 0 <= i < |e| ==> e[i].0 !in Keys(acc)
  {
  }

  /** Merging a category whose names are new appends it. */
  lemma MergeFresh(acc: Ratios, e: Ratios, accNames: seq<string>, names: seq<string>)
    requires Within(acc, accNames)
    requires |e| <= |names| && Keys(e) == names[..|e|] && Distinct(names)
    requires forall x :: x in names ==> x !in accNames
    ensures Update(acc, e) == acc + e
    ensures Within(acc + e, accNames + names)
  {
    PrefixKeysDistinct(e, names);
    FreshKeys(acc, e, accNames, names);
    UpdateFresh(acc, e);
    forall i | 0 <= i < |acc + e| ensures (acc + e)[i].0 in accNames + names {
      if i >= |acc| {
        assert (acc + e)[i] == e[i - |acc|];
      } else {
        assert (acc + e)[i] == acc[i];
      }
    }
  }

  /** `calculate_all_ratios` returns the flat union of the five categories: since
      no name occurs in two of them, `update` only appends. */
  lemma CalculateAllRatiosUnion(d: Record)
    ensures var r := CalculateAllRatios(d);
      r.Ok? ==> r.value == ProfitabilityRatios(d).value + LiquidityRatios(d).value + LeverageRatios(d).value
                           + EfficiencyRatios(d).value + ValuationRatios(d).value
  {
    if CalculateAllRatios(d).Ok? {
      NamesDistinct();
      NamesDisjoint();
      var p, l, lev := ProfitabilityRatios(d).value, LiquidityRatios(d).value, LeverageRatios(d).value;
      var eff, val := EfficiencyRatios(d).value, ValuationRatios(d).value;
      var empty: Ratios := [];
      MergeFresh(empty, p, [], ProfitabilityNames);
      assert empty + p == p;
      MergeFresh(p, l, ProfitabilityNames, LiquidityNames);
      MergeFresh(p + l, lev, ProfitabilityNames + LiquidityNames, LeverageNames);
      MergeFresh(p + l + lev, eff, ProfitabilityNames + LiquidityNames + LeverageNames, EfficiencyNames);
      MergeFresh(p + l + lev + eff, val, ProfitabilityNames + LiquidityNames + LeverageNames + EfficiencyNames,
                 ValuationNames);
    }
  }

  /** Within the liquidity ratios, working_capital_ratio is present only together
      with current_ratio, and the two are equal. */
  lemma LiquidityWorkingCapital(d: Record)
    ensures var r := LiquidityRatios(d);
      r.Ok? && Get(r.value, "working_capital_ratio").Some? ==>
        Get(r.value, "current_ratio") == Get(r.value, "working_capital_ratio")
  {
    var r := LiquidityRatios(d);
    if r.Ok? && Get(r.value, "working_capital_ratio").Some? {
      var l := r.value;
      NamesDistinct();
      PrefixKeysDistinct(l, LiquidityNames);
      assert |l| == 5;
      GetAt(l, 0);
      GetAt(l, 4);
    }
  }

  /** In the merged dict, working_capital_ratio is present only together with
      current_ratio, and the two are equal. */
  lemma WorkingCapitalRatioIsCurrentRatio(d: Record)
    ensures var r := CalculateAllRatios(d);
      r.Ok? && Get(r.value, "working_capital_ratio").Some? ==>
        Get(r.value, "current_ratio") == Get(r.value, "working_capital_ratio")
  {
    var r := CalculateAllRatios(d);
    if r.Ok? {
      CalculateAllRatiosUnion(d);
      NamesDistinct();
      NamesDisjoint();
      var p, l, lev := ProfitabilityRatios(d).value, LiquidityRatios(d).value, LeverageRatios(d).value;
      var eff, val := EfficiencyRatios(d).value, ValuationRatios(d).value;
      LiquidityInUnion(p, l, lev, eff, val, "current_ratio");
      LiquidityInUnion(p, l, lev, eff, val, "working_capital_ratio");
      LiquidityWorkingCapital(d);
    }
  }

  /** A liquidity name is found in the liquidity part of the merged dict. */
  lemma LiquidityInUnion(p: Ratios, l: Ratios, lev: Ratios, eff: Ratios, val: Ratios, x: string)
    requires x in LiquidityNames
    requires |p| <= |ProfitabilityNames| && Keys(p) == ProfitabilityNames[..|p|]
    requires |lev| <= |LeverageNames| && Keys(lev) == LeverageNames[..|lev|]
    requires |eff| <= |EfficiencyNames| && Keys(eff) == EfficiencyNames[..|eff|]
    requires |val| <= |ValuationNames| && Keys(val) == ValuationNames[..|val|]
    ensures Get(p + l + lev + eff + val, x) == Get(l, x)
  {
    NamesDisjoint();
    assert x !in Keys(p) && x !in Keys(lev) && x !in Keys(eff) && x !in Keys(val);
    GetAppend(p + l + lev + eff, val, x);
    GetAppend(p + l + lev, eff, x);
    GetAppend(p + l, lev, x);
    GetAppend(p, l, x);
  }

  // ---------------------------------------------------------------------------
  // Validation

  /** The warnings of `validate_ratios`, one per check. */
  datatype Warning =
    | NegativeNetMargin
    | ExtremeRoe
    | LowCurrentRatio
    | LowQuickRatio
    | HighDebtToEquity
    | LowInterestCoverage

  /** The position of each check in the fixed order of `validate_ratios`. */
  function Rank(w: Warning): nat {
    match w
    case NegativeNetMargin => 0
    case ExtremeRoe => 1
    case LowCurrentRatio => 2
    case LowQuickRatio => 3
    case HighDebtToEquity => 4
    case LowInterestCoverage => 5
  }

  /** The condition under which `validate_ratios` emits `w`: a missing ratio reads
      as 0, except interest coverage, which reads as +inf. */
  predicate Fires(w: Warning, ratios: Ratios) {
    match w
    case NegativeNetMargin => Less(GetOr(ratios, "net_margin", Finite(0.0)), 0.0)
    case ExtremeRoe => Greater(GetOr(ratios, "roe", Finite(0.0)), 1.0)
    case LowCurrentRatio => Less(GetOr(ratios, "current_ratio", Finite(0.0)), 1.0)
    case LowQuickRatio => Less(GetOr(ratios, "quick_ratio", Finite(0.0)), 0.5)
    case HighDebtToEquity => Greater(GetOr(ratios, "debt_to_equity", Finite(0.0)), 2.0)
    case LowInterestCoverage => Less(GetOr(ratios, "interest_coverage", PosInf), 1.5)
  }

  /** Warnings in strictly increasing check order, all of rank below `n`. */
  predicate Ranked(ws: seq<Warning>, n: nat) {
    && (forall i :: 0 <= i < |ws| ==> Rank(ws[i]) < n)
    && (forall i, j :: 0 <= i < j < |ws| ==> Rank(ws[i]) < Rank(ws[j]))
  }

  /** The checks in the order `validate_ratios` makes them. */
  const CheckOrder: seq<Warning> :=
    [NegativeNetMargin, ExtremeRoe, LowCurrentRatio, LowQuickRatio, HighDebtToEquity, LowInterestCoverage]

  /** The warnings emitted by the first `n` checks. */
  function Emitted(ratios: Ratios, n: nat): seq<Warning>
    requires n <= |CheckOrder|
  {
    if n == 0 then []
    else Emitted(ratios, n - 1) + (if Fires(CheckOrder[n - 1], ratios) then [CheckOrder[n - 1]] else [])
  }

  /** The first `n` checks emit, in check order, exactly the warnings among them
      that fire. */
  lemma {:induction false} EmittedSpec(ratios: Ratios, n: nat)
    requires n <= |CheckOrder|
    ensures Ranked(Emitted(ratios, n), n)
    ensures forall w :: w in Emitted(ratios, n) <==> Rank(w) < n && Fires(w, ratios)
  {
    if n > 0 {
      EmittedSpec(ratios, n - 1);
      var w := CheckOrder[n - 1];
      assert Rank(w) == n - 1;
      forall v ensures Rank(v) == n - 1 ==> v == w {
      }
    }
  }

  /** A ranked list of warnings has at most one of each. */
  lemma RankedLength(ws: seq<Warning>)
    requires Ranked(ws, 6)
    ensures |ws| <= 6
  {
    if |ws| > 6 {
      RankAtLeastIndex(ws, 6);
    }
  }

  /** In a ranked list, the warning at position `i` has rank `i` or more. */
  lemma {:induction false} RankAtLeastIndex(ws: seq<Warning>, i: nat)
    requires Ranked(ws, 6) && i < |ws|
    ensures Rank(ws[i]) >= i
  {
    if i > 0 {
      RankAtLeastIndex(ws, i - 1);
    }
  }

  /** `validate_ratios`: six threshold checks in a fixed order, each appending its
      warning when it fires. The industry benchmarks are accepted but not
      consulted. */
  method ValidateRatios(ratios: Ratios, industryBenchmarks: FinancialAnalysis.Benchmarks)
    returns (warnings: seq<Warning>)
    ensures warnings == Emitted(ratios, |CheckOrder|)
    ensures |warnings| <= 6
    ensures forall i, j :: 0 <= i < j < |warnings| ==> Rank(warnings[i]) < Rank(warnings[j])
    ensures forall w :: w in warnings <==> Fires(w, ratios)
    ensures "current_ratio" !in Keys(ratios) ==> LowCurrentRatio in warnings
    ensures "quick_ratio" !in Keys(ratios) ==> LowQuickRatio in warnings
    ensures "interest_coverage" !in Keys(ratios) ==> LowInterestCoverage !in warnings
  {
    warnings := [];
    if Less(GetOr(ratios, "net_margin", Finite(0.0)), 0.0) {
      warnings := warnings + [NegativeNetMargin];
    }
    assert warnings == Emitted(ratios, 1);
    if Greater(GetOr(ratios, "roe", Finite(0.0)), 1.0) {
      warnings := warnings + [ExtremeRoe];
    }
    assert warnings == Emitted(ratios, 2);
    if Less(GetOr(ratios, "current_ratio", Finite(0.0)), 1.0) {
      warnings := warnings + [LowCurrentRatio];
    }
    assert warnings == Emitted(ratios, 3);
    if Less(GetOr(ratios, "quick_ratio", Finite(0.0)), 0.5) {
      warnings := warnings + [LowQuickRatio];
    }
    assert warnings == Emitted(ratios, 4);
    if Greater(GetOr(ratios, "debt_to_equity", Finite(0.0)), 2.0) {
      warnings := warnings + [HighDebtToEquity];
    }
    assert warnings == Emitted(ratios, 5);
    if Less(GetOr(ratios, "interest_coverage", PosInf), 1.5) {
      warnings := warnings + [LowInterestCoverage];
    }
    assert warnings == Emitted(ratios, 6);
    ValidationSpec(ratios);
  }

  /** All six checks emit at most six warnings, in check order, exactly those that
      fire; the defaults make missing liquidity ratios fire and a missing
      interest coverage never fire. */
  lemma ValidationSpec(ratios: Ratios)
    ensures var ws := Emitted(ratios, 6);
      && |ws| <= 6
      && (forall i, j :: 0 <= i < j < |ws| ==> Rank(ws[i]) < Rank(ws[j]))
      && (forall w :: w in ws <==> Fires(w, ratios))
      && ("current_ratio" !in Keys(ratios) ==> LowCurrentRatio in ws)
      && ("quick_ratio" !in Keys(ratios) ==> LowQuickRatio in ws)
      && ("interest_coverage" !in Keys(ratios) ==> LowInterestCoverage !in ws)
  {
    var ws := Emitted(ratios, 6);
    EmittedSpec(ratios, 6);
    RankedLength(ws);
    forall w ensures Rank(w) < 6 {
    }
    FiresOnMissing(ratios);
  }

  /** The defaults of `.get`: a missing liquidity ratio reads as 0 and fires its
      check, a missing interest coverage reads as +inf and never does. */
  lemma FiresOnMissing(ratios: Ratios)
    ensures "current_ratio" !in Keys(ratios) ==> Fires(LowCurrentRatio, ratios)
    ensures "quick_ratio" !in Keys(ratios) ==> Fires(LowQuickRatio, ratios)
    ensures "interest_coverage" !in Keys(ratios) ==> !Fires(LowInterestCoverage, ratios)
  {
  }

  // ---------------------------------------------------------------------------
  // The sample record of the module's demonstration

  /** A record holding the sample company's figures (other fields may be present). */
  predicate SampleFields(d: Record) {
    && "revenue" in d && d["revenue"] == 10000000.0
    && "cogs" in d && d["cogs"] == 6000000.0
    && "gross_profit" in d && d["gross_profit"] == 4000000.0
    && "operating_income" in d && d["operating_income"] == 2000000.0
    && "net_income" in d && d["net_income"] == 1500000.0
    && "total_assets" in d && d["total_assets"] == 50000000.0
    && "current_assets" in d && d["current_assets"] == 12000000.0
    && "inventory" in d && d["inventory"] == 3000000.0
    && "accounts_receivable" in d && d["accounts_receivable"] == 4000000.0
    && "cash" in d && d["cash"] == 2000000.0
    && "total_liabilities" in d && d["total_liabilities"] == 30000000.0
    && "current_liabilities" in d && d["current_liabilities"] == 8000000.0
    && "long_term_debt" in d && d["long_term_debt"] == 22000000.0
    && "shareholders_equity" in d && d["shareholders_equity"] == 20000000.0
    && "shares_outstanding" in d && d["shares_outstanding"] == 1000000.0
    && "stock_price" in d && d["stock_price"] == 25.0
  }

  /** On the sample figures every category is complete, and the headline ratios
      take the values the formulas give. */
  lemma SampleCategories(d: Record)
    requires SampleFields(d)
    ensures var p, l, lev := ProfitabilityRatios(d), LiquidityRatios(d), LeverageRatios(d);
      && p.Ok? && |p.value| == 7 && l.Ok? && |l.value| == 5 && lev.Ok? && |lev.value| == 5
      && EfficiencyRatios(d).Ok? && |EfficiencyRatios(d).value| == 6
      && ValuationRatios(d).Ok? && |ValuationRatios(d).value| == 5
      && p.value[0] == ("gross_margin", Finite(0.4))
      && p.value[2] == ("net_margin", Finite(0.15))
      && p.value[3] == ("roa", Finite(0.03))
      && p.value[4] == ("roe", Finite(0.075))
      && l.value[0] == ("current_ratio", Finite(1.5))
      && lev.value[0] == ("debt_to_equity", Finite(1.5))
  {
    assert ProfitabilityDefined(d) && LiquidityDefined(d) && LeverageDefined(d);
    assert EfficiencyDefined(d) && ValuationDefined(d);
  }

  /** The sample's headline ratios, looked up in the merged dict. */
  lemma SampleRatios(d: Record)
    requires SampleFields(d)
    ensures var r := CalculateAllRatios(d);
      && r.Ok? && |r.value| == 28
      && Get(r.value, "gross_margin") == Some(Finite(0.4))
      && Get(r.value, "net_margin") == Some(Finite(0.15))
      && Get(r.value, "roa") == Some(Finite(0.03))
      && Get(r.value, "roe") == Some(Finite(0.075))
      && Get(r.value, "current_ratio") == Some(Finite(1.5))
      && Get(r.value, "debt_to_equity") == Some(Finite(1.5))
  {
    SampleCategories(d);
    CalculateAllRatiosUnion(d);
    HeadlineLookups(ProfitabilityRatios(d).value, LiquidityRatios(d).value, LeverageRatios(d).value,
                    EfficiencyRatios(d).value, ValuationRatios(d).value);
  }

  /** Looking up the headline ratios of complete categories in their union. */
  lemma HeadlineLookups(p: Ratios, l: Ratios, lev: Ratios, eff: Ratios, val: Ratios)
    requires |p| == |ProfitabilityNames| && Keys(p) == ProfitabilityNames
    requires |l| == |LiquidityNames| && Keys(l) == LiquidityNames
    requires |lev| == |LeverageNames| && Keys(lev) == LeverageNames
    requires |eff| == |EfficiencyNames| && Keys(eff) == EfficiencyNames
    requires |val| == |ValuationNames| && Keys(val) == ValuationNames
    ensures var r := p + l + lev + eff + val;
      && Get(r, "gross_margin") == Some(p[0].1) && Get(r, "net_margin") == Some(p[2].1)
      && Get(r, "roa") == Some(p[3].1) && Get(r, "roe") == Some(p[4].1)
      && Get(r, "current_ratio") == Some(l[0].1) && Get(r, "debt_to_equity") == Some(lev[0].1)
  {
    NamesDistinct();
    assert ProfitabilityNames[..|p|] == ProfitabilityNames && LiquidityNames[..|l|] == LiquidityNames;
    assert LeverageNames[..|lev|] == LeverageNames && EfficiencyNames[..|eff|] == EfficiencyNames;
    assert ValuationNames[..|val|] == ValuationNames;
    var rest := l + lev + eff + val;
    assert p + l + lev + eff + val == p + rest;
    forall i | i in {0, 2, 3, 4} ensures Get(p + rest, p[i].0) == Some(p[i].1) {
      GetAt(p, i);
      GetAppend(p, rest, p[i].0);
    }
    GetAt(l, 0);
    LiquidityInUnion(p, l, lev, eff, val, "current_ratio");
    GetAt(lev, 0);
    LeverageInUnion(p, l, lev, eff, val, "debt_to_equity");
  }

  /** A leverage name is found in the leverage part of the merged dict. */
  lemma LeverageInUnion(p: Ratios, l: Ratios, lev: Ratios, eff: Ratios, val: Ratios, x: string)
    requires x in LeverageNames
    requires |p| <= |ProfitabilityNames| && Keys(p) == ProfitabilityNames[..|p|]
    requires |l| <= |LiquidityNames| && Keys(l) == LiquidityNames[..|l|]
    requires |eff| <= |EfficiencyNames| && Keys(eff) == EfficiencyNames[..|eff|]
    requires |val| <= |ValuationNames| && Keys(val) == ValuationNames[..|val|]
    ensures Get(p + l + lev + eff + val, x) == Get(lev, x)
  {
    NamesDisjoint();
    assert x !in Keys(p) && x !in Keys(l) && x !in Keys(eff) && x !in Keys(val);
    GetAppend(p + l + lev + eff, val, x);
    GetAppend(p + l + lev, eff, x);
    GetAppend(p + l, lev, x);
    GetAppend(p, l, x);
  }
}
