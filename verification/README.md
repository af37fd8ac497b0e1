# Financial-ratio dashboard and student grading, in Dafny

This project models the computational core of two Python scripts and proves properties of the model.

The first is the financial-ratio dashboard of the corporate-finance project. It has three parts:

- **`FinancialAnalyzer`** (`financial_analysis.py`) computes five groups of ratios from a company's latest record. It compares every ratio with its industry benchmark and scores the company's financial health. It stores the result per company in `analysis_results`.
- **`RatioCalculator`** (`ratio_calculator.py`) computes a larger set of ratios. Each category sits in its own `try` block that catches `ZeroDivisionError`. It merges the categories into one dict and checks the result against six warning thresholds.
- **`FinancialDataProcessor`** (`data_processor.py`) does three things:
  - It scores data quality and summarises it in a report.
  - It forces three columns non-negative and checks two accounting identities.
  - It computes quarter-over-quarter growth.

  Every step appends to its `cleaning_log`.

The second is `grade_distribution` of the student-score analyzer (`analysis.py`). It turns each score into a letter grade, adds the grades as a column and stores the number of students per grade.

## Modules

| Module | Contents |
|---|---|
| `dicts.dfy` (`Dicts`) | Python dicts as insertion-ordered association lists, with `d[k] = v`, `d.get`, `d.update` and their laws. |
| `values.dfy` (`Values`) | Numbers and records. |
| `financial_analysis.dfy` (`FinancialAnalysis`) | The ratio formulas, the comparison and the assessment. Each loop is a `method`, proved equal to the recursive function that specifies it. `FinancialAnalyzer` is a class whose `analysisResults` field `AnalyzeCompany` updates. |
| `ratio_calculator.dfy` (`RatioCalculator`) | Each category is a list of assignment steps run with an early exit. A division by zero stops its category, which keeps the ratios assigned before it. `validate_ratios` is a method with six checks. |
| `data_processor.dfy` (`DataProcessor`) | `FinancialDataProcessor` is a class whose `cleaningLog` field every method appends to. The positive-column loop and the growth loop are methods proved against the functions `CleanPositive` and `GrowthMetrics`. |
| `student_scores.dfy` (`StudentScores`) | `AssignGrade` and the grade distribution. `StudentScoreAnalyzer` is a class that gains its grade column and stored distribution in `GradeDistribution`. |

Notes on `values.dfy`:

- Python floats are exact `real`s.
- `float('inf')` is the explicit value `PosInf` of the datatype `Ext`.
- A numpy float (a cell of a pandas row, or a quotient of such cells) is a `Float`: an `Ext` or `NaN`. numpy division (`NumpyDiv`) gives ±∞ for a nonzero number divided by zero and NaN for 0/0, and every comparison with NaN is false.
- Exceptions are values of `Exc`:
  - `ZeroDivision` for `ZeroDivisionError`;
  - `KeyMissing` for `KeyError`;
  - `NoRows` for the `IndexError` of `.iloc[-1]` on an empty selection.
- A computation that may raise returns a `Result`.

Behaviours of the code that are easy to miss, each modelled as written:

- **Missing benchmark category in `compare_with_benchmarks`.** The code looks up `benchmarks[category]` for every category that holds ratios, so an industry table without that category raises `KeyError` (`CompareCategoryOk`, `CompareOk`). Only a ratio missing from a present category's table, or one with a zero benchmark, is skipped.
- **Missing benchmark entry in `assess_financial_health`.** The code indexes `benchmarks[category][metric]`, so a metric the company has but the industry table lacks raises `KeyError`.
- **No metric evaluated.** When neither category holds any of the five metrics, the integer percentage raises `ZeroDivisionError` (`AssessNoMetrics`).
- **Zero denominators in `financial_analysis.py`.** `analyze_company` passes the company's latest pandas row (`.iloc[-1]`), so every ratio divides numpy floats. A zero divisor gives ±∞, or NaN for 0/0; nothing raises, and the comparison, the assessment and the stored results carry those values. A NaN ratio is `Below` its benchmark and fails its health metric (`CompareOne`, `EvaluateInsights`). Only a missing field raises (`KeyError`).
- **Eager default in `ratio_calculator.py`.** `data.get('interest_expense', data['long_term_debt'] * 0.05)` evaluates its default first. A record without `long_term_debt` therefore raises `KeyError` even when it has `interest_expense` (`InterestExpense`). The same holds for the default of `operating_cash_flow`.
- **`KeyError` escapes the category blocks.** It is not caught by a category's `except ZeroDivisionError`, so it escapes `calculate_all_ratios`.
- **`asset_turnover`.** `financial_analysis.py` does not annualise it; `ratio_calculator.py` multiplies it by 4. Each module follows its own file.

## Model

| member | source | states |
|---|---|---|
| FinancialAnalysis.ProfitabilityRatios | corporate-finance/project-3-financial-ratio-dashboard/scripts/financial_analysis.py:20-39 | Succeeds exactly when every field is present, and otherwise raises only KeyError; the result is the five numpy quotients gross_margin … roe, in assignment order; all five are finite iff revenue, total_assets and shareholders_equity are nonzero |
| FinancialAnalysis.LiquidityRatios | corporate-finance/project-3-financial-ratio-dashboard/scripts/financial_analysis.py:41-55 | Succeeds exactly when the fields are present, and otherwise raises only KeyError; current, quick ((current_assets − inventory)/current_liabilities) and cash ratio as numpy quotients; all three are finite iff current_liabilities is nonzero |
| FinancialAnalysis.Coverage | corporate-finance/project-3-financial-ratio-dashboard/scripts/financial_analysis.py:67-70 | interest_coverage is +∞ exactly when long_term_debt × 0.05 ≤ 0, otherwise operating_income / (long_term_debt × 0.05) |
| FinancialAnalysis.LeverageRatios | corporate-finance/project-3-financial-ratio-dashboard/scripts/financial_analysis.py:57-72 | Succeeds exactly when the fields are present, and otherwise raises only KeyError; debt_to_equity and debt_ratio as numpy quotients, finite iff equity, respectively total_assets, is nonzero; the guarded interest_coverage, never NaN |
| FinancialAnalysis.EfficiencyRatios | corporate-finance/project-3-financial-ratio-dashboard/scripts/financial_analysis.py:74-87 | Succeeds exactly when the fields are present, and otherwise raises only KeyError; asset turnover, and inventory and receivables turnover annualised by 4, as numpy quotients; all finite iff total_assets, inventory and accounts_receivable are nonzero |
| FinancialAnalysis.PeRatio | corporate-finance/project-3-financial-ratio-dashboard/scripts/financial_analysis.py:94-95 | price / eps for a finite positive eps, 0 for eps = +∞, and +∞ exactly when eps is not greater than 0 (eps ≤ 0, −∞ or NaN) |
| FinancialAnalysis.ValuationRatios | corporate-finance/project-3-financial-ratio-dashboard/scripts/financial_analysis.py:89-105 | Succeeds exactly when the fields are present, and otherwise raises only KeyError; pe, pb and ps ratios from the per-share numpy quotients. With nonzero shares, pb is finite iff equity is nonzero and ps iff revenue is. With zero shares, pe is 0 for positive net income and +∞ otherwise, and pb and ps are 0 for nonzero equity and revenue |
| FinancialAnalysis.ComputeRatios | corporate-finance/project-3-financial-ratio-dashboard/scripts/financial_analysis.py:115-121 | Succeeds exactly when every field of the five categories is present, otherwise raises KeyError; the result maps the five category names, in assignment order, to each category's own ratios |
| FinancialAnalysis.CompareOne | corporate-finance/project-3-financial-ratio-dashboard/scripts/financial_analysis.py:147-156 | An entry records both values. For a finite value, difference = company − benchmark and percentage_diff = difference / benchmark × 100. An infinite value keeps its infinity in the difference, and its percentage_diff is infinite with the sign flipped by a negative benchmark. NaN gives NaN for both. Status is Above exactly when the value is +∞ or a finite number strictly greater than the benchmark, so NaN is Below |
| FinancialAnalysis.CompareWithBenchmarks | corporate-finance/project-3-financial-ratio-dashboard/scripts/financial_analysis.py:139-158 | The nested loops compute exactly the comparison function `Compare`, including its KeyError |
| FinancialAnalysis.CompareCategoryOk | corporate-finance/project-3-financial-ratio-dashboard/scripts/financial_analysis.py:144-146 | A category's comparison raises exactly when it holds ratios and the industry table lacks the category |
| FinancialAnalysis.CompareCategoryEntries | corporate-finance/project-3-financial-ratio-dashboard/scripts/financial_analysis.py:145-156 | A ratio gets an entry exactly when its benchmark is present and nonzero, so percentage_diff never divides by zero |
| FinancialAnalysis.CompareOk | corporate-finance/project-3-financial-ratio-dashboard/scripts/financial_analysis.py:143-146 | The comparison raises exactly when some category with ratios is missing from the industry table |
| FinancialAnalysis.CompareKeys | corporate-finance/project-3-financial-ratio-dashboard/scripts/financial_analysis.py:143-144 | The comparison has a key for every input category, in the input order |
| FinancialAnalysis.CompareGet | corporate-finance/project-3-financial-ratio-dashboard/scripts/financial_analysis.py:143-157 | Under each category's key the comparison holds that category's own comparison |
| FinancialAnalysis.CompareEntry | corporate-finance/project-3-financial-ratio-dashboard/scripts/financial_analysis.py:143-156 | For every ratio: an entry exists iff its benchmark is present and nonzero, and the entry is `CompareOne` of the company value and that benchmark |
| FinancialAnalysis.EvaluateMetrics | corporate-finance/project-3-financial-ratio-dashboard/scripts/financial_analysis.py:166-190 | One counting loop computes the insights of `Evaluate`, and its counters equal the number of passing insights and the number of insights |
| FinancialAnalysis.AssessFinancialHealth | corporate-finance/project-3-financial-ratio-dashboard/scripts/financial_analysis.py:160-207 | The two loops, the percentage and the rating compute exactly `Assess` |
| FinancialAnalysis.EvaluateInsights | corporate-finance/project-3-financial-ratio-dashboard/scripts/financial_analysis.py:167-177 | One insight per metric the category holds, in metric-list order; a metric passes iff company ≥ benchmark, so a NaN value never passes |
| FinancialAnalysis.EvaluateNothingPresent | corporate-finance/project-3-financial-ratio-dashboard/scripts/financial_analysis.py:168-169 | A category holding none of the metrics yields no insight and reads no benchmark |
| FinancialAnalysis.PassedAtMost | corporate-finance/project-3-financial-ratio-dashboard/scripts/financial_analysis.py:172-177 | The health score never exceeds the number of evaluated metrics |
| FinancialAnalysis.AssessParts | corporate-finance/project-3-financial-ratio-dashboard/scripts/financial_analysis.py:160-201 | A successful assessment's insights are the profitability insights followed by the liquidity ones; score = 100 × passed / evaluated; rating is the bucket of the score |
| FinancialAnalysis.AssessScore | corporate-finance/project-3-financial-ratio-dashboard/scripts/financial_analysis.py:162-193 | A successful assessment evaluates between 1 and 5 metrics, and its score lies in [0, 100] |
| FinancialAnalysis.AssessNoMetrics | corporate-finance/project-3-financial-ratio-dashboard/scripts/financial_analysis.py:193 | With no metric evaluated, the percentage raises a division by zero |
| FinancialAnalysis.RatingOf | corporate-finance/project-3-financial-ratio-dashboard/scripts/financial_analysis.py:194-201 | Excellent iff the score is ≥ 80, Good iff in [60, 80), Fair iff in [40, 60), Poor iff below 40 |
| FinancialAnalysis.RatingMonotone | corporate-finance/project-3-financial-ratio-dashboard/scripts/financial_analysis.py:194-201 | Rating buckets ≥ 80, ≥ 60, ≥ 40: a higher score never gets a lower rating |
| FinancialAnalysis.LatestRow | corporate-finance/project-3-financial-ratio-dashboard/scripts/financial_analysis.py:109 | Succeeds exactly when the company has a row, and then returns its last row in table order; otherwise raises the empty-selection error |
| FinancialAnalysis.FinancialAnalyzer.constructor | corporate-finance/project-3-financial-ratio-dashboard/scripts/financial_analysis.py:10-13 | Keeps the data and benchmark tables; the results cache starts empty |
| FinancialAnalysis.FinancialAnalyzer.AnalyzeCompany | corporate-finance/project-3-financial-ratio-dashboard/scripts/financial_analysis.py:107-137 | Returns the ratios, infinities and NaN included; on success writes only `analysis_results[company_id]`, overwriting an earlier entry, and leaves every other key; on an exception (a missing row, field, industry or benchmark, or no metric to assess) stores nothing |
| RatioCalculator.RunStepsPrefix | corporate-finance/project-3-financial-ratio-dashboard/scripts/ratio_calculator.py:34-46 | Running a category's assignments stores exactly those before the first failing one; a division by zero stops there quietly, and any other error escapes |
| RatioCalculator.GuardResult | corporate-finance/project-3-financial-ratio-dashboard/scripts/ratio_calculator.py:34-49 | A category returns the ratios assigned before its first failure, in order; it stops early only on a division by zero, and never lets one escape |
| RatioCalculator.ProfitabilityRatios | corporate-finance/project-3-financial-ratio-dashboard/scripts/ratio_calculator.py:29-49 | The result is a prefix of the seven names, and ZeroDivision never escapes. A zero revenue yields the empty dict. With every field present and the denominators nonzero, the seven ratios are computed, with depreciation defaulting to 0 and operating_cash_flow to net_income |
| RatioCalculator.LiquidityRatios | corporate-finance/project-3-financial-ratio-dashboard/scripts/ratio_calculator.py:51-69 | The result is a prefix of the five names. A zero current_liabilities yields the empty dict. working_capital = current_assets − current_liabilities, and a complete result has working_capital_ratio equal to current_ratio |
| RatioCalculator.InterestExpense | corporate-finance/project-3-financial-ratio-dashboard/scripts/ratio_calculator.py:84 | The interest_expense field when present, else long_term_debt × 0.05; raises exactly when long_term_debt is missing, since the default is evaluated first |
| RatioCalculator.LeverageRatios | corporate-finance/project-3-financial-ratio-dashboard/scripts/ratio_calculator.py:71-93 | The result is a prefix of the five names. When defined: debt_to_equity, debt_ratio, equity_ratio, interest_coverage (+∞ when interest_expense ≤ 0) and financial_leverage |
| RatioCalculator.EfficiencyRatios | corporate-finance/project-3-financial-ratio-dashboard/scripts/ratio_calculator.py:95-117 | The result is a prefix of the six names. Turnovers are annualised by 4. The days ratios are 365/turnover when turnover > 0, else +∞. fixed_asset_turnover is +∞ when total_assets − current_assets ≤ 0 |
| RatioCalculator.EvToEbitda | corporate-finance/project-3-financial-ratio-dashboard/scripts/ratio_calculator.py:144-156 | Finite exactly when the inputs are present and EBITDA > 0, and then equals (shares × price + long_term_debt − cash) / EBITDA, with depreciation defaulting to 10% of operating income. Every other case, including any error, gives +∞ |
| RatioCalculator.DividendYield | corporate-finance/project-3-financial-ratio-dashboard/scripts/ratio_calculator.py:137 | 0 when stock_price ≤ 0 or dividends are absent, else dividends / stock_price |
| RatioCalculator.ValuationRatios | corporate-finance/project-3-financial-ratio-dashboard/scripts/ratio_calculator.py:119-142 | The result is a prefix of the five names. When defined: pe_ratio (+∞ for eps ≤ 0), pb, ps, ev_to_ebitda and dividend_yield |
| RatioCalculator.NamesDistinct | corporate-finance/project-3-financial-ratio-dashboard/scripts/ratio_calculator.py:36-137 | No ratio name is assigned twice within one category |
| RatioCalculator.NamesDisjoint | corporate-finance/project-3-financial-ratio-dashboard/scripts/ratio_calculator.py:13-25 | No name of a later category occurs in an earlier one |
| RatioCalculator.CalculateAllRatios | corporate-finance/project-3-financial-ratio-dashboard/scripts/ratio_calculator.py:7-27 | Succeeds exactly when every category does; only a KeyError escapes, never a division by zero |
| RatioCalculator.CalculateAllRatiosUnion | corporate-finance/project-3-financial-ratio-dashboard/scripts/ratio_calculator.py:10-27 | The merged dict is the concatenation of the five category dicts: `update` never overwrites |
| RatioCalculator.LiquidityWorkingCapital | corporate-finance/project-3-financial-ratio-dashboard/scripts/ratio_calculator.py:58-64 | Within the liquidity ratios, working_capital_ratio is present only together with current_ratio, and the two are equal |
| RatioCalculator.WorkingCapitalRatioIsCurrentRatio | corporate-finance/project-3-financial-ratio-dashboard/scripts/ratio_calculator.py:13-27 | The same holds in the merged dict |
| RatioCalculator.EmittedSpec | corporate-finance/project-3-financial-ratio-dashboard/scripts/ratio_calculator.py:161-184 | The first n checks emit, in check order, exactly the warnings among them whose condition holds |
| RatioCalculator.ValidateRatios | corporate-finance/project-3-financial-ratio-dashboard/scripts/ratio_calculator.py:158-184 | The warnings are, in fixed check order and at most six, exactly those whose threshold fires. A missing current_ratio or quick_ratio reads as 0 and warns; a missing interest_coverage reads as +∞ and never warns |
| RatioCalculator.ValidationSpec | corporate-finance/project-3-financial-ratio-dashboard/scripts/ratio_calculator.py:163-184 | The same facts about the specification function of the checks |
| RatioCalculator.FiresOnMissing | corporate-finance/project-3-financial-ratio-dashboard/scripts/ratio_calculator.py:171-182 | The `.get` defaults: 0 for the two liquidity ratios (their checks fire), +∞ for interest_coverage (its check never fires) |
| RatioCalculator.SampleCategories | corporate-finance/project-3-financial-ratio-dashboard/scripts/ratio_calculator.py:189-205 | On the sample record every category is complete, with gross_margin 0.4, net_margin 0.15, roa 0.03, roe 0.075, current_ratio 1.5 and debt_to_equity 1.5 |
| RatioCalculator.SampleRatios | corporate-finance/project-3-financial-ratio-dashboard/scripts/ratio_calculator.py:208-209 | The merged sample dict has 28 ratios, and looking up the headline ratios gives those values |
| DataProcessor.MissingValues | corporate-finance/project-3-financial-ratio-dashboard/scripts/data_processor.py:32-33 | Keeps exactly the columns whose null count is positive |
| DataProcessor.ValidateDataQuality | corporate-finance/project-3-financial-ratio-dashboard/scripts/data_processor.py:22-48 | Records the row count and the outlier counts; missing_values holds exactly the columns with nulls |
| DataProcessor.QualityScore | corporate-finance/project-3-financial-ratio-dashboard/scripts/data_processor.py:135-148 | The score lies in [20, 100]; it is 100 iff there are no nulls and no outliers, and 20 iff both penalties reach their caps |
| DataProcessor.QualityScoreAntitone | corporate-finance/project-3-financial-ratio-dashboard/scripts/data_processor.py:137-148 | More nulls or more outliers never raise the score |
| DataProcessor.SumValuesMonotone | corporate-finance/project-3-financial-ratio-dashboard/scripts/data_processor.py:140-144 | Raising any column's count never lowers the summed count |
| DataProcessor.MissingValuesKeepsTotals | corporate-finance/project-3-financial-ratio-dashboard/scripts/data_processor.py:32-33 | Dropping the zero counts keeps the total, and the number of columns left is the number with nulls |
| DataProcessor.CountPositive | corporate-finance/project-3-financial-ratio-dashboard/scripts/data_processor.py:126 | Exactly the number of columns whose count is positive (the size of the set of their positions); hence 0 iff all counts are zero, and every column iff all are positive |
| DataProcessor.Summarize | corporate-finance/project-3-financial-ratio-dashboard/scripts/data_processor.py:123-127 | total_records is the row count; columns_with_missing_data is the length of missing_values; columns_with_outliers is exactly the number of columns with an outlier count above 0 |
| DataProcessor.NegativeCount | corporate-finance/project-3-financial-ratio-dashboard/scripts/data_processor.py:71 | Exactly the number of rows whose cell in the column is negative; hence 0 iff none is |
| DataProcessor.CleanPositive | corporate-finance/project-3-financial-ratio-dashboard/scripts/data_processor.py:67-74 | The positive-column loop keeps the frame rectangular, with the same columns and number of rows |
| DataProcessor.CleanPositiveCell | corporate-finance/project-3-financial-ratio-dashboard/scripts/data_processor.py:69-73 | After k passes, a cell of a visited column holds its absolute value and every other cell is unchanged |
| DataProcessor.CleanedCells | corporate-finance/project-3-financial-ratio-dashboard/scripts/data_processor.py:67-74 | After cleaning, revenue, total_assets and shareholders_equity hold no negative value, and their non-negative cells are unchanged. Other columns, row identities and the number of rows are unchanged |
| DataProcessor.CleanPositiveLog | corporate-finance/project-3-financial-ratio-dashboard/scripts/data_processor.py:69-74 | After k passes the log holds an entry for a visited column iff the column exists and has negative cells, with their count |
| DataProcessor.ConversionEntriesSpec | corporate-finance/project-3-financial-ratio-dashboard/scripts/data_processor.py:67-74 | At most three conversion entries, one per positive column that exists and holds negative values, with its negative count |
| DataProcessor.CleanPositiveNoNegatives | corporate-finance/project-3-financial-ratio-dashboard/scripts/data_processor.py:70-74 | A frame with no negative value in the positive columns is returned unchanged with nothing logged |
| DataProcessor.CleanIdempotent | corporate-finance/project-3-financial-ratio-dashboard/scripts/data_processor.py:67-74 | Cleaning a cleaned frame changes nothing and logs no conversion |
| DataProcessor.FirstMissing | corporate-finance/project-3-financial-ratio-dashboard/scripts/data_processor.py:84-89 | None iff all the columns an identity reads exist, else the name of one that is missing |
| DataProcessor.Relationships | corporate-finance/project-3-financial-ratio-dashboard/scripts/data_processor.py:81-91 | Raises only the KeyError of a missing column, and logs at most two warnings |
| DataProcessor.RelationshipsSpec | corporate-finance/project-3-financial-ratio-dashboard/scripts/data_processor.py:81-91 | Succeeds iff the six columns exist. The gross-profit warning is logged iff its columns exist and some row has \|gross_profit − (revenue − cogs)\| ≥ 1. The balance-sheet warning is logged iff the check completes and some row has \|assets − (liabilities + equity)\| ≥ 1 |
| DataProcessor.InsertByPeriod | corporate-finance/project-3-financial-ratio-dashboard/scripts/data_processor.py:98 | Inserting a row adds exactly that row to the multiset of rows |
| DataProcessor.SortByPeriod | corporate-finance/project-3-financial-ratio-dashboard/scripts/data_processor.py:98 | The sort is a permutation of its input |
| DataProcessor.SortByPeriodSorted | corporate-finance/project-3-financial-ratio-dashboard/scripts/data_processor.py:98 | The sorted rows are in ascending period order (Python string order) |
| DataProcessor.UniqueIds | corporate-finance/project-3-financial-ratio-dashboard/scripts/data_processor.py:97 | Each company id of the table exactly once |
| DataProcessor.CompanyRows | corporate-finance/project-3-financial-ratio-dashboard/scripts/data_processor.py:98 | Exactly the rows of the table that belong to the company |
| Values.NumpyDiv | corporate-finance/project-3-financial-ratio-dashboard/scripts/data_processor.py:106-107 | The quotient for a nonzero divisor; for a zero divisor an infinity of the dividend's sign, or NaN for 0/0 |
| Values.DivBy | corporate-finance/project-3-financial-ratio-dashboard/scripts/financial_analysis.py:99 | A number over a numpy float: the quotient for a finite nonzero divisor, 0 for an infinite one, NaN for a NaN divisor or 0/0, and finite exactly in the first two cases |
| DataProcessor.GrowthRate | corporate-finance/project-3-financial-ratio-dashboard/scripts/data_processor.py:106-107 | For a nonzero previous value, previous × (1 + growth) = latest; for a zero one, NaN iff latest is 0 too |
| DataProcessor.HistoryBounds | corporate-finance/project-3-financial-ratio-dashboard/scripts/data_processor.py:98-104 | A company's sorted rows run from its earliest to its latest period |
| DataProcessor.GrowthEntryOk | corporate-finance/project-3-financial-ratio-dashboard/scripts/data_processor.py:101-107 | A company's entry raises only when it has two rows or more and revenue or net_income is missing |
| DataProcessor.GrowthEntryCases | corporate-finance/project-3-financial-ratio-dashboard/scripts/data_processor.py:99-115 | A company with at most one row gets no entry; with two or more it gets an entry or the KeyError of the missing column |
| DataProcessor.GrowthEntryOf | corporate-finance/project-3-financial-ratio-dashboard/scripts/data_processor.py:101-115 | With two rows or more and both columns present, the entry takes the growth of revenue and net_income from the second-latest to the latest sorted row, their periods, and the name of the first sorted row |
| DataProcessor.GrowthEntryPeriods | corporate-finance/project-3-financial-ratio-dashboard/scripts/data_processor.py:98-114 | previous_period ≤ latest_period, latest_period is the company's latest period, both periods come from its rows, and the name comes from a row of its earliest period |
| DataProcessor.GrowthMetricsOk | corporate-finance/project-3-financial-ratio-dashboard/scripts/data_processor.py:93-117 | With both columns present, or with no company of two rows, the computation does not raise |
| DataProcessor.GrowthMetricsErr | corporate-finance/project-3-financial-ratio-dashboard/scripts/data_processor.py:101-107 | A company of two rows or more with a column missing makes it raise |
| DataProcessor.GrowthMetricsRaises | corporate-finance/project-3-financial-ratio-dashboard/scripts/data_processor.py:93-117 | It succeeds iff both columns are present or every company has at most one row |
| DataProcessor.GrowthMetricsEntry | corporate-finance/project-3-financial-ratio-dashboard/scripts/data_processor.py:97-115 | On success, a company has an entry iff it has at least two rows, and the entry is the company's own growth entry |
| DataProcessor.CollectOk | corporate-finance/project-3-financial-ratio-dashboard/scripts/data_processor.py:97-115 | The loop over companies succeeds iff every company's entry does |
| DataProcessor.CollectGet | corporate-finance/project-3-financial-ratio-dashboard/scripts/data_processor.py:97-115 | Over distinct ids, a successful loop maps each visited company to its entry and no other id to anything |
| DataProcessor.FinancialDataProcessor.constructor | corporate-finance/project-3-financial-ratio-dashboard/scripts/data_processor.py:9-10 | The cleaning log starts empty |
| DataProcessor.FinancialDataProcessor.LoadFinancialData | corporate-finance/project-3-financial-ratio-dashboard/scripts/data_processor.py:12-20 | Returns the frame read, or nothing on a read error; appends one entry (rows loaded, or the error) to the log |
| DataProcessor.FinancialDataProcessor.ValidateFinancialRelationships | corporate-finance/project-3-financial-ratio-dashboard/scripts/data_processor.py:81-91 | Appends exactly the warnings of `Relationships` to the log and raises its KeyError |
| DataProcessor.FinancialDataProcessor.CleanFinancialData | corporate-finance/project-3-financial-ratio-dashboard/scripts/data_processor.py:50-79 | Returns the cleaned frame (the input frame is a value and is not modified) unless the relationship check raises. Appends the conversion entries and then the relationship warnings, and nothing else |
| DataProcessor.FinancialDataProcessor.CalculateGrowthMetrics | corporate-finance/project-3-financial-ratio-dashboard/scripts/data_processor.py:93-117 | The loop over unique company ids computes exactly `GrowthMetrics` and leaves the log alone |
| DataProcessor.FinancialDataProcessor.GenerateDataQualityReport | corporate-finance/project-3-financial-ratio-dashboard/scripts/data_processor.py:119-133 | The report holds the summary, the validation results, the current cleaning log and a score in [20, 100] that is 100 iff nothing is missing and nothing is an outlier |
| DataProcessor.FinancialDataProcessor.ExportProcessedData | corporate-finance/project-3-financial-ratio-dashboard/scripts/data_processor.py:150-158 | Returns whether the write succeeded and appends one entry (exported, or the error) to the log |
| StudentScores.AssignGrade | quantitative-analysis/project-2-student-score-analyzer/scripts/analysis.py:71-76 | A for ≥ 90, B for [80, 90), C for [70, 80), D for [60, 70), F below 60; each as an iff, so exactly one grade applies |
| StudentScores.AssignGradeMonotone | quantitative-analysis/project-2-student-score-analyzer/scripts/analysis.py:71-76 | A higher score never gets a worse grade |
| StudentScores.Count | quantitative-analysis/project-2-student-score-analyzer/scripts/analysis.py:79 | A grade's count is its number of occurrences in the column (its multiplicity); hence at most the number of rows, and positive iff the grade occurs |
| StudentScores.CountsCover | quantitative-analysis/project-2-student-score-analyzer/scripts/analysis.py:78-79 | The counts of the five grades add up to the number of rows |
| StudentScores.DistributionOrdered | quantitative-analysis/project-2-student-score-analyzer/scripts/analysis.py:79 | The distribution lists its grades in letter order (`sort_index`) |
| StudentScores.DistributionKeys | quantitative-analysis/project-2-student-score-analyzer/scripts/analysis.py:79 | A grade is listed iff some row has it, and then with its number of rows |
| StudentScores.DistributionTotal | quantitative-analysis/project-2-student-score-analyzer/scripts/analysis.py:78-79 | Every row is graded, so the counts of the distribution add up to the number of rows |
| StudentScores.StudentScoreAnalyzer.constructor | quantitative-analysis/project-2-student-score-analyzer/scripts/analysis.py:10-12 | The score column is kept; there is no grade column and no stored distribution yet |
| StudentScores.StudentScoreAnalyzer.GradeDistribution | quantitative-analysis/project-2-student-score-analyzer/scripts/analysis.py:69-85 | Adds a grade column with `AssignGrade` of each row's score. Returns and stores the distribution of that column, which is in letter order and sums to the number of rows. Scores are unchanged |

## Left out

- File and console I/O is not modelled:
  - `read_csv`, `to_csv`, `json.load`, every `print` and the report's `datetime.now` timestamp are left out.
  - Reading and writing become parameters that carry the outcome (`Io`).
  - The analyzers receive their tables as values.
- The statistics behind `validate_data_quality` are inputs to the model:
  - the per-column null counts;
  - the quantile/IQR outlier counts;
  - the `data_types` entry.
- The median fill of `clean_financial_data` is not modelled. Frames hold a number in every cell, so the fill never applies.
- Python floats are exact reals: IEEE rounding is not modelled.
- `ratio_calculator.py` divides the fields of a plain dict, so its zero divisors raise `ZeroDivisionError`, which its category blocks catch. `financial_analysis.py` and the growth rates divide numpy floats, which give ±∞ or NaN.
- The sign of zero is not modelled. In `FinancialAnalysis.ValuationRatios`, a book value or sales per share that numpy computes as −0.0 (a zero numerator over a negative share count) gives pb or ps −∞ in numpy for a positive price, but +∞ here.
- Cells of the financial table are numbers: a NaN cell read from an empty CSV field is not modelled in `FinancialAnalysis`.
- `DataProcessor.SortByPeriod` places rows with equal periods in input order. pandas' default quicksort does not promise any order for ties, so the row behind `company_name` and the last two rows can differ when a company has duplicate periods.
- Text is left out:
  - the message text and emoji of every cleaning-log entry, warning and insight;
  - the title-casing of metric names in insights.

  Each becomes a datatype constructor that carries its data.
- `DataProcessor.FinancialDataProcessor.GenerateDataQualityReport` returns a copy of the cleaning log. In Python the report holds the live list, so later appends show up in an earlier report.
- The `industry_benchmarks` argument of `validate_ratios` is accepted and ignored, as in the source.
- The printing demonstration of `ratio_calculator.py` is not modelled. It iterates over the flat ratio dict as if it were nested. Only its sample record and the ratios it computes are modelled.
- The student analyzer is modelled only as far as its score column, its grade column and `results['grade_distribution']`. Its other methods are plain pandas aggregations and plots.
- `StudentScores.AssignGrade` does not model NaN scores, which fail every comparison and get F. Scores are exact reals.
- `dashboard.py`, the configuration files and `data_cleaning.py` are not part of this model.
