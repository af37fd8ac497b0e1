/** The data-preparation step of the financial-ratio dashboard
    (scripts/data_processor.py): the data-quality score and report summary, the
    cleaning that forces three columns non-negative, the two accounting-identity
    checks, quarter-over-quarter growth per company, and the append-only cleaning
    log the processor keeps. */
module DataProcessor {
  import opened Values
  import opened Dicts

  // ---------------------------------------------------------------------------
  // Data-quality validation, score and report

  /** Column name to a count (nulls or outliers). */
  type Counts = Dict<string, nat>

  /** What `validate_data_quality` returns. The per-column null and outlier counts
      come from pandas (`isnull().sum()` and the interquartile-range rule) and are
      inputs here. */
  datatype Validation = Validation(totalRows: nat, missingValues: Counts, outliers: Counts)

  /** The sum of the counts, as `sum(d.values())`. */
  function SumValues(d: Counts): nat {
    if d == [] then 0 else d[0].1 + SumValues(d[1..])
  }

  /** `missing_data[missing_data > 0]`: the columns that have nulls, in order. */
  function MissingValues(nullCounts: Counts): (m: Counts)
    ensures forall i :: 0 <= i < |m| ==> m[i].1 > 0
    ensures forall p :: p in m <==> p in nullCounts && p.1 > 0
  {
    if nullCounts == [] then []
    else if nullCounts[0].1 > 0 then [nullCounts[0]] + MissingValues(nullCounts[1..])
    else MissingValues(nullCounts[1..])
  }

  /** The number of entries with a positive count. */
  function CountPositive(d: Counts): (n: nat)
    ensures n == |set i | 0 <= i < |d| && d[i].1 > 0|
    ensures n <= |d|
    ensures n == 0 <==> forall i :: 0 <= i < |d| ==> d[i].1 == 0
    ensures n == |d| <==> forall i :: 0 <= i < |d| ==> d[i].1 > 0
  {
    if d == [] then 0
    else
      PositiveIndicesCons(d);
      (if d[0].1 > 0 then 1 else 0) + CountPositive(d[1..])
  }

  /** Shifting a set of indices up by one keeps its size. */
  lemma {:induction false} ShiftSize(s: set<int>)
    ensures |set i | i in s :: i + 1| == |s|
    decreases |s|
  {
    if x :| x in s {
      var t := s - {x};
      ShiftSize(t);
      var up, upT := set i | i in s :: i + 1, set i | i in t :: i + 1;
      forall j | j in up ensures j in upT + {x + 1} {
        assert j - 1 in s;
        if j != x + 1 {
          assert j - 1 in t;
        }
      }
      assert up == upT + {x + 1};
      assert x + 1 !in upT;
    } else {
      assert forall y :: y !in s;
      assert (set i | i in s :: i + 1) == {};
    }
  }

  /** The positive entries of `d` are its first one, when positive, and those of its
      tail one place further on. */
  lemma PositiveIndicesCons(d: Counts)
    requires d != []
    ensures |set i | 0 <= i < |d| && d[i].1 > 0| ==
            (if d[0].1 > 0 then 1 else 0) + |set i | 0 <= i < |d[1..]| && d[1..][i].1 > 0|
  {
    var tail := set i | 0 <= i < |d[1..]| && d[1..][i].1 > 0;
    var shifted := set i | i in tail :: i + 1;
    var all := set i | 0 <= i < |d| && d[i].1 > 0;
    ShiftSize(tail);
    forall j | j in all && j != 0 ensures j in shifted {
      assert d[1..][j - 1] == d[j];
      assert j - 1 in tail;
    }
    assert all == shifted + (if d[0].1 > 0 then {0} else {});
  }

  /** `validate_data_quality`, from the row count and the per-column counts. */
  function ValidateDataQuality(totalRows: nat, nullCounts: Counts, outlierCounts: Counts): (v: Validation)
    ensures v.totalRows == totalRows && v.outliers == outlierCounts
    ensures forall p :: p in v.missingValues <==> p in nullCounts && p.1 > 0
  {
    Validation(totalRows, MissingValues(nullCounts), outlierCounts)
  }

  function Min(a: nat, b: nat): nat {
    if a <= b then a else b
  }

  /** `max(0, x)`. */
  function Floor0(x: int): nat {
    if x < 0 then 0 else x
  }

  /** `_calculate_quality_score`: 100 less a missing-value penalty of 5 per null,
      capped at 50, and an outlier penalty of 2 per outlier, capped at 30, floored
      at 0. The caps keep the score at 20 or more, so the floor never applies. */
  function QualityScore(v: Validation): (score: nat)
    ensures 20 <= score <= 100
    ensures score == 100 <==> SumValues(v.missingValues) == 0 && SumValues(v.outliers) == 0
    ensures score == 20 <==> SumValues(v.missingValues) >= 10 && SumValues(v.outliers) >= 15
  {
    var missingPenalty := Min(SumValues(v.missingValues) * 5, 50);
    var outlierPenalty := Min(SumValues(v.outliers) * 2, 30);
    var totalPenalty := missingPenalty + outlierPenalty;
    Floor0(100 - totalPenalty)
  }

  /** More nulls or more outliers never raise the score. */
  lemma QualityScoreAntitone(v: Validation, w: Validation)
    requires SumValues(v.missingValues) <= SumValues(w.missingValues)
    requires SumValues(v.outliers) <= SumValues(w.outliers)
    ensures QualityScore(w) <= QualityScore(v)
  {
  }

  /** Raising any column's count raises the sum or leaves it. */
  lemma {:induction false} SumValuesMonotone(d: Counts, e: Counts)
    requires |d| == |e| && forall i :: 0 <= i < |d| ==> d[i].0 == e[i].0 && d[i].1 <= e[i].1
    ensures SumValues(d) <= SumValues(e)
  {
    if d != [] {
      SumValuesMonotone(d[1..], e[1..]);
    }
  }

  /** Dropping the zero counts changes neither the total nor the number of columns
      that have some: the summary's columns_with_missing_data counts exactly the
      columns with a null, and the score sees every null. */
  lemma {:induction false} MissingValuesKeepsTotals(nullCounts: Counts)
    ensures SumValues(MissingValues(nullCounts)) == SumValues(nullCounts)
    ensures |MissingValues(nullCounts)| == CountPositive(nullCounts)
  {
    if nullCounts != [] {
      MissingValuesKeepsTotals(nullCounts[1..]);
      if nullCounts[0].1 > 0 {
        assert ([nullCounts[0]] + MissingValues(nullCounts[1..]))[1..] == MissingValues(nullCounts[1..]);
      }
    }
  }

  datatype Summary = Summary(totalRecords: nat, columnsWithMissingData: nat, columnsWithOutliers: nat)

  /** The `summary` block of the data-quality report. */
  function Summarize(v: Validation): (s: Summary)
    ensures s.totalRecords == v.totalRows
    ensures s.columnsWithMissingData == |v.missingValues|
    ensures s.columnsWithOutliers == |set i | 0 <= i < |v.outliers| && v.outliers[i].1 > 0|
    ensures s.columnsWithOutliers <= |v.outliers|
    ensures s.columnsWithOutliers == 0 <==> forall i :: 0 <= i < |v.outliers| ==> v.outliers[i].1 == 0
  {
    Summary(v.totalRows, |v.missingValues|, CountPositive(v.outliers))
  }

  /** The data-quality report; its timestamp is left out. */
  datatype Report = Report(summary: Summary, detailedFindings: Validation, cleaningActions: seq<LogEntry>,
                           dataQualityScore: nat)

  // ---------------------------------------------------------------------------
  // The cleaning log

  /** One entry of `cleaning_log`; the text and emoji of each message are left out. */
  datatype LogEntry =
    | Loaded(rows: nat)
    | LoadFailed(message: string)
    | ConvertedNegatives(count: nat, column: string)
    | GrossProfitMismatch
    | BalanceSheetUnbalanced
    | Exported(path: string)
    | ExportFailed(message: string)

  // ---------------------------------------------------------------------------
  // Frames

  /** A table of financial statements: the numeric columns it has and its rows.
      Identity columns (company_id, company_name, industry, period) are the
      dedicated fields of each row; the numeric cells are in `fields`. */
  datatype Frame = Frame(columns: set<string>, rows: seq<Row>)

  /** A frame is rectangular: every row has a cell in exactly the frame's columns. */
  ghost predicate WellFormed(f: Frame) {
    forall i, c :: 0 <= i < |f.rows| ==> (c in f.rows[i].fields <==> c in f.columns)
  }

  function Abs(x: real): real {
    if x < 0.0 then -x else x
  }

  // ---------------------------------------------------------------------------
  // Cleaning: negative values in the always-positive columns

  /** The columns that `clean_financial_data` forces non-negative, in the order it visits them. */
  const PositiveColumns: seq<string> := ["revenue", "total_assets", "shareholders_equity"]

  /** `(df[c] < 0).sum()`. */
  function NegativeCount(rows: seq<Row>, c: string): (n: nat)
    requires forall i :: 0 <= i < |rows| ==> c in rows[i].fields
    ensures n == |set i | 0 <= i < |rows| && rows[i].fields[c] < 0.0|
    ensures n <= |rows|
    ensures n == 0 <==> forall i :: 0 <= i < |rows| ==> rows[i].fields[c] >= 0.0
  {
    if rows == [] then 0
    else
      NegativeIndicesCons(rows, c);
      (if rows[0].fields[c] < 0.0 then 1 else 0) + NegativeCount(rows[1..], c)
  }

  /** The rows negative in `c` are the first one, when negative, and those of the
      rest one place further on. */
  lemma NegativeIndicesCons(rows: seq<Row>, c: string)
    requires rows != [] && forall i :: 0 <= i < |rows| ==> c in rows[i].fields
    ensures |set i | 0 <= i < |rows| && rows[i].fields[c] < 0.0| ==
            (if rows[0].fields[c] < 0.0 then 1 else 0) + |set i | 0 <= i < |rows[1..]| && rows[1..][i].fields[c] < 0.0|
  {
    var tail := set i | 0 <= i < |rows[1..]| && rows[1..][i].fields[c] < 0.0;
    var shifted := set i | i in tail :: i + 1;
    var all := set i | 0 <= i < |rows| && rows[i].fields[c] < 0.0;
    ShiftSize(tail);
    forall j | j in all && j != 0 ensures j in shifted {
      assert rows[1..][j - 1] == rows[j];
      assert j - 1 in tail;
    }
    assert all == shifted + (if rows[0].fields[c] < 0.0 then {0} else {});
  }

  /** `df[c] = df[c].abs()`. */
  function AbsColumn(rows: seq<Row>, c: string): (out: seq<Row>)
    requires forall i :: 0 <= i < |rows| ==> c in rows[i].fields
    ensures |out| == |rows|
  {
    seq(|rows|, i requires 0 <= i < |rows| => rows[i].(fields := rows[i].fields[c := Abs(rows[i].fields[c])]))
  }

  /** One pass of the positive-column loop over column `c`: the frame after it and
      the log entry it writes, if any. */
  function CleanColumn(f: Frame, c: string): (Frame, seq<LogEntry>)
    requires WellFormed(f)
  {
    if c in f.columns && NegativeCount(f.rows, c) > 0 then
      (f.(rows := AbsColumn(f.rows, c)), [ConvertedNegatives(NegativeCount(f.rows, c), c)])
    else
      (f, [])
  }

  /** The frame and log entries after the first `k` passes of the positive-column loop. */
  function CleanPositive(f: Frame, k: nat): (out: (Frame, seq<LogEntry>))
    requires WellFormed(f) && k <= |PositiveColumns|
    ensures WellFormed(out.0) && out.0.columns == f.columns && |out.0.rows| == |f.rows|
  {
    if k == 0 then (f, [])
    else
      var prev := CleanPositive(f, k - 1);
      var next := CleanColumn(prev.0, PositiveColumns[k - 1]);
      (next.0, prev.1 + next.1)
  }

  /** The frame `clean_financial_data` returns (given no missing cells, the median fill does nothing). */
  function Cleaned(f: Frame): Frame
    requires WellFormed(f)
  {
    CleanPositive(f, |PositiveColumns|).0
  }

  /** The log entries the positive-column loop writes. */
  function ConversionEntries(f: Frame): seq<LogEntry>
    requires WellFormed(f)
  {
    CleanPositive(f, |PositiveColumns|).1
  }

  /** One pass over column `col` keeps each row's identity and replaces that
      column's cells, and only those, by their absolute values. */
  lemma CleanColumnCell(f: Frame, col: string, i: nat, c: string)
    requires WellFormed(f) && i < |f.rows| && c in f.columns
    ensures |CleanColumn(f, col).0.rows| == |f.rows|
    ensures var row := CleanColumn(f, col).0.rows[i];
      && row.(fields := f.rows[i].fields) == f.rows[i]
      && row.fields[c] == if c == col then Abs(f.rows[i].fields[c]) else f.rows[i].fields[c]
  {
    if col in f.columns && NegativeCount(f.rows, col) > 0 {
      assert CleanColumn(f, col).0.rows[i] == f.rows[i].(fields := f.rows[i].fields[col := Abs(f.rows[i].fields[col])]);
    } else if col == c {
      assert f.rows[i].fields[c] >= 0.0;
    }
  }

  /** After `k` passes, a row keeps its identity, and a cell holds the absolute value
      of the original if its column was among the first `k` positive columns and is
      unchanged otherwise. */
  lemma {:induction false} CleanPositiveCell(f: Frame, k: nat, i: nat, c: string)
    requires WellFormed(f) && k <= |PositiveColumns| && i < |f.rows| && c in f.columns
    ensures var row := CleanPositive(f, k).0.rows[i];
      && row.(fields := f.rows[i].fields) == f.rows[i]
      && row.fields[c] == if c in PositiveColumns[..k] then Abs(f.rows[i].fields[c]) else f.rows[i].fields[c]
  {
    if k > 0 {
      CleanPositiveCell(f, k - 1, i, c);
      var col := PositiveColumns[k - 1];
      CleanColumnCell(CleanPositive(f, k - 1).0, col, i, c);
      assert PositiveColumns[..k] == PositiveColumns[..k - 1] + [col];
    }
  }

  /** `clean_financial_data` makes the positive columns non-negative and changes no
      other cell: each cell of a positive column becomes its absolute value. */
  lemma CleanedCells(f: Frame, i: nat, c: string)
    requires WellFormed(f) && i < |f.rows| && c in f.columns
    ensures WellFormed(Cleaned(f)) && Cleaned(f).columns == f.columns && |Cleaned(f).rows| == |f.rows|
    ensures Cleaned(f).rows[i].(fields := f.rows[i].fields) == f.rows[i]
    ensures c in PositiveColumns ==> Cleaned(f).rows[i].fields[c] == Abs(f.rows[i].fields[c]) >= 0.0
    ensures c !in PositiveColumns ==> Cleaned(f).rows[i].fields[c] == f.rows[i].fields[c]
  {
    CleanPositiveCell(f, |PositiveColumns|, i, c);
    assert PositiveColumns[..|PositiveColumns|] == PositiveColumns;
  }

  /** Each pass writes at most one entry. */
  lemma {:induction false} CleanPositiveLogLength(f: Frame, k: nat)
    requires WellFormed(f) && k <= |PositiveColumns|
    ensures |CleanPositive(f, k).1| <= k
  {
    if k > 0 {
      CleanPositiveLogLength(f, k - 1);
    }
  }

  /** After `k` passes, the log holds an entry for each visited positive column that
      is in the frame and had negative values, with their number, and nothing else. */
  lemma {:induction false} CleanPositiveLog(f: Frame, k: nat, e: LogEntry)
    requires WellFormed(f) && k <= |PositiveColumns|
    ensures e in CleanPositive(f, k).1 <==>
      && e.ConvertedNegatives? && e.column in PositiveColumns[..k] && e.column in f.columns
      && e.count == NegativeCount(f.rows, e.column) > 0
  {
    if k > 0 {
      CleanPositiveLog(f, k - 1, e);
      var col := PositiveColumns[k - 1];
      assert PositiveColumns[..k] == PositiveColumns[..k - 1] + [col];
      assert col !in PositiveColumns[..k - 1];
      if col in f.columns {
        UntouchedColumn(f, k - 1, col);
      }
    }
  }

  /** Passes over other columns leave the negative count of a column as it was. */
  lemma UntouchedColumn(f: Frame, k: nat, col: string)
    requires WellFormed(f) && k <= |PositiveColumns| && col in f.columns && col !in PositiveColumns[..k]
    ensures NegativeCount(CleanPositive(f, k).0.rows, col) == NegativeCount(f.rows, col)
  {
    var prev := CleanPositive(f, k).0;
    forall i | 0 <= i < |f.rows| ensures prev.rows[i].fields[col] == f.rows[i].fields[col] {
      CleanPositiveCell(f, k, i, col);
    }
    NegativeCountSame(prev.rows, f.rows, col);
  }

  lemma {:induction false} NegativeCountSame(a: seq<Row>, b: seq<Row>, c: string)
    requires |a| == |b|
    requires forall i :: 0 <= i < |a| ==> c in a[i].fields && c in b[i].fields && a[i].fields[c] == b[i].fields[c]
    ensures NegativeCount(a, c) == NegativeCount(b, c)
  {
    if a != [] {
      NegativeCountSame(a[1..], b[1..], c);
    }
  }

  /** The conversion entries, one per positive column with negative values. */
  lemma ConversionEntriesSpec(f: Frame, e: LogEntry)
    requires WellFormed(f)
    ensures |ConversionEntries(f)| <= |PositiveColumns|
    ensures e in ConversionEntries(f) <==>
      && e.ConvertedNegatives? && e.column in PositiveColumns && e.column in f.columns
      && e.count == NegativeCount(f.rows, e.column) > 0
  {
    CleanPositiveLogLength(f, |PositiveColumns|);
    CleanPositiveLog(f, |PositiveColumns|, e);
    assert PositiveColumns[..|PositiveColumns|] == PositiveColumns;
  }

  /** A frame whose positive columns hold no negative value is left alone. */
  lemma {:induction false} CleanPositiveNoNegatives(f: Frame, k: nat)
    requires WellFormed(f) && k <= |PositiveColumns|
    requires forall c, i :: c in PositiveColumns && c in f.columns && 0 <= i < |f.rows| ==> f.rows[i].fields[c] >= 0.0
    ensures CleanPositive(f, k).0 == f && |CleanPositive(f, k).1| == 0
  {
    if k > 0 {
      CleanPositiveNoNegatives(f, k - 1);
      var col := PositiveColumns[k - 1];
      if col in f.columns {
        assert NegativeCount(f.rows, col) == 0 by {
          assert col in PositiveColumns;
        }
      }
      assert CleanColumn(f, col) == (f, []);
    }
  }

  /** Cleaning is idempotent: a cleaned frame cleans to itself and logs no conversion. */
  lemma CleanIdempotent(f: Frame)
    requires WellFormed(f)
    ensures Cleaned(Cleaned(f)) == Cleaned(f)
    ensures ConversionEntries(Cleaned(f)) == []
  {
    var g := Cleaned(f);
    forall c, i | c in PositiveColumns && c in g.columns && 0 <= i < |g.rows| ensures g.rows[i].fields[c] >= 0.0 {
      CleanedCells(f, i, c);
    }
    CleanPositiveNoNegatives(g, |PositiveColumns|);
  }

  // ---------------------------------------------------------------------------
  // Accounting identities

  /** The columns each identity reads, in the order Python evaluates them. */
  const GrossProfitColumns: seq<string> := ["gross_profit", "revenue", "cogs"]
  const BalanceSheetColumns: seq<string> := ["total_assets", "total_liabilities", "shareholders_equity"]

  /** Every one of `names` is a column. */
  predicate HasColumns(columns: set<string>, names: seq<string>) {
    forall n :: n in names ==> n in columns
  }

  /** The first of `names` that is not a column: the KeyError `df[name]` raises. */
  function FirstMissing(columns: set<string>, names: seq<string>): (m: Option<string>)
    ensures m.None? <==> HasColumns(columns, names)
    ensures m.Some? ==> m.value in names && m.value !in columns
  {
    if names == [] then None
    else if names[0] !in columns then Some(names[0])
    else FirstMissing(columns, names[1..])
  }

  /** `abs(gross_profit - (revenue - cogs)) < 1` for one row. */
  predicate GrossProfitMatches(row: Row)
    requires "gross_profit" in row.fields && "revenue" in row.fields && "cogs" in row.fields
  {
    Abs(row.fields["gross_profit"] - (row.fields["revenue"] - row.fields["cogs"])) < 1.0
  }

  /** `abs(total_assets - (total_liabilities + shareholders_equity)) < 1` for one row. */
  predicate Balances(row: Row)
    requires "total_assets" in row.fields && "total_liabilities" in row.fields && "shareholders_equity" in row.fields
  {
    Abs(row.fields["total_assets"] - (row.fields["total_liabilities"] + row.fields["shareholders_equity"])) < 1.0
  }

  /** `gross_profit_check.all()`. */
  predicate GrossProfitHolds(f: Frame)
    requires WellFormed(f) && HasColumns(f.columns, GrossProfitColumns)
  {
    assert "gross_profit" in GrossProfitColumns && "revenue" in GrossProfitColumns && "cogs" in GrossProfitColumns;
    forall i :: 0 <= i < |f.rows| ==> GrossProfitMatches(f.rows[i])
  }

  /** `balance_sheet_check.all()`. */
  predicate BalanceSheetHolds(f: Frame)
    requires WellFormed(f) && HasColumns(f.columns, BalanceSheetColumns)
  {
    assert "total_assets" in BalanceSheetColumns && "total_liabilities" in BalanceSheetColumns;
    assert "shareholders_equity" in BalanceSheetColumns;
    forall i :: 0 <= i < |f.rows| ==> Balances(f.rows[i])
  }

  /** `_validate_financial_relationships`: the warnings it logs and whether it
      raises KeyError for a missing column. */
  function Relationships(f: Frame): (out: (seq<LogEntry>, Result<()>))
    requires WellFormed(f)
    ensures out.1.Err? ==> out.1.error.KeyMissing? && out.1.error.key !in f.columns
    ensures |out.0| <= 2
  {
    match FirstMissing(f.columns, GrossProfitColumns)
    case Some(k) => ([], Err(KeyMissing(k)))
    case None =>
      var gross := if GrossProfitHolds(f) then [] else [GrossProfitMismatch];
      match FirstMissing(f.columns, BalanceSheetColumns)
      case Some(k) => (gross, Err(KeyMissing(k)))
      case None =>
        var balance := if BalanceSheetHolds(f) then [] else [BalanceSheetUnbalanced];
        (gross + balance, Ok(()))
  }

  /** The relationship check raises exactly when one of the six columns is missing,
      warns about gross profit exactly when some row breaks that identity, and
      warns about the balance sheet exactly when it gets that far and some row
      breaks the accounting equation. */
  lemma RelationshipsSpec(f: Frame)
    requires WellFormed(f)
    ensures var out := Relationships(f);
      && (out.1.Ok? <==> HasColumns(f.columns, GrossProfitColumns) && HasColumns(f.columns, BalanceSheetColumns))
      && (GrossProfitMismatch in out.0 <==> HasColumns(f.columns, GrossProfitColumns) && !GrossProfitHolds(f))
      && (BalanceSheetUnbalanced in out.0 <==> out.1.Ok? && !BalanceSheetHolds(f))
  {
  }

  // ---------------------------------------------------------------------------
  // Growth metrics

  /** Python's `a <= b` on strings: code-point order, a prefix first. */
  predicate LexLe(a: string, b: string) {
    |a| == 0 || (|b| > 0 && (a[0] < b[0] || (a[0] == b[0] && LexLe(a[1..], b[1..]))))
  }

  lemma {:induction false} LexLeTotal(a: string, b: string)
    ensures LexLe(a, b) || LexLe(b, a)
  {
    if |a| > 0 && |b| > 0 && a[0] == b[0] {
      LexLeTotal(a[1..], b[1..]);
    }
  }

  lemma {:induction false} LexLeTransitive(a: string, b: string, c: string)
    requires LexLe(a, b) && LexLe(b, c)
    ensures LexLe(a, c)
  {
    if |a| > 0 && a[0] == b[0] && b[0] == c[0] {
      LexLeTransitive(a[1..], b[1..], c[1..]);
    }
  }

  /** Rows in ascending period order. */
  ghost predicate SortedByPeriod(rows: seq<Row>) {
    forall i, j :: 0 <= i < j < |rows| ==> LexLe(rows[i].period, rows[j].period)
  }

  /** Place `r` before the first row whose period is not smaller. */
  function InsertByPeriod(r: Row, rows: seq<Row>): (out: seq<Row>)
    ensures multiset(out) == multiset{r} + multiset(rows)
    ensures |out| == |rows| + 1
  {
    if rows == [] || LexLe(r.period, rows[0].period) then [r] + rows
    else
      assert rows == [rows[0]] + rows[1..];
      [rows[0]] + InsertByPeriod(r, rows[1..])
  }

  /** `sort_values('period')`. */
  function SortByPeriod(rows: seq<Row>): (out: seq<Row>)
    ensures multiset(out) == multiset(rows)
    ensures |out| == |rows|
  {
    if rows == [] then []
    else
      assert rows == [rows[0]] + rows[1..];
      InsertByPeriod(rows[0], SortByPeriod(rows[1..]))
  }

  lemma {:induction false} InsertByPeriodSorted(r: Row, rows: seq<Row>)
    requires SortedByPeriod(rows)
    ensures SortedByPeriod(InsertByPeriod(r, rows))
  {
    if rows != [] && !LexLe(r.period, rows[0].period) {
      InsertByPeriodSorted(r, rows[1..]);
      var rest := InsertByPeriod(r, rows[1..]);
      LexLeTotal(r.period, rows[0].period);
      forall j | 0 <= j < |rest| ensures LexLe(rows[0].period, rest[j].period) {
        assert rest[j] in multiset(rest);
        if rest[j] != r {
          assert rest[j] in rows[1..];
        }
      }
    } else if rows != [] {
      forall j | 2 <= j < |rows| + 1 ensures LexLe(r.period, ([r] + rows)[j].period) {
        LexLeTransitive(r.period, rows[0].period, rows[j - 1].period);
      }
    }
  }

  /** The sort yields ascending periods and a permutation of its input. */
  lemma {:induction false} SortByPeriodSorted(rows: seq<Row>)
    ensures SortedByPeriod(SortByPeriod(rows))
  {
    if rows != [] {
      SortByPeriodSorted(rows[1..]);
      InsertByPeriodSorted(rows[0], SortByPeriod(rows[1..]));
    }
  }

  /** `df['company_id'].unique()`: each id once, in order of first appearance. */
  function UniqueIds(rows: seq<Row>): (ids: seq<int>)
    ensures Distinct(ids)
    ensures forall id :: id in ids <==> exists i :: 0 <= i < |rows| && rows[i].companyId == id
  {
    if rows == [] then []
    else
      var prefix := UniqueIds(rows[..|rows| - 1]);
      var id := rows[|rows| - 1].companyId;
      assert forall i :: 0 <= i < |rows| - 1 ==> rows[..|rows| - 1][i] == rows[i];
      if id in prefix then prefix else prefix + [id]
  }

  /** `df[df['company_id'] == id]`: the company's rows, in table order. */
  function CompanyRows(rows: seq<Row>, id: int): (out: seq<Row>)
    ensures forall r :: r in out <==> r in rows && r.companyId == id
    ensures |out| <= |rows|
  {
    if rows == [] then []
    else if rows[0].companyId == id then [rows[0]] + CompanyRows(rows[1..], id)
    else CompanyRows(rows[1..], id)
  }

  /** `(latest - previous) / previous`. */
  function GrowthRate(latest: real, previous: real): (g: Float)
    ensures previous != 0.0 ==> g.Num? && g.x.Finite? && previous * (1.0 + g.x.r) == latest
    ensures previous == 0.0 ==> (g == NaN <==> latest == 0.0)
  {
    NumpyDiv(latest - previous, previous)
  }

  /** One company's entry of the growth metrics. */
  datatype Growth = Growth(companyName: string, revenueGrowthQoq: Float, netIncomeGrowthQoq: Float,
                           latestPeriod: string, previousPeriod: string)

  /** The growth entry for one company: none with fewer than two rows; otherwise
      growth from the second-latest to the latest period, or KeyError for a missing
      revenue or net_income column. */
  function GrowthEntry(f: Frame, id: int): (r: Result<Option<Growth>>)
    requires WellFormed(f)
  {
    var company := SortByPeriod(CompanyRows(f.rows, id));
    if |company| <= 1 then Ok(None)
    else if "revenue" !in f.columns then Err(KeyMissing("revenue"))
    else if "net_income" !in f.columns then Err(KeyMissing("net_income"))
    else
      var latest := company[|company| - 1];
      var previous := company[|company| - 2];
      assert latest in multiset(company) && previous in multiset(company);
      Ok(Some(Growth(company[0].companyName,
                     GrowthRate(latest.fields["revenue"], previous.fields["revenue"]),
                     GrowthRate(latest.fields["net_income"], previous.fields["net_income"]),
                     latest.period, previous.period)))
  }

  /** The entry of a company with two rows or more when both columns exist: the
      cells it reads are present, and the entry is built from the last two sorted rows. */
  lemma GrowthEntryOf(f: Frame, id: int, company: seq<Row>)
    requires WellFormed(f) && company == SortByPeriod(CompanyRows(f.rows, id)) && |company| > 1
    requires "revenue" in f.columns && "net_income" in f.columns
    ensures var latest, previous := company[|company| - 1], company[|company| - 2];
      && "revenue" in latest.fields && "net_income" in latest.fields
      && "revenue" in previous.fields && "net_income" in previous.fields
      && GrowthEntry(f, id) == Ok(Some(Growth(company[0].companyName,
           GrowthRate(latest.fields["revenue"], previous.fields["revenue"]),
           GrowthRate(latest.fields["net_income"], previous.fields["net_income"]),
           latest.period, previous.period)))
  {
    var n := |company|;
    assert company[n - 1] in multiset(company) && company[n - 2] in multiset(company);
  }

  /** The growth metrics after visiting the companies `ids` in order, given the
      entry each one yields: the first KeyError ends the visit. */
  function Collect(ids: seq<int>, entries: seq<Result<Option<Growth>>>): Result<Dict<int, Growth>>
    requires |ids| == |entries|
  {
    if ids == [] then Ok([])
    else
      var n := |ids| - 1;
      var acc :- Collect(ids[..n], entries[..n]);
      var entry :- entries[n];
      Ok(if entry.Some? then Put(acc, ids[n], entry.value) else acc)
  }

  /** The entry of each of the companies `ids`. */
  function Entries(f: Frame, ids: seq<int>): (es: seq<Result<Option<Growth>>>)
    requires WellFormed(f)
    ensures |es| == |ids|
    ensures forall j :: 0 <= j < |ids| ==> es[j] == GrowthEntry(f, ids[j])
  {
    seq(|ids|, j requires 0 <= j < |ids| => GrowthEntry(f, ids[j]))
  }

  /** `calculate_growth_metrics`. */
  function GrowthMetrics(f: Frame): Result<Dict<int, Growth>>
    requires WellFormed(f)
  {
    var ids := UniqueIds(f.rows);
    Collect(ids, Entries(f, ids))
  }

  /** One more company visited: its entry is added, or its error ends the visit. */
  lemma CollectStep(ids: seq<int>, entries: seq<Result<Option<Growth>>>, k: nat)
    requires |ids| == |entries| && k < |ids|
    ensures Collect(ids[..k + 1], entries[..k + 1]) ==
      match Collect(ids[..k], entries[..k])
      case Err(e) => Err(e)
      case Ok(acc) =>
        match entries[k]
        case Err(e) => Err(e)
        case Ok(None) => Ok(acc)
        case Ok(Some(g)) => Ok(Put(acc, ids[k], g))
  {
    assert ids[..k + 1][..k] == ids[..k];
    assert entries[..k + 1][..k] == entries[..k];
  }

  /** A KeyError ends the visit: once a prefix fails, the whole visit fails with it. */
  lemma {:induction false} CollectErrPrefix(ids: seq<int>, entries: seq<Result<Option<Growth>>>, k: nat)
    requires |ids| == |entries| && k <= |ids| && Collect(ids[..k], entries[..k]).Err?
    ensures Collect(ids, entries) == Collect(ids[..k], entries[..k])
    decreases |ids| - k
  {
    if k < |ids| {
      CollectStep(ids, entries, k);
      CollectErrPrefix(ids, entries, k + 1);
    } else {
      assert ids[..k] == ids && entries[..k] == entries;
    }
  }

  /** The visit succeeds exactly when every company's entry does. */
  lemma {:induction false} CollectOk(ids: seq<int>, entries: seq<Result<Option<Growth>>>)
    requires |ids| == |entries|
    ensures Collect(ids, entries).Ok? <==> forall j :: 0 <= j < |entries| ==> entries[j].Ok?
  {
    if ids != [] {
      var n := |ids| - 1;
      CollectOk(ids[..n], entries[..n]);
      CollectStep(ids, entries, n);
      assert ids[..n + 1] == ids && entries[..n + 1] == entries;
      assert forall j :: 0 <= j < n ==> entries[..n][j] == entries[j];
    }
  }

  /** Over distinct ids, a successful visit maps each company to its entry, if it
      has one, and nothing else. */
  lemma {:induction false} CollectGet(ids: seq<int>, entries: seq<Result<Option<Growth>>>, id: int)
    requires |ids| == |entries| && Distinct(ids) && Collect(ids, entries).Ok?
    ensures forall j :: 0 <= j < |ids| && ids[j] == id ==> entries[j] == Ok(Get(Collect(ids, entries).value, id))
    ensures id !in ids ==> Get(Collect(ids, entries).value, id) == None
  {
    if ids != [] {
      var n := |ids| - 1;
      var prefix := ids[..n];
      CollectStep(ids, entries, n);
      assert ids[..n + 1] == ids && entries[..n + 1] == entries;
      assert Distinct(prefix);
      CollectGet(prefix, entries[..n], id);
      assert ids == prefix + [ids[n]];
      assert forall j :: 0 <= j < n ==> prefix[j] == ids[j] && entries[..n][j] == entries[j];
    }
  }

  lemma {:induction false} LexLeReflexive(a: string)
    ensures LexLe(a, a)
  {
    if |a| > 0 {
      LexLeReflexive(a[1..]);
    }
  }

  /** The sorted rows of a company run from its earliest to its latest period. */
  lemma HistoryBounds(rows: seq<Row>, id: int)
    requires |CompanyRows(rows, id)| > 0
    ensures var company := SortByPeriod(CompanyRows(rows, id));
      forall q :: q in rows && q.companyId == id ==>
        LexLe(company[0].period, q.period) && LexLe(q.period, company[|company| - 1].period)
  {
    var company := SortByPeriod(CompanyRows(rows, id));
    var n := |company|;
    SortByPeriodSorted(CompanyRows(rows, id));
    forall q | q in rows && q.companyId == id
      ensures LexLe(company[0].period, q.period) && LexLe(q.period, company[n - 1].period)
    {
      assert q in multiset(company);
      var j :| 0 <= j < n && company[j] == q;
      LexLeReflexive(q.period);
    }
  }

  /** A company's entry raises only for a missing column, and only with two rows or more. */
  lemma GrowthEntryOk(f: Frame, id: int)
    requires WellFormed(f)
    ensures GrowthEntry(f, id).Ok? <==>
      ("revenue" in f.columns && "net_income" in f.columns) || |CompanyRows(f.rows, id)| <= 1
  {
  }

  /** A company with at least two rows gets an entry, or the KeyError of a missing
      revenue or net_income column; one with fewer gets none. */
  lemma GrowthEntryCases(f: Frame, id: int)
    requires WellFormed(f)
    ensures GrowthEntry(f, id) == Ok(None) <==> |CompanyRows(f.rows, id)| <= 1
    ensures GrowthEntry(f, id).Err? <==>
      |CompanyRows(f.rows, id)| >= 2 && ("revenue" !in f.columns || "net_income" !in f.columns)
  {
  }

  /** An entry compares the company's latest period with the one sorted just before
      it, both periods of its rows, and takes the name from a row of its earliest
      period. */
  lemma GrowthEntryPeriods(f: Frame, id: int, g: Growth)
    requires WellFormed(f) && GrowthEntry(f, id) == Ok(Some(g))
    ensures LexLe(g.previousPeriod, g.latestPeriod)
    ensures forall q :: q in f.rows && q.companyId == id ==> LexLe(q.period, g.latestPeriod)
    ensures exists r :: r in f.rows && r.companyId == id && r.period == g.latestPeriod
    ensures exists r :: r in f.rows && r.companyId == id && r.period == g.previousPeriod
    ensures exists r :: r in f.rows && r.companyId == id && r.companyName == g.companyName
                        && forall q :: q in f.rows && q.companyId == id ==> LexLe(r.period, q.period)
  {
    var company := SortByPeriod(CompanyRows(f.rows, id));
    var n := |company|;
    GrowthEntryCases(f, id);
    GrowthEntryOf(f, id, company);
    assert g.latestPeriod == company[n - 1].period && g.previousPeriod == company[n - 2].period;
    assert g.companyName == company[0].companyName;
    HistoryBounds(f.rows, id);
    SortByPeriodSorted(CompanyRows(f.rows, id));
    assert company[n - 1] in multiset(company) && company[n - 2] in multiset(company);
    assert company[0] in multiset(company);
  }

  /** With both columns, or with no company of two rows, nothing raises. */
  lemma GrowthMetricsOk(f: Frame)
    requires WellFormed(f)
    requires ("revenue" in f.columns && "net_income" in f.columns)
             || forall i :: 0 <= i < |f.rows| ==> |CompanyRows(f.rows, f.rows[i].companyId)| <= 1
    ensures GrowthMetrics(f).Ok?
  {
    var ids := UniqueIds(f.rows);
    var es := Entries(f, ids);
    forall j | 0 <= j < |ids| ensures es[j].Ok? {
      if !("revenue" in f.columns && "net_income" in f.columns) {
        assert ids[j] in ids;
        var i :| 0 <= i < |f.rows| && f.rows[i].companyId == ids[j];
      }
      GrowthEntryOk(f, ids[j]);
    }
    CollectOk(ids, es);
  }

  /** A company of two rows or more with a column missing makes it raise. */
  lemma GrowthMetricsErr(f: Frame, i: nat)
    requires WellFormed(f) && i < |f.rows|
    requires !("revenue" in f.columns && "net_income" in f.columns)
    requires |CompanyRows(f.rows, f.rows[i].companyId)| > 1
    ensures GrowthMetrics(f).Err?
  {
    var ids := UniqueIds(f.rows);
    var es := Entries(f, ids);
    var id := f.rows[i].companyId;
    assert id in ids;
    var j :| 0 <= j < |ids| && ids[j] == id;
    GrowthEntryOk(f, id);
    assert !es[j].Ok?;
    CollectOk(ids, es);
  }

  /** `calculate_growth_metrics` raises exactly when the revenue or net_income
      column is missing and some company has two rows or more. */
  lemma GrowthMetricsRaises(f: Frame)
    requires WellFormed(f)
    ensures GrowthMetrics(f).Ok? <==>
      ("revenue" in f.columns && "net_income" in f.columns)
      || forall i :: 0 <= i < |f.rows| ==> |CompanyRows(f.rows, f.rows[i].companyId)| <= 1
  {
    if ("revenue" in f.columns && "net_income" in f.columns)
       || forall i :: 0 <= i < |f.rows| ==> |CompanyRows(f.rows, f.rows[i].companyId)| <= 1 {
      GrowthMetricsOk(f);
    } else {
      var i :| 0 <= i < |f.rows| && |CompanyRows(f.rows, f.rows[i].companyId)| > 1;
      GrowthMetricsErr(f, i);
    }
  }

  /** When `calculate_growth_metrics` succeeds, exactly the companies with two rows
      or more have an entry, and each entry is that company's growth. */
  lemma GrowthMetricsEntry(f: Frame, id: int)
    requires WellFormed(f) && GrowthMetrics(f).Ok?
    ensures Get(GrowthMetrics(f).value, id).Some? <==> |CompanyRows(f.rows, id)| >= 2
    ensures GrowthEntry(f, id) == Ok(Get(GrowthMetrics(f).value, id))
  {
    var ids := UniqueIds(f.rows);
    var es := Entries(f, ids);
    CollectGet(ids, es, id);
    GrowthEntryCases(f, id);
    if id in ids {
      var j :| 0 <= j < |ids| && ids[j] == id;
      assert es[j] == GrowthEntry(f, id);
    } else if |CompanyRows(f.rows, id)| > 0 {
      var r := CompanyRows(f.rows, id)[0];
      assert r in f.rows;
    }
  }

  /** The outcome of an I/O call the processor makes: the value read, or the error message. */
  datatype Io<T> = Succeeded(value: T) | Failed(message: string)

  // ---------------------------------------------------------------------------
  // The processor

  /** `FinancialDataProcessor`: the cleaning log is its only state, and every
      operation only appends to it. */
  class FinancialDataProcessor {
    var cleaningLog: seq<LogEntry>

    constructor ()
      ensures cleaningLog == []
    {
      cleaningLog := [];
    }

    /** `load_financial_data`; the outcome of reading the CSV file is a parameter. */
    method LoadFinancialData(read: Io<Frame>) returns (df: Option<Frame>)
      modifies this
      ensures read.Succeeded? ==> df == Some(read.value) && cleaningLog == old(cleaningLog) + [Loaded(|read.value.rows|)]
      ensures read.Failed? ==> df == None && cleaningLog == old(cleaningLog) + [LoadFailed(read.message)]
    {
      match read
      case Succeeded(frame) =>
        cleaningLog := cleaningLog + [Loaded(|frame.rows|)];
        df := Some(frame);
      case Failed(message) =>
        cleaningLog := cleaningLog + [LoadFailed(message)];
        df := None;
    }

    /** `_validate_financial_relationships`: log a warning per identity that some row breaks. */
    method ValidateFinancialRelationships(df: Frame) returns (r: Result<()>)
      requires WellFormed(df)
      modifies this
      ensures r == Relationships(df).1
      ensures cleaningLog == old(cleaningLog) + Relationships(df).0
    {
      var missing := FirstMissing(df.columns, GrossProfitColumns);
      if missing.Some? {
        return Err(KeyMissing(missing.value));
      }
      if !GrossProfitHolds(df) {
        cleaningLog := cleaningLog + [GrossProfitMismatch];
      }
      missing := FirstMissing(df.columns, BalanceSheetColumns);
      if missing.Some? {
        return Err(KeyMissing(missing.value));
      }
      if !BalanceSheetHolds(df) {
        cleaningLog := cleaningLog + [BalanceSheetUnbalanced];
      }
      r := Ok(());
    }

    /** `clean_financial_data`: make the positive columns non-negative, logging each
        conversion, then check the accounting identities on the cleaned frame. */
    method CleanFinancialData(df: Frame) returns (r: Result<Frame>)
      requires WellFormed(df)
      modifies this
      ensures r.Ok? <==> Relationships(Cleaned(df)).1.Ok?
      ensures r.Ok? ==> r.value == Cleaned(df)
      ensures r.Err? ==> r.error == Relationships(Cleaned(df)).1.error
      ensures cleaningLog == old(cleaningLog) + ConversionEntries(df) + Relationships(Cleaned(df)).0
    {
      var cleaned := df;
      for k := 0 to |PositiveColumns|
        invariant cleaned == CleanPositive(df, k).0
        invariant cleaningLog == old(cleaningLog) + CleanPositive(df, k).1
      {
        var column := PositiveColumns[k];
        ghost var step := CleanColumn(cleaned, column);
        assert CleanPositive(df, k + 1) == (step.0, CleanPositive(df, k).1 + step.1);
        if column in cleaned.columns {
          var negativeCount := NegativeCount(cleaned.rows, column);
          if negativeCount > 0 {
            cleaned := cleaned.(rows := AbsColumn(cleaned.rows, column));
            cleaningLog := cleaningLog + [ConvertedNegatives(negativeCount, column)];
          }
        }
      }
      assert cleaned == Cleaned(df);
      var checked := ValidateFinancialRelationships(cleaned);
      if checked.Err? {
        return Err(checked.error);
      }
      r := Ok(cleaned);
    }

    /** `calculate_growth_metrics`: visit the companies in order of first
        appearance and record quarter-over-quarter growth for each with two rows
        or more. */
    method CalculateGrowthMetrics(df: Frame) returns (r: Result<Dict<int, Growth>>)
      requires WellFormed(df)
      ensures r == GrowthMetrics(df)
    {
      var growthData: Dict<int, Growth> := [];
      var ids := UniqueIds(df.rows);
      ghost var entries := Entries(df, ids);
      for k := 0 to |ids|
        invariant Collect(ids[..k], entries[..k]) == Ok(growthData)
      {
        var companyId := ids[k];
        CollectStep(ids, entries, k);
        var companyData := SortByPeriod(CompanyRows(df.rows, companyId));
        assert entries[k] == GrowthEntry(df, companyId);
        if |companyData| > 1 {
          if "revenue" !in df.columns {
            CollectErrPrefix(ids, entries, k + 1);
            return Err(KeyMissing("revenue"));
          }
          if "net_income" !in df.columns {
            CollectErrPrefix(ids, entries, k + 1);
            return Err(KeyMissing("net_income"));
          }
          GrowthEntryOf(df, companyId, companyData);
          var latest := companyData[|companyData| - 1];
          var previous := companyData[|companyData| - 2];
          var revenueGrowth := GrowthRate(latest.fields["revenue"], previous.fields["revenue"]);
          var netIncomeGrowth := GrowthRate(latest.fields["net_income"], previous.fields["net_income"]);
          growthData := Put(growthData, companyId,
                            Growth(companyData[0].companyName, revenueGrowth, netIncomeGrowth, latest.period, previous.period));
        }
      }
      assert ids[..|ids|] == ids && entries[..|entries|] == entries;
      r := Ok(growthData);
    }

    /** `generate_data_quality_report`; the timestamp is left out. */
    function GenerateDataQualityReport(v: Validation): (r: Report)
      reads this
      ensures r.summary == Summarize(v) && r.detailedFindings == v
      ensures r.cleaningActions == cleaningLog
      ensures 20 <= r.dataQualityScore <= 100
      ensures r.dataQualityScore == 100 <==> SumValues(v.missingValues) == 0 && SumValues(v.outliers) == 0
    {
      Report(Summarize(v), v, cleaningLog, QualityScore(v))
    }

    /** `export_processed_data`; the outcome of writing the CSV file is a parameter. */
    method ExportProcessedData(df: Frame, outputPath: string, written: Io<()>) returns (ok: bool)
      modifies this
      ensures ok <==> written.Succeeded?
      ensures written.Succeeded? ==> cleaningLog == old(cleaningLog) + [Exported(outputPath)]
      ensures written.Failed? ==> cleaningLog == old(cleaningLog) + [ExportFailed(written.message)]
    {
      if written.Succeeded? {
        cleaningLog := cleaningLog + [Exported(outputPath)];
        ok := true;
      } else {
        cleaningLog := cleaningLog + [ExportFailed(written.message)];
        ok := false;
      }
    }
  }
}
