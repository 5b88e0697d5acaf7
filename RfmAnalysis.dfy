/** Recency, Frequency and Monetary metrics per customer, their 1-5 quintile
    scores, the three-digit RFM code and the segment of every customer.

    Timestamps are whole seconds, so the `.days` of a time difference is the
    floor of the difference divided by 86400 (Dafny's `/` rounds down when
    the divisor is positive). Amounts are exact reals. */
module RfmAnalysis {
  import opened Wrappers
  import opened Seqs
  import opened Quantiles
  import opened Segments

  const SecondsPerDay: int := 86400

  /** One line of the cleaned transaction table: `Customer ID`, `Invoice`
      (missing when the cell is empty), `InvoiceDate` and `TotalAmount`. */
  datatype Transaction = Transaction(customer: int, invoice: Option<string>, invoiceDate: int, amount: real)

  // ---------------------------------------------------------------------------
  // Grouping by customer
  // ---------------------------------------------------------------------------

  predicate StrictlyAscending(ids: seq<int>) {
    forall i, j :: 0 <= i < j < |ids| ==> ids[i] < ids[j]
  }

  function CustomerSet(txs: seq<Transaction>): set<int> {
    set t | t in txs :: t.customer
  }

  /** Adds an id to an ascending list of ids unless it is already there. */
  function InsertId(x: int, ids: seq<int>): (r: seq<int>)
    requires StrictlyAscending(ids)
    ensures StrictlyAscending(r)
    ensures forall c :: c in r <==> c in ids || c == x
    ensures |r| > 0 && (r[0] == x || (|ids| > 0 && r[0] == ids[0]))
  {
    if |ids| == 0 || x < ids[0] then [x] + ids
    else if x == ids[0] then ids
    else
      var rest := InsertId(x, ids[1..]);
      assert ids == [ids[0]] + ids[1..];
      [ids[0]] + rest
  }

  /** The group keys of `groupby(customer)`: every customer id once, in
      ascending order. */
  function Customers(txs: seq<Transaction>): (ids: seq<int>)
    ensures StrictlyAscending(ids)
    ensures forall c :: c in ids <==> c in CustomerSet(txs)
  {
    if |txs| == 0 then []
    else
      var k := |txs| - 1;
      assert txs == txs[..k] + [txs[k]];
      assert CustomerSet(txs) == CustomerSet(txs[..k]) + {txs[k].customer};
      InsertId(txs[k].customer, Customers(txs[..k]))
  }

  /** The lines of one customer, in table order. */
  function Lines(txs: seq<Transaction>, c: int): (ls: seq<Transaction>)
    ensures forall t :: t in ls <==> t in txs && t.customer == c
    ensures forall t :: multiset(ls)[t] == if t.customer == c then multiset(txs)[t] else 0
    ensures IsSubsequence(ls, txs)
    ensures c in CustomerSet(txs) ==> |ls| > 0
  {
    var mine := (t: Transaction) => t.customer == c;
    var ls := Filter(txs, mine);
    forall t ensures multiset(ls)[t] == if t.customer == c then multiset(txs)[t] else 0 {
      FilterCount(txs, mine, t);
    }
    assert forall t :: t in ls <==> t in txs && t.customer == c by {
      forall t ensures t in ls <==> t in txs && t.customer == c {
        FilterMember(txs, mine, t);
      }
    }
    ls
  }

  function Dates(ls: seq<Transaction>): (ds: seq<int>)
    ensures |ds| == |ls| && forall i :: 0 <= i < |ls| ==> ds[i] == ls[i].invoiceDate
  {
    if |ls| == 0 then [] else [ls[0].invoiceDate] + Dates(ls[1..])
  }

  function Amounts(ls: seq<Transaction>): (xs: seq<real>)
    ensures |xs| == |ls| && forall i :: 0 <= i < |ls| ==> xs[i] == ls[i].amount
  {
    if |ls| == 0 then [] else [ls[0].amount] + Amounts(ls[1..])
  }

  /** The largest of a non-empty list of timestamps. */
  function Latest(ds: seq<int>): (d: int)
    requires |ds| > 0
    ensures d in ds && forall x :: x in ds ==> x <= d
  {
    if |ds| == 1 then ds[0]
    else
      var rest := Latest(ds[1..]);
      assert ds == [ds[0]] + ds[1..];
      if ds[0] >= rest then ds[0] else rest
  }

  /** The distinct invoice numbers of some lines; missing numbers are not
      counted (`nunique` skips them). */
  function Invoices(ls: seq<Transaction>): (r: set<string>)
    ensures forall s :: s in r <==> exists t :: t in ls && t.invoice == Some(s)
    ensures |r| <= |ls|
    decreases |ls|
  {
    if |ls| == 0 then {}
    else
      var rest := Invoices(ls[1..]);
      assert forall t :: t in ls <==> t == ls[0] || t in ls[1..];
      if ls[0].invoice.Some? then rest + {ls[0].invoice.value} else rest
  }

  /** The metrics row of one customer. */
  datatype Metrics = Metrics(customer: int, recency: int, frequency: nat, monetary: real, avgOrderValue: real)

  /** The latest timestamp of the whole table, plus one day: the reference
      date used when none is given. An empty table has no customers, so the
      value chosen for it is never used. */
  function DefaultReference(txs: seq<Transaction>): (r: int)
    ensures forall t :: t in txs ==> t.invoiceDate + SecondsPerDay <= r
    ensures |txs| > 0 ==> exists t :: t in txs && t.invoiceDate + SecondsPerDay == r
  {
    if |txs| == 0 then 0
    else
      var ds := Dates(txs);
      assert forall t :: t in txs ==> t.invoiceDate in ds by {
        forall t | t in txs ensures t.invoiceDate in ds {
          var i :| 0 <= i < |txs| && txs[i] == t;
          assert ds[i] == t.invoiceDate;
        }
      }
      Latest(ds) + SecondsPerDay
  }

  /** The reference date of `calculate_rfm`: the given one, or a day after
      the latest purchase, so that every purchase lies before it. */
  function ReferenceFor(txs: seq<Transaction>, referenceDate: Option<int>): (r: int)
    ensures referenceDate.Some? ==> r == referenceDate.value
    ensures referenceDate.None? ==> forall t :: t in txs ==> t.invoiceDate < r
  {
    match referenceDate
    case Some(d) => d
    case None => DefaultReference(txs)
  }

  /** The metrics of customer c: whole days from the last purchase to the
      reference date, number of distinct invoices, total spend, and mean
      amount per line. */
  function MetricsOf(txs: seq<Transaction>, c: int, reference: int): (m: Metrics)
    requires c in CustomerSet(txs)
    ensures m.customer == c
    ensures var last := Latest(Dates(Lines(txs, c)));
      m.recency * SecondsPerDay <= reference - last < (m.recency + 1) * SecondsPerDay
    ensures m.frequency == |Invoices(Lines(txs, c))|
    ensures m.monetary == Sum(Amounts(Lines(txs, c)))
    ensures IsMean(m.avgOrderValue, m.monetary, |Lines(txs, c)|)
  {
    var ls := Lines(txs, c);
    var spend := Sum(Amounts(ls));
    Metrics(c, WholeDays(reference - Latest(Dates(ls))), |Invoices(ls)|, spend, Mean(spend, |ls|))
  }

  /** The `.days` of a time span: whole days, rounded towards minus infinity. */
  function WholeDays(span: int): (d: int)
    ensures d * SecondsPerDay <= span < (d + 1) * SecondsPerDay
  {
    span / SecondsPerDay
  }

  /** `avg` is the mean of `count` values adding up to `total`. */
  predicate IsMean(avg: real, total: real, count: nat) {
    avg * (count as real) == total
  }

  function Mean(total: real, count: nat): (r: real)
    requires count > 0
    ensures IsMean(r, total, count)
  {
    total / (count as real)
  }

  /** One metrics row per id of `ids`, in the order of `ids`. */
  function MetricsFor(txs: seq<Transaction>, ids: seq<int>, reference: int): (g: seq<Metrics>)
    requires forall c :: c in ids ==> c in CustomerSet(txs)
    ensures |g| == |ids| && forall i :: 0 <= i < |ids| ==> g[i] == MetricsOf(txs, ids[i], reference)
  {
    if |ids| == 0 then [] else [MetricsOf(txs, ids[0], reference)] + MetricsFor(txs, ids[1..], reference)
  }

  /** The aggregated table before the validity filter. */
  function Grouped(txs: seq<Transaction>, reference: int): (g: seq<Metrics>)
    ensures forall m :: m in g ==> m.customer in CustomerSet(txs) && m == MetricsOf(txs, m.customer, reference)
    ensures forall c :: c in CustomerSet(txs) ==> MetricsOf(txs, c, reference) in g
  {
    var ids := Customers(txs);
    var g := MetricsFor(txs, ids, reference);
    assert forall c :: c in CustomerSet(txs) ==> MetricsOf(txs, c, reference) in g by {
      forall c | c in CustomerSet(txs) ensures MetricsOf(txs, c, reference) in g {
        var i :| 0 <= i < |ids| && ids[i] == c;
        assert g[i] == MetricsOf(txs, c, reference);
      }
    }
    g
  }

  predicate KeepRow(m: Metrics) {
    m.monetary > 0.0 && m.frequency > 0
  }

  /** The customer column of the aggregated table lists every customer
      exactly once, in ascending order. */
  lemma OneRowPerCustomer(txs: seq<Transaction>, reference: int)
    ensures |Grouped(txs, reference)| == |Customers(txs)|
    ensures forall i :: 0 <= i < |Grouped(txs, reference)| ==>
      Grouped(txs, reference)[i].customer == Customers(txs)[i]
    ensures forall c :: c in CustomerSet(txs) <==> exists i :: 0 <= i < |Customers(txs)| && Customers(txs)[i] == c
  {
    var ids := Customers(txs);
    forall c | c in CustomerSet(txs)
      ensures exists i :: 0 <= i < |ids| && ids[i] == c
    {
      assert c in ids;
    }
  }

  /** The rows of an aggregated table that pass the validity filter (a
      positive spend and at least one invoice), in table order. */
  function ValidRows(g: seq<Metrics>): (rows: seq<Metrics>)
    ensures forall m :: m in rows ==> m.monetary > 0.0 && m.frequency > 0
    ensures forall m :: m in g && KeepRow(m) ==> m in rows
    ensures IsSubsequence(rows, g)
    ensures forall m :: m in rows ==> m in g
  {
    var rows := Filter(g, KeepRow);
    forall m ensures m in rows <==> m in g && KeepRow(m) {
      FilterMember(g, KeepRow, m);
    }
    rows
  }

  /** The metrics table of `calculate_rfm`: one row per customer with a
      positive spend and at least one invoice, in ascending id order. */
  function RfmRows(txs: seq<Transaction>, reference: int): (rows: seq<Metrics>)
    ensures forall m :: m in rows <==>
      m.customer in CustomerSet(txs) && m == MetricsOf(txs, m.customer, reference) && KeepRow(m)
  {
    ValidRows(Grouped(txs, reference))
  }

  /** With the default reference date every recency is at least one day, and
      it is exactly one day for the customers whose last purchase lies less
      than a day before the latest timestamp of the table (in particular for
      those who bought at that latest timestamp). */
  lemma DefaultRecency(txs: seq<Transaction>, c: int)
    requires c in CustomerSet(txs)
    ensures var m := MetricsOf(txs, c, DefaultReference(txs));
      m.recency >= 1
      && (m.recency == 1 <==> Latest(Dates(Lines(txs, c))) > Latest(Dates(txs)) - SecondsPerDay)
  {
    var ls := Lines(txs, c);
    var last := Latest(Dates(ls));
    var t :| t in ls && t.invoiceDate == last;
    var i :| 0 <= i < |txs| && txs[i] == t;
    assert Dates(txs)[i] == last;
    assert last <= Latest(Dates(txs));
  }

  // ---------------------------------------------------------------------------
  // Scores
  // ---------------------------------------------------------------------------

  function Recencies(rows: seq<Metrics>): (xs: seq<real>)
    ensures |xs| == |rows| && forall i :: 0 <= i < |rows| ==> xs[i] == rows[i].recency as real
  {
    seq(|rows|, i requires 0 <= i < |rows| => rows[i].recency as real)
  }

  function Frequencies(rows: seq<Metrics>): (xs: seq<int>)
    ensures |xs| == |rows| && forall i :: 0 <= i < |rows| ==> xs[i] == rows[i].frequency
  {
    seq(|rows|, i requires 0 <= i < |rows| => rows[i].frequency)
  }

  function Monetaries(rows: seq<Metrics>): (xs: seq<real>)
    ensures |xs| == |rows| && forall i :: 0 <= i < |rows| ==> xs[i] == rows[i].monetary
  {
    seq(|rows|, i requires 0 <= i < |rows| => rows[i].monetary)
  }

  /** The labels 5, 4, 3, 2, 1 given to the bins 1..5. */
  function Reversed(bins: seq<int>): (r: seq<int>)
    ensures |r| == |bins| && forall i :: 0 <= i < |bins| ==> r[i] + bins[i] == 6
  {
    seq(|bins|, i requires 0 <= i < |bins| => 6 - bins[i])
  }

  predicate InScoreRange(xs: seq<int>) {
    forall i :: 0 <= i < |xs| ==> 1 <= xs[i] <= 5
  }

  /** R_Score: quintile bins of Recency, labelled from 5 (most recent) down
      to 1. */
  function RScores(rows: seq<Metrics>): (r: Result<seq<int>, BinError>)
    ensures r.Success? ==> |r.value| == |rows| && InScoreRange(r.value)
  {
    match QCut(Recencies(rows))
    case Failure(e) => Failure(e)
    case Success(bins) => Success(Reversed(bins))
  }

  /** Recency cannot be scored exactly when the table is empty or two of its
      quintile edges coincide. */
  lemma RScoreFails(rows: seq<Metrics>)
    ensures RScores(rows).Failure? <==> |rows| == 0 || !Distinct(QuantileEdges(Sort(Recencies(rows))))
  {
    QCutSucceeds(Recencies(rows));
  }

  /** R scores lie in 1..5 and never grow as Recency grows. */
  lemma RScoreOrder(rows: seq<Metrics>)
    requires RScores(rows).Success?
    ensures InScoreRange(RScores(rows).value)
    ensures forall i, j :: 0 <= i < |rows| && 0 <= j < |rows| && rows[i].recency <= rows[j].recency ==>
                             RScores(rows).value[i] >= RScores(rows).value[j]
  {
    var xs := Recencies(rows);
    var bins := QCut(xs).value;
    var r := RScores(rows).value;
    assert r == Reversed(bins);
    forall i | 0 <= i < |rows|
      ensures 1 <= r[i] <= 5
    {
      assert 1 <= bins[i] <= 5;
    }
    forall i, j | 0 <= i < |rows| && 0 <= j < |rows| && rows[i].recency <= rows[j].recency
      ensures r[i] >= r[j]
    {
      QCutMonotone(xs, i, j);
    }
  }

  /** F_Score: quintile bins of the first-occurrence ranks of Frequency. */
  function FScores(rows: seq<Metrics>): (r: Result<seq<int>, BinError>)
    ensures r.Success? ==> |r.value| == |rows| && InScoreRange(r.value)
  {
    QCut(ToReals(FirstRanks(Frequencies(rows))))
  }

  /** Frequency can be scored exactly when there are at least two customers:
      its ranks 1..n never give coinciding edges otherwise. */
  lemma FScoreSucceeds(rows: seq<Metrics>)
    ensures FScores(rows).Success? <==> |rows| >= 2
  {
    FirstRankCut(Frequencies(rows));
  }

  /** F scores lie in 1..5 and never shrink along increasing Frequency, ties
      being broken in favour of the earlier row. */
  lemma FScoreOrder(rows: seq<Metrics>)
    requires FScores(rows).Success?
    ensures InScoreRange(FScores(rows).value)
    ensures forall i, j :: 0 <= i < |rows| && 0 <= j < |rows| ==>
      (rows[i].frequency < rows[j].frequency || (rows[i].frequency == rows[j].frequency && i < j)) ==>
      FScores(rows).value[i] <= FScores(rows).value[j]
  {
    var fs := Frequencies(rows);
    var xs := ToReals(FirstRanks(fs));
    var bins := FScores(rows).value;
    assert forall i :: 0 <= i < |rows| ==> 1 <= bins[i] <= 5;
    forall i, j | 0 <= i < |rows| && 0 <= j < |rows| &&
      (rows[i].frequency < rows[j].frequency || (rows[i].frequency == rows[j].frequency && i < j))
      ensures bins[i] <= bins[j]
    {
      RankOrder(fs, i, j);
      QCutMonotone(xs, i, j);
    }
  }

  /** M_Score: quintile bins of Monetary. */
  function MScores(rows: seq<Metrics>): (r: Result<seq<int>, BinError>)
    ensures r.Success? ==> |r.value| == |rows| && InScoreRange(r.value)
  {
    QCut(Monetaries(rows))
  }

  /** Monetary cannot be scored exactly when the table is empty or two of its
      quintile edges coincide. */
  lemma MScoreFails(rows: seq<Metrics>)
    ensures MScores(rows).Failure? <==> |rows| == 0 || !Distinct(QuantileEdges(Sort(Monetaries(rows))))
  {
    QCutSucceeds(Monetaries(rows));
  }

  /** M scores lie in 1..5 and never shrink as Monetary grows. */
  lemma MScoreOrder(rows: seq<Metrics>)
    requires MScores(rows).Success?
    ensures InScoreRange(MScores(rows).value)
    ensures forall i, j :: 0 <= i < |rows| && 0 <= j < |rows| && rows[i].monetary <= rows[j].monetary ==>
                             MScores(rows).value[i] <= MScores(rows).value[j]
  {
    var xs := Monetaries(rows);
    var bins := MScores(rows).value;
    assert bins == QCut(xs).value;
    forall i | 0 <= i < |rows|
      ensures 1 <= bins[i] <= 5
    {
    }
    forall i, j | 0 <= i < |rows| && 0 <= j < |rows| && rows[i].monetary <= rows[j].monetary
      ensures bins[i] <= bins[j]
    {
      QCutMonotone(xs, i, j);
    }
  }

  /** The decimal digit of a score. */
  function Digit(d: int): (ch: char)
    requires 0 <= d <= 9
    ensures '0' <= ch <= '9' && ch as int - '0' as int == d
  {
    ('0' as int + d) as char
  }

  /** RFM_Score: the R, F and M digits, in that order. */
  function ScoreCode(r: int, f: int, m: int): (s: string)
    requires 1 <= r <= 5 && 1 <= f <= 5 && 1 <= m <= 5
    ensures |s| == 3
    ensures s[0] as int - '0' as int == r && s[1] as int - '0' as int == f && s[2] as int - '0' as int == m
  {
    [Digit(r), Digit(f), Digit(m)]
  }

  function ScoreCodes(rs: seq<int>, fs: seq<int>, ms: seq<int>): (codes: seq<string>)
    requires |rs| == |fs| == |ms|
    requires InScoreRange(rs) && InScoreRange(fs) && InScoreRange(ms)
    ensures |codes| == |rs| && forall i :: 0 <= i < |rs| ==> codes[i] == ScoreCode(rs[i], fs[i], ms[i])
  {
    seq(|rs|, i requires 0 <= i < |rs| => ScoreCode(rs[i], fs[i], ms[i]))
  }

  /** Two score triples with the same code are the same triple. */
  lemma ScoreCodeInjective(r: int, f: int, m: int, r2: int, f2: int, m2: int)
    requires 1 <= r <= 5 && 1 <= f <= 5 && 1 <= m <= 5
    requires 1 <= r2 <= 5 && 1 <= f2 <= 5 && 1 <= m2 <= 5
    requires ScoreCode(r, f, m) == ScoreCode(r2, f2, m2)
    ensures r == r2 && f == f2 && m == m2
  {
    var s := ScoreCode(r, f, m);
    assert s[0] == ScoreCode(r2, f2, m2)[0];
    assert s[1] == ScoreCode(r2, f2, m2)[1];
  }

  /** The metric columns a score is computed from. */
  datatype Metric = Recency | Frequency | Monetary

  datatype ScoreError =
    | NoMetrics             // nothing to copy: `calculate_rfm` has not run
    | CannotBin(column: Metric)

  /** The score columns of a table: R_Score, F_Score, M_Score and RFM_Score,
      each absent until added. */
  datatype ScoreState = ScoreState(r: Option<seq<int>>, f: Option<seq<int>>, m: Option<seq<int>>,
                                   code: Option<seq<string>>)

  /** Every score column present has one entry per row. */
  predicate ScoresFit(cols: ScoreState, n: nat) {
    (cols.r.Some? ==> |cols.r.value| == n) && (cols.f.Some? ==> |cols.f.value| == n)
    && (cols.m.Some? ==> |cols.m.value| == n) && (cols.code.Some? ==> |cols.code.value| == n)
  }

  /** The three scores of a table whose every column can be binned lie in
      1..5. */
  lemma ScoreRanges(rows: seq<Metrics>)
    requires RScores(rows).Success? && FScores(rows).Success? && MScores(rows).Success?
    ensures InScoreRange(RScores(rows).value) && InScoreRange(FScores(rows).value)
    ensures InScoreRange(MScores(rows).value)
  {
    RScoreOrder(rows);
    FScoreOrder(rows);
    MScoreOrder(rows);
  }

  /** The score columns after `score_rfm`'s four assignments, R, F, M and the
      combined code, starting from the columns `before`. The first column
      that cannot be binned raises: the assignments stop there, the columns
      assigned so far stay, and the error is returned. */
  function Scoring(rows: seq<Metrics>, before: ScoreState): (res: (ScoreState, Option<ScoreError>))
    ensures res.1.Some? ==> res.0.code == before.code
    ensures res.1.None? ==> res.0.r.Some? && res.0.f.Some? && res.0.m.Some? && res.0.code.Some?
  {
    match RScores(rows)
    case Failure(_) => (before, Some(CannotBin(Recency)))
    case Success(r) =>
      var cols := before.(r := Some(r));
      match FScores(rows)
      case Failure(_) => (cols, Some(CannotBin(Frequency)))
      case Success(f) =>
        var cols := cols.(f := Some(f));
        match MScores(rows)
        case Failure(_) => (cols, Some(CannotBin(Monetary)))
        case Success(m) =>
          ScoreRanges(rows);
          (cols.(m := Some(m), code := Some(ScoreCodes(r, f, m))), None)
  }

  /** What scoring does to each column: a score column is set exactly when
      its own binning and every one before it succeed, and keeps its earlier
      value otherwise; the code is set exactly when all three succeed; the
      error names the first column that fails. */
  lemma ScoringColumns(rows: seq<Metrics>, before: ScoreState)
    ensures var (after, err) := Scoring(rows, before);
      var rOk, fOk, mOk := RScores(rows).Success?, FScores(rows).Success?, MScores(rows).Success?;
      (err.None? <==> rOk && fOk && mOk)
      && (err == Some(CannotBin(Recency)) <==> !rOk)
      && (err == Some(CannotBin(Frequency)) <==> rOk && !fOk)
      && (err == Some(CannotBin(Monetary)) <==> rOk && fOk && !mOk)
      && after.r == (if rOk then Some(RScores(rows).value) else before.r)
      && after.f == (if rOk && fOk then Some(FScores(rows).value) else before.f)
      && after.m == (if rOk && fOk && mOk then Some(MScores(rows).value) else before.m)
      && (err.None? ==>
            InScoreRange(after.r.value) && InScoreRange(after.f.value) && InScoreRange(after.m.value)
            && after.code == Some(ScoreCodes(after.r.value, after.f.value, after.m.value)))
      && (err.Some? ==> after.code == before.code)
  {
    if RScores(rows).Success? && FScores(rows).Success? && MScores(rows).Success? {
      ScoreRanges(rows);
    }
  }

  /** Scoring keeps every column the same length as the table. */
  lemma ScoringFits(rows: seq<Metrics>, before: ScoreState)
    requires ScoresFit(before, |rows|)
    ensures ScoresFit(Scoring(rows, before).0, |rows|)
  {
    var r, f, m := RScores(rows), FScores(rows), MScores(rows);
    var after := Scoring(rows, before).0;
    if r.Success? && f.Success? && m.Success? {
      ScoreRanges(rows);
      assert after == ScoreState(Some(r.value), Some(f.value), Some(m.value),
                                 Some(ScoreCodes(r.value, f.value, m.value)));
    } else if r.Success? && f.Success? {
      assert after == before.(r := Some(r.value), f := Some(f.value));
    } else if r.Success? {
      assert after == before.(r := Some(r.value));
    } else {
      assert after == before;
    }
  }

  /** Scoring a table of at least two customers can fail only on Recency or
      Monetary: the Frequency ranks are 1..n and never give coinciding edges. */
  lemma FrequencyNeverFails(rows: seq<Metrics>, before: ScoreState)
    requires |rows| >= 2
    ensures Scoring(rows, before).1 != Some(CannotBin(Frequency))
  {
    FScoreSucceeds(rows);
  }

  // ---------------------------------------------------------------------------
  // Segments
  // ---------------------------------------------------------------------------

  function SegmentsOf(rs: seq<int>, fs: seq<int>, ms: seq<int>): (segs: seq<Segment>)
    requires |rs| == |fs| == |ms|
    ensures |segs| == |rs| && forall i :: 0 <= i < |rs| ==> segs[i] == GetSegment(rs[i], fs[i], ms[i])
  {
    seq(|rs|, i requires 0 <= i < |rs| => GetSegment(rs[i], fs[i], ms[i]))
  }

  // ---------------------------------------------------------------------------
  // The tables and the analyser
  // ---------------------------------------------------------------------------

  /** The RFM table: the metrics rows and the columns that the scoring and
      segmentation steps add to it in place (absent until added). */
  class RfmTable {
    var rows: seq<Metrics>
    /** The R_Score, F_Score, M_Score and RFM_Score columns. */
    var scores: ScoreState
    var segment: Option<seq<Segment>>

    /** Every column present has one entry per row. */
    ghost predicate Valid()
      reads this
    {
      ScoresFit(scores, |rows|) && (segment.Some? ==> |segment.value| == |rows|)
    }

    /** A table holding only the metrics columns. */
    constructor (rows: seq<Metrics>)
      ensures this.rows == rows
      ensures scores == ScoreState(None, None, None, None) && segment.None?
      ensures Valid()
    {
      this.rows := rows;
      scores := ScoreState(None, None, None, None);
      segment := None;
    }

    /** `copy()`: a new table with the same columns. */
    constructor Copy(other: RfmTable)
      requires other.Valid()
      ensures rows == other.rows && scores == other.scores && segment == other.segment
      ensures Valid()
    {
      rows := other.rows;
      scores := other.scores;
      segment := other.segment;
    }

    /** Adds R_Score, F_Score, M_Score and RFM_Score in that order, as
        `Scoring` describes; a binning error stops there and is returned. */
    method AddScores() returns (err: Option<ScoreError>)
      requires Valid()
      modifies this
      ensures Valid() && rows == old(rows) && segment == old(segment)
      ensures scores == Scoring(old(rows), old(scores)).0
      ensures err == Scoring(old(rows), old(scores)).1
    {
      var res := Scoring(rows, scores);
      ScoringFits(rows, scores);
      scores, err := res.0, res.1;
    }
  }

  datatype SegmentError = MissingScores

  datatype SummaryError = MissingSegment

  /** The analyser over a transaction table; `rfm` is the last table built by
      `CalculateRfm`. */
  class RfmAnalyzer {
    const df: seq<Transaction>
    var rfm: RfmTable?

    constructor (df: seq<Transaction>)
      ensures this.df == df && rfm == null
    {
      this.df := df;
      rfm := null;
    }

    /** Builds the metrics table, remembers it in `rfm` and returns it. */
    method CalculateRfm(referenceDate: Option<int>) returns (t: RfmTable)
      modifies this
      ensures fresh(t) && rfm == t && t.Valid()
      ensures t.rows == RfmRows(df, ReferenceFor(df, referenceDate))
      ensures t.scores == ScoreState(None, None, None, None) && t.segment.None?
    {
      var reference := ReferenceFor(df, referenceDate);
      t := new RfmTable(RfmRows(df, reference));
      rfm := t;
    }

    /** Adds R_Score, F_Score, M_Score and RFM_Score to `input`, or to a copy
        of `rfm` when no table is given, and returns the scored table. */
    method ScoreRfm(input: RfmTable?) returns (res: Result<RfmTable, ScoreError>)
      requires input != null ==> input.Valid()
      requires input == null && rfm != null ==> rfm.Valid()
      modifies input
      ensures input == null && old(rfm) == null ==> res == Failure(NoMetrics)
      ensures input == null && old(rfm) != null ==>
        var (after, err) := Scoring(old(rfm.rows), old(rfm.scores));
        (res.Success? <==> err.None?) && (res.Failure? ==> Some(res.error) == err)
        && (res.Success? ==>
              fresh(res.value) && res.value.Valid() && res.value.scores == after
              && res.value.rows == old(rfm.rows) && res.value.segment == old(rfm.segment))
      ensures input != null ==>
        var (after, err) := Scoring(old(input.rows), old(input.scores));
        input.Valid() && input.rows == old(input.rows) && input.segment == old(input.segment)
        && input.scores == after
        && (res.Success? <==> err.None?) && (res.Failure? ==> Some(res.error) == err)
        && (res.Success? ==> res.value == input)
    {
      var t: RfmTable;
      if input == null {
        if rfm == null {
          return Failure(NoMetrics);
        }
        t := new RfmTable.Copy(rfm);
      } else {
        t := input;
      }
      var err := t.AddScores();
      if err.Some? {
        return Failure(err.value);
      }
      res := Success(t);
    }

    /** Adds the Segment column, one decision per row. Fails, changing
        nothing, when a score column is missing. */
    method SegmentCustomers(t: RfmTable) returns (res: Result<RfmTable, SegmentError>)
      requires t.Valid()
      modifies t
      ensures res.Success? <==> old(t.scores.r.Some? && t.scores.f.Some? && t.scores.m.Some?)
      ensures res.Failure? ==> unchanged(t)
      ensures res.Success? ==>
        res.value == t && t.Valid()
        && t.rows == old(t.rows) && t.scores == old(t.scores)
        && t.segment == Some(SegmentsOf(t.scores.r.value, t.scores.f.value, t.scores.m.value))
    {
      if t.scores.r.None? || t.scores.f.None? || t.scores.m.None? {
        return Failure(MissingScores);
      }
      t.segment := Some(SegmentsOf(t.scores.r.value, t.scores.f.value, t.scores.m.value));
      res := Success(t);
    }

    /** Customers and total revenue per segment, largest revenue first. */
    function GetSegmentSummary(t: RfmTable): (res: Result<seq<SummaryRow>, SummaryError>)
      requires t.Valid()
      reads t
      ensures res.Success? <==> t.segment.Some?
      ensures res.Success? ==> RevenueDescending(res.value) && CountTotal(res.value) == |t.rows|
      ensures res.Success? ==> forall row :: row in res.value ==>
        row.count == Count(t.segment.value, row.segment) > 0
        && row.totalRevenue == Revenue(t.segment.value, Monetaries(t.rows), row.segment)
      ensures res.Success? ==> SegmentsDistinct(res.value)
      ensures res.Success? ==> forall s :: Count(t.segment.value, s) > 0 ==>
        SummaryRow(s, Count(t.segment.value, s), Revenue(t.segment.value, Monetaries(t.rows), s)) in res.value
    {
      match t.segment
      case None => Failure(MissingSegment)
      case Some(segs) =>
        SummaryCountsAddUp(segs, Monetaries(t.rows));
        forall s | Count(segs, s) > 0
          ensures SummaryRow(s, Count(segs, s), Revenue(segs, Monetaries(t.rows), s)) in Summary(segs, Monetaries(t.rows))
        {
          SummaryRows(segs, Monetaries(t.rows), s);
        }
        SummaryRows(segs, Monetaries(t.rows), Champions);
        Success(Summary(segs, Monetaries(t.rows)))
    }
  }
}
