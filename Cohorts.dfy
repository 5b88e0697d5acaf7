/** Cohort retention: every customer belongs to the calendar month of their
    first purchase (their cohort), every purchase lies some number of whole
    months after it (its period number), and the matrix counts, per cohort
    and period, the distinct customers still buying, divided by the size of
    the cohort. */
module Cohorts {
  import opened Wrappers

  type MonthOfYear = m: int | 1 <= m <= 12 witness 1
  type DayOfMonth = d: int | 1 <= d <= 31 witness 1
  type SecondOfDay = s: int | 0 <= s < 86400 witness 0

  /** An InvoiceDate: calendar fields down to the second. */
  datatype Stamp = Stamp(year: int, month: MonthOfYear, day: DayOfMonth, second: SecondOfDay)

  /** `a` is not later than `b` (chronological order on the fields). */
  predicate NotAfter(a: Stamp, b: Stamp) {
    a.year < b.year
    || (a.year == b.year && a.month < b.month)
    || (a.year == b.year && a.month == b.month && a.day < b.day)
    || (a.year == b.year && a.month == b.month && a.day == b.day && a.second <= b.second)
  }

  /** A monthly period, as `to_period('M')` gives it. */
  datatype Period = Period(year: int, month: MonthOfYear)

  function PeriodOf(d: Stamp): (p: Period)
    ensures p.year == d.year && p.month == d.month
  {
    Period(d.year, d.month)
  }

  /** Months since the start of year 0; subtracting two of these is the
      period difference `n`. */
  function MonthIndex(p: Period): int {
    p.year * 12 + p.month - 1
  }

  /** Distinct periods have distinct month indices, and the index follows
      the order of time. */
  lemma MonthIndexOrder(a: Stamp, b: Stamp)
    ensures NotAfter(a, b) ==> MonthIndex(PeriodOf(a)) <= MonthIndex(PeriodOf(b))
    ensures MonthIndex(PeriodOf(a)) == MonthIndex(PeriodOf(b)) <==> PeriodOf(a) == PeriodOf(b)
  {
  }

  /** One row of the cleaned table, reduced to the columns used here. */
  datatype Purchase = Purchase(customer: int, invoiceDate: Stamp)

  function CustomerIds(txs: seq<Purchase>): set<int> {
    set t | t in txs :: t.customer
  }

  /** The earliest InvoiceDate of customer `c` (`groupby(...).min()`). */
  function FirstPurchase(txs: seq<Purchase>, c: int): (e: Stamp)
    requires c in CustomerIds(txs)
    ensures exists t :: t in txs && t.customer == c && t.invoiceDate == e
    ensures forall t :: t in txs && t.customer == c ==> NotAfter(e, t.invoiceDate)
    decreases |txs|
  {
    var t := txs[0];
    assert forall u :: u in txs ==> u == t || u in txs[1..];
    if t.customer != c then
      assert c in CustomerIds(txs[1..]);
      FirstPurchase(txs[1..], c)
    else if c !in CustomerIds(txs[1..]) then
      t.invoiceDate
    else
      var rest := FirstPurchase(txs[1..], c);
      if NotAfter(t.invoiceDate, rest) then t.invoiceDate else rest
  }

  /** CohortGroup: the month of the customer's first purchase. */
  function CohortGroup(txs: seq<Purchase>, c: int): (g: Period)
    requires c in CustomerIds(txs)
    ensures exists t :: t in txs && t.customer == c && PeriodOf(t.invoiceDate) == g
    ensures forall t :: t in txs && t.customer == c ==> MonthIndex(g) <= MonthIndex(PeriodOf(t.invoiceDate))
  {
    PeriodOf(FirstPurchase(txs, c))
  }

  /** PeriodNumber of a row: whole calendar months from its customer's
      cohort month to its own month; the day of the month plays no part. */
  function PeriodNumber(txs: seq<Purchase>, t: Purchase): (n: int)
    requires t in txs
    ensures n >= 0
    ensures n == 0 <==> PeriodOf(t.invoiceDate) == CohortGroup(txs, t.customer)
  {
    MonthIndex(PeriodOf(t.invoiceDate)) - MonthIndex(CohortGroup(txs, t.customer))
  }

  /** The row holding a customer's first purchase has period number 0. */
  lemma FirstRowAtPeriodZero(txs: seq<Purchase>, c: int) returns (t: Purchase)
    requires c in CustomerIds(txs)
    ensures t in txs && t.customer == c && t.invoiceDate == FirstPurchase(txs, c)
    ensures PeriodNumber(txs, t) == 0
  {
    t :| t in txs && t.customer == c && t.invoiceDate == FirstPurchase(txs, c);
  }

  /** The customers of cohort `g` with at least one row at period `p`
      (`nunique` of CustomerID in that group). */
  function Active(txs: seq<Purchase>, g: Period, p: int): (r: set<int>)
    ensures r <= Members(txs, g)
    ensures p < 0 ==> r == {}
  {
    set t | t in txs && CohortGroup(txs, t.customer) == g && PeriodNumber(txs, t) == p :: t.customer
  }

  /** The customers whose cohort is `g`. */
  function Members(txs: seq<Purchase>, g: Period): set<int> {
    set t | t in txs && CohortGroup(txs, t.customer) == g :: t.customer
  }

  /** The (CohortGroup, PeriodNumber) pairs that occur: the cells of the
      pivot table that are present. */
  function Cells(txs: seq<Purchase>): (r: set<(Period, int)>)
    ensures |txs| > 0 ==> r != {}
  {
    var r := set t | t in txs :: (CohortGroup(txs, t.customer), PeriodNumber(txs, t));
    assert |txs| > 0 ==> (CohortGroup(txs, txs[0].customer), PeriodNumber(txs, txs[0])) in r;
    r
  }

  /** A cell is present exactly when some customer of that cohort is active
      in that period. */
  lemma CellPresent(txs: seq<Purchase>, g: Period, p: int)
    ensures (g, p) in Cells(txs) <==> |Active(txs, g, p)| > 0
  {
    if (g, p) in Cells(txs) {
      var t :| t in txs && (CohortGroup(txs, t.customer), PeriodNumber(txs, t)) == (g, p);
      assert t.customer in Active(txs, g, p);
    }
    if |Active(txs, g, p)| > 0 {
      var c :| c in Active(txs, g, p);
    }
  }

  /** Everyone active in a later period of a cohort was active in its
      period 0, and period 0 holds the whole cohort. */
  lemma ActiveWithinCohort(txs: seq<Purchase>, g: Period, p: int)
    ensures Active(txs, g, p) <= Active(txs, g, 0)
    ensures Active(txs, g, 0) == Members(txs, g)
  {
    forall c | c in Members(txs, g) ensures c in Active(txs, g, 0) {
      var u :| u in txs && CohortGroup(txs, u.customer) == g && u.customer == c;
      var t := FirstRowAtPeriodZero(txs, c);
    }
  }

  /** The cohort-size column: every present cell's cohort also has a
      period-0 cell, and 0 is the smallest period number, so the first
      column of the pivot table is period 0 and never missing. */
  lemma FirstColumnIsPeriodZero(txs: seq<Purchase>)
    ensures forall k :: k in Cells(txs) ==> k.1 >= 0 && (k.0, 0) in Cells(txs)
    ensures |txs| > 0 ==> exists g :: (g, 0) in Cells(txs)
  {
    forall k | k in Cells(txs) ensures k.1 >= 0 && (k.0, 0) in Cells(txs) {
      var t :| t in txs && (CohortGroup(txs, t.customer), PeriodNumber(txs, t)) == k;
      assert t.customer in Active(txs, k.0, 0) by { ActiveWithinCohort(txs, k.0, 0); }
      CellPresent(txs, k.0, 0);
    }
    if |txs| > 0 {
      var t := FirstRowAtPeriodZero(txs, txs[0].customer);
      assert (CohortGroup(txs, t.customer), 0) in Cells(txs);
    }
  }

  /** `cohort_counts`: distinct active customers per present cell. */
  function CohortCounts(txs: seq<Purchase>): (m: map<(Period, int), nat>)
    ensures m.Keys == Cells(txs)
    ensures forall k :: k in m ==> m[k] == |Active(txs, k.0, k.1)| > 0
  {
    forall k | k in Cells(txs) ensures |Active(txs, k.0, k.1)| > 0 {
      CellPresent(txs, k.0, k.1);
    }
    map k | k in Cells(txs) :: |Active(txs, k.0, k.1)|
  }

  /** Retention of a present cell: the share of its cohort's customers
      (all active at period 0) that are active in that period. */
  function RetentionOf(txs: seq<Purchase>): (m: map<(Period, int), real>)
    ensures m.Keys == Cells(txs)
    ensures forall k :: k in m ==>
      |Members(txs, k.0)| > 0 && m[k] == Share(|Active(txs, k.0, k.1)|, |Members(txs, k.0)|)
  {
    var counts := CohortCounts(txs);
    FirstColumnIsPeriodZero(txs);
    var m := map k | k in Cells(txs) :: Share(counts[k], counts[(k.0, 0)]);
    forall k | k in m
      ensures |Members(txs, k.0)| > 0
      ensures m[k] == Share(|Active(txs, k.0, k.1)|, |Members(txs, k.0)|)
    {
      CellCounts(txs, k);
    }
    m
  }

  /** `count` divided by a non-zero `size`, as `DataFrame.divide` does. */
  function Share(count: nat, size: nat): real
    requires size > 0
  {
    count as real / size as real
  }

  /** The two counts a retention value divides: the cell's active customers
      and its cohort's size. */
  lemma CellCounts(txs: seq<Purchase>, k: (Period, int))
    requires k in Cells(txs)
    ensures k in CohortCounts(txs) && (k.0, 0) in CohortCounts(txs)
    ensures CohortCounts(txs)[k] == |Active(txs, k.0, k.1)|
    ensures CohortCounts(txs)[(k.0, 0)] == |Members(txs, k.0)| > 0
  {
    FirstColumnIsPeriodZero(txs);
    CohortSize(txs, k.0);
  }

  /** Every present retention value lies in (0, 1], and period 0 is exactly
      1. */
  lemma RetentionBounds(txs: seq<Purchase>, k: (Period, int))
    requires k in Cells(txs)
    ensures 0.0 < RetentionOf(txs)[k] <= 1.0
    ensures k.1 == 0 ==> RetentionOf(txs)[k] == 1.0
  {
    var counts := CohortCounts(txs);
    FirstColumnIsPeriodZero(txs);
    var num, den := counts[k], counts[(k.0, 0)];
    assert 0 < num <= den by {
      ActiveWithinCohort(txs, k.0, k.1);
      SubsetCard(Active(txs, k.0, k.1), Active(txs, k.0, 0));
    }
    assert RetentionOf(txs)[k] == num as real / den as real;
    Ratio(num, den);
  }

  lemma Ratio(num: nat, den: nat)
    requires 0 < num <= den
    ensures 0.0 < num as real / den as real <= 1.0
    ensures num == den ==> num as real / den as real == 1.0
  {
  }

  lemma {:induction false} SubsetCard<T>(a: set<T>, b: set<T>)
    requires a <= b
    ensures |a| <= |b|
    decreases |b|
  {
    if a != {} {
      var x :| x in a;
      SubsetCard(a - {x}, b - {x});
    }
  }

  /** The cohort size (the first column) is the number of customers whose
      first purchase falls in that month. */
  lemma CohortSize(txs: seq<Purchase>, g: Period)
    requires (g, 0) in Cells(txs)
    ensures CohortCounts(txs)[(g, 0)] == |Members(txs, g)|
  {
    ActiveWithinCohort(txs, g, 0);
  }

  /** A customer buying on 31 January and on 1 February of the same year
      has a purchase at period 1: the months differ though a day apart. */
  lemma DayIgnored()
    ensures var txs := [Purchase(7, Stamp(2011, 1, 31, 0)), Purchase(7, Stamp(2011, 2, 1, 0))];
      CohortGroup(txs, 7) == Period(2011, 1) && PeriodNumber(txs, txs[1]) == 1
  {
    var txs := [Purchase(7, Stamp(2011, 1, 31, 0)), Purchase(7, Stamp(2011, 2, 1, 0))];
    var t := FirstRowAtPeriodZero(txs, 7);
    assert FirstPurchase(txs, 7) == Stamp(2011, 1, 31, 0) by {
      assert NotAfter(FirstPurchase(txs, 7), txs[0].invoiceDate);
    }
  }

  /** One customer with two purchases in January 2011 and one in March. */
  const GapSample: seq<Purchase> :=
    [Purchase(7, Stamp(2011, 1, 5, 0)), Purchase(7, Stamp(2011, 1, 20, 0)), Purchase(7, Stamp(2011, 3, 5, 0))]

  lemma GapSamplePeriods()
    ensures CohortGroup(GapSample, 7) == Period(2011, 1)
    ensures PeriodNumber(GapSample, GapSample[0]) == 0 && PeriodNumber(GapSample, GapSample[1]) == 0
    ensures PeriodNumber(GapSample, GapSample[2]) == 2
    ensures forall t :: t in GapSample ==> t == GapSample[0] || t == GapSample[1] || t == GapSample[2]
  {
    var txs := GapSample;
    assert FirstPurchase(txs, 7) == Stamp(2011, 1, 5, 0) by {
      assert NotAfter(FirstPurchase(txs, 7), txs[0].invoiceDate);
    }
  }

  /** A month with no activity is an absent cell, not a zero: the sample has
      cells at periods 0 and 2 of its cohort and none at period 1. */
  lemma GapIsAbsent()
    ensures (Period(2011, 1), 0) in RetentionOf(GapSample)
    ensures (Period(2011, 1), 1) !in RetentionOf(GapSample)
    ensures (Period(2011, 1), 2) in RetentionOf(GapSample)
  {
    var txs, g := GapSample, Period(2011, 1);
    GapSamplePeriods();
    assert (g, 0) == (CohortGroup(txs, txs[0].customer), PeriodNumber(txs, txs[0]));
    assert (g, 2) == (CohortGroup(txs, txs[2].customer), PeriodNumber(txs, txs[2]));
    forall t | t in txs ensures PeriodNumber(txs, t) != 1 {
    }
  }

  /** With a single customer every present cell is that customer alone, so
      every retention value is 1, whatever months are skipped in between. */
  lemma SingleCustomerRetention(txs: seq<Purchase>, c: int, k: (Period, int))
    requires forall t :: t in txs ==> t.customer == c
    requires k in Cells(txs)
    ensures RetentionOf(txs)[k] == 1.0
  {
    FirstColumnIsPeriodZero(txs);
    CellPresent(txs, k.0, k.1);
    CellPresent(txs, k.0, 0);
    assert Active(txs, k.0, k.1) == {c} by {
      var x :| x in Active(txs, k.0, k.1);
    }
    assert Active(txs, k.0, 0) == {c} by {
      var x :| x in Active(txs, k.0, 0);
    }
    FullRetention(txs, k);
  }

  /** The customer who skips February still counts as retained in March. */
  lemma GapRetention()
    ensures (Period(2011, 1), 2) in RetentionOf(GapSample) && RetentionOf(GapSample)[(Period(2011, 1), 2)] == 1.0
  {
    GapIsAbsent();
    SingleCustomerRetention(GapSample, 7, (Period(2011, 1), 2));
  }

  /** A period in which the whole cohort is active again has retention 1. */
  lemma FullRetention(txs: seq<Purchase>, k: (Period, int))
    requires k in Cells(txs) && Active(txs, k.0, k.1) == Active(txs, k.0, 0)
    ensures RetentionOf(txs)[k] == 1.0
  {
    var counts := CohortCounts(txs);
    FirstColumnIsPeriodZero(txs);
    assert RetentionOf(txs)[k] == counts[k] as real / counts[(k.0, 0)] as real;
    Ratio(counts[k], counts[(k.0, 0)]);
  }

  datatype CohortError =
    /** An empty table has no first column to divide by. */
    NoColumns

  /** The analyser; `retentionData` caches the last retention matrix. */
  class CohortAnalysis {
    const df: seq<Purchase>
    var retentionData: Option<map<(Period, int), real>>

    constructor (df: seq<Purchase>)
      ensures this.df == df && retentionData == None
    {
      this.df := df;
      retentionData := None;
    }

    /** Builds the retention matrix from a copy of `df` and caches it; an
        empty table fails and leaves the cache alone. */
    method CreateCohortMatrix() returns (res: Result<map<(Period, int), real>, CohortError>)
      modifies this
      ensures |df| == 0 ==> res == Failure(NoColumns) && retentionData == old(retentionData)
      ensures |df| > 0 ==> res == Success(RetentionOf(df)) && retentionData == Some(RetentionOf(df))
    {
      if |df| == 0 {
        return Failure(NoColumns);
      }
      var retention := RetentionOf(df);
      retentionData := Some(retention);
      res := Success(retention);
    }
  }
}
