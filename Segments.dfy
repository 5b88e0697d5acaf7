/** The business rules that turn a customer's R, F and M scores into one of
    eight named segments, and the per-segment summary (customer count and
    total revenue, largest revenue first). */
module Segments {

  datatype Segment =
    | Champions
    | LoyalCustomers
    | NewCustomers
    | PotentialLoyalists
    | AtRisk
    | CannotLoseThem
    | LostCustomers
    | Others

  /** The label written into the `Segment` column. */
  function Label(s: Segment): string {
    match s
    case Champions => "Champions"
    case LoyalCustomers => "Loyal Customers"
    case NewCustomers => "New Customers"
    case PotentialLoyalists => "Potential Loyalists"
    case AtRisk => "At Risk"
    case CannotLoseThem => "Cannot Lose Them"
    case LostCustomers => "Lost Customers"
    case Others => "Others"
  }

  /** Different segments carry different labels, so grouping by label is
      grouping by segment. */
  lemma LabelsDistinct(s: Segment, t: Segment)
    requires s != t
    ensures Label(s) != Label(t)
  {
  }

  /** The decision list: the first rule that matches wins. */
  function GetSegment(r: int, f: int, m: int): (s: Segment)
    ensures s == Champions <==> r >= 4 && f >= 4 && m >= 4
    ensures s == PotentialLoyalists ==> r == 3
    ensures s == Others ==> r >= 3 && m <= 2
  {
    if r >= 4 && f >= 4 && m >= 4 then Champions
    else if r >= 3 && f >= 3 && m >= 3 then LoyalCustomers
    else if r >= 4 && f <= 2 then NewCustomers
    else if r >= 3 && f <= 2 && m >= 3 then PotentialLoyalists
    else if r <= 2 && f >= 3 then AtRisk
    else if r <= 2 && f <= 2 && m >= 3 then CannotLoseThem
    else if r <= 2 && f <= 2 && m <= 2 then LostCustomers
    else Others
  }

  /** The region of the score space each segment covers once the rule order
      is taken into account, written without reference to that order. */
  predicate Region(s: Segment, r: int, f: int, m: int) {
    match s
    case Champions => r >= 4 && f >= 4 && m >= 4
    case LoyalCustomers => r >= 3 && f >= 3 && m >= 3 && !(r >= 4 && f >= 4 && m >= 4)
    case NewCustomers => r >= 4 && f <= 2
    case PotentialLoyalists => r == 3 && f <= 2 && m >= 3
    case AtRisk => r <= 2 && f >= 3
    case CannotLoseThem => r <= 2 && f <= 2 && m >= 3
    case LostCustomers => r <= 2 && f <= 2 && m <= 2
    case Others => r >= 3 && m <= 2 && (f >= 3 || r == 3)
  }

  /** The regions partition the score space and the decision list picks the
      region a triple lies in: `GetSegment(r, f, m) == s` exactly when
      `(r, f, m)` lies in the region of `s`. */
  lemma SegmentRegions(s: Segment, r: int, f: int, m: int)
    ensures GetSegment(r, f, m) == s <==> Region(s, r, f, m)
  {
  }

  /** The rule for New Customers hides the Potential Loyalists rule for every
      recency above 3. */
  lemma PotentialLoyalistShadowed(f: int, m: int)
    requires f <= 2 && m >= 3
    ensures GetSegment(4, f, m) == NewCustomers
    ensures GetSegment(5, f, m) == NewCustomers
    ensures GetSegment(3, f, m) == PotentialLoyalists
  {
  }

  // ---------------------------------------------------------------------------
  // Summary by segment
  // ---------------------------------------------------------------------------

  /** The groups of `groupby('Segment')` come out ordered by label:
      "At Risk" < "Cannot Lose Them" < "Champions" < "Lost Customers" <
      "Loyal Customers" < "New Customers" < "Others" < "Potential Loyalists". */
  const LabelOrder: seq<Segment> :=
    [AtRisk, CannotLoseThem, Champions, LostCustomers, LoyalCustomers, NewCustomers, Others,
     PotentialLoyalists]

  /** Strict lexicographic order on strings. */
  predicate StringBefore(a: string, b: string) {
    if |a| == 0 then |b| > 0
    else if |b| == 0 then false
    else a[0] < b[0] || (a[0] == b[0] && StringBefore(a[1..], b[1..]))
  }

  lemma LabelOrderSorted()
    ensures forall i :: 0 <= i < |LabelOrder| - 1 ==>
      StringBefore(Label(LabelOrder[i]), Label(LabelOrder[i + 1]))
  {
    assert StringBefore("At Risk", "Cannot Lose Them");
    assert StringBefore("Cannot Lose Them", "Champions");
    assert StringBefore("Champions", "Lost Customers");
    assert StringBefore("Lost Customers", "Loyal Customers");
    assert StringBefore("Loyal Customers", "New Customers");
    assert StringBefore("New Customers", "Others");
    assert StringBefore("Others", "Potential Loyalists");
  }

  /** Every segment appears exactly once in the label order. */
  lemma LabelOrderComplete(s: Segment)
    ensures Occurrences(LabelOrder, s) == 1
  {
    OccurrencesMultiset(LabelOrder, s);
  }

  /** How often `s` occurs in `order`. */
  function Occurrences(order: seq<Segment>, s: Segment): nat
  {
    if |order| == 0 then 0 else (if order[0] == s then 1 else 0) + Occurrences(order[1..], s)
  }

  lemma {:induction false} OccurrencesMultiset(order: seq<Segment>, s: Segment)
    ensures Occurrences(order, s) == multiset(order)[s]
  {
    if |order| > 0 {
      assert order == [order[0]] + order[1..];
      OccurrencesMultiset(order[1..], s);
    }
  }

  /** Number of customers in segment s (the `count` of CustomerID). */
  function Count(segs: seq<Segment>, s: Segment): (c: nat)
    ensures c <= |segs|
    ensures c == multiset(segs)[s]
  {
    if |segs| == 0 then 0
    else
      var k := |segs| - 1;
      assert segs == segs[..k] + [segs[k]];
      Count(segs[..k], s) + (if segs[k] == s then 1 else 0)
  }

  /** Total Monetary of the customers in segment s. */
  function Revenue(segs: seq<Segment>, monetary: seq<real>, s: Segment): (r: real)
    requires |segs| == |monetary|
    ensures Count(segs, s) == 0 ==> r == 0.0
    ensures (forall i :: 0 <= i < |segs| && segs[i] == s ==> monetary[i] > 0.0) ==> (r > 0.0 <==> Count(segs, s) > 0)
  {
    if |segs| == 0 then 0.0
    else
      var k := |segs| - 1;
      Revenue(segs[..k], monetary[..k], s) + (if segs[k] == s then monetary[k] else 0.0)
  }

  datatype SummaryRow = SummaryRow(segment: Segment, count: nat, totalRevenue: real)

  /** One row per segment of `order` that has at least one customer. */
  function Groups(order: seq<Segment>, segs: seq<Segment>, monetary: seq<real>): (g: seq<SummaryRow>)
    requires |segs| == |monetary|
    ensures forall row :: row in g ==>
      row == SummaryRow(row.segment, Count(segs, row.segment), Revenue(segs, monetary, row.segment))
      && row.count > 0 && row.segment in order
    ensures forall s :: s in order && Count(segs, s) > 0 ==>
      SummaryRow(s, Count(segs, s), Revenue(segs, monetary, s)) in g
  {
    if |order| == 0 then []
    else
      var rest := Groups(order[1..], segs, monetary);
      var s := order[0];
      if Count(segs, s) > 0 then [SummaryRow(s, Count(segs, s), Revenue(segs, monetary, s))] + rest
      else rest
  }

  /** Sum of the Count column. */
  function CountTotal(rows: seq<SummaryRow>): nat {
    if |rows| == 0 then 0 else rows[0].count + CountTotal(rows[1..])
  }

  predicate RevenueDescending(rows: seq<SummaryRow>) {
    forall i, j :: 0 <= i < j < |rows| ==> rows[i].totalRevenue >= rows[j].totalRevenue
  }

  /** No segment has two rows. */
  predicate SegmentsDistinct(rows: seq<SummaryRow>) {
    forall i, j :: 0 <= i < j < |rows| ==> rows[i].segment != rows[j].segment
  }

  /** Insertion keeping the larger revenues first; an earlier row goes ahead
      of later rows with the same revenue. */
  function InsertByRevenue(x: SummaryRow, rows: seq<SummaryRow>): (r: seq<SummaryRow>)
    requires RevenueDescending(rows)
    ensures RevenueDescending(r)
    ensures multiset(r) == multiset(rows) + multiset{x}
    ensures CountTotal(r) == x.count + CountTotal(rows)
    ensures |r| == |rows| + 1
    ensures r[0] == x || (|rows| > 0 && r[0] == rows[0])
  {
    if |rows| == 0 || x.totalRevenue >= rows[0].totalRevenue then [x] + rows
    else
      var rest := InsertByRevenue(x, rows[1..]);
      assert rows == [rows[0]] + rows[1..];
      assert rows[0].totalRevenue >= rest[0].totalRevenue;
      [rows[0]] + rest
  }

  /** `sort_values('Total_Revenue', ascending=False)`. */
  function SortByRevenue(rows: seq<SummaryRow>): (r: seq<SummaryRow>)
    ensures RevenueDescending(r)
    ensures multiset(r) == multiset(rows)
    ensures CountTotal(r) == CountTotal(rows)
  {
    if |rows| == 0 then []
    else
      assert rows == [rows[0]] + rows[1..];
      InsertByRevenue(rows[0], SortByRevenue(rows[1..]))
  }

  /** The segment summary: count and total revenue per occurring segment,
      largest total revenue first. */
  function Summary(segs: seq<Segment>, monetary: seq<real>): (r: seq<SummaryRow>)
    requires |segs| == |monetary|
    ensures RevenueDescending(r)
    ensures multiset(r) == multiset(Groups(LabelOrder, segs, monetary))
    ensures SegmentsDistinct(r)
  {
    var g := Groups(LabelOrder, segs, monetary);
    LabelOrderDistinct();
    GroupsDistinct(LabelOrder, segs, monetary);
    SortDistinct(g);
    SortByRevenue(g)
  }

  /** Grouping over an order without repeats gives each segment one row. */
  lemma {:induction false} GroupsDistinct(order: seq<Segment>, segs: seq<Segment>, monetary: seq<real>)
    requires |segs| == |monetary|
    requires forall i, j :: 0 <= i < j < |order| ==> order[i] != order[j]
    ensures SegmentsDistinct(Groups(order, segs, monetary))
  {
    if |order| > 0 {
      var rest := Groups(order[1..], segs, monetary);
      GroupsDistinct(order[1..], segs, monetary);
      forall row | row in rest ensures row.segment != order[0] {
        var k :| 0 <= k < |order[1..]| && order[1..][k] == row.segment;
        assert order[0] != order[k + 1];
      }
    }
  }

  /** Inserting a row of a new segment keeps the segments distinct. */
  lemma {:induction false} InsertDistinct(x: SummaryRow, rows: seq<SummaryRow>)
    requires RevenueDescending(rows)
    requires SegmentsDistinct(rows)
    requires forall y :: y in rows ==> y.segment != x.segment
    ensures SegmentsDistinct(InsertByRevenue(x, rows))
  {
    if |rows| == 0 || x.totalRevenue >= rows[0].totalRevenue {
      ConsDistinct(x, rows);
    } else {
      var tail := rows[1..];
      TailDistinct(rows);
      var rest := InsertByRevenue(x, tail);
      InsertDistinct(x, tail);
      InsertMembers(x, tail);
      ConsDistinct(rows[0], rest);
    }
  }

  lemma TailDistinct(rows: seq<SummaryRow>)
    requires |rows| > 0 && SegmentsDistinct(rows)
    ensures SegmentsDistinct(rows[1..])
    ensures forall y :: y in rows[1..] ==> y.segment != rows[0].segment
  {
    var tail := rows[1..];
    forall i, j | 0 <= i < j < |tail| ensures tail[i].segment != tail[j].segment {
      assert tail[i] == rows[i + 1] && tail[j] == rows[j + 1];
    }
  }

  /** An inserted sequence holds the new row and the old rows only. */
  lemma {:induction false} InsertMembers(x: SummaryRow, rows: seq<SummaryRow>)
    requires RevenueDescending(rows)
    ensures forall y :: y in InsertByRevenue(x, rows) ==> y == x || y in rows
  {
    if |rows| > 0 && x.totalRevenue < rows[0].totalRevenue {
      InsertMembers(x, rows[1..]);
      assert forall y :: y in rows[1..] ==> y in rows;
    }
  }

  lemma ConsDistinct(a: SummaryRow, rows: seq<SummaryRow>)
    requires SegmentsDistinct(rows)
    requires forall y :: y in rows ==> y.segment != a.segment
    ensures SegmentsDistinct([a] + rows)
  {
    var r := [a] + rows;
    forall i, j | 0 <= i < j < |r| ensures r[i].segment != r[j].segment {
      assert r[j] == rows[j - 1];
      if i > 0 {
        assert r[i] == rows[i - 1];
      }
    }
  }

  /** Sorting never puts two rows of one segment into the summary. */
  lemma {:induction false} SortDistinct(rows: seq<SummaryRow>)
    requires SegmentsDistinct(rows)
    ensures SegmentsDistinct(SortByRevenue(rows))
  {
    if |rows| > 0 {
      var sorted := SortByRevenue(rows[1..]);
      SortDistinct(rows[1..]);
      forall y | y in sorted ensures y.segment != rows[0].segment {
        assert y in multiset(sorted);
      }
      InsertDistinct(rows[0], sorted);
    }
  }

  /** The group order lists each segment at one position only. */
  lemma LabelOrderDistinct()
    ensures forall i, j :: 0 <= i < j < |LabelOrder| ==> LabelOrder[i] != LabelOrder[j]
  {
  }

  /** Summing Count over an order gives the customers whose segment is in it,
      each counted as often as its segment occurs in the order. */
  function CountOver(order: seq<Segment>, segs: seq<Segment>): nat {
    if |order| == 0 then 0 else Count(segs, order[0]) + CountOver(order[1..], segs)
  }

  lemma {:induction false} GroupsCountTotal(order: seq<Segment>, segs: seq<Segment>, monetary: seq<real>)
    requires |segs| == |monetary|
    ensures CountTotal(Groups(order, segs, monetary)) == CountOver(order, segs)
  {
    if |order| > 0 {
      GroupsCountTotal(order[1..], segs, monetary);
    }
  }

  lemma {:induction false} CountOverSnoc(order: seq<Segment>, segs: seq<Segment>, x: Segment)
    ensures CountOver(order, segs + [x]) == CountOver(order, segs) + Occurrences(order, x)
  {
    if |order| > 0 {
      CountOverSnoc(order[1..], segs, x);
      assert (segs + [x])[..|segs|] == segs;
    }
  }

  /** When every segment occurs once in the order, the counts add up to the
      number of customers. */
  lemma {:induction false} CountOverAll(order: seq<Segment>, segs: seq<Segment>)
    requires forall s :: Occurrences(order, s) == 1
    ensures CountOver(order, segs) == |segs|
  {
    if |segs| == 0 {
      CountOverEmpty(order);
    } else {
      var k := |segs| - 1;
      assert segs == segs[..k] + [segs[k]];
      CountOverAll(order, segs[..k]);
      CountOverSnoc(order, segs[..k], segs[k]);
    }
  }

  lemma {:induction false} CountOverEmpty(order: seq<Segment>)
    ensures CountOver(order, []) == 0
  {
    if |order| > 0 {
      CountOverEmpty(order[1..]);
    }
  }

  /** The Count column of the summary adds up to the number of customers. */
  lemma SummaryCountsAddUp(segs: seq<Segment>, monetary: seq<real>)
    requires |segs| == |monetary|
    ensures CountTotal(Summary(segs, monetary)) == |segs|
  {
    forall s ensures Occurrences(LabelOrder, s) == 1 {
      LabelOrderComplete(s);
    }
    GroupsCountTotal(LabelOrder, segs, monetary);
    CountOverAll(LabelOrder, segs);
  }

  /** Each summary row describes one segment that has customers, with its
      count and total revenue, and every segment that has customers has a
      row. */
  lemma SummaryRows(segs: seq<Segment>, monetary: seq<real>, s: Segment)
    requires |segs| == |monetary|
    ensures SummaryRow(s, Count(segs, s), Revenue(segs, monetary, s)) in Summary(segs, monetary)
      <==> Count(segs, s) > 0
    ensures forall row :: row in Summary(segs, monetary) ==>
      row == SummaryRow(row.segment, Count(segs, row.segment), Revenue(segs, monetary, row.segment))
      && row.count > 0
  {
    var g := Groups(LabelOrder, segs, monetary);
    var r := Summary(segs, monetary);
    assert forall row :: row in r <==> row in g by {
      forall row ensures row in r <==> row in g {
        assert row in r <==> row in multiset(r);
      }
    }
    LabelOrderComplete(s);
  }
}
