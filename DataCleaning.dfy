/** Loading and cleaning of the raw transaction table: choosing a reader by
    file suffix, renaming column-name variants to their canonical names, and
    the row filters plus derived TotalAmount column of the cleaning
    pipeline. */
module DataCleaning {
  import opened Wrappers
  import opened Seqs

  /** One row of the table, with the columns the pipeline looks at. The
      invoice number is its text (`astype(str)`); a missing CustomerID is
      `None`; InvoiceDate is an already parsed timestamp in seconds. */
  datatype Line = Line(
    invoiceNo: string,
    stockCode: string,
    description: string,
    quantity: int,
    invoiceDate: int,
    unitPrice: real,
    customer: Option<int>,
    country: string,
    totalAmount: Option<real>)

  /** A table: its column names, in order, and its rows. */
  datatype Frame = Frame(columns: seq<string>, rows: seq<Line>)

  // ---------------------------------------------------------------- loading

  datatype Reader = CsvReader | ExcelReader

  datatype LoadError =
    /** Neither `.csv` nor `.xlsx`/`.xls`. */
    UnsupportedFile
    /** The table was used before any was loaded. */
    | NotLoaded

  predicate EndsWith(s: string, suffix: string) {
    |suffix| <= |s| && s[|s| - |suffix|..] == suffix
  }

  /** The reader for a path, chosen by its suffix (case-sensitive). */
  function ReaderFor(path: string): (r: Result<Reader, LoadError>)
    ensures r == Success(CsvReader) <==> EndsWith(path, ".csv")
    ensures r == Success(ExcelReader) <==> !EndsWith(path, ".csv") && (EndsWith(path, ".xlsx") || EndsWith(path, ".xls"))
    ensures r.Failure? ==> r.error == UnsupportedFile
  {
    if EndsWith(path, ".csv") then Success(CsvReader)
    else if EndsWith(path, ".xlsx") || EndsWith(path, ".xls") then Success(ExcelReader)
    else Failure(UnsupportedFile)
  }

  /** The suffix decides: a spreadsheet is read by the Excel reader, an
      upper-case `.CSV` or a text file is refused. */
  lemma ReaderExamples()
    ensures ReaderFor("data/raw/online_retail.csv") == Success(CsvReader)
    ensures ReaderFor("online_retail_II.xlsx") == Success(ExcelReader)
    ensures ReaderFor("old.xls") == Success(ExcelReader)
    ensures ReaderFor("DATA.CSV") == Failure(UnsupportedFile)
    ensures ReaderFor("data.txt") == Failure(UnsupportedFile)
  {
    assert "data/raw/online_retail.csv"[22..] == ".csv";
    assert "online_retail_II.xlsx"[16..] == ".xlsx";
    assert "old.xls"[3..] == ".xls";
    assert "old.xls"[4..] != ".csv";
    assert "online_retail_II.xlsx"[17..] != ".csv";
    assert "DATA.CSV"[4..] != ".csv";
    assert "DATA.CSV"[3..] != ".xlsx";
    assert "DATA.CSV"[4..] != ".xls";
    assert "data.txt"[4..] != ".csv";
    assert "data.txt"[3..] != ".xlsx";
    assert "data.txt"[4..] != ".xls";
  }

  // ------------------------------------------------------- column renaming

  /** The renaming table, in its declared order: each entry maps a variant
      spelling to the canonical column name. */
  const ColumnMapping: seq<(string, string)> := [
    ("Invoice", "InvoiceNo"),
    ("invoice", "InvoiceNo"),
    ("invoice_no", "InvoiceNo"),
    ("InvoiceNumber", "InvoiceNo"),
    ("Customer ID", "CustomerID"),
    ("customer id", "CustomerID"),
    ("customer_id", "CustomerID"),
    ("CustomerId", "CustomerID"),
    ("Price", "UnitPrice"),
    ("price", "UnitPrice"),
    ("unit_price", "UnitPrice"),
    ("Unit Price", "UnitPrice"),
    ("StockCode", "StockCode"),
    ("stock_code", "StockCode"),
    ("Stock Code", "StockCode"),
    ("quantity", "Quantity"),
    ("qty", "Quantity"),
    ("Qty", "Quantity"),
    ("description", "Description"),
    ("desc", "Description"),
    ("Desc", "Description"),
    ("InvoiceDate", "InvoiceDate"),
    ("invoice_date", "InvoiceDate"),
    ("Invoice Date", "InvoiceDate"),
    ("Date", "InvoiceDate"),
    ("country", "Country")
  ]

  /** The canonical names the table renames to. */
  const Targets: set<string> := {
    "InvoiceNo", "CustomerID", "UnitPrice", "StockCode",
    "Quantity", "Description", "InvoiceDate", "Country"
  }

  lemma TargetsAreTheValues()
    ensures forall j :: 0 <= j < |ColumnMapping| ==> ColumnMapping[j].1 in Targets
  {
  }

  /** No entry renames a name into a name that some entry renames further:
      a key equal to a target maps to itself. */
  predicate NoChains(m: seq<(string, string)>) {
    forall i, j :: 0 <= i < |m| && 0 <= j < |m| && m[i].0 == m[j].1 ==> m[i].0 == m[i].1
  }

  /** Only keys from `lo` up to `hi` that map to themselves are targets. */
  predicate TargetKeysFixed(lo: nat, hi: nat)
    requires lo <= hi <= |ColumnMapping|
  {
    forall i :: lo <= i < hi && ColumnMapping[i].0 in Targets ==> ColumnMapping[i].0 == ColumnMapping[i].1
  }

  lemma InvoiceToPriceKeys()
    ensures TargetKeysFixed(0, 12)
  {
  }

  lemma StockToQuantityKeys()
    ensures TargetKeysFixed(12, 18)
  {
  }

  lemma DescriptionToCountryKeys()
    ensures TargetKeysFixed(18, 26)
  {
  }

  lemma MappingHasNoChains()
    ensures NoChains(ColumnMapping)
  {
    TargetsAreTheValues();
    InvoiceToPriceKeys();
    StockToQuantityKeys();
    DescriptionToCountryKeys();
  }

  /** The name one column gets after the first `i` entries have been applied
      in order, as the renaming loop does. */
  function RenamedBy(m: seq<(string, string)>, i: nat, name: string): (r: string)
    requires i <= |m|
    ensures r == name || exists j :: 0 <= j < i && r == m[j].1
    ensures r != name ==> exists j :: 0 <= j < i && m[j].0 != m[j].1
  {
    if i == 0 then name
    else
      var prev := RenamedBy(m, i - 1, name);
      if prev == m[i - 1].0 && m[i - 1].0 != m[i - 1].1 then m[i - 1].1 else prev
  }

  /** The first entry of `m[..i]` whose key is `name`, if any. */
  function FirstKey(m: seq<(string, string)>, i: nat, name: string): (r: Option<nat>)
    requires i <= |m|
    ensures r.Some? ==> r.value < i && m[r.value].0 == name
    ensures r.Some? ==> forall j :: 0 <= j < r.value ==> m[j].0 != name
    ensures r.None? ==> forall j :: 0 <= j < i ==> m[j].0 != name
  {
    if i == 0 then None
    else
      var earlier := FirstKey(m, i - 1, name);
      if earlier.Some? then earlier
      else if m[i - 1].0 == name then Some(i - 1)
      else None
  }

  /** The independent reading of the table: a name listed as a key becomes
      its canonical name, any other name stays. */
  function Canonical(name: string): (r: string)
    ensures r == name || r in Targets
  {
    TargetsAreTheValues();
    var k := FirstKey(ColumnMapping, |ColumnMapping|, name);
    if k.Some? then ColumnMapping[k.value].1 else name
  }

  /** Applying the entries one after another renames each name exactly as
      looking it up once does, because the table has no chains. */
  lemma {:induction false} RenamedByIsLookup(m: seq<(string, string)>, i: nat, name: string)
    requires NoChains(m) && i <= |m|
    ensures var k := FirstKey(m, i, name);
      RenamedBy(m, i, name) == if k.Some? then m[k.value].1 else name
  {
    if i > 0 {
      RenamedByIsLookup(m, i - 1, name);
    }
  }

  lemma SequentialIsCanonical(name: string)
    ensures RenamedBy(ColumnMapping, |ColumnMapping|, name) == Canonical(name)
  {
    MappingHasNoChains();
    RenamedByIsLookup(ColumnMapping, |ColumnMapping|, name);
  }

  /** Standardising twice is standardising once. */
  lemma CanonicalIdempotent(name: string)
    ensures Canonical(Canonical(name)) == Canonical(name)
  {
    MappingHasNoChains();
    var k := FirstKey(ColumnMapping, |ColumnMapping|, name);
    if k.Some? {
      var c := ColumnMapping[k.value].1;
      var k2 := FirstKey(ColumnMapping, |ColumnMapping|, c);
      if k2.Some? {
        assert ColumnMapping[k2.value].0 == ColumnMapping[k.value].1;
      }
    }
  }

  /** `rename(columns={from: to})`: every column called `from` becomes `to`. */
  function RenameColumn(cols: seq<string>, from: string, to: string): (r: seq<string>)
    ensures |r| == |cols|
    ensures forall k :: 0 <= k < |cols| ==> r[k] == if cols[k] == from then to else cols[k]
  {
    seq(|cols|, k requires 0 <= k < |cols| => if cols[k] == from then to else cols[k])
  }

  /** Every column after the first `i` entries of `m` have been applied. */
  function RenamedAll(m: seq<(string, string)>, i: nat, cols: seq<string>): (r: seq<string>)
    requires i <= |m|
    ensures |r| == |cols|
    ensures forall k :: 0 <= k < |cols| ==> r[k] == RenamedBy(m, i, cols[k])
  {
    seq(|cols|, k requires 0 <= k < |cols| => RenamedBy(m, i, cols[k]))
  }

  /** One pass of the renaming loop advances every column by one entry. */
  lemma RenameStep(m: seq<(string, string)>, i: nat, orig: seq<string>)
    requires i < |m|
    ensures var before := RenamedAll(m, i, orig);
      RenamedAll(m, i + 1, orig)
      == if m[i].0 in before && m[i].0 != m[i].1 then RenameColumn(before, m[i].0, m[i].1) else before
  {
  }

  /** Every column renamed to its canonical name, the count and order of the
      columns unchanged. */
  function Standardized(cols: seq<string>): (r: seq<string>)
    ensures |r| == |cols|
    ensures forall k :: 0 <= k < |cols| ==> r[k] == Canonical(cols[k])
  {
    seq(|cols|, k requires 0 <= k < |cols| => Canonical(cols[k]))
  }

  lemma StandardizedIdempotent(cols: seq<string>)
    ensures Standardized(Standardized(cols)) == Standardized(cols)
  {
    forall k | 0 <= k < |cols| ensures Standardized(Standardized(cols))[k] == Standardized(cols)[k] {
      CanonicalIdempotent(cols[k]);
    }
  }

  // -------------------------------------------------------------- cleaning

  datatype CleanError =
    /** `clean_data` before `load_data`. */
    NoData
    /** A column the pipeline reads is absent (a KeyError). */
    | MissingColumn(name: string)
    /** Renaming left two columns with this name, so selecting it yields a
        table, not a column: `.str` (InvoiceNo), the TotalAmount product
        (Quantity, UnitPrice) or `pd.to_datetime` (InvoiceDate) raises. */
    | DuplicateColumn(name: string)

  predicate HasCustomer(l: Line) { l.customer.Some? }
  /** The cancellation filter drops every invoice whose text contains a 'C'
      anywhere, not only a leading one. */
  predicate NotCancelled(l: Line) { 'C' !in l.invoiceNo }
  predicate PositiveAmounts(l: Line) { l.quantity > 0 && l.unitPrice > 0.0 }
  predicate BelowOutlierLimit(l: Line) { l.totalAmount.Some? && l.totalAmount.value < 10000.0 }

  /** TotalAmount of a row: Quantity × UnitPrice. */
  function Total(l: Line): real {
    l.quantity as real * l.unitPrice
  }

  /** The row with its TotalAmount column filled in; the amounts it is
      made from are unchanged. */
  function WithTotal(l: Line): (r: Line)
    ensures r.totalAmount == Some(Total(l))
    ensures r == l.(totalAmount := r.totalAmount)
    ensures Total(r) == Total(l)
  {
    l.(totalAmount := Some(Total(l)))
  }

  /** The conditions a raw row must meet to survive cleaning, as one test. */
  predicate Keep(l: Line) {
    HasCustomer(l) && NotCancelled(l) && PositiveAmounts(l)
    && Total(l) < 10000.0
  }

  /** The reference result: the kept rows, each given its TotalAmount. */
  function CleanRows(rows: seq<Line>): (r: seq<Line>)
    ensures |r| <= |rows|
    ensures forall l :: l in rows && !Keep(l) ==> l.(totalAmount := Some(Total(l))) !in r
  {
    MapSeq(WithTotal, Filter(rows, Keep))
  }

  /** Every surviving row has a customer, a non-cancelled invoice, positive
      quantity and price, and TotalAmount = Quantity × UnitPrice < 10000. */
  lemma CleanRowsSound(rows: seq<Line>)
    ensures forall l :: l in CleanRows(rows) ==>
      l.customer.Some? && 'C' !in l.invoiceNo && l.quantity > 0 && l.unitPrice > 0.0
      && l.totalAmount == Some(Total(l))
      && l.totalAmount.value < 10000.0
  {
    forall l | l in CleanRows(rows)
      ensures l.customer.Some? && 'C' !in l.invoiceNo && l.quantity > 0 && l.unitPrice > 0.0
      ensures l.totalAmount == Some(Total(l))
      ensures l.totalAmount.value < 10000.0
    {
      var kept := Filter(rows, Keep);
      var i :| 0 <= i < |CleanRows(rows)| && CleanRows(rows)[i] == l;
      var src := kept[i];
      assert Keep(src);
      assert l == WithTotal(src);
    }
  }

  /** A row survives, with its TotalAmount, exactly when it meets every
      condition; the survivors keep their input order. */
  lemma CleanRowsComplete(rows: seq<Line>, l: Line)
    ensures l in rows && Keep(l) ==> WithTotal(l) in CleanRows(rows)
    ensures IsSubsequence(Filter(rows, Keep), rows)
    ensures |CleanRows(rows)| == |Filter(rows, Keep)|
  {
    FilterMember(rows, Keep, l);
    if l in rows && Keep(l) {
      var i :| 0 <= i < |Filter(rows, Keep)| && Filter(rows, Keep)[i] == l;
      assert CleanRows(rows)[i] == WithTotal(l);
    }
  }

  /** Two filters in a row keep what the conjunction keeps. */
  lemma {:induction false} FilterTwice<T(!new)>(s: seq<T>, p: T -> bool, q: T -> bool, pq: T -> bool)
    requires forall x :: pq(x) == (p(x) && q(x))
    ensures Filter(Filter(s, p), q) == Filter(s, pq)
    decreases |s|
  {
    if |s| > 0 {
      FilterTwice(s[1..], p, q, pq);
    }
  }

  /** Filtering a derived column is filtering the rows it is derived from. */
  lemma {:induction false} FilterMapped<A(!new), B(!new)>(s: seq<A>, f: A -> B, q: B -> bool, qf: A -> bool)
    requires forall x :: qf(x) == q(f(x))
    ensures Filter(MapSeq(f, s), q) == MapSeq(f, Filter(s, qf))
    decreases |s|
  {
    if |s| > 0 {
      FilterMapped(s[1..], f, q, qf);
      assert MapSeq(f, s)[1..] == MapSeq(f, s[1..]);
    }
  }

  predicate CustomerAndInvoice(l: Line) { HasCustomer(l) && NotCancelled(l) }
  predicate Eligible(l: Line) { CustomerAndInvoice(l) && PositiveAmounts(l) }
  predicate TotalBelowLimit(l: Line) { BelowOutlierLimit(WithTotal(l)) }

  /** The pipeline as written, one filter after another with TotalAmount
      added before the outlier filter, keeps exactly the rows of the
      one-test reference. */
  lemma StepwiseCleaning(rows: seq<Line>)
    ensures Filter(MapSeq(WithTotal, Filter(Filter(Filter(rows, HasCustomer), NotCancelled), PositiveAmounts)),
                   BelowOutlierLimit)
            == CleanRows(rows)
  {
    var r1 := Filter(rows, HasCustomer);
    var r2 := Filter(r1, NotCancelled);
    var r3 := Filter(r2, PositiveAmounts);
    FilterTwice(rows, HasCustomer, NotCancelled, CustomerAndInvoice);
    assert r2 == Filter(rows, CustomerAndInvoice);
    FilterTwice(rows, CustomerAndInvoice, PositiveAmounts, Eligible);
    assert r3 == Filter(rows, Eligible);
    FilterMapped(r3, WithTotal, BelowOutlierLimit, TotalBelowLimit);
    assert forall x :: Keep(x) == (Eligible(x) && TotalBelowLimit(x));
    FilterTwice(rows, Eligible, TotalBelowLimit, Keep);
  }

  /** The columns the pipeline reads, in the order it reads them. */
  const Required: seq<string> := ["CustomerID", "InvoiceNo", "Quantity", "UnitPrice", "InvoiceDate"]

  /** The first required column the table lacks. */
  function FirstMissing(cols: seq<string>): (r: Option<string>)
    ensures r.None? <==> forall c :: c in Required ==> c in cols
    ensures r.Some? ==> r.value in Required && r.value !in cols
    ensures r.Some? ==> exists k :: 0 <= k < |Required| && Required[k] == r.value
                                   && forall j :: 0 <= j < k ==> Required[j] in cols
  {
    if "CustomerID" !in cols then Some("CustomerID")
    else if "InvoiceNo" !in cols then Some("InvoiceNo")
    else if "Quantity" !in cols then Some("Quantity")
    else if "UnitPrice" !in cols then Some("UnitPrice")
    else if "InvoiceDate" !in cols then Some("InvoiceDate")
    else None
  }

  /** The columns whose duplication makes the pipeline raise; a duplicated
      CustomerID only feeds `dropna` and `nunique`, which accept a table. */
  const SingleUse: seq<string> := ["InvoiceNo", "Quantity", "UnitPrice", "InvoiceDate"]

  /** The first column problem the pipeline runs into, in the order of its
      reads: CustomerID at the `dropna`, InvoiceNo at the cancellation
      filter, Quantity and UnitPrice at the amount filter, both again at
      the TotalAmount product, and InvoiceDate at the date conversion. */
  function ColumnProblem(cols: seq<string>): (r: Option<CleanError>)
    ensures r.None? <==> FirstMissing(cols).None? && forall c :: c in SingleUse ==> multiset(cols)[c] <= 1
    ensures (forall c :: c in SingleUse ==> multiset(cols)[c] <= 1) && FirstMissing(cols).Some? ==>
      r == Some(MissingColumn(FirstMissing(cols).value))
    ensures r.Some? && r.value.MissingColumn? ==> r.value.name in Required && r.value.name !in cols
    ensures r.Some? && r.value.DuplicateColumn? ==> r.value.name in SingleUse && multiset(cols)[r.value.name] >= 2
    ensures r.Some? ==> r.value.MissingColumn? || r.value.DuplicateColumn?
  {
    if "CustomerID" !in cols then Some(MissingColumn("CustomerID"))
    else if "InvoiceNo" !in cols then Some(MissingColumn("InvoiceNo"))
    else if multiset(cols)["InvoiceNo"] > 1 then Some(DuplicateColumn("InvoiceNo"))
    else if "Quantity" !in cols then Some(MissingColumn("Quantity"))
    else if "UnitPrice" !in cols then Some(MissingColumn("UnitPrice"))
    else if multiset(cols)["Quantity"] > 1 then Some(DuplicateColumn("Quantity"))
    else if multiset(cols)["UnitPrice"] > 1 then Some(DuplicateColumn("UnitPrice"))
    else if "InvoiceDate" !in cols then Some(MissingColumn("InvoiceDate"))
    else if multiset(cols)["InvoiceDate"] > 1 then Some(DuplicateColumn("InvoiceDate"))
    else None
  }

  /** `Date` and `InvoiceDate` both become InvoiceDate. */
  lemma DateAndInvoiceDateCollide()
    ensures Standardized(["Date", "InvoiceDate"]) == ["InvoiceDate", "InvoiceDate"]
  {
    DateIsRenamed();
    CanonicalIdempotent("Date");
  }

  /** `Date` is first listed at entry 24, which renames it to InvoiceDate. */
  lemma DateIsRenamed()
    ensures Canonical("Date") == "InvoiceDate"
  {
    assert ColumnMapping[24].0 == "Date";
    assert forall j :: 0 <= j < 12 ==> ColumnMapping[j].0 != "Date" by {
      KeysNotDate(0, 12);
    }
    assert forall j :: 12 <= j < 24 ==> ColumnMapping[j].0 != "Date" by {
      KeysNotDate(12, 24);
    }
    assert FirstKey(ColumnMapping, |ColumnMapping|, "Date") == Some(24);
  }

  lemma KeysNotDate(lo: nat, hi: nat)
    requires lo <= hi <= 24
    ensures forall j :: lo <= j < hi ==> ColumnMapping[j].0 != "Date"
  {
    forall j | lo <= j < hi ensures ColumnMapping[j].0 != "Date" {
      assert |ColumnMapping[j].0| != 4 || ColumnMapping[j].0[1] != 'a';
    }
  }

  /** A table left with two InvoiceDate columns cannot be cleaned. */
  lemma DuplicateDateFails()
    ensures ColumnProblem(["InvoiceDate", "InvoiceDate", "InvoiceNo", "CustomerID", "Quantity", "UnitPrice"])
      == Some(DuplicateColumn("InvoiceDate"))
  {
    var cols := ["InvoiceDate", "InvoiceDate", "InvoiceNo", "CustomerID", "Quantity", "UnitPrice"];
    assert multiset(cols)["InvoiceDate"] == 2;
  }

  /** The columns after cleaning: TotalAmount is added at the end unless
      already there. */
  function CleanColumns(cols: seq<string>): (r: seq<string>)
    ensures "TotalAmount" in r
    ensures forall c :: c in cols ==> c in r
    ensures |r| <= |cols| + 1
  {
    if "TotalAmount" in cols then cols else cols + ["TotalAmount"]
  }

  /** The loader: the path it reads and the table it currently holds. */
  class DataLoader {
    const filepath: string
    var df: Option<Frame>

    constructor (filepath: string)
      ensures this.filepath == filepath && df == None
    {
      this.filepath := filepath;
      df := None;
    }

    /** Renames every column listed in the mapping, entry by entry. Without
        a table there is nothing to rename and it fails. */
    method StandardizeColumns() returns (res: Result<Frame, LoadError>)
      modifies this
      ensures old(df).None? ==> res == Failure(NotLoaded) && df == None
      ensures old(df).Some? ==>
        df == Some(old(df).value.(columns := Standardized(old(df).value.columns)))
        && res == Success(df.value)
    {
      if df.None? {
        return Failure(NotLoaded);
      }
      ghost var orig := df.value.columns;
      var i := 0;
      while i < |ColumnMapping|
        invariant 0 <= i <= |ColumnMapping|
        invariant df.Some? && df.value == old(df).value.(columns := df.value.columns)
        invariant df.value.columns == RenamedAll(ColumnMapping, i, orig)
      {
        RenameStep(ColumnMapping, i, orig);
        var (oldName, newName) := ColumnMapping[i];
        if oldName in df.value.columns && oldName != newName {
          df := Some(df.value.(columns := RenameColumn(df.value.columns, oldName, newName)));
        }
        i := i + 1;
      }
      forall k | 0 <= k < |orig| ensures df.value.columns[k] == Standardized(orig)[k] {
        SequentialIsCanonical(orig[k]);
      }
      assert df.value.columns == Standardized(orig);
      res := Success(df.value);
    }

    /** Reads the file with the reader its suffix selects and standardises
        the column names; `read` stands for the file reading itself. */
    method LoadData(read: (Reader, string) -> Frame) returns (res: Result<Frame, LoadError>)
      modifies this
      ensures ReaderFor(filepath).Failure? ==> res == Failure(UnsupportedFile) && df == old(df)
      ensures ReaderFor(filepath).Success? ==>
        var raw := read(ReaderFor(filepath).value, filepath);
        df == Some(raw.(columns := Standardized(raw.columns))) && res == Success(df.value)
    {
      var reader := ReaderFor(filepath);
      if reader.Failure? {
        return Failure(UnsupportedFile);
      }
      df := Some(read(reader.value, filepath));
      res := StandardizeColumns();
    }

    /** Drops rows without a customer, cancelled invoices, non-positive
        quantities or prices, adds TotalAmount and drops the outliers; the
        cleaned table replaces `df`. A failure leaves `df` alone. */
    method CleanData() returns (res: Result<Frame, CleanError>)
      modifies this
      ensures old(df).None? ==> res == Failure(NoData) && df == old(df)
      ensures old(df).Some? && ColumnProblem(old(df).value.columns).Some? ==>
        res == Failure(ColumnProblem(old(df).value.columns).value) && df == old(df)
      ensures old(df).Some? && ColumnProblem(old(df).value.columns).None? ==>
        var cleaned := Frame(CleanColumns(old(df).value.columns), CleanRows(old(df).value.rows));
        res == Success(cleaned) && df == Some(cleaned)
    {
      if df.None? {
        return Failure(NoData);
      }
      var frame := df.value;
      var problem := ColumnProblem(frame.columns);
      if problem.Some? {
        return Failure(problem.value);
      }
      var rows := frame.rows;
      rows := Filter(rows, HasCustomer);
      rows := Filter(rows, NotCancelled);
      rows := Filter(rows, PositiveAmounts);
      rows := MapSeq(WithTotal, rows);
      rows := Filter(rows, BelowOutlierLimit);
      StepwiseCleaning(frame.rows);
      var cleaned := Frame(CleanColumns(frame.columns), rows);
      df := Some(cleaned);
      res := Success(cleaned);
    }
  }
}
