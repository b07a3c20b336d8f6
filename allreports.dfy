/**
  The admin sales-report page (`AllReports.jsx`): the month search, the guard
  in front of the downloads, and the CSV export.  The month label
  (`toLocaleString` with a long month and a numeric year) and the amounts
  rendered by `toFixed(2)` are taken as given strings.
*/
module SalesCsv {
  import opened Wrappers
  import opened Text

  /** One product line of a report: its name, units sold and rendered profit. */
  datatype ProductLine = ProductLine(product: string, quantity: nat, profit: string)

  /**
    A monthly report as the page reads it.  `details` is empty when
    `products_details` is missing or empty.
  */
  datatype MonthReport = MonthReport(monthLabel: string, totalOrders: nat, totalProfit: string, details: seq<ProductLine>)

  const Headers: seq<string> := ["Month", "Total Orders", "Total Profits", "Product Name", "Quantity Sold", "Product Profit"]

  // ---------------------------------------------------------------------------
  // Quoting, as in section 2 of RFC 4180
  // ---------------------------------------------------------------------------

  /** `replace(/"/g, '""')` */
  function DoubleQuotes(s: string): (r: string)
    ensures |r| >= |s|
  {
    if s == [] then []
    else (if s[0] == '"' then "\"\"" else [s[0]]) + DoubleQuotes(s[1..])
  }

  /** The field wrapped in double quotes, each quote inside written twice. */
  function Quote(s: string): (r: string)
    ensures |r| >= 2 && r[0] == '"' && r[|r| - 1] == '"'
  {
    "\"" + DoubleQuotes(s) + "\""
  }

  /** Reading the inside of a quoted field: `""` stands for `"`; a lone `"` is malformed. */
  function Undouble(t: string): (r: Option<string>)
  {
    if t == [] then Some([])
    else if t[0] != '"' then
      match Undouble(t[1..])
      case Some(rest) => Some([t[0]] + rest)
      case None => None
    else if |t| >= 2 && t[1] == '"' then
      match Undouble(t[2..])
      case Some(rest) => Some("\"" + rest)
      case None => None
    else None
  }

  /** Reading a quoted field back. */
  function Unquote(f: string): (r: Option<string>) {
    if |f| >= 2 && f[0] == '"' && f[|f| - 1] == '"' then Undouble(f[1..|f| - 1]) else None
  }

  lemma {:induction false} UndoubleDouble(s: string)
    ensures Undouble(DoubleQuotes(s)) == Some(s)
  {
    if s != [] {
      UndoubleDouble(s[1..]);
      var t := DoubleQuotes(s);
      if s[0] == '"' {
        assert t == "\"\"" + DoubleQuotes(s[1..]);
        assert t[2..] == DoubleQuotes(s[1..]);
        assert "\"" + s[1..] == s;
      } else {
        assert t == [s[0]] + DoubleQuotes(s[1..]);
        assert t[1..] == DoubleQuotes(s[1..]);
        assert [s[0]] + s[1..] == s;
      }
    }
  }

  /** A product name written into the CSV reads back unchanged, whatever quotes or commas it holds. */
  lemma QuoteRoundTrip(s: string)
    ensures Unquote(Quote(s)) == Some(s)
  {
    var f := Quote(s);
    assert f[1..|f| - 1] == DoubleQuotes(s);
    UndoubleDouble(s);
  }

  // ---------------------------------------------------------------------------
  // The rows
  // ---------------------------------------------------------------------------

  /** No column name holds a comma or a line break. */
  lemma HeadersHaveNoSeparators()
    ensures forall h :: h in Headers ==> ',' !in h && '\n' !in h
  {
    LettersOnly("Month");
    LettersOnly("Total Orders");
    LettersOnly("Total Profits");
    LettersOnly("Product Name");
    LettersOnly("Quantity Sold");
    LettersOnly("Product Profit");
  }

  /** A name made of letters and spaces holds neither separator. */
  lemma LettersOnly(h: string)
    requires forall i :: 0 <= i < |h| ==> h[i] == ' ' || 'A' <= h[i] <= 'z'
    ensures ',' !in h && '\n' !in h
  {
  }

  /** The header row: it splits back into the six column names and holds no line break. */
  function HeaderRow(): (h: string)
    ensures Split(h, ',') == Headers
    ensures '\n' !in h
  {
    HeadersHaveNoSeparators();
    SplitJoinRoundTrip(Headers, ',');
    JoinAvoids(Headers, ",", '\n');
    Join(Headers, ",")
  }

  /**
    The month cell: the label between double quotes.  Inner quotes are not
    doubled, so the cell is the RFC 4180 quoting of the label, and reads back
    as the label, exactly when the label holds no quote.
  */
  function MonthCell(r: MonthReport): (cell: string)
    ensures '"' !in r.monthLabel ==> cell == Quote(r.monthLabel) && Unquote(cell) == Some(r.monthLabel)
  {
    DoubleQuotesNoQuote(r.monthLabel);
    QuoteRoundTrip(r.monthLabel);
    "\"" + r.monthLabel + "\""
  }

  /** Doubling the quotes of a string without quotes changes nothing. */
  lemma {:induction false} DoubleQuotesNoQuote(s: string)
    ensures '"' !in s ==> DoubleQuotes(s) == s
  {
    if s != [] && '"' !in s {
      DoubleQuotesNoQuote(s[1..]);
      assert [s[0]] + s[1..] == s;
    }
  }

  /** No report field that the row builders copy holds a comma. */
  predicate CommaFree(r: MonthReport) {
    ',' !in r.monthLabel && ',' !in r.totalProfit
  }

  /**
    The row of a report without product lines: split at the commas it gives
    back the month cell, the order count, the profit and three empty fields.
  */
  function SummaryRow(r: MonthReport): (row: string)
    ensures CommaFree(r) ==>
      var f := Split(row, ',');
      |f| == 6 && f[0] == MonthCell(r) && AllDigits(f[1]) && ParseDigits(f[1]) == r.totalOrders
      && f[2] == r.totalProfit && f[3] == "" && f[4] == "" && f[5] == ""
  {
    var cells := [MonthCell(r), NatToString(r.totalOrders), r.totalProfit, "", "", ""];
    NatToStringRoundTrip(r.totalOrders);
    assert ',' !in NatToString(r.totalOrders);
    SplitJoinWhenFree(cells, ',');
    Join(cells, ",")
  }

  /**
    The row of one product line: split at the commas it gives back the
    report's three cells and the line's quoted name, units and profit; the
    name reads back unchanged, quotes included.
  */
  function ProductRow(r: MonthReport, p: ProductLine): (row: string)
    ensures CommaFree(r) && ',' !in p.product && ',' !in p.profit ==>
      var f := Split(row, ',');
      |f| == 6 && f[0] == MonthCell(r) && AllDigits(f[1]) && ParseDigits(f[1]) == r.totalOrders && f[2] == r.totalProfit
      && Unquote(f[3]) == Some(p.product) && AllDigits(f[4]) && ParseDigits(f[4]) == p.quantity && f[5] == p.profit
  {
    var cells := [MonthCell(r), NatToString(r.totalOrders), r.totalProfit, Quote(p.product), NatToString(p.quantity), p.profit];
    NatToStringRoundTrip(r.totalOrders);
    NatToStringRoundTrip(p.quantity);
    assert ',' !in NatToString(r.totalOrders) && ',' !in NatToString(p.quantity);
    DoubleQuotesNoComma(p.product);
    QuoteRoundTrip(p.product);
    SplitJoinWhenFree(cells, ',');
    Join(cells, ",")
  }

  /** Doubling adds quotes only, so a comma-free name gives a comma-free field. */
  lemma {:induction false} DoubleQuotesNoComma(s: string)
    ensures ',' !in s ==> ',' !in DoubleQuotes(s)
  {
    if s != [] && ',' !in s {
      DoubleQuotesNoComma(s[1..]);
    }
  }

  /** The rows one report contributes. */
  function RowsOf(r: MonthReport): (rows: seq<string>)
    ensures |rows| == if r.details == [] then 1 else |r.details|
  {
    if r.details == [] then [SummaryRow(r)] else ProductRows(r, r.details)
  }

  function ProductRows(r: MonthReport, ps: seq<ProductLine>): (rows: seq<string>)
    ensures |rows| == |ps| && forall k :: 0 <= k < |ps| ==> rows[k] == ProductRow(r, ps[k])
  {
    if ps == [] then [] else ProductRows(r, ps[..|ps| - 1]) + [ProductRow(r, ps[|ps| - 1])]
  }

  /** The data rows of several reports, report after report. */
  function DataRows(data: seq<MonthReport>): seq<string> {
    if data == [] then [] else DataRows(data[..|data| - 1]) + RowsOf(data[|data| - 1])
  }

  /** `Σ max(1, |details|)` */
  function RowCount(data: seq<MonthReport>): nat {
    if data == [] then 0
    else RowCount(data[..|data| - 1]) + (if data[|data| - 1].details == [] then 1 else |data[|data| - 1].details|)
  }

  lemma {:induction false} DataRowsCount(data: seq<MonthReport>)
    ensures |DataRows(data)| == RowCount(data)
  {
    if data != [] {
      DataRowsCount(data[..|data| - 1]);
    }
  }

  /** One more report adds its own rows after those of the reports before it. */
  lemma DataRowsStep(data: seq<MonthReport>, k: nat)
    requires k < |data|
    ensures DataRows(data[..k + 1]) == DataRows(data[..k]) + RowsOf(data[k])
  {
    assert data[..k + 1][..k] == data[..k];
  }

  lemma ProductRowsStep(r: MonthReport, ps: seq<ProductLine>, i: nat)
    requires i < |ps|
    ensures ProductRows(r, ps[..i + 1]) == ProductRows(r, ps[..i]) + [ProductRow(r, ps[i])]
  {
    assert ps[..i + 1][..i] == ps[..i];
  }

  /**
    `downloadCSV(data)` up to the file: the header row, then for each report
    either its summary row or one row per product line, in order.
  */
  method CsvRows(data: seq<MonthReport>) returns (csvRows: seq<string>)
    ensures csvRows == [HeaderRow()] + DataRows(data)
  {
    csvRows := PushReports([HeaderRow()], data);
  }

  /** The outer `forEach`: each report's rows pushed after the rows already there. */
  method PushReports(before: seq<string>, data: seq<MonthReport>) returns (csvRows: seq<string>)
    ensures csvRows == before + DataRows(data)
  {
    csvRows := before;
    for k := 0 to |data|
      invariant csvRows == before + DataRows(data[..k])
    {
      csvRows := PushReportRows(csvRows, data[k]);
      DataRowsStep(data, k);
      AppendAssoc(before, DataRows(data[..k]), RowsOf(data[k]));
    }
    assert data[..|data|] == data;
  }

  /** The outer `forEach` callback: the summary row, or the rows of the product lines. */
  method PushReportRows(before: seq<string>, report: MonthReport) returns (csvRows: seq<string>)
    ensures csvRows == before + RowsOf(report)
  {
    if report.details == [] {
      csvRows := before + [SummaryRow(report)];
    } else {
      csvRows := PushProductRows(before, report);
    }
  }

  /** The inner `forEach`: one row per product line of the report, pushed in order. */
  method PushProductRows(before: seq<string>, report: MonthReport) returns (csvRows: seq<string>)
    ensures csvRows == before + ProductRows(report, report.details)
  {
    csvRows := before;
    var i := 0;
    while i < |report.details|
      invariant 0 <= i <= |report.details|
      invariant csvRows == before + ProductRows(report, report.details[..i])
    {
      ProductRowsStep(report, report.details, i);
      AppendAssoc(before, ProductRows(report, report.details[..i]), [ProductRow(report, report.details[i])]);
      csvRows := csvRows + [ProductRow(report, report.details[i])];
      i := i + 1;
    }
    assert report.details[..i] == report.details;
  }

  /**
    The text of the export: the rows joined by line breaks.  When no data row
    holds a line break, splitting the text at line breaks gives the header
    and the data rows back.
  */
  function CsvText(data: seq<MonthReport>): (t: string)
    ensures (forall row :: row in DataRows(data) ==> '\n' !in row) ==>
      Split(t, '\n') == [HeaderRow()] + DataRows(data)
  {
    var rows := [HeaderRow()] + DataRows(data);
    SplitJoinWhenFree(rows, '\n');
    Join(rows, "\n")
  }

  /**
    What the export holds: a first row that splits at "," into exactly the six
    headers, and one row per product line or one per report without any.
  */
  lemma CsvShape(data: seq<MonthReport>)
    ensures var rows := [HeaderRow()] + DataRows(data);
      Split(rows[0], ',') == Headers && |rows| == 1 + RowCount(data)
  {
    DataRowsCount(data);
    assert forall h :: h in Headers ==> ',' !in h;
    SplitJoinRoundTrip(Headers, ',');
  }

  /** A report with no product lines gives one row ending in three empty fields. */
  lemma SummaryRowEndsEmpty(r: MonthReport)
    requires r.details == []
    ensures RowsOf(r) == [SummaryRow(r)]
    ensures var row := SummaryRow(r);
      |row| >= 3 && row[|row| - 3..] == ",,,"
  {
    var cells := [MonthCell(r), NatToString(r.totalOrders), r.totalProfit, "", "", ""];
    assert cells[3..] == ["", "", ""] && cells[3..][1..] == ["", ""] && cells[3..][1..][1..] == [""];
    assert Join(cells[3..][1..][1..], ",") == "";
    assert Join(cells[3..][1..], ",") == "" + "," + "";
    var j3 := Join(cells[3..], ",");
    assert j3 == "" + "," + ",";
    assert cells[2..][1..] == cells[3..] && cells[1..][1..] == cells[2..];
    var j2 := Join(cells[2..], ",");
    assert j2 == r.totalProfit + ",,,";
    var j1 := Join(cells[1..], ",");
    assert j1 == NatToString(r.totalOrders) + "," + j2;
    var row := SummaryRow(r);
    assert row == MonthCell(r) + "," + j1;
    assert row == (MonthCell(r) + "," + NatToString(r.totalOrders) + "," + r.totalProfit) + ",,,";
  }

  // ---------------------------------------------------------------------------
  // Search and download
  // ---------------------------------------------------------------------------

  /** `handleSearch`: the reports whose label, lower-cased, contains the lower-cased query; the selection is cleared. */
  function Search(reports: seq<MonthReport>, query: string): (r: (seq<MonthReport>, Option<MonthReport>))
    ensures r.1.None?
    ensures forall x :: x in r.0 <==> x in reports && Contains(Lower(x.monthLabel), Lower(query))
    ensures |r.0| <= |reports|
  {
    (Matching(reports, Lower(query)), None)
  }

  function Matching(reports: seq<MonthReport>, q: string): (r: seq<MonthReport>)
    ensures forall x :: x in r <==> x in reports && Contains(Lower(x.monthLabel), q)
    ensures |r| <= |reports|
  {
    if reports == [] then []
    else (if Contains(Lower(reports[0].monthLabel), q) then [reports[0]] else []) + Matching(reports[1..], q)
  }

  /** The search keeps the table order: filtering a concatenation is filtering each part. */
  lemma {:induction false} MatchingAppend(a: seq<MonthReport>, b: seq<MonthReport>, q: string)
    ensures Matching(a + b, q) == Matching(a, q) + Matching(b, q)
  {
    if a == [] {
      assert a + b == b;
    } else {
      var head, rest := a[0], a[1..];
      assert (a + b)[0] == head && (a + b)[1..] == rest + b;
      MatchingAppend(rest, b, q);
      var kept := if Contains(Lower(head.monthLabel), q) then [head] else [];
      assert Matching(a + b, q) == kept + Matching(rest + b, q);
      assert Matching(a, q) == kept + Matching(rest, q);
      AppendAssoc(kept, Matching(rest, q), Matching(b, q));
    }
  }

  /** A one-element list is kept exactly when its element passes the filter. */
  lemma MatchingOne(x: MonthReport, q: string)
    ensures Matching([x], q) == if Contains(Lower(x.monthLabel), q) then [x] else []
  {
    assert [x][1..] == [];
  }

  /** An empty search keeps every report. */
  lemma {:induction false} EmptySearchKeepsAll(reports: seq<MonthReport>)
    ensures Search(reports, "").0 == reports
  {
    if reports != [] {
      ContainsEmpty(Lower(reports[0].monthLabel));
      EmptySearchKeepsAll(reports[1..]);
      assert Lower("") == "";
      assert [reports[0]] + reports[1..] == reports;
    }
  }

  datatype Download = NoData | Csv(text: string) | Pdf | Nothing

  /**
    `handleDownload(format)`: nothing to download is refused with an alert;
    otherwise the chosen format is produced (the PDF is not modelled) and the
    menu closes.  The second component says whether the menu is still open.
  */
  function HandleDownload(filtered: seq<MonthReport>, format: string, menuOpen: bool): (r: (Download, bool))
    ensures r.0 == NoData <==> filtered == []
    ensures filtered == [] ==> r.1 == menuOpen
    ensures filtered != [] ==> !r.1
    ensures filtered != [] && format == "csv" ==> r.0 == Csv(CsvText(filtered))
  {
    if filtered == [] then (NoData, menuOpen)
    else if format == "csv" then (Csv(CsvText(filtered)), false)
    else if format == "pdf" then (Pdf, false)
    else (Nothing, false)
  }
}
