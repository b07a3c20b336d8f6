/**
  The admin orders report (`OrdersReport.jsx`): the address of the report and
  of its CSV export, built by appending query parameters to a base address.
  Dates come from the date pickers and are written as dayjs `YYYY-MM-DD`.
*/
module OrdersReport {
  import opened Wrappers
  import opened Text
  import opened Js

  const Base := "https://shasthomeds-backend.onrender.com/api/orders-report/"

  datatype Day = Day(year: nat, month: nat, day: nat)

  /**
    A date picker's value: `null` until a date is chosen, an invalid dayjs
    while the typed text is not a date yet, or a day.  Only `null` is falsy.
  */
  datatype DatePicker = NoDate | BadDate | On(day: Day)

  /** A calendar day the pickers can produce, with a four-digit year. */
  predicate ValidDay(d: Day) {
    d.year < 10000 && 1 <= d.month <= 12 && 1 <= d.day <= 31
  }

  /** dayjs `format("YYYY-MM-DD")`. */
  function FormatDay(d: Day): (s: string)
    requires ValidDay(d)
    ensures |s| == 10 && s[4] == '-' && s[7] == '-'
  {
    Pad4(d.year) + "-" + Pad2(d.month) + "-" + Pad2(d.day)
  }

  /** Reading a `YYYY-MM-DD` date back: four, two and two digits between dashes. */
  function ParseDay(s: string): (r: Option<Day>)
    ensures r.Some? ==> |s| == 10
  {
    if |s| == 10 && s[4] == '-' && s[7] == '-' && AllDigits(s[..4]) && AllDigits(s[5..7]) && AllDigits(s[8..])
    then Some(Day(ParseDigits(s[..4]), ParseDigits(s[5..7]), ParseDigits(s[8..])))
    else None
  }

  /** A date written into the address reads back as the same date. */
  lemma FormatParseDay(d: Day)
    requires ValidDay(d)
    ensures ParseDay(FormatDay(d)) == Some(d)
  {
    var s := FormatDay(d);
    Pad4Parse(d.year);
    Pad2Parse(d.month);
    Pad2Parse(d.day);
    assert s[..4] == Pad4(d.year);
    assert s[5..7] == Pad2(d.month);
    assert s[8..] == Pad2(d.day);
  }

  predicate PickerValid(p: DatePicker) {
    p.On? ==> ValidDay(p.day)
  }

  /** `format("YYYY-MM-DD")` of a picker that is set: an invalid date renders as "Invalid Date". */
  function DayText(p: DatePicker): (s: string)
    requires PickerValid(p) && !p.NoDate?
    ensures p.On? ==> s == FormatDay(p.day)
    ensures p.BadDate? ==> |s| == 12 && ParseDay(s).None?
  {
    if p.On? then FormatDay(p.day) else InvalidDateText(); InvalidDate
  }

  predicate DatesUsed(filter: string, start: DatePicker, end: DatePicker) {
    filter == "custom" && !start.NoDate? && !end.NoDate?
  }

  /** The start and end dates, present only for a custom range with both pickers set. */
  function DateParams(filter: string, start: DatePicker, end: DatePicker): (p: string)
    requires PickerValid(start) && PickerValid(end)
    ensures p == "" <==> !DatesUsed(filter, start, end)
  {
    if DatesUsed(filter, start, end)
    then "&start_date=" + DayText(start) + "&end_date=" + DayText(end)
    else ""
  }

  /** The first template of the address: base and filter, with the export flag for the CSV. */
  function StartOfAddress(filter: string, csv: bool): string {
    if csv then Base + "?filter=" + filter + "&export=csv" else Base + "?filter=" + filter
  }

  /** Characters a set picker takes in the address: ten for a day, twelve for "Invalid Date". */
  function DayWidth(p: DatePicker): nat {
    if p.BadDate? then 12 else 10
  }

  /** The address as a whole: the first template, then the dates when they are used. */
  function ReportAddress(filter: string, start: DatePicker, end: DatePicker, csv: bool): (a: string)
    requires PickerValid(start) && PickerValid(end)
    ensures |a| == |Base| + 8 + |filter| + (if csv then 11 else 0)
      + (if DatesUsed(filter, start, end) then 22 + DayWidth(start) + DayWidth(end) else 0)
  {
    StartOfAddress(filter, csv) + DateParams(filter, start, end)
  }

  /** The address `fetchReport` requests; the date template is built whole and then appended. */
  method FetchReportUrl(filter: string, start: DatePicker, end: DatePicker) returns (url: string)
    requires PickerValid(start) && PickerValid(end)
    ensures url == ReportAddress(filter, start, end, false)
  {
    url := Base + "?filter=" + filter;
    if filter == "custom" && !start.NoDate? && !end.NoDate? {
      url := url + ("&start_date=" + DayText(start) + "&end_date=" + DayText(end));
    }
  }

  /** The address `downloadCSV` opens. */
  method DownloadCsvUrl(filter: string, start: DatePicker, end: DatePicker) returns (url: string)
    requires PickerValid(start) && PickerValid(end)
    ensures url == ReportAddress(filter, start, end, true)
  {
    url := Base + "?filter=" + filter + "&export=csv";
    if filter == "custom" && !start.NoDate? && !end.NoDate? {
      url := url + ("&start_date=" + DayText(start) + "&end_date=" + DayText(end));
    }
  }

  /** Every address starts with the base and the filter. */
  lemma AddressStartsWithFilter(filter: string, start: DatePicker, end: DatePicker, csv: bool)
    requires PickerValid(start) && PickerValid(end)
    ensures var prefix := Base + "?filter=" + filter;
      |prefix| <= |ReportAddress(filter, start, end, csv)|
      && ReportAddress(filter, start, end, csv)[..|prefix|] == prefix
  {
    var prefix := Base + "?filter=" + filter;
    var first := StartOfAddress(filter, csv);
    var dates := DateParams(filter, start, end);
    PrefixOfAppend(prefix, if csv then "&export=csv" else "");
    PrefixOfAppend(first, dates);
    assert (first + dates)[..|prefix|] == (first + dates)[..|first|][..|prefix|];
  }

  lemma PrefixOfAppend(a: string, b: string)
    ensures (a + b)[..|a|] == a
  {
  }

  /** The CSV address is the report address with "&export=csv" inserted before the dates. */
  lemma CsvAddressAddsExport(filter: string, start: DatePicker, end: DatePicker)
    requires PickerValid(start) && PickerValid(end)
    ensures var dates := DateParams(filter, start, end);
      ReportAddress(filter, start, end, false) == Base + "?filter=" + filter + dates
      && ReportAddress(filter, start, end, true) == Base + "?filter=" + filter + "&export=csv" + dates
  {
  }

  /** Any filter other than "custom" ignores the chosen dates. */
  lemma OtherFiltersIgnoreDates(filter: string, s1: DatePicker, e1: DatePicker, s2: DatePicker, e2: DatePicker, csv: bool)
    requires filter != "custom"
    requires PickerValid(s1) && PickerValid(e1) && PickerValid(s2) && PickerValid(e2)
    ensures ReportAddress(filter, s1, e1, csv) == ReportAddress(filter, s2, e2, csv) == Base + "?filter=" + filter
      + (if csv then "&export=csv" else "")
  {
  }

  /** For a custom range, the address ends with both dates, each of which reads back unchanged. */
  lemma CustomRangeCarriesDates(start: Day, end: Day, csv: bool)
    requires ValidDay(start) && ValidDay(end)
    ensures var p := DateParams("custom", On(start), On(end));
      var a := ReportAddress("custom", On(start), On(end), csv);
      |p| == 42 && |a| >= 42 && a[|a| - 42..] == p
      && p[..12] == "&start_date=" && p[22..32] == "&end_date="
      && ParseDay(p[12..22]) == Some(start) && ParseDay(p[32..]) == Some(end)
  {
    var p := DateParams("custom", On(start), On(end));
    var fs, fe := DayText(On(start)), DayText(On(end));
    assert p == "&start_date=" + fs + "&end_date=" + fe;
    assert p[12..22] == fs;
    assert p[32..] == fe;
    var a := ReportAddress("custom", On(start), On(end), csv);
    assert a == StartOfAddress("custom", csv) + p;
    assert a[|a| - 42..] == p;
    FormatParseDay(start);
    FormatParseDay(end);
  }

  /**
    A start picker holding an invalid date still counts as chosen: the
    address carries "start_date=Invalid Date", which is not a day.
  */
  lemma InvalidStartSentAsText(end: DatePicker)
    requires PickerValid(end) && !end.NoDate?
    ensures var p := DateParams("custom", BadDate, end);
      |p| >= 24 && p[..12] == "&start_date=" && p[12..24] == InvalidDate && ParseDay(p[12..24]).None?
  {
    var p := DateParams("custom", BadDate, end);
    var fs := DayText(BadDate);
    assert p == "&start_date=" + fs + "&end_date=" + DayText(end);
    assert p[12..24] == fs;
  }
}
