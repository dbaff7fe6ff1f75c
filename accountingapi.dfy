/**
 * The aged-receivable report endpoint (src/services/accountingApi.ts): the
 * search parameters of its request and the transformation of the report
 * payload into invoice entries.
 */
module AccountingApi {
  import opened Wrappers
  import opened JsStrings

  /* ---------------------------------------------------------------- */
  /*                         Request parameters                       */
  /* ---------------------------------------------------------------- */

  datatype AgedReceivableDetailParams = AgedReceivableDetailParams(
    realmId: string,
    reportDate: string,    // YYYY-MM-DD
    startDueDate: string,  // YYYY-MM-DD
    endDueDate: string,    // YYYY-MM-DD
    columns: Option<string>)

  /** `columns` is added only when it is truthy: present and not empty. */
  predicate HasColumns(p: AgedReceivableDetailParams) {
    p.columns.Some? && p.columns.value != ""
  }

  predicate HasKey(query: seq<(string, string)>, key: string) {
    exists i :: 0 <= i < |query| && query[i].0 == key
  }

  /** The search parameters, in the order they are appended: the three dates
      always, `columns` only when it is supplied and not empty. */
  function QueryParams(p: AgedReceivableDetailParams): (query: seq<(string, string)>)
    ensures |query| == if HasColumns(p) then 4 else 3
    ensures query[0] == ("report_date", p.reportDate)
    ensures query[1] == ("start_due_date", p.startDueDate)
    ensures query[2] == ("end_due_date", p.endDueDate)
    ensures HasKey(query, "columns") <==> HasColumns(p)
    ensures HasColumns(p) ==> query[3] == ("columns", p.columns.value)
  {
    var dates := [("report_date", p.reportDate), ("start_due_date", p.startDueDate),
                  ("end_due_date", p.endDueDate)];
    assert !HasKey(dates, "columns") by {
      assert "report_date"[0] != "columns"[0];
      assert "start_due_date"[0] != "columns"[0];
      assert "end_due_date"[0] != "columns"[0];
    }
    if HasColumns(p) then
      var query := dates + [("columns", p.columns.value)];
      assert query[3].0 == "columns";
      query
    else dates
  }

  /* ---------------------------------------------------------------- */
  /*                          Report payload                          */
  /* ---------------------------------------------------------------- */

  /** One report row: the `value` of each of its `ColData` cells (a row
      without cells has an empty sequence). */
  datatype ReportRow = ReportRow(colData: seq<string>)

  /** `Rows`, whose `Row` list may be missing. */
  datatype ReportRows = ReportRows(row: Option<seq<ReportRow>>)

  /** The payload, whose `Rows` may be missing. */
  datatype Report = Report(rows: Option<ReportRows>)

  /** A JavaScript number: a finite value, or `NaN` or an infinity. */
  datatype Number = Finite(value: real) | NonFinite

  /** The entry the endpoint yields for each invoice. */
  datatype InvoiceEntry = InvoiceEntry(customer: string, dueDate: string, openBalance: Number)

  /** Reading a cell of a row that has fewer than three cells raises an
      exception, which fails the whole transformation. */
  datatype TransformError = MissingCell(rowIndex: nat)

  /** The payload's row list, empty when `Rows` or `Row` is missing. */
  function RowList(raw: Report): (rows: seq<ReportRow>)
    ensures raw.rows.None? ==> rows == []
    ensures raw.rows.Some? && raw.rows.value.row.None? ==> rows == []
    ensures raw.rows.Some? && raw.rows.value.row.Some? ==> rows == raw.rows.value.row.value
  {
    match raw.rows
    case None => []
    case Some(section) =>
      match section.row
      case None => []
      case Some(rows) => rows
  }

  /** The customer's name: the text before the first colon (all of it when
      there is none), trimmed. */
  function NormalizeCustomer(customerRaw: string): (customer: string)
    ensures ':' !in customer
    ensures customer == [] || (!IsWhitespace(customer[0]) && !IsWhitespace(customer[|customer| - 1]))
    ensures ':' !in customerRaw ==> customer == Trim(customerRaw)
  {
    var name := NamePart(customerRaw);
    TrimAbsent(name, ':');
    Trim(name)
  }

  /** The raw name before the first colon, all of it when there is none. */
  function NamePart(customerRaw: string): (name: string)
    ensures ':' !in name
    ensures ':' !in customerRaw ==> name == customerRaw
  {
    if ':' in customerRaw then Split(customerRaw, ':')[0] else customerRaw
  }

  /** With a colon, the name is the text before the first colon, trimmed. */
  lemma NormalizeCustomerBeforeColon(customerRaw: string)
    requires ':' in customerRaw
    ensures NormalizeCustomer(customerRaw) == Trim(customerRaw[..IndexOf(customerRaw, ':')])
  {
    SplitFirst(customerRaw, ':');
  }

  /** A normalised name normalises to itself. */
  lemma NormalizeCustomerIdempotent(customerRaw: string)
    ensures NormalizeCustomer(NormalizeCustomer(customerRaw)) == NormalizeCustomer(customerRaw)
  {
  }

  /** The balance text with its thousands separators removed, ready for
      `parseFloat`. */
  function StripCommas(balance: string): (digits: string)
    ensures ',' !in digits
    ensures |digits| == |balance| - Count(balance, ',')
  {
    RemoveAll(balance, ',')
  }

  /** One data row as an entry: the normalised customer from the first cell,
      the due date from the second, unchanged, and the balance parsed from
      the third without its commas; `parseFloat` is the host's number
      parser. */
  function TransformRow(row: ReportRow, parseFloat: string -> Number): (e: InvoiceEntry)
    requires |row.colData| >= 3
    ensures e.customer == NormalizeCustomer(row.colData[0]) && ':' !in e.customer
    ensures e.dueDate == row.colData[1]
    ensures e.openBalance == parseFloat(StripCommas(row.colData[2]))
  {
    InvoiceEntry(
      NormalizeCustomer(row.colData[0]),
      row.colData[1],
      parseFloat(StripCommas(row.colData[2])))
  }

  /** Every row from index `from` on has its three cells. */
  predicate WellFormedFrom(rows: seq<ReportRow>, from: nat) {
    forall i :: from <= i < |rows| ==> |rows[i].colData| >= 3
  }

  /** The first row from index `from` on that lacks one of its three cells:
      the row at which the mapping raises. */
  function FirstMissingCell(rows: seq<ReportRow>, from: nat): (i: nat)
    requires from <= |rows| && !WellFormedFrom(rows, from)
    ensures from <= i < |rows| && |rows[i].colData| < 3
    ensures forall j :: from <= j < i ==> |rows[j].colData| >= 3
    decreases |rows| - from
  {
    if |rows[from].colData| < 3 then from else FirstMissingCell(rows, from + 1)
  }

  /** The endpoint's `transformResponse`: the first three rows (the report's
      heading rows) are dropped and every other row becomes an entry, in
      order. */
  function TransformResponse(raw: Report, parseFloat: string -> Number)
    : (r: Result<seq<InvoiceEntry>, TransformError>)
    ensures |RowList(raw)| <= 3 ==> r == Success([])
    ensures r.Success? <==> WellFormedFrom(RowList(raw), 3)
    ensures r.Success? ==> |r.value| == if |RowList(raw)| <= 3 then 0 else |RowList(raw)| - 3
    ensures r.Success? ==> forall i :: 0 <= i < |r.value| ==>
              r.value[i] == TransformRow(RowList(raw)[i + 3], parseFloat)
    ensures r.Failure? ==> 3 <= r.error.rowIndex < |RowList(raw)|
                           && |RowList(raw)[r.error.rowIndex].colData| < 3
                           && forall j :: 3 <= j < r.error.rowIndex ==> |RowList(raw)[j].colData| >= 3
  {
    var rows := RowList(raw);
    if |rows| <= 3 then Success([])
    else if !WellFormedFrom(rows, 3) then Failure(MissingCell(FirstMissingCell(rows, 3)))
    else Success(TransformRows(rows[3..], parseFloat))
  }

  /** Every row of `rows` as an entry, in order. */
  function TransformRows(rows: seq<ReportRow>, parseFloat: string -> Number): (entries: seq<InvoiceEntry>)
    requires WellFormedFrom(rows, 0)
    ensures |entries| == |rows|
    ensures forall i :: 0 <= i < |rows| ==> entries[i] == TransformRow(rows[i], parseFloat)
  {
    seq(|rows|, i requires 0 <= i < |rows| && |rows[i].colData| >= 3 => TransformRow(rows[i], parseFloat))
  }
}
