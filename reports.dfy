/**
 * The cashier report: both the JSON and the CSV variant require a date range, filter on
 * it (whole days) and, when a non-zero cashier id is given, on the cashier; the JSON
 * variant pages its rows. Each row counts a sale's items and the base units they sold.
 * The CSV variant writes a fixed header and one fully quoted record per row.
 */
module Reports {
  import opened Common
  import opened Text
  import opened Tables
  import opened Pagination
  import opened Csv
  import opened Sales
  import opened Sql

  // ---------------------------------------------------------------- filter arguments

  datatype ReportError = DatesRequired

  /** A placeholder argument of the report queries. */
  datatype SqlArg = Text(s: string) | Num(n: int)

  datatype ReportFilter = ReportFilter(conditions: seq<Condition>, args: seq<SqlArg>)

  /** `cashier_id ? Number(cashier_id) : null`, then `if (cashierId)`: only a non-zero id filters. */
  function CashierOf(cashierParam: Option<int>): (r: Option<int>)
    ensures r.Some? <==> cashierParam.Some? && cashierParam.value != 0
    ensures r.Some? ==> r == cashierParam
  {
    if cashierParam.Some? && cashierParam.value != 0 then cashierParam else None
  }

  /**
   * The `where`/`args` pair both report handlers build. `df`, `dt` and `cashierParam`
   * are the query values, `None` when missing or empty.
   */
  method BuildFilter(df: Option<string>, dt: Option<string>, cashierParam: Option<int>)
    returns (r: Result<ReportFilter, ReportError>)
    ensures r.Err? <==> df.None? || df.value == "" || dt.None? || dt.value == ""
    ensures r.Ok? ==> TotalArity(r.value.conditions) == |r.value.args|
    ensures r.Ok? ==> (|r.value.conditions| >= 1 && r.value.conditions[0] == CreatedBetween
      && |r.value.args| >= 2 && r.value.args[..2] == [Text(df.value + " 00:00:00"), Text(dt.value + " 23:59:59")])
    ensures r.Ok? ==> (CashierIs in r.value.conditions <==> CashierOf(cashierParam).Some?)
    ensures r.Ok? && CashierOf(cashierParam).Some? ==>
      r.value.args == [Text(df.value + " 00:00:00"), Text(dt.value + " 23:59:59"), Num(cashierParam.value)]
    ensures r.Ok? && CashierOf(cashierParam).None? ==> |r.value.args| == 2
  {
    if df.None? || df.value == "" || dt.None? || dt.value == "" {
      return Err(DatesRequired);
    }
    var conditions := [CreatedBetween];
    var args := [Text(df.value + " 00:00:00"), Text(dt.value + " 23:59:59")];
    assert TotalArity(conditions) == 2 by {
      assert conditions[..0] == [];
    }
    var cashierId := if cashierParam.Some? then cashierParam.value else 0;
    if cashierId != 0 {
      assert (conditions + [CashierIs])[..1] == conditions;
      conditions := conditions + [CashierIs];
      args := args + [Num(cashierId)];
    }
    r := Ok(ReportFilter(conditions, args));
  }

  /** The data query of the JSON report: the filter, the clamped page and its arguments. */
  datatype PageQuery = PageQuery(filter: ReportFilter, page: Page, dataArgs: seq<SqlArg>)

  /** `cashierReport` up to its queries: the data query takes LIMIT and OFFSET last. */
  method CashierReportQuery(
    df: Option<string>, dt: Option<string>, cashierParam: Option<int>, page: Option<int>, limit: Option<int>)
    returns (r: Result<PageQuery, ReportError>)
    ensures r.Err? <==> df.None? || df.value == "" || dt.None? || dt.value == ""
    ensures r.Ok? ==> r.value.page == ClampPage(page, limit)
    ensures r.Ok? ==> r.value.dataArgs == r.value.filter.args + [Num(r.value.page.limit), Num(r.value.page.offset)]
    ensures r.Ok? ==> |r.value.dataArgs| == TotalArity(r.value.filter.conditions) + 2
    ensures r.Ok? ==> (CashierIs in r.value.filter.conditions <==> CashierOf(cashierParam).Some?)
  {
    var p := ClampPage(page, limit);
    var f := BuildFilter(df, dt, cashierParam);
    if f.Err? {
      return Err(f.error);
    }
    r := Ok(PageQuery(f.value, p, f.value.args + [Num(p.limit), Num(p.offset)]));
  }

  // ---------------------------------------------------------------- units sold

  /**
   * One sale item's share of `units_sold`: qty × pack_size for a pack line, qty for a
   * unit line. The LEFT JOIN leaves `pack_size` NULL for a product that no longer
   * exists, and SUM skips NULL, so such a pack line adds nothing.
   */
  function LineUnitsSold(item: SaleItem, products: map<int, Product>): (r: int)
    ensures item.itemType == Unit ==> r == item.qty
    ensures item.itemType == Pack && item.productId in products ==> r == item.qty * products[item.productId].packSize
    ensures item.itemType == Pack && item.productId !in products ==> r == 0
  {
    if item.itemType == Pack then
      if item.productId in products then item.qty * products[item.productId].packSize else 0
    else item.qty
  }

  /** `units_sold` of sale `saleId`. */
  function UnitsSold(items: seq<SaleItem>, saleId: int, products: map<int, Product>): (r: int)
    ensures (forall i :: 0 <= i < |items| ==> items[i].saleId != saleId) ==> r == 0
  {
    if items == [] then 0
    else
      var here := if items[0].saleId == saleId then LineUnitsSold(items[0], products) else 0;
      here + UnitsSold(items[1..], saleId, products)
  }

  /** `item_count`: `COUNT(si.id)` for sale `saleId`. */
  function ItemCount(items: seq<SaleItem>, saleId: int): (r: nat)
    ensures r <= |items|
  {
    if items == [] then 0
    else (if items[0].saleId == saleId then 1 else 0) + ItemCount(items[1..], saleId)
  }

  /** The units a run of movements moved. */
  function MovedUnits(ms: seq<Movement>): int
  {
    if ms == [] then 0 else ms[0].qtyUnits + MovedUnits(ms[1..])
  }

  /**
   * For a sale as `createSale` records it, and while its products keep their pack
   * sizes, the report counts one item per line and exactly the units the sale's `out`
   * movements took from stock.
   */
  lemma {:induction false} UnitsSoldMatchesLedger(lines: seq<PricedLine>, saleId: int, products: map<int, Product>)
    requires forall i :: 0 <= i < |lines| ==>
      lines[i].productId in products && products[lines[i].productId].packSize == lines[i].packSize
    ensures UnitsSold(SaleRows(lines, saleId), saleId, products) == MovedUnits(SaleMovements(lines, saleId))
    ensures ItemCount(SaleRows(lines, saleId), saleId) == |lines|
    decreases |lines|
  {
    if lines != [] {
      UnitsSoldMatchesLedger(lines[1..], saleId, products);
    }
  }

  /** Rows of other sales change neither count. */
  lemma {:induction false} OtherSalesIgnored(items: seq<SaleItem>, others: seq<SaleItem>, saleId: int, products: map<int, Product>)
    requires forall i :: 0 <= i < |others| ==> others[i].saleId != saleId
    ensures UnitsSold(others + items, saleId, products) == UnitsSold(items, saleId, products)
    ensures ItemCount(others + items, saleId) == ItemCount(items, saleId)
    decreases |others|
  {
    if others != [] {
      assert (others + items)[1..] == others[1..] + items;
      OtherSalesIgnored(items, others[1..], saleId, products);
    } else {
      assert others + items == items;
    }
  }

  // ---------------------------------------------------------------- rows and CSV

  /** A row of the report as both handlers select it. */
  datatype ReportRow = ReportRow(
    receiptNo: string,
    createdAt: string,
    cashierName: string,
    itemCount: int,
    unitsSold: int,
    subtotal: int,
    total: int,
    payment: string)

  function PaymentName(m: PaymentMethod): string
  {
    match m
    case Cash => "cash"
    case Qris => "qris"
    case Card => "card"
  }

  /**
   * The report row of sale `saleId`; `createdAt` is its timestamp as text. The inner
   * JOIN on `users` drops a sale whose cashier is NULL or no longer exists.
   */
  function RowOf(
    saleId: int, s: Sale, users: map<int, User>, items: seq<SaleItem>, products: map<int, Product>,
    createdAt: string): (r: Option<ReportRow>)
    ensures r.Some? <==> s.cashierId.Some? && s.cashierId.value in users
    ensures r.Some? ==> (r.value.cashierName == users[s.cashierId.value].name
      && r.value.itemCount == ItemCount(items, saleId) && r.value.unitsSold == UnitsSold(items, saleId, products)
      && r.value.receiptNo == s.receiptNo && r.value.payment == PaymentName(s.paymentMethod))
  {
    if s.cashierId.None? || s.cashierId.value !in users then None
    else Some(ReportRow(s.receiptNo, createdAt, users[s.cashierId.value].name, ItemCount(items, saleId),
      UnitsSold(items, saleId, products), s.subtotal, s.total, PaymentName(s.paymentMethod)))
  }

  /** The first line the CSV report writes: the column names joined by commas. */
  const HeaderLine: string := "receipt_no,tanggal,kasir,items,units_sold,subtotal,total,payment\n"

  /** `String(v)` of each column, in header order. */
  function RowFields(r: ReportRow): (f: seq<string>)
    ensures |f| == 8
  {
    [r.receiptNo, r.createdAt, r.cashierName, IntToString(r.itemCount), IntToString(r.unitsSold),
     IntToString(r.subtotal), IntToString(r.total), r.payment]
  }

  /** The text `cashierReportCsv` writes for one row, newline included. */
  function CsvLine(r: ReportRow): string
  {
    Record(RowFields(r)) + "\n"
  }

  /** Each written line ends in a newline, and the record before it reads back as the row's fields. */
  lemma CsvLineReadsBack(r: ReportRow)
    ensures var line := CsvLine(r);
      |line| > 0 && line[|line| - 1] == '\n' && ParseRecord(line[..|line| - 1]) == Some(RowFields(r))
  {
    var rec := Record(RowFields(r));
    assert CsvLine(r)[..|CsvLine(r)| - 1] == rec;
    RecordRoundTrip(RowFields(r));
  }

  /**
   * The `res.write` sequence of `cashierReportCsv`: the header line, then one record per
   * row. Every record reads back, by the RFC 4180 reader, as the row's eight fields.
   */
  method CashierCsv(rows: seq<ReportRow>) returns (out: seq<string>)
    ensures |out| == |rows| + 1
    ensures out[0] == HeaderLine
    ensures forall i :: 0 <= i < |rows| ==> out[i + 1] == CsvLine(rows[i])
    ensures forall i :: 1 <= i < |out| ==>
      |out[i]| > 0 && out[i][|out[i]| - 1] == '\n' && ParseRecord(out[i][..|out[i]| - 1]) == Some(RowFields(rows[i - 1]))
  {
    out := [HeaderLine];
    for i := 0 to |rows|
      invariant |out| == i + 1
      invariant out[0] == HeaderLine
      invariant forall k :: 0 <= k < i ==> out[k + 1] == CsvLine(rows[k])
    {
      out := out + [CsvLine(rows[i])];
    }
    forall i | 1 <= i < |out|
      ensures |out[i]| > 0 && out[i][|out[i]| - 1] == '\n' && ParseRecord(out[i][..|out[i]| - 1]) == Some(RowFields(rows[i - 1]))
    {
      CsvLineReadsBack(rows[i - 1]);
    }
  }
}
