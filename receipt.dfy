/**
 * The printable sale receipt: an HTML page titled by the receipt number, with a header
 * (store, receipt number, date, cashier, payment method), one table row per item, the
 * totals, and the cash-received and change rows for cash sales only. Number formatting
 * (`toLocaleString('id-ID')`), the date text and the fixed stylesheet are parameters.
 */
module Receipt {
  import opened Common
  import opened Text

  /** The sale fields the receipt reads; nullable columns are `Option`s. */
  datatype ReceiptSale = ReceiptSale(
    receiptNo: string,
    cashierName: Option<string>,
    paymentMethod: Option<string>,
    subtotal: Option<int>,
    total: Option<int>,
    cashReceived: Option<int>,
    changeAmount: Option<int>)

  datatype ReceiptItem = ReceiptItem(productName: string, itemType: string, price: Option<int>, qty: int, lineTotal: Option<int>)

  const DefaultStoreName := "TOKO IJA PLASTIK"

  /** `fmt(n)`: `Number(n || 0)` rendered by the locale formatter `format`. */
  function Fmt(format: int -> string, n: Option<int>): string
  {
    format(n.GetOr(0))
  }

  /** The "Tunai" and "Kembalian" rows, present only when the method is exactly `cash`. */
  function CashBlock(sale: ReceiptSale, format: int -> string): (r: string)
    ensures r != "" <==> sale.paymentMethod == Some("cash")
    ensures sale.paymentMethod == Some("cash") ==>
      r == LineBreak + TunaiRow(Fmt(format, sale.cashReceived)) + (LineBreak + KembalianRow(Fmt(format, sale.changeAmount)) + BlockClose)
  {
    if sale.paymentMethod == Some("cash") then
      LineBreak + TunaiRow(Fmt(format, sale.cashReceived)) + (LineBreak + KembalianRow(Fmt(format, sale.changeAmount)) + BlockClose)
    else ""
  }

  const LineBreak := "\n      "
  const BlockClose := "\n    "

  function TunaiRow(cash: string): string
  {
    "<tr><td>Tunai</td><td class=\"val\">" + cash + "</td></tr>"
  }

  function KembalianRow(change: string): string
  {
    "<tr><td>Kembalian</td><td class=\"val\">" + change + "</td></tr>"
  }

  /** `(pack)` for a pack line, `(unit)` for anything else. */
  function TypeLabel(it: ReceiptItem): (r: string)
    ensures r == "(pack)" <==> it.itemType == "pack"
    ensures r == "(unit)" <==> it.itemType != "pack"
  {
    if it.itemType == "pack" then "(pack)" else "(unit)"
  }

  function NameLine(it: ReceiptItem): string
  {
    "<div class=\"name\">" + it.productName + " " + TypeLabel(it) + "</div>"
  }

  /** One item's table row. */
  function ItemRow(it: ReceiptItem, format: int -> string): (r: string)
    ensures r != []
  {
    RowOpen + NameLine(it) + RowRest(it, format)
  }

  const RowOpen := "\n      <tr class=\"item\">\n        <td>\n          "

  /** The unit price, quantity and line total of an item row. */
  function RowRest(it: ReceiptItem, format: int -> string): string
  {
    "\n          <div class=\"meta\">" + Fmt(format, it.price) + " × " + IntToString(it.qty)
      + "</div>\n        </td>\n        <td class=\"val\">" + Fmt(format, it.lineTotal) + "</td>\n      </tr>\n    "
  }

  /** `items.map(...)`. */
  function ItemRows(items: seq<ReceiptItem>, format: int -> string): (r: seq<string>)
    ensures |r| == |items|
    ensures forall i :: 0 <= i < |r| ==> r[i] == ItemRow(items[i], format)
  {
    seq(|items|, i requires 0 <= i < |items| => ItemRow(items[i], format))
  }

  const NoItemsRow := "<tr><td class=\"muted\">Tidak ada item</td><td></td></tr>"

  /** `rows || fallback`: the joined rows, or the fallback row when they are empty. */
  function TableBody(items: seq<ReceiptItem>, format: int -> string): (r: string)
    ensures items == [] ==> r == NoItemsRow
    ensures items != [] ==> r == Join(ItemRows(items, format), "")
  {
    var rows := Join(ItemRows(items, format), "");
    JoinEmptyIff(ItemRows(items, format));
    if rows == "" then NoItemsRow else rows
  }

  /** `sale.cashier_name || '-'`. */
  function CashierName(sale: ReceiptSale): (r: string)
    ensures r != ""
    ensures sale.cashierName.Some? && sale.cashierName.value != "" ==> r == sale.cashierName.value
  {
    if sale.cashierName.None? || sale.cashierName.value == "" then "-" else sale.cashierName.value
  }

  /** `String(sale.payment_method || '').toUpperCase()`. */
  function MethodLabel(sale: ReceiptSale): string
  {
    ToUpper(sale.paymentMethod.GetOr(""))
  }

  function TitleTag(receiptNo: string): string
  {
    "<title>" + receiptNo + "</title>"
  }

  function ReceiptLine(receiptNo: string): string
  {
    "<div class=\"muted\">Receipt: " + receiptNo + "</div>"
  }

  function CashierLine(sale: ReceiptSale): string
  {
    "<div class=\"muted\">Kasir: " + CashierName(sale) + "</div>"
  }

  function MethodLine(sale: ReceiptSale): string
  {
    "<div class=\"muted\">Metode: " + MethodLabel(sale) + "</div>"
  }

  // The fixed text between the template's placeholders.
  const PageOpen := "\n<!DOCTYPE html>\n<html>\n<head>\n  <meta charset=\"utf-8\" />\n  "
  const StyleOpen := "\n  <style>\n"
  const StyleClose := "  </style>\n</head>\n<body>\n  <div class=\"wrap\">\n    <div class=\"center\">\n      <h3>"
  const HeaderOpen := "</h3>\n      "
  const DateOpen := "\n      <div class=\"muted\">"
  const DateClose := "</div>\n      "
  const ItemsOpen := "\n    </div>\n\n    <hr/>\n\n    <table>\n      <tbody>\n        "
  const TotalsOpen := "\n      </tbody>\n    </table>\n\n    <hr/>\n\n    <table class=\"totals\">\n      <tbody>\n        <tr><td>Subtotal</td><td class=\"val\">"
  const TotalOpen := "</td></tr>\n        <tr class=\"grand\"><td>Total</td><td class=\"val\">"
  const TotalClose := "</td></tr>\n        "
  const PageClose := "\n      </tbody>\n    </table>\n\n    <div class=\"footer\">Terima kasih \U{1F64F}</div>\n  </div>\n</body>\n</html>\n  "

  /** The template's pieces in order; the page is their concatenation. */
  function Pieces(
    sale: ReceiptSale, items: seq<ReceiptItem>, format: int -> string, dateText: string,
    storeName: Option<string>, style: string): (r: seq<string>)
    ensures |r| == 13
  {
    [ PageOpen,
      TitleTag(sale.receiptNo),
      StyleOpen + style + StyleClose + (if storeName.None? || storeName.value == "" then DefaultStoreName else storeName.value) + HeaderOpen,
      ReceiptLine(sale.receiptNo),
      DateOpen + dateText + DateClose,
      CashierLine(sale),
      LineBreak,
      MethodLine(sale),
      ItemsOpen,
      TableBody(items, format),
      TotalsOpen + Fmt(format, sale.subtotal) + TotalOpen + Fmt(format, sale.total) + TotalClose,
      CashBlock(sale, format),
      PageClose ]
  }

  /** `saleToHTML(sale, items)`. */
  function SaleToHtml(
    sale: ReceiptSale, items: seq<ReceiptItem>, format: int -> string, dateText: string,
    storeName: Option<string>, style: string): string
  {
    Join(Pieces(sale, items, format, dateText, storeName, style), "")
  }

  /** Each piece of the template is on the page. */
  lemma PieceOnPage(
    sale: ReceiptSale, items: seq<ReceiptItem>, format: int -> string, dateText: string,
    storeName: Option<string>, style: string, k: int)
    requires 0 <= k < 13
    ensures Contains(SaleToHtml(sale, items, format, dateText, storeName, style),
      Pieces(sale, items, format, dateText, storeName, style)[k])
  {
    JoinContains(Pieces(sale, items, format, dateText, storeName, style), "", k);
  }

  /** The receipt number appears twice: in the page title and in the header. */
  lemma ReceiptNumberShown(
    sale: ReceiptSale, items: seq<ReceiptItem>, format: int -> string, dateText: string,
    storeName: Option<string>, style: string)
    ensures var html := SaleToHtml(sale, items, format, dateText, storeName, style);
      Contains(html, TitleTag(sale.receiptNo)) && Contains(html, ReceiptLine(sale.receiptNo))
  {
    PieceOnPage(sale, items, format, dateText, storeName, style, 1);
    PieceOnPage(sale, items, format, dateText, storeName, style, 3);
  }

  /** The header names the cashier, or "-" when there is none. */
  lemma CashierShown(
    sale: ReceiptSale, items: seq<ReceiptItem>, format: int -> string, dateText: string,
    storeName: Option<string>, style: string)
    ensures var html := SaleToHtml(sale, items, format, dateText, storeName, style);
      Contains(html, CashierLine(sale))
  {
    PieceOnPage(sale, items, format, dateText, storeName, style, 5);
  }

  /** The header names the payment method, upper-cased. */
  lemma MethodShown(
    sale: ReceiptSale, items: seq<ReceiptItem>, format: int -> string, dateText: string,
    storeName: Option<string>, style: string)
    ensures Contains(SaleToHtml(sale, items, format, dateText, storeName, style), MethodLine(sale))
  {
    PieceOnPage(sale, items, format, dateText, storeName, style, 7);
  }

  /** Every item has its row on the page, with its name and its `(pack)`/`(unit)` label. */
  lemma ReceiptListsItems(
    sale: ReceiptSale, items: seq<ReceiptItem>, format: int -> string, dateText: string,
    storeName: Option<string>, style: string, i: int)
    requires 0 <= i < |items|
    ensures var html := SaleToHtml(sale, items, format, dateText, storeName, style);
      Contains(html, ItemRow(items[i], format)) && Contains(html, NameLine(items[i]))
  {
    var ps := Pieces(sale, items, format, dateText, storeName, style);
    var html := Join(ps, "");
    JoinContains(ps, "", 9);
    JoinContains(ItemRows(items, format), "", i);
    ContainsTrans(html, TableBody(items, format), ItemRow(items[i], format));
    ContainsMiddle(RowOpen, NameLine(items[i]), RowRest(items[i], format));
    ContainsTrans(html, ItemRow(items[i], format), NameLine(items[i]));
  }

  /** With no items the table holds the "Tidak ada item" row. */
  lemma EmptyReceiptShowsFallback(
    sale: ReceiptSale, format: int -> string, dateText: string, storeName: Option<string>, style: string)
    ensures Contains(SaleToHtml(sale, [], format, dateText, storeName, style), NoItemsRow)
  {
    JoinContains(Pieces(sale, [], format, dateText, storeName, style), "", 9);
  }

  /** The cash block of a cash sale holds both of its rows. */
  lemma CashBlockRows(sale: ReceiptSale, format: int -> string)
    requires sale.paymentMethod == Some("cash")
    ensures Contains(CashBlock(sale, format), TunaiRow(Fmt(format, sale.cashReceived)))
    ensures Contains(CashBlock(sale, format), KembalianRow(Fmt(format, sale.changeAmount)))
  {
    var tunai, kembalian := TunaiRow(Fmt(format, sale.cashReceived)), KembalianRow(Fmt(format, sale.changeAmount));
    ContainsMiddle(LineBreak, tunai, LineBreak + kembalian + BlockClose);
    ContainsMiddle(LineBreak + tunai + LineBreak, kembalian, BlockClose);
    assert CashBlock(sale, format) == LineBreak + tunai + LineBreak + kembalian + BlockClose;
  }

  /** A cash sale shows the cash received and the change. */
  lemma CashReceiptShowsChange(
    sale: ReceiptSale, items: seq<ReceiptItem>, format: int -> string, dateText: string,
    storeName: Option<string>, style: string)
    requires sale.paymentMethod == Some("cash")
    ensures var html := SaleToHtml(sale, items, format, dateText, storeName, style);
      && Contains(html, TunaiRow(Fmt(format, sale.cashReceived)))
      && Contains(html, KembalianRow(Fmt(format, sale.changeAmount)))
  {
    var ps := Pieces(sale, items, format, dateText, storeName, style);
    var html := Join(ps, "");
    JoinContains(ps, "", 11);
    CashBlockRows(sale, format);
    ContainsTrans(html, CashBlock(sale, format), TunaiRow(Fmt(format, sale.cashReceived)));
    ContainsTrans(html, CashBlock(sale, format), KembalianRow(Fmt(format, sale.changeAmount)));
  }

  /**
   * Any other payment method leaves the cash block empty: the page is the same as for
   * a sale without cash received or change.
   */
  lemma NonCashReceiptIgnoresCash(
    sale: ReceiptSale, items: seq<ReceiptItem>, format: int -> string, dateText: string,
    storeName: Option<string>, style: string)
    requires sale.paymentMethod != Some("cash")
    ensures SaleToHtml(sale, items, format, dateText, storeName, style)
      == SaleToHtml(sale.(cashReceived := None, changeAmount := None), items, format, dateText, storeName, style)
  {
    var s' := sale.(cashReceived := None, changeAmount := None);
    assert Pieces(sale, items, format, dateText, storeName, style) == Pieces(s', items, format, dateText, storeName, style);
  }
}
