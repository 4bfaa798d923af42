/**
 * `createSale`: validate the cart, price every line from the product table, settle the
 * payment, then debit stock line by line inside one transaction, recording a sale item
 * and an outgoing stock movement per line. Any failure rolls the transaction back; after
 * the commit every distinct product the sale touched goes through the stock-status
 * notifier, in the order the products were first met.
 */
module Sales {
  import opened Common
  import opened Text
  import opened Tables
  import opened Ledger
  import opened StockAlertService

  /** One cart line as the request body gives it; a `productId` of 0 is a missing id. */
  datatype LineRequest = LineRequest(productId: int, itemType: string, qty: int)

  datatype SaleRequest = SaleRequest(
    items: seq<LineRequest>,
    paymentMethod: Option<string>,
    customerName: Option<string>,
    cashReceived: Option<int>)

  /** The 400 answers of `createSale`. */
  datatype SaleError =
    | EmptyItems
    | ProductIdRequired
    | BadItemType
    | BadQty
    | ProductNotFound(productId: int)
    | BadPaymentMethod
    | CashRequired
    | CashShort
    | InsufficientStock(productName: string)

  // ---------------------------------------------------------------- validation

  predicate ValidLine(l: LineRequest)
  {
    l.productId != 0 && (l.itemType == "unit" || l.itemType == "pack") && l.qty > 0
  }

  /** The first of the three per-line checks that fails, in the order they are made. */
  function LineError(l: LineRequest): Option<SaleError>
  {
    if l.productId == 0 then Some(ProductIdRequired)
    else if l.itemType != "unit" && l.itemType != "pack" then Some(BadItemType)
    else if l.qty <= 0 then Some(BadQty)
    else None
  }

  /** The error of the first invalid line, if any. */
  function FirstLineError(items: seq<LineRequest>): (r: Option<SaleError>)
    ensures r.None? <==> forall i :: 0 <= i < |items| ==> ValidLine(items[i])
    ensures r.Some? ==> (exists i :: (0 <= i < |items| && r == LineError(items[i])
      && !ValidLine(items[i]) && forall j :: 0 <= j < i ==> ValidLine(items[j])))
  {
    if items == [] then None
    else if LineError(items[0]).Some? then LineError(items[0])
    else
      var rest := FirstLineError(items[1..]);
      assert forall j :: 1 <= j < |items| ==> items[j] == items[1..][j - 1];
      if rest.Some? then
        var k :| 0 <= k < |items[1..]| && rest == LineError(items[1..][k])
          && !ValidLine(items[1..][k]) && forall j :: 0 <= j < k ==> ValidLine(items[1..][j]);
        assert items[k + 1] == items[1..][k];
        rest
      else rest
  }

  /** The validation done before the transaction opens. */
  function ValidateItems(items: seq<LineRequest>): (r: Option<SaleError>)
    ensures r.None? <==> items != [] && forall i :: 0 <= i < |items| ==> ValidLine(items[i])
    ensures items == [] ==> r == Some(EmptyItems)
  {
    if items == [] then Some(EmptyItems) else FirstLineError(items)
  }

  /** The validation loop. */
  method ValidateLines(items: seq<LineRequest>) returns (err: Option<SaleError>)
    ensures err == ValidateItems(items)
  {
    if |items| == 0 {
      return Some(EmptyItems);
    }
    for i := 0 to |items|
      invariant FirstLineError(items) == FirstLineError(items[i..])
    {
      assert items[i..][0] == items[i] && items[i..][1..] == items[i + 1..];
      var e := LineError(items[i]);
      if e.Some? {
        return e;
      }
    }
    assert items[|items|..] == [];
    return None;
  }

  // ---------------------------------------------------------------- pricing

  function ItemTypeOf(s: string): ItemType
  {
    if s == "pack" then Pack else Unit
  }

  /** A cart line with its product's data and price (an element of `priced`). */
  datatype PricedLine = PricedLine(
    productId: int,
    name: string,
    packSize: int,
    itemType: ItemType,
    qty: int,
    price: int,
    lineTotal: int)

  /** A pack is sold at the wholesale pack price, anything else at the retail unit price. */
  function PriceLine(p: Product, l: LineRequest): (r: PricedLine)
    ensures r.productId == l.productId && r.qty == l.qty && r.name == p.name && r.packSize == p.packSize
    ensures r.price == if l.itemType == "pack" then p.wholesalePricePerPack else p.retailPricePerUnit
    ensures r.lineTotal == r.price * r.qty
  {
    var price := if l.itemType == "pack" then p.wholesalePricePerPack else p.retailPricePerUnit;
    PricedLine(l.productId, p.name, p.packSize, ItemTypeOf(l.itemType), l.qty, price, price * l.qty)
  }

  /** Price every line, or name the first product that does not exist. */
  function PriceLines(products: map<int, Product>, items: seq<LineRequest>): (r: Result<seq<PricedLine>, SaleError>)
    ensures r.Ok? <==> forall i :: 0 <= i < |items| ==> items[i].productId in products
    ensures r.Ok? ==> (|r.value| == |items| &&
      forall i :: 0 <= i < |items| ==> r.value[i] == PriceLine(products[items[i].productId], items[i]))
    ensures r.Err? ==> (exists i :: (0 <= i < |items| && items[i].productId !in products
      && r.error == ProductNotFound(items[i].productId)
      && forall j :: 0 <= j < i ==> items[j].productId in products))
  {
    if items == [] then Ok([])
    else if items[0].productId !in products then Err(ProductNotFound(items[0].productId))
    else
      var rest := PriceLines(products, items[1..]);
      assert forall j :: 1 <= j < |items| ==> items[j] == items[1..][j - 1];
      if rest.Err? then
        var k :| 0 <= k < |items[1..]| && items[1..][k].productId !in products
          && rest.error == ProductNotFound(items[1..][k].productId)
          && forall j :: 0 <= j < k ==> items[1..][j].productId in products;
        assert items[k + 1] == items[1..][k];
        rest
      else Ok([PriceLine(products[items[0].productId], items[0])] + rest.value)
  }

  /** Σ line_total, summed in the order the lines are priced. */
  function Subtotal(lines: seq<PricedLine>): int
  {
    if lines == [] then 0 else Subtotal(lines[..|lines| - 1]) + lines[|lines| - 1].lineTotal
  }

  /** The pricing loop: it fills `priced` and accumulates `subtotal`. */
  method PriceCart(products: map<int, Product>, items: seq<LineRequest>)
    returns (r: Result<seq<PricedLine>, SaleError>, subtotal: int)
    ensures r == PriceLines(products, items)
    ensures r.Ok? ==> subtotal == Subtotal(r.value)
  {
    var priced: seq<PricedLine> := [];
    subtotal := 0;
    for i := 0 to |items|
      invariant |priced| == i
      invariant forall j :: 0 <= j < i ==>
        items[j].productId in products && priced[j] == PriceLine(products[items[j].productId], items[j])
      invariant subtotal == Subtotal(priced)
    {
      var it := items[i];
      if it.productId !in products {
        r := Err(ProductNotFound(it.productId));
        return;
      }
      var line := PriceLine(products[it.productId], it);
      subtotal := subtotal + line.lineTotal;
      assert (priced + [line])[..i] == priced;
      priced := priced + [line];
    }
    assert priced == PriceLines(products, items).value;
    r := Ok(priced);
  }

  // ---------------------------------------------------------------- payment

  /** `(payment_method || 'cash').toLowerCase()`. */
  function MethodName(pm: Option<string>): string
  {
    ToLower(if pm.None? || pm.value == "" then "cash" else pm.value)
  }

  function ParseMethod(s: string): Option<PaymentMethod>
  {
    if s == "cash" then Some(Cash)
    else if s == "qris" then Some(Qris)
    else if s == "card" then Some(Card)
    else None
  }

  datatype Payment = Payment(payMethod: PaymentMethod, cashReceived: Option<int>, change: int)

  /** Check the payment against the total and compute the change. */
  function Settle(pm: Option<string>, cash: Option<int>, total: int): (r: Result<Payment, SaleError>)
    ensures r.Ok? <==> (ParseMethod(MethodName(pm)).Some? &&
      (ParseMethod(MethodName(pm)) == Some(Cash) ==> cash.Some? && cash.value >= total))
    ensures r.Ok? ==> r.value.payMethod == ParseMethod(MethodName(pm)).value
    ensures r.Ok? && r.value.payMethod == Cash ==>
      r.value.cashReceived == cash && r.value.change == cash.value - total && r.value.change >= 0
    ensures r.Ok? && r.value.payMethod != Cash ==> r.value.cashReceived.None? && r.value.change == 0
    ensures r.Err? ==> r.error in {BadPaymentMethod, CashRequired, CashShort}
  {
    match ParseMethod(MethodName(pm))
    case None => Err(BadPaymentMethod)
    case Some(Cash) =>
      if cash.None? then Err(CashRequired)
      else if cash.value < total then Err(CashShort)
      else Ok(Payment(Cash, cash, cash.value - total))
    case Some(m) => Ok(Payment(m, None, 0))
  }

  /** With no method given the sale is a cash sale. */
  lemma MethodDefaultsToCash(cash: int, total: int)
    requires cash >= total
    ensures Settle(None, Some(cash), total) == Ok(Payment(Cash, Some(cash), cash - total))
    ensures Settle(Some(""), Some(cash), total) == Ok(Payment(Cash, Some(cash), cash - total))
  {
    assert ToLower("cash") == "cash";
  }

  /**
   * The method is matched case-insensitively: two given methods that lower-case alike
   * settle alike, so "QRIS" is a QRIS payment with no change.
   */
  lemma MethodIsCaseInsensitive(a: string, b: string, cash: Option<int>, total: int)
    requires a != "" && b != "" && ToLower(a) == ToLower(b)
    ensures Settle(Some(a), cash, total) == Settle(Some(b), cash, total)
    ensures Settle(Some("QRIS"), cash, total) == Ok(Payment(Qris, None, 0))
  {
    assert ToLower("QRIS") == "qris";
  }

  // ---------------------------------------------------------------- stock debit

  /**
   * The tables the debit loop writes, as the transaction sees them, and the product ids
   * added to `changedIds`, in insertion order.
   */
  datatype SaleBook = SaleBook(
    products: map<int, Product>,
    movements: seq<Movement>,
    saleItems: seq<SaleItem>,
    touched: seq<int>)

  /** Base units of a line: packs count `pack_size` units each. */
  function Units(l: PricedLine): int
  {
    if l.itemType == Pack then l.qty * l.packSize else l.qty
  }

  predicate Stocked(products: map<int, Product>, lines: seq<PricedLine>)
  {
    forall i :: 0 <= i < |lines| ==> lines[i].productId in products
  }

  /** The outgoing movement recorded for a line of sale `saleId`. */
  function SaleMovement(l: PricedLine, saleId: int): Movement
  {
    Movement(l.productId, Out, SaleOut, "sales", saleId, Units(l), "Sale")
  }

  function SaleRow(l: PricedLine, saleId: int): SaleItem
  {
    SaleItem(saleId, l.productId, l.itemType, l.qty, l.price, l.lineTotal)
  }

  /** The movements a run of lines records, one per line, in order. */
  function SaleMovements(lines: seq<PricedLine>, saleId: int): (r: seq<Movement>)
    ensures |r| == |lines|
  {
    if lines == [] then [] else [SaleMovement(lines[0], saleId)] + SaleMovements(lines[1..], saleId)
  }

  /** The sale items a run of lines records, one per line, in order. */
  function SaleRows(lines: seq<PricedLine>, saleId: int): (r: seq<SaleItem>)
    ensures |r| == |lines|
  {
    if lines == [] then [] else [SaleRow(lines[0], saleId)] + SaleRows(lines[1..], saleId)
  }

  /** The i-th recorded movement belongs to the i-th line. */
  lemma {:induction false} SaleMovementsAt(lines: seq<PricedLine>, saleId: int, i: int)
    requires 0 <= i < |lines|
    ensures SaleMovements(lines, saleId)[i] == SaleMovement(lines[i], saleId)
    decreases |lines|
  {
    if i > 0 {
      SaleMovementsAt(lines[1..], saleId, i - 1);
    }
  }

  /** The i-th recorded sale item belongs to the i-th line. */
  lemma {:induction false} SaleRowsAt(lines: seq<PricedLine>, saleId: int, i: int)
    requires 0 <= i < |lines|
    ensures SaleRows(lines, saleId)[i] == SaleRow(lines[i], saleId)
    decreases |lines|
  {
    if i > 0 {
      SaleRowsAt(lines[1..], saleId, i - 1);
    }
  }

  /** One iteration of the debit loop once the stock check has passed. */
  function DebitLine(b: SaleBook, l: PricedLine, saleId: int): SaleBook
    requires l.productId in b.products
  {
    var p := b.products[l.productId];
    SaleBook(
      b.products[l.productId := p.(stockUnits := p.stockUnits - Units(l))],
      b.movements + [SaleMovement(l, saleId)],
      b.saleItems + [SaleRow(l, saleId)],
      AddOnce(b.touched, l.productId))
  }

  /** The debit loop: a line that would take its product below zero aborts the sale. */
  function Debit(b: SaleBook, lines: seq<PricedLine>, saleId: int): (r: Result<SaleBook, SaleError>)
    requires Stocked(b.products, lines)
    ensures r.Ok? ==> r.value.products.Keys == b.products.Keys
    ensures r.Ok? ==> |r.value.movements| == |b.movements| + |lines| && |r.value.saleItems| == |b.saleItems| + |lines|
    ensures r.Err? ==> r.error.InsufficientStock?
    decreases |lines|
  {
    if lines == [] then Ok(b)
    else
      var l := lines[0];
      if b.products[l.productId].stockUnits - Units(l) < 0 then Err(InsufficientStock(l.name))
      else Debit(DebitLine(b, l, saleId), lines[1..], saleId)
  }

  /** Units the lines take from product `pid`. */
  function TotalUnits(lines: seq<PricedLine>, pid: int): int
  {
    if lines == [] then 0
    else (if lines[0].productId == pid then Units(lines[0]) else 0) + TotalUnits(lines[1..], pid)
  }

  /** Line `i` passes its stock check, so the debit of `lines[i..]` goes on with the next line. */
  lemma DebitStep(book: SaleBook, lines: seq<PricedLine>, i: int, saleId: int)
    requires 0 <= i < |lines| && Stocked(book.products, lines[i..])
    requires book.products[lines[i].productId].stockUnits - Units(lines[i]) >= 0
    ensures Stocked(DebitLine(book, lines[i], saleId).products, lines[i + 1..])
    ensures Debit(book, lines[i..], saleId) == Debit(DebitLine(book, lines[i], saleId), lines[i + 1..], saleId)
  {
    assert lines[i..][0] == lines[i] && lines[i..][1..] == lines[i + 1..];
  }

  /** The debit loop over `lines[i..]`, written as a method over local copies. */
  method DebitLines(b: SaleBook, lines: seq<PricedLine>, saleId: int) returns (r: Result<SaleBook, SaleError>)
    requires Stocked(b.products, lines)
    ensures r == Debit(b, lines, saleId)
  {
    var products, movements, rows, touched := b.products, b.movements, b.saleItems, b.touched;
    for i := 0 to |lines|
      invariant products.Keys == b.products.Keys
      invariant Debit(b, lines, saleId) == Debit(SaleBook(products, movements, rows, touched), lines[i..], saleId)
    {
      ghost var before := SaleBook(products, movements, rows, touched);
      var l := lines[i];
      var units := if l.itemType == Pack then l.qty * l.packSize else l.qty;
      var current := products[l.productId].stockUnits;
      if current - units < 0 {
        return Err(InsufficientStock(l.name));
      }
      products := products[l.productId := products[l.productId].(stockUnits := current - units)];
      if l.productId !in touched {
        touched := touched + [l.productId];
      }
      rows := rows + [SaleItem(saleId, l.productId, l.itemType, l.qty, l.price, l.lineTotal)];
      movements := movements + [Movement(l.productId, Out, SaleOut, "sales", saleId, units, "Sale")];
      assert units == Units(l) && touched == AddOnce(before.touched, l.productId);
      assert rows == before.saleItems + [SaleRow(l, saleId)] && movements == before.movements + [SaleMovement(l, saleId)];
      assert SaleBook(products, movements, rows, touched) == DebitLine(before, l, saleId);
      DebitStep(before, lines, i, saleId);
    }
    assert lines[|lines|..] == [];
    r := Ok(SaleBook(products, movements, rows, touched));
  }

  /**
   * The debit succeeds exactly when, for every line, its product's stock less the units
   * of that line and of every earlier line on the same product is not negative.
   */
  lemma {:induction false} DebitSucceedsIff(b: SaleBook, lines: seq<PricedLine>, saleId: int)
    requires Stocked(b.products, lines)
    ensures Debit(b, lines, saleId).Ok? <==> forall k :: 0 <= k < |lines| ==>
      b.products[lines[k].productId].stockUnits - TotalUnits(lines[..k + 1], lines[k].productId) >= 0
    decreases |lines|
  {
    if lines != [] {
      var l := lines[0];
      var b' := DebitLine(b, l, saleId);
      var rest := lines[1..];
      forall k | 1 <= k < |lines|
        ensures TotalUnits(lines[..k + 1], lines[k].productId)
          == (if l.productId == lines[k].productId then Units(l) else 0) + TotalUnits(rest[..k], rest[k - 1].productId)
      {
        assert lines[..k + 1][1..] == rest[..k];
        assert rest[k - 1] == lines[k];
      }
      assert TotalUnits(lines[..1], l.productId) == Units(l) by {
        assert lines[..1][1..] == [];
      }
      if b.products[l.productId].stockUnits - Units(l) >= 0 {
        DebitSucceedsIff(b', rest, saleId);
        forall k | 1 <= k < |lines|
          ensures b'.products[rest[k - 1].productId].stockUnits
            == b.products[lines[k].productId].stockUnits - (if l.productId == lines[k].productId then Units(l) else 0)
        {
          assert rest[k - 1] == lines[k];
        }
        if Debit(b, lines, saleId).Ok? {
          forall k | 0 <= k < |lines|
            ensures b.products[lines[k].productId].stockUnits - TotalUnits(lines[..k + 1], lines[k].productId) >= 0
          {
            if k > 0 {
              assert 0 <= k - 1 < |rest|;
            }
          }
        } else {
          var k :| 0 <= k < |rest| &&
            b'.products[rest[k].productId].stockUnits - TotalUnits(rest[..k + 1], rest[k].productId) < 0;
          assert lines[k + 1] == rest[k];
        }
      }
    }
  }

  /** Only stock changes, and each product loses exactly the units of its lines. */
  lemma {:induction false} DebitStock(b: SaleBook, lines: seq<PricedLine>, saleId: int)
    requires Stocked(b.products, lines)
    requires Debit(b, lines, saleId).Ok?
    ensures var r := Debit(b, lines, saleId).value;
      r.products.Keys == b.products.Keys &&
      forall pid :: pid in b.products ==>
        r.products[pid] == b.products[pid].(stockUnits := b.products[pid].stockUnits - TotalUnits(lines, pid))
    decreases |lines|
  {
    if lines != [] {
      DebitStock(DebitLine(b, lines[0], saleId), lines[1..], saleId);
    }
  }

  /** One `out`/`sale` movement of the line's units per line, in order, after the old ones. */
  lemma {:induction false} DebitMovements(b: SaleBook, lines: seq<PricedLine>, saleId: int)
    requires Stocked(b.products, lines)
    requires Debit(b, lines, saleId).Ok?
    ensures Debit(b, lines, saleId).value.movements == b.movements + SaleMovements(lines, saleId)
    decreases |lines|
  {
    if lines != [] {
      var l := lines[0];
      DebitMovements(DebitLine(b, l, saleId), lines[1..], saleId);
      AppendAssoc(b.movements, [SaleMovement(l, saleId)], SaleMovements(lines[1..], saleId));
    } else {
      assert b.movements + SaleMovements(lines, saleId) == b.movements;
    }
  }

  /** One sale item per line, in order, after the old ones. */
  lemma {:induction false} DebitRows(b: SaleBook, lines: seq<PricedLine>, saleId: int)
    requires Stocked(b.products, lines)
    requires Debit(b, lines, saleId).Ok?
    ensures Debit(b, lines, saleId).value.saleItems == b.saleItems + SaleRows(lines, saleId)
    decreases |lines|
  {
    if lines != [] {
      var l := lines[0];
      DebitRows(DebitLine(b, l, saleId), lines[1..], saleId);
      AppendAssoc(b.saleItems, [SaleRow(l, saleId)], SaleRows(lines[1..], saleId));
    } else {
      assert b.saleItems + SaleRows(lines, saleId) == b.saleItems;
    }
  }

  /** Every decrement is matched by its movement: the ledger stays balanced. */
  lemma {:induction false} DebitBalanced(b: SaleBook, lines: seq<PricedLine>, saleId: int)
    requires Stocked(b.products, lines)
    requires Balanced(b.products, b.movements)
    requires Debit(b, lines, saleId).Ok?
    ensures var r := Debit(b, lines, saleId).value; Balanced(r.products, r.movements)
    decreases |lines|
  {
    if lines != [] {
      var l := lines[0];
      var p := b.products[l.productId];
      BalancedStep(b.products, b.movements, l.productId, p.(stockUnits := p.stockUnits - Units(l)), SaleMovement(l, saleId));
      DebitBalanced(DebitLine(b, l, saleId), lines[1..], saleId);
    }
  }

  /** Every product in `changedIds` ends with non-negative stock, as do all others that had it. */
  lemma {:induction false} DebitNonNegative(b: SaleBook, lines: seq<PricedLine>, saleId: int)
    requires Stocked(b.products, lines)
    requires forall pid :: pid in b.touched ==> pid in b.products && b.products[pid].stockUnits >= 0
    requires Debit(b, lines, saleId).Ok?
    ensures var r := Debit(b, lines, saleId).value;
      (forall pid :: pid in r.touched ==> pid in r.products && r.products[pid].stockUnits >= 0) &&
      (NonNegative(b.products) ==> NonNegative(r.products))
    decreases |lines|
  {
    if lines != [] {
      DebitNonNegative(DebitLine(b, lines[0], saleId), lines[1..], saleId);
    }
  }

  /** Some line sells product `pid`. */
  predicate Mentions(lines: seq<PricedLine>, pid: int)
  {
    exists i :: 0 <= i < |lines| && lines[i].productId == pid
  }

  /** `changedIds` holds each product of the sale exactly once. */
  lemma {:induction false} DebitTouched(b: SaleBook, lines: seq<PricedLine>, saleId: int)
    requires Stocked(b.products, lines)
    requires Debit(b, lines, saleId).Ok?
    ensures var r := Debit(b, lines, saleId).value;
      (forall pid :: pid in r.touched <==> pid in b.touched || Mentions(lines, pid)) &&
      (Distinct(b.touched) ==> Distinct(r.touched))
    decreases |lines|
  {
    if lines != [] {
      var rest := lines[1..];
      DebitTouched(DebitLine(b, lines[0], saleId), rest, saleId);
      forall pid | Mentions(rest, pid)
        ensures Mentions(lines, pid)
      {
        var i :| 0 <= i < |rest| && rest[i].productId == pid;
        assert lines[i + 1] == rest[i];
      }
      forall pid | Mentions(lines, pid) && pid != lines[0].productId
        ensures Mentions(rest, pid)
      {
        var i :| 0 <= i < |lines| && lines[i].productId == pid;
        assert rest[i - 1] == lines[i];
      }
      assert Mentions(lines, lines[0].productId);
    }
  }

  /** The debit only records movements of products that exist. */
  lemma DebitKeepsForeignKeys(b: SaleBook, lines: seq<PricedLine>, saleId: int, nextProductId: int)
    requires Stocked(b.products, lines)
    requires Debit(b, lines, saleId).Ok?
    requires forall k :: k in b.products ==> k < nextProductId
    requires forall i :: 0 <= i < |b.movements| ==> b.movements[i].productId < nextProductId
    ensures var r := Debit(b, lines, saleId).value;
      r.products.Keys == b.products.Keys &&
      forall i :: 0 <= i < |r.movements| ==> r.movements[i].productId < nextProductId
  {
    DebitStock(b, lines, saleId);
    DebitMovements(b, lines, saleId);
    var r := Debit(b, lines, saleId).value;
    forall i | 0 <= i < |r.movements|
      ensures r.movements[i].productId < nextProductId
    {
      if i >= |b.movements| {
        SaleMovementsAt(lines, saleId, i - |b.movements|);
      }
    }
  }

  // ---------------------------------------------------------------- the whole sale

  /** What the request is worth before any stock moves: its priced lines and payment. */
  datatype Quote = Quote(lines: seq<PricedLine>, subtotal: int, payment: Payment)

  /** Validation, pricing and payment, in the order `createSale` makes them. */
  function QuoteSpec(products: map<int, Product>, req: SaleRequest): (r: Result<Quote, SaleError>)
    ensures r.Ok? <==> (ValidateItems(req.items).None? && PriceLines(products, req.items).Ok?
      && Settle(req.paymentMethod, req.cashReceived, Subtotal(PriceLines(products, req.items).value)).Ok?)
    ensures ValidateItems(req.items).Some? ==> r == Err(ValidateItems(req.items).value)
    ensures ValidateItems(req.items).None? && PriceLines(products, req.items).Err? ==>
      r == Err(PriceLines(products, req.items).error)
    ensures (ValidateItems(req.items).None? && PriceLines(products, req.items).Ok?
      && Settle(req.paymentMethod, req.cashReceived, Subtotal(PriceLines(products, req.items).value)).Err?) ==>
      r == Err(Settle(req.paymentMethod, req.cashReceived, Subtotal(PriceLines(products, req.items).value)).error)
    ensures r.Ok? ==> (ValidateItems(req.items).None? && Stocked(products, r.value.lines)
      && PriceLines(products, req.items) == Ok(r.value.lines)
      && r.value.subtotal == Subtotal(r.value.lines)
      && Settle(req.paymentMethod, req.cashReceived, r.value.subtotal) == Ok(r.value.payment))
  {
    match ValidateItems(req.items)
    case Some(e) => Err(e)
    case None =>
      match PriceLines(products, req.items)
      case Err(e) => Err(e)
      case Ok(lines) =>
        match Settle(req.paymentMethod, req.cashReceived, Subtotal(lines))
        case Err(e) => Err(e)
        case Ok(pay) => Ok(Quote(lines, Subtotal(lines), pay))
  }

  /** The `sales` row of a quoted sale. */
  function SaleRecord(q: Quote, cashierId: int, customerName: Option<string>, receiptNo: string): Sale
  {
    Sale(receiptNo, IdOrNull(cashierId), q.subtotal, q.subtotal,
      q.payment.payMethod, OrNull(customerName), q.payment.cashReceived, q.payment.change)
  }

  /** What a committed sale leaves behind: its id, its row and the debited tables. */
  datatype SaleCommit = SaleCommit(saleId: int, sale: Sale, book: SaleBook)

  /**
   * `createSale` from validation to commit, over the tables before the call. `saleId` is
   * the id the `sales` insert receives; `cashierId` is the caller's user id (0 when the
   * request carries none) and `receiptNo` the generated receipt number.
   */
  function CreateSaleSpec(
    products: map<int, Product>, movements: seq<Movement>, saleItems: seq<SaleItem>,
    saleId: int, req: SaleRequest, cashierId: int, receiptNo: string): (r: Result<SaleCommit, SaleError>)
    ensures QuoteSpec(products, req).Err? ==> r == Err(QuoteSpec(products, req).error)
    ensures QuoteSpec(products, req).Ok? ==>
      (r.Ok? <==> Debit(SaleBook(products, movements, saleItems, []), QuoteSpec(products, req).value.lines, saleId).Ok?)
    ensures QuoteSpec(products, req).Ok? && r.Err? ==> r.error.InsufficientStock?
    ensures r.Ok? ==>
      && r.value.saleId == saleId && r.value.sale.receiptNo == receiptNo
      && r.value.sale.subtotal == r.value.sale.total == QuoteSpec(products, req).value.subtotal
      && r.value.book.products.Keys == products.Keys
  {
    match QuoteSpec(products, req)
    case Err(e) => Err(e)
    case Ok(q) =>
      match Debit(SaleBook(products, movements, saleItems, []), q.lines, saleId)
      case Err(e) => Err(e)
      case Ok(book) => Ok(SaleCommit(saleId, SaleRecord(q, cashierId, req.customerName, receiptNo), book))
  }

  /** A committed sale had a non-empty, valid cart whose products all exist. */
  lemma CreateSaleValidCart(
    products: map<int, Product>, movements: seq<Movement>, saleItems: seq<SaleItem>,
    saleId: int, req: SaleRequest, cashierId: int, receiptNo: string)
    requires CreateSaleSpec(products, movements, saleItems, saleId, req, cashierId, receiptNo).Ok?
    ensures req.items != []
    ensures forall i :: 0 <= i < |req.items| ==> ValidLine(req.items[i]) && req.items[i].productId in products
  {
  }

  /**
   * A committed sale keeps the ledger balanced, changes nothing but stock, and leaves
   * non-negative stock behind: every product it touched, and every other product that
   * had it already.
   */
  lemma CreateSaleKeepsLedger(
    products: map<int, Product>, movements: seq<Movement>, saleItems: seq<SaleItem>,
    saleId: int, req: SaleRequest, cashierId: int, receiptNo: string)
    requires CreateSaleSpec(products, movements, saleItems, saleId, req, cashierId, receiptNo).Ok?
    ensures var c := CreateSaleSpec(products, movements, saleItems, saleId, req, cashierId, receiptNo).value;
      && c.book.products.Keys == products.Keys
      && (forall pid :: pid in products ==> c.book.products[pid].(stockUnits := products[pid].stockUnits) == products[pid])
      && (Balanced(products, movements) ==> Balanced(c.book.products, c.book.movements))
      && (NonNegative(products) ==> NonNegative(c.book.products))
      && (forall pid :: pid in c.book.touched ==> pid in c.book.products && c.book.products[pid].stockUnits >= 0)
  {
    var q := QuoteSpec(products, req).value;
    var b := SaleBook(products, movements, saleItems, []);
    DebitStock(b, q.lines, saleId);
    DebitNonNegative(b, q.lines, saleId);
    if Balanced(products, movements) {
      DebitBalanced(b, q.lines, saleId);
    }
  }

  /**
   * A committed sale appends exactly one `out`/`sale` movement and one sale item per cart
   * line, after the existing rows, each naming this sale and the line's product.
   */
  lemma CreateSaleRecords(
    products: map<int, Product>, movements: seq<Movement>, saleItems: seq<SaleItem>,
    saleId: int, req: SaleRequest, cashierId: int, receiptNo: string, i: int)
    requires CreateSaleSpec(products, movements, saleItems, saleId, req, cashierId, receiptNo).Ok?
    requires 0 <= i < |req.items|
    ensures var c := CreateSaleSpec(products, movements, saleItems, saleId, req, cashierId, receiptNo).value;
      && |c.book.movements| == |movements| + |req.items| && c.book.movements[..|movements|] == movements
      && |c.book.saleItems| == |saleItems| + |req.items| && c.book.saleItems[..|saleItems|] == saleItems
      && var m := c.book.movements[|movements| + i];
      && m.productId == req.items[i].productId && m.direction == Out && m.source == SaleOut
      && m.refTable == "sales" && m.refId == saleId
      && m.qtyUnits == (if req.items[i].itemType == "pack"
                        then req.items[i].qty * products[req.items[i].productId].packSize
                        else req.items[i].qty)
      && var row := c.book.saleItems[|saleItems| + i];
      && row.saleId == saleId && row.productId == req.items[i].productId && row.qty == req.items[i].qty
  {
    var q := QuoteSpec(products, req).value;
    var b := SaleBook(products, movements, saleItems, []);
    DebitMovements(b, q.lines, saleId);
    DebitRows(b, q.lines, saleId);
    SaleMovementsAt(q.lines, saleId, i);
    SaleRowsAt(q.lines, saleId, i);
    var c := CreateSaleSpec(products, movements, saleItems, saleId, req, cashierId, receiptNo).value;
    assert c.book.movements[..|movements|] == movements;
    assert c.book.saleItems[..|saleItems|] == saleItems;
  }

  /** `changedIds` lists every product of the cart exactly once. */
  lemma CreateSaleTouched(
    products: map<int, Product>, movements: seq<Movement>, saleItems: seq<SaleItem>,
    saleId: int, req: SaleRequest, cashierId: int, receiptNo: string)
    requires CreateSaleSpec(products, movements, saleItems, saleId, req, cashierId, receiptNo).Ok?
    ensures var c := CreateSaleSpec(products, movements, saleItems, saleId, req, cashierId, receiptNo).value;
      && Distinct(c.book.touched)
      && forall pid :: pid in c.book.touched <==> exists i :: 0 <= i < |req.items| && req.items[i].productId == pid
  {
    var q := QuoteSpec(products, req).value;
    DebitTouched(SaleBook(products, movements, saleItems, []), q.lines, saleId);
    forall pid ensures Mentions(q.lines, pid) <==> exists i :: 0 <= i < |req.items| && req.items[i].productId == pid
    {
      if Mentions(q.lines, pid) {
        var i :| 0 <= i < |q.lines| && q.lines[i].productId == pid;
        assert req.items[i].productId == pid;
      }
    }
  }

  /** A sale whose debit would take some product below zero is rejected. */
  lemma OversellRejected(
    products: map<int, Product>, movements: seq<Movement>, saleItems: seq<SaleItem>,
    saleId: int, req: SaleRequest, cashierId: int, receiptNo: string, k: int)
    requires QuoteSpec(products, req).Ok?
    requires var lines := QuoteSpec(products, req).value.lines;
      0 <= k < |lines| &&
      products[lines[k].productId].stockUnits - TotalUnits(lines[..k + 1], lines[k].productId) < 0
    ensures CreateSaleSpec(products, movements, saleItems, saleId, req, cashierId, receiptNo).Err?
  {
    DebitSucceedsIff(SaleBook(products, movements, saleItems, []), QuoteSpec(products, req).value.lines, saleId);
  }

  /** Validation, pricing and payment, as the handler runs them before debiting. */
  method QuoteSale(products: map<int, Product>, req: SaleRequest) returns (r: Result<Quote, SaleError>)
    ensures r == QuoteSpec(products, req)
  {
    var invalid := ValidateLines(req.items);
    if invalid.Some? {
      return Err(invalid.value);
    }
    var priced, subtotal := PriceCart(products, req.items);
    if priced.Err? {
      return Err(priced.error);
    }
    var pay := Settle(req.paymentMethod, req.cashReceived, subtotal);
    if pay.Err? {
      return Err(pay.error);
    }
    return Ok(Quote(priced.value, subtotal, pay.value));
  }

  /** `createSale` inside its transaction: on any error no table changes. */
  method CreateSale(db: Database, req: SaleRequest, cashierId: int, receiptNo: string)
    returns (r: Result<SaleCommit, SaleError>)
    requires db.Valid()
    modifies db`products, db`movements, db`sales, db`nextSaleId, db`saleItems
    ensures db.Valid()
    ensures r == CreateSaleSpec(old(db.products), old(db.movements), old(db.saleItems), old(db.nextSaleId),
      req, cashierId, receiptNo)
    ensures r.Ok? ==>
      && db.products == r.value.book.products
      && db.movements == r.value.book.movements
      && db.saleItems == r.value.book.saleItems
      && db.sales == old(db.sales)[r.value.saleId := r.value.sale]
      && db.nextSaleId == old(db.nextSaleId) + 1
    ensures r.Err? ==> unchanged(db)
  {
    var q := QuoteSale(db.products, req);
    if q.Err? {
      return Err(q.error);
    }
    var saleId := db.nextSaleId;
    var sale := SaleRecord(q.value, cashierId, req.customerName, receiptNo);
    var b := SaleBook(db.products, db.movements, db.saleItems, []);
    var debited := DebitLines(b, q.value.lines, saleId);
    if debited.Err? {
      return Err(debited.error);
    }
    DebitKeepsForeignKeys(b, q.value.lines, saleId, db.nextProductId);
    assert CreateSaleSpec(db.products, db.movements, db.saleItems, saleId, req, cashierId, receiptNo)
      == Ok(SaleCommit(saleId, sale, debited.value));
    CommitSale(db, sale, debited.value);
    r := Ok(SaleCommit(saleId, sale, debited.value));
  }

  /** The writes of a sale that passed every check: the debited tables and the header row. */
  method CommitSale(db: Database, sale: Sale, book: SaleBook)
    requires db.Valid()
    requires book.products.Keys == db.products.Keys
    requires forall i :: 0 <= i < |book.movements| ==> book.movements[i].productId < db.nextProductId
    modifies db`products, db`movements, db`sales, db`nextSaleId, db`saleItems
    ensures db.Valid()
    ensures db.products == book.products && db.movements == book.movements && db.saleItems == book.saleItems
    ensures db.sales == old(db.sales)[old(db.nextSaleId) := sale] && db.nextSaleId == old(db.nextSaleId) + 1
  {
    db.products, db.movements, db.saleItems := book.products, book.movements, book.saleItems;
    db.sales, db.nextSaleId := db.sales[db.nextSaleId := sale], db.nextSaleId + 1;
  }

  /** `createSale` followed, after the commit, by the notifier for every product in `changedIds`. */
  method CreateSaleAndNotify(db: Database, req: SaleRequest, cashierId: int, receiptNo: string)
    returns (r: Result<SaleCommit, SaleError>)
    requires db.Valid()
    modifies db`products, db`movements, db`sales, db`nextSaleId, db`saleItems, db`outbox
    ensures db.Valid()
    ensures r == CreateSaleSpec(old(db.products), old(db.movements), old(db.saleItems), old(db.nextSaleId),
      req, cashierId, receiptNo)
    ensures r.Ok? ==>
      var n := NotifyAll(r.value.book.products, RecipientsOf(db.users, db.nextUserId), r.value.book.touched);
      && db.products == n.products
      && db.outbox == old(db.outbox) + n.sent
      && db.movements == r.value.book.movements
      && db.saleItems == r.value.book.saleItems
      && db.sales == old(db.sales)[r.value.saleId := r.value.sale]
      && db.nextSaleId == old(db.nextSaleId) + 1
    ensures r.Err? ==> unchanged(db)
  {
    r := CreateSale(db, req, cashierId, receiptNo);
    if r.Ok? {
      NotifyEach(db, r.value.book.touched);
    }
  }
}
