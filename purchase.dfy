/**
 * The purchase-order life cycle: `createPO` opens a PO in `draft` with its item rows,
 * `sendPO` stamps it `sent` whatever its status, `supplierConfirmPO` lets the owning
 * supplier move a `draft` or `sent` PO to `confirmed`, and `receiveGRN` records a goods
 * receipt against a `draft`, `sent` or `confirmed` PO, crediting stock by
 * `qty_pack × pack_size` per line with one incoming movement each, and stamps the PO
 * `received`. Also the read paths `getPOById` (ownership check) and `listAllPOs`
 * (filter arguments and page clamp).
 */
module Purchase {
  import opened Common
  import opened Text
  import opened Tables
  import opened Ledger
  import opened StockAlertService
  import opened Pagination
  import opened Sql

  // ---------------------------------------------------------------- the state machine

  /**
   * Every status change some handler can make: `sendPO` from anywhere to `sent`,
   * confirmation from `draft`/`sent`, receipt from `draft`/`sent`/`confirmed`.
   */
  predicate Step(s: POStatus, s': POStatus)
  {
    || s' == Sent
    || (s' == Confirmed && s in {Draft, Sent})
    || (s' == Received && s in {Draft, Sent, Confirmed})
  }

  /**
   * No step leads back to `draft`; a `received` PO can only be re-sent; a `confirmed` PO
   * can be re-sent or received; `draft` and `sent` can go to any later status.
   */
  lemma StepTargets(s: POStatus, s': POStatus)
    ensures !Step(s, Draft)
    ensures Step(Received, s') <==> s' == Sent
    ensures Step(Confirmed, s') <==> s' in {Sent, Received}
    ensures s in {Draft, Sent} ==> (Step(s, s') <==> s' != Draft)
  {
  }

  /** Exactly one PO changed, and its status moved by a legal step. */
  ghost predicate StatusStep(pos: map<int, PurchaseOrder>, pos': map<int, PurchaseOrder>, id: int)
  {
    && id in pos && pos'.Keys == pos.Keys
    && pos'[id] == pos[id].(status := pos'[id].status)
    && Step(pos[id].status, pos'[id].status)
    && forall k :: k in pos && k != id ==> pos'[k] == pos[k]
  }

  // ---------------------------------------------------------------- createPO

  datatype POLine = POLine(productId: int, qtyPack: int, pricePerPack: int)

  /** A `createPO` body; `items` is `None` when it is missing and cannot be iterated. */
  datatype PORequest = PORequest(supplierId: int, items: Option<seq<POLine>>, note: Option<string>)

  datatype CreatePOError = ItemsNotIterable

  /** The item rows the insert loop writes for PO `poId`. */
  function ItemRows(poId: int, items: seq<POLine>): (r: seq<POItem>)
    ensures |r| == |items|
  {
    if items == [] then []
    else [POItem(poId, items[0].productId, items[0].qtyPack, items[0].pricePerPack)] + ItemRows(poId, items[1..])
  }

  /** The rows of PO `poId`, in insertion order (`WHERE purchase_order_id = ?`). */
  function RowsOf(rows: seq<POItem>, poId: int): seq<POItem>
  {
    if rows == [] then []
    else RowsOf(rows[..|rows| - 1], poId) + (if rows[|rows| - 1].poId == poId then [rows[|rows| - 1]] else [])
  }

  lemma {:induction false} RowsOfConcat(a: seq<POItem>, b: seq<POItem>, poId: int)
    ensures RowsOf(a + b, poId) == RowsOf(a, poId) + RowsOf(b, poId)
    decreases |b|
  {
    if b == [] {
      assert a + b == a;
    } else {
      var init, last := b[..|b| - 1], b[|b| - 1];
      assert a + b == (a + init) + [last];
      assert (a + b)[..|a + b| - 1] == a + init;
      RowsOfConcat(a, init, poId);
    }
  }

  /** Rows that all belong to other POs contribute nothing. */
  lemma {:induction false} RowsOfOthers(rows: seq<POItem>, poId: int)
    requires forall i :: 0 <= i < |rows| ==> rows[i].poId < poId
    ensures RowsOf(rows, poId) == []
    decreases |rows|
  {
    if rows != [] {
      RowsOfOthers(rows[..|rows| - 1], poId);
    }
  }

  /** The rows written for PO `poId` are all its own. */
  lemma {:induction false} RowsOfItemRows(poId: int, items: seq<POLine>)
    ensures RowsOf(ItemRows(poId, items), poId) == ItemRows(poId, items)
    decreases |items|
  {
    if items != [] {
      var head := [POItem(poId, items[0].productId, items[0].qtyPack, items[0].pricePerPack)];
      RowsOfItemRows(poId, items[1..]);
      RowsOfConcat(head, ItemRows(poId, items[1..]), poId);
      assert RowsOf(head, poId) == head by {
        assert head[..0] == [];
      }
    }
  }

  /**
   * A new PO owns exactly the rows written for it: one per input item, in order, each
   * with that item's product, pack quantity and price.
   */
  lemma NewPOHasItsRows(old_rows: seq<POItem>, poId: int, items: seq<POLine>)
    requires forall i :: 0 <= i < |old_rows| ==> old_rows[i].poId < poId
    ensures var rows := RowsOf(old_rows + ItemRows(poId, items), poId);
      |rows| == |items| &&
      forall i :: 0 <= i < |items| ==>
        rows[i] == POItem(poId, items[i].productId, items[i].qtyPack, items[i].pricePerPack)
  {
    RowsOfConcat(old_rows, ItemRows(poId, items), poId);
    RowsOfOthers(old_rows, poId);
    RowsOfItemRows(poId, items);
    forall i | 0 <= i < |items|
      ensures ItemRows(poId, items)[i] == POItem(poId, items[i].productId, items[i].qtyPack, items[i].pricePerPack)
    {
      ItemRowsAt(poId, items, i);
    }
  }

  lemma {:induction false} ItemRowsAt(poId: int, items: seq<POLine>, i: int)
    requires 0 <= i < |items|
    ensures ItemRows(poId, items)[i] == POItem(poId, items[i].productId, items[i].qtyPack, items[i].pricePerPack)
    decreases |items|
  {
    if i > 0 {
      ItemRowsAt(poId, items[1..], i - 1);
    }
  }

  /** `createPO`: the PO header in `draft`, then one item row per input item. */
  method CreatePO(db: Database, req: PORequest, requestedBy: int, code: string)
    returns (r: Result<int, CreatePOError>)
    requires db.Valid()
    modifies db`purchaseOrders, db`nextPOId, db`poItems
    ensures db.Valid()
    ensures req.items.None? ==> r == Err(ItemsNotIterable) && unchanged(db)
    ensures req.items.Some? ==>
      && r == Ok(old(db.nextPOId))
      && db.nextPOId == old(db.nextPOId) + 1
      && db.purchaseOrders == old(db.purchaseOrders)[r.value :=
           PurchaseOrder(code, req.supplierId, requestedBy, Draft, OrNull(req.note))]
      && db.poItems == old(db.poItems) + ItemRows(r.value, req.items.value)
  {
    if req.items.None? {
      return Err(ItemsNotIterable);
    }
    var items := req.items.value;
    var poId := db.nextPOId;
    var added := BuildItemRows(poId, items);
    assert db.PurchasesValid();
    forall i | 0 <= i < |db.poItems + added|
      ensures (db.poItems + added)[i].poId < poId + 1
    {
      if i >= |db.poItems| {
        ItemRowsAt(poId, items, i - |db.poItems|);
      }
    }
    CommitPO(db, PurchaseOrder(code, req.supplierId, requestedBy, Draft, OrNull(req.note)), db.poItems + added);
    return Ok(poId);
  }

  /** The insert loop of `createPO`: one row per item, in order. */
  method BuildItemRows(poId: int, items: seq<POLine>) returns (rows: seq<POItem>)
    ensures rows == ItemRows(poId, items)
  {
    rows := [];
    for i := 0 to |items|
      invariant rows == ItemRows(poId, items[..i])
    {
      assert items[..i + 1] == items[..i] + [items[i]];
      ItemRowsAppend(poId, items[..i], items[i]);
      rows := rows + [POItem(poId, items[i].productId, items[i].qtyPack, items[i].pricePerPack)];
    }
    assert items[..|items|] == items;
  }

  /** The writes of `createPO`: the header under the next id, then the item rows. */
  method CommitPO(db: Database, po: PurchaseOrder, rows: seq<POItem>)
    requires db.Valid()
    requires forall i :: 0 <= i < |rows| ==> rows[i].poId < db.nextPOId + 1
    modifies db`purchaseOrders, db`nextPOId, db`poItems
    ensures db.Valid()
    ensures db.purchaseOrders == old(db.purchaseOrders)[old(db.nextPOId) := po]
    ensures db.nextPOId == old(db.nextPOId) + 1 && db.poItems == rows
  {
    db.purchaseOrders, db.nextPOId := db.purchaseOrders[db.nextPOId := po], db.nextPOId + 1;
    db.poItems := rows;
  }

  lemma {:induction false} ItemRowsAppend(poId: int, items: seq<POLine>, x: POLine)
    ensures ItemRows(poId, items + [x]) == ItemRows(poId, items) + [POItem(poId, x.productId, x.qtyPack, x.pricePerPack)]
    decreases |items|
  {
    if items == [] {
      assert [x][1..] == [];
    } else {
      assert (items + [x])[1..] == items[1..] + [x];
      ItemRowsAppend(poId, items[1..], x);
    }
  }

  // ---------------------------------------------------------------- sendPO

  /** `sendPO`: `UPDATE ... SET status='sent' WHERE id=?`, with no status check. */
  function SendSpec(pos: map<int, PurchaseOrder>, id: int): (r: map<int, PurchaseOrder>)
    ensures id in pos ==> StatusStep(pos, r, id) && r[id].status == Sent
    ensures id !in pos ==> r == pos
  {
    if id in pos then pos[id := pos[id].(status := Sent)] else pos
  }

  /** `sendPO`, answering the number of rows the update matched. */
  method SendPO(db: Database, id: int) returns (affected: int)
    requires db.Valid()
    modifies db`purchaseOrders
    ensures db.Valid()
    ensures db.purchaseOrders == SendSpec(old(db.purchaseOrders), id)
    ensures affected == if id in old(db.purchaseOrders) then 1 else 0
  {
    if id in db.purchaseOrders {
      db.purchaseOrders := db.purchaseOrders[id := db.purchaseOrders[id].(status := Sent)];
      return 1;
    }
    return 0;
  }

  // ---------------------------------------------------------------- receiveGRN

  datatype GrnLine = GrnLine(productId: int, qtyPack: int)

  datatype GrnError =
    | BadPoId
    | ItemsRequired
    | ProductIdRequired
    | BadQtyPack
    | PONotFound
    | NotReceivable
    | ProductNotFound(productId: int)

  predicate ValidGrnLine(l: GrnLine)
  {
    l.productId != 0 && l.qtyPack > 0
  }

  function GrnLineError(l: GrnLine): Option<GrnError>
  {
    if l.productId == 0 then Some(ProductIdRequired)
    else if l.qtyPack <= 0 then Some(BadQtyPack)
    else None
  }

  /** The checks made before the transaction opens; `poId` is `None` when not numeric. */
  function ValidateGrn(poId: Option<int>, items: seq<GrnLine>): (r: Option<GrnError>)
    ensures r.None? <==> poId.Some? && items != [] && forall i :: 0 <= i < |items| ==> ValidGrnLine(items[i])
    ensures poId.None? ==> r == Some(BadPoId)
    ensures poId.Some? && items == [] ==> r == Some(ItemsRequired)
    decreases |items|
  {
    if poId.None? then Some(BadPoId)
    else if items == [] then Some(ItemsRequired)
    else if GrnLineError(items[0]).Some? then GrnLineError(items[0])
    else if |items| == 1 then None
    else
      var rest := ValidateGrn(poId, items[1..]);
      assert forall j :: 1 <= j < |items| ==> items[j] == items[1..][j - 1];
      rest
  }

  /** The validation loop of `receiveGRN`. */
  method ValidateGrnLines(poId: Option<int>, items: seq<GrnLine>) returns (err: Option<GrnError>)
    ensures err == ValidateGrn(poId, items)
  {
    if poId.None? {
      return Some(BadPoId);
    }
    if |items| == 0 {
      return Some(ItemsRequired);
    }
    for i := 0 to |items|
      invariant i < |items| ==> ValidateGrn(poId, items) == ValidateGrn(poId, items[i..])
      invariant i == |items| ==> ValidateGrn(poId, items) == None
    {
      assert items[i..][0] == items[i] && items[i..][1..] == items[i + 1..];
      var e := GrnLineError(items[i]);
      if e.Some? {
        return e;
      }
    }
    return None;
  }

  function Receivable(s: POStatus): bool
  {
    s in {Draft, Sent, Confirmed}
  }

  /** `Number(prod.pack_size || 1)`: a zero pack size counts as one unit per pack. */
  function EffectivePackSize(p: Product): (r: int)
    ensures p.packSize > 0 ==> r == p.packSize
    ensures p.packSize == 0 ==> r == 1
  {
    if p.packSize == 0 then 1 else p.packSize
  }

  /** The tables the receipt loop writes, and `changedIds` in insertion order. */
  datatype GrnBook = GrnBook(
    products: map<int, Product>,
    movements: seq<Movement>,
    grnItems: seq<GrnItem>,
    touched: seq<int>)

  function GrnUnits(p: Product, l: GrnLine): int
  {
    l.qtyPack * EffectivePackSize(p)
  }

  function GrnMovement(pid: int, grnId: int, units: int): Movement
  {
    Movement(pid, In, Purchase, "grn_receipts", grnId, units, "GRN received")
  }

  /** One iteration of the receipt loop for a product that exists. */
  function CreditLine(b: GrnBook, l: GrnLine, grnId: int): GrnBook
    requires l.productId in b.products
  {
    var p := b.products[l.productId];
    var units := GrnUnits(p, l);
    GrnBook(
      b.products[l.productId := p.(stockUnits := p.stockUnits + units)],
      b.movements + [GrnMovement(l.productId, grnId, units)],
      b.grnItems + [GrnItem(grnId, l.productId, l.qtyPack)],
      AddOnce(b.touched, l.productId))
  }

  /** The receipt loop: a line whose product does not exist aborts the receipt. */
  function Credit(b: GrnBook, lines: seq<GrnLine>, grnId: int): (r: Result<GrnBook, GrnError>)
    ensures r.Ok? ==> r.value.products.Keys == b.products.Keys
    ensures r.Ok? ==> |r.value.movements| == |b.movements| + |lines| && |r.value.grnItems| == |b.grnItems| + |lines|
    ensures r.Err? ==> r.error.ProductNotFound? && r.error.productId !in b.products
    decreases |lines|
  {
    if lines == [] then Ok(b)
    else if lines[0].productId !in b.products then Err(ProductNotFound(lines[0].productId))
    else Credit(CreditLine(b, lines[0], grnId), lines[1..], grnId)
  }

  /** Units the lines add to product `pid`, with pack sizes as in `products`. */
  function TotalReceived(products: map<int, Product>, lines: seq<GrnLine>, pid: int): int
  {
    if lines == [] then 0
    else
      var here := if lines[0].productId == pid && pid in products then GrnUnits(products[pid], lines[0]) else 0;
      here + TotalReceived(products, lines[1..], pid)
  }

  /** The receipt loop, over local copies of the tables. */
  method CreditLines(b: GrnBook, lines: seq<GrnLine>, grnId: int) returns (r: Result<GrnBook, GrnError>)
    ensures r == Credit(b, lines, grnId)
  {
    var products, movements, rows, touched := b.products, b.movements, b.grnItems, b.touched;
    for i := 0 to |lines|
      invariant Credit(b, lines, grnId) == Credit(GrnBook(products, movements, rows, touched), lines[i..], grnId)
    {
      ghost var before := GrnBook(products, movements, rows, touched);
      assert lines[i..][0] == lines[i] && lines[i..][1..] == lines[i + 1..];
      var pid := lines[i].productId;
      var qtyPack := lines[i].qtyPack;
      if pid !in products {
        return Err(ProductNotFound(pid));
      }
      var packSize := if products[pid].packSize == 0 then 1 else products[pid].packSize;
      var units := qtyPack * packSize;
      rows := rows + [GrnItem(grnId, pid, qtyPack)];
      products := products[pid := products[pid].(stockUnits := products[pid].stockUnits + units)];
      if pid !in touched {
        touched := touched + [pid];
      }
      movements := movements + [Movement(pid, In, Purchase, "grn_receipts", grnId, units, "GRN received")];
      assert units == GrnUnits(before.products[pid], lines[i]) && touched == AddOnce(before.touched, pid);
      assert rows == before.grnItems + [GrnItem(grnId, pid, qtyPack)];
      assert movements == before.movements + [GrnMovement(pid, grnId, units)];
      assert GrnBook(products, movements, rows, touched) == CreditLine(before, lines[i], grnId);
    }
    assert lines[|lines|..] == [];
    r := Ok(GrnBook(products, movements, rows, touched));
  }

  /** The receipt goes through exactly when every line names an existing product. */
  lemma {:induction false} CreditSucceedsIff(b: GrnBook, lines: seq<GrnLine>, grnId: int)
    ensures Credit(b, lines, grnId).Ok? <==> forall i :: 0 <= i < |lines| ==> lines[i].productId in b.products
    decreases |lines|
  {
    if lines != [] && lines[0].productId in b.products {
      CreditSucceedsIff(CreditLine(b, lines[0], grnId), lines[1..], grnId);
      assert forall i :: 1 <= i < |lines| ==> lines[i] == lines[1..][i - 1];
    }
  }

  /** Only stock changes, and each product gains exactly the units of its lines. */
  lemma {:induction false} CreditStock(b: GrnBook, lines: seq<GrnLine>, grnId: int)
    requires Credit(b, lines, grnId).Ok?
    ensures var r := Credit(b, lines, grnId).value;
      r.products.Keys == b.products.Keys &&
      forall pid :: pid in b.products ==>
        r.products[pid] == b.products[pid].(stockUnits := b.products[pid].stockUnits + TotalReceived(b.products, lines, pid))
    decreases |lines|
  {
    if lines != [] {
      var b' := CreditLine(b, lines[0], grnId);
      CreditStock(b', lines[1..], grnId);
      TotalReceivedStockOnly(b.products, b'.products, lines[1..]);
    }
  }

  /** Units depend on pack sizes only, which the receipt loop does not change. */
  lemma {:induction false} TotalReceivedStockOnly(ps: map<int, Product>, ps': map<int, Product>, lines: seq<GrnLine>)
    requires ps'.Keys == ps.Keys
    requires forall q :: q in ps ==> ps'[q].packSize == ps[q].packSize
    ensures forall pid :: TotalReceived(ps', lines, pid) == TotalReceived(ps, lines, pid)
    decreases |lines|
  {
    if lines != [] {
      TotalReceivedStockOnly(ps, ps', lines[1..]);
    }
  }

  /** Every increment is matched by its movement: the ledger stays balanced. */
  lemma {:induction false} CreditBalanced(b: GrnBook, lines: seq<GrnLine>, grnId: int)
    requires Balanced(b.products, b.movements)
    requires Credit(b, lines, grnId).Ok?
    ensures var r := Credit(b, lines, grnId).value; Balanced(r.products, r.movements)
    decreases |lines|
  {
    if lines != [] {
      var l := lines[0];
      var p := b.products[l.productId];
      BalancedStep(b.products, b.movements, l.productId, p.(stockUnits := p.stockUnits + GrnUnits(p, l)),
        GrnMovement(l.productId, grnId, GrnUnits(p, l)));
      CreditBalanced(CreditLine(b, l, grnId), lines[1..], grnId);
    }
  }

  /** Positive pack quantities and non-negative pack sizes never lower any stock. */
  lemma {:induction false} CreditNeverLowersStock(b: GrnBook, lines: seq<GrnLine>, grnId: int)
    requires forall i :: 0 <= i < |lines| ==> lines[i].qtyPack > 0
    requires forall q :: q in b.products ==> b.products[q].packSize >= 0
    requires Credit(b, lines, grnId).Ok?
    ensures var r := Credit(b, lines, grnId).value;
      r.products.Keys == b.products.Keys &&
      forall q :: q in b.products ==> r.products[q].stockUnits >= b.products[q].stockUnits
    decreases |lines|
  {
    if lines != [] {
      var l := lines[0];
      var p := b.products[l.productId];
      var units := GrnUnits(p, l);
      assert units >= 0 by {
        assert l.qtyPack > 0 && EffectivePackSize(p) >= 0;
      }
      var b' := CreditLine(b, l, grnId);
      assert b'.products == b.products[l.productId := p.(stockUnits := p.stockUnits + units)];
      assert forall i :: 1 <= i < |lines| ==> lines[1..][i - 1] == lines[i];
      CreditNeverLowersStock(b', lines[1..], grnId);
    }
  }

  /** The movements a run of lines records, one per line, in order. */
  function GrnMovements(products: map<int, Product>, lines: seq<GrnLine>, grnId: int): (r: seq<Movement>)
    requires forall i :: 0 <= i < |lines| ==> lines[i].productId in products
    ensures |r| == |lines|
  {
    if lines == [] then []
    else
      var first := GrnMovement(lines[0].productId, grnId, GrnUnits(products[lines[0].productId], lines[0]));
      [first] + GrnMovements(products, lines[1..], grnId)
  }

  /** The GRN item rows a run of lines records, one per line, in order. */
  function GrnRows(lines: seq<GrnLine>, grnId: int): (r: seq<GrnItem>)
    ensures |r| == |lines|
  {
    if lines == [] then [] else [GrnItem(grnId, lines[0].productId, lines[0].qtyPack)] + GrnRows(lines[1..], grnId)
  }

  lemma {:induction false} GrnMovementsAt(products: map<int, Product>, lines: seq<GrnLine>, grnId: int, i: int)
    requires forall k :: 0 <= k < |lines| ==> lines[k].productId in products
    requires 0 <= i < |lines|
    ensures GrnMovements(products, lines, grnId)[i]
      == GrnMovement(lines[i].productId, grnId, GrnUnits(products[lines[i].productId], lines[i]))
    decreases |lines|
  {
    if i > 0 {
      GrnMovementsAt(products, lines[1..], grnId, i - 1);
    }
  }

  lemma {:induction false} GrnRowsAt(lines: seq<GrnLine>, grnId: int, i: int)
    requires 0 <= i < |lines|
    ensures GrnRows(lines, grnId)[i] == GrnItem(grnId, lines[i].productId, lines[i].qtyPack)
    decreases |lines|
  {
    if i > 0 {
      GrnRowsAt(lines[1..], grnId, i - 1);
    }
  }

  /** One `in`/`purchase` movement per line, in order, after the old ones. */
  lemma {:induction false} CreditMovements(b: GrnBook, lines: seq<GrnLine>, grnId: int)
    requires Credit(b, lines, grnId).Ok?
    ensures forall i :: 0 <= i < |lines| ==> lines[i].productId in b.products
    ensures Credit(b, lines, grnId).value.movements == b.movements + GrnMovements(b.products, lines, grnId)
    decreases |lines|
  {
    CreditSucceedsIff(b, lines, grnId);
    if lines != [] {
      var l := lines[0];
      var b' := CreditLine(b, l, grnId);
      CreditMovements(b', lines[1..], grnId);
      GrnMovementsStockOnly(b.products, b'.products, lines[1..], grnId);
      AppendAssoc(b.movements, [GrnMovement(l.productId, grnId, GrnUnits(b.products[l.productId], l))],
        GrnMovements(b.products, lines[1..], grnId));
    } else {
      assert b.movements + GrnMovements(b.products, lines, grnId) == b.movements;
    }
  }

  lemma {:induction false} GrnMovementsStockOnly(ps: map<int, Product>, ps': map<int, Product>, lines: seq<GrnLine>, grnId: int)
    requires ps'.Keys == ps.Keys
    requires forall q :: q in ps ==> ps'[q].packSize == ps[q].packSize
    requires forall i :: 0 <= i < |lines| ==> lines[i].productId in ps
    ensures GrnMovements(ps', lines, grnId) == GrnMovements(ps, lines, grnId)
    decreases |lines|
  {
    if lines != [] {
      GrnMovementsStockOnly(ps, ps', lines[1..], grnId);
    }
  }

  /** One GRN item row per line, in order, after the old ones. */
  lemma {:induction false} CreditRows(b: GrnBook, lines: seq<GrnLine>, grnId: int)
    requires Credit(b, lines, grnId).Ok?
    ensures Credit(b, lines, grnId).value.grnItems == b.grnItems + GrnRows(lines, grnId)
    decreases |lines|
  {
    if lines != [] {
      var l := lines[0];
      CreditRows(CreditLine(b, l, grnId), lines[1..], grnId);
      AppendAssoc(b.grnItems, [GrnItem(grnId, l.productId, l.qtyPack)], GrnRows(lines[1..], grnId));
    } else {
      assert b.grnItems + GrnRows(lines, grnId) == b.grnItems;
    }
  }

  /** `changedIds` holds each received product exactly once. */
  lemma {:induction false} CreditTouched(b: GrnBook, lines: seq<GrnLine>, grnId: int)
    requires Credit(b, lines, grnId).Ok?
    ensures var r := Credit(b, lines, grnId).value;
      (forall pid :: pid in r.touched <==> pid in b.touched || Names(lines, pid)) &&
      (Distinct(b.touched) ==> Distinct(r.touched))
    decreases |lines|
  {
    if lines != [] {
      var rest := lines[1..];
      CreditTouched(CreditLine(b, lines[0], grnId), rest, grnId);
      forall pid | Names(rest, pid)
        ensures Names(lines, pid)
      {
        var i :| 0 <= i < |rest| && rest[i].productId == pid;
        assert lines[i + 1] == rest[i];
      }
      forall pid | Names(lines, pid) && pid != lines[0].productId
        ensures Names(rest, pid)
      {
        var i :| 0 <= i < |lines| && lines[i].productId == pid;
        assert rest[i - 1] == lines[i];
      }
      assert Names(lines, lines[0].productId);
    }
  }

  /** Some line names product `pid`. */
  predicate Names(lines: seq<GrnLine>, pid: int)
  {
    exists i :: 0 <= i < |lines| && lines[i].productId == pid
  }

  /** What a committed receipt leaves behind. */
  datatype GrnCommit = GrnCommit(
    grnId: int,
    receipt: GrnReceipt,
    book: GrnBook,
    purchaseOrders: map<int, PurchaseOrder>)

  /**
   * `receiveGRN` from validation to commit. `grnId` is the id the `grn_receipts` insert
   * receives and `receivedBy` the caller's user id (0 when the request carries none).
   */
  function ReceiveSpec(
    pos: map<int, PurchaseOrder>, products: map<int, Product>, movements: seq<Movement>,
    grnItems: seq<GrnItem>, grnId: int,
    poId: Option<int>, lines: seq<GrnLine>, note: Option<string>, receivedBy: int): (r: Result<GrnCommit, GrnError>)
    ensures ValidateGrn(poId, lines).Some? ==> r == Err(ValidateGrn(poId, lines).value)
    ensures ValidateGrn(poId, lines).None? && poId.value !in pos ==> r == Err(PONotFound)
    ensures ValidateGrn(poId, lines).None? && poId.value in pos && !Receivable(pos[poId.value].status)
      ==> r == Err(NotReceivable)
    ensures r.Ok? <==> (ValidateGrn(poId, lines).None? && poId.value in pos && Receivable(pos[poId.value].status)
      && Credit(GrnBook(products, movements, grnItems, []), lines, grnId).Ok?)
    ensures (ValidateGrn(poId, lines).None? && poId.value in pos && Receivable(pos[poId.value].status) && r.Err?)
      ==> r.error.ProductNotFound? && r.error.productId !in products
    ensures r.Ok? ==>
      && r.value.grnId == grnId && r.value.receipt.poId == poId.value
      && r.value.book.products.Keys == products.Keys && r.value.purchaseOrders.Keys == pos.Keys
  {
    match ValidateGrn(poId, lines)
    case Some(e) => Err(e)
    case None =>
      var id := poId.value;
      if id !in pos then Err(PONotFound)
      else if !Receivable(pos[id].status) then Err(NotReceivable)
      else
        match Credit(GrnBook(products, movements, grnItems, []), lines, grnId)
        case Err(e) => Err(e)
        case Ok(book) =>
          Ok(GrnCommit(grnId, GrnReceipt(id, IdOrNull(receivedBy), OrNull(note)), book,
            pos[id := pos[id].(status := Received)]))
  }

  /** A PO that is already `received` cannot be received again. */
  lemma ReceivedIsFinal(
    pos: map<int, PurchaseOrder>, products: map<int, Product>, movements: seq<Movement>,
    grnItems: seq<GrnItem>, grnId: int, id: int, lines: seq<GrnLine>, note: Option<string>, receivedBy: int)
    requires id in pos && pos[id].status == Received
    ensures ReceiveSpec(pos, products, movements, grnItems, grnId, Some(id), lines, note, receivedBy).Err?
  {
  }

  /**
   * A committed receipt: the PO existed in a receivable status and is now `received`,
   * no other PO changed, and the GRN row points at it. A second receipt against the
   * same PO is then rejected.
   */
  lemma ReceiveStampsReceived(
    pos: map<int, PurchaseOrder>, products: map<int, Product>, movements: seq<Movement>,
    grnItems: seq<GrnItem>, grnId: int, poId: Option<int>, lines: seq<GrnLine>, note: Option<string>, receivedBy: int)
    requires ReceiveSpec(pos, products, movements, grnItems, grnId, poId, lines, note, receivedBy).Ok?
    ensures var c := ReceiveSpec(pos, products, movements, grnItems, grnId, poId, lines, note, receivedBy).value;
      && poId.Some? && StatusStep(pos, c.purchaseOrders, poId.value)
      && Receivable(pos[poId.value].status) && c.purchaseOrders[poId.value].status == Received
      && c.receipt.poId == poId.value
      && forall grn', products', movements', items', lines', note', by' ::
           ReceiveSpec(c.purchaseOrders, products', movements', items', grn', poId, lines', note', by').Err?
  {
  }

  /**
   * A committed receipt keeps the ledger balanced, changes nothing but stock, never
   * lowers stock while pack sizes are non-negative, and writes one GRN item and one
   * `in`/`purchase` movement per line, each carrying the line's units.
   */
  lemma ReceiveKeepsLedger(
    pos: map<int, PurchaseOrder>, products: map<int, Product>, movements: seq<Movement>,
    grnItems: seq<GrnItem>, grnId: int, poId: Option<int>, lines: seq<GrnLine>, note: Option<string>, receivedBy: int)
    requires ReceiveSpec(pos, products, movements, grnItems, grnId, poId, lines, note, receivedBy).Ok?
    ensures var c := ReceiveSpec(pos, products, movements, grnItems, grnId, poId, lines, note, receivedBy).value;
      && c.book.products.Keys == products.Keys
      && (forall pid :: pid in products ==>
            c.book.products[pid] == products[pid].(stockUnits := products[pid].stockUnits + TotalReceived(products, lines, pid)))
      && (Balanced(products, movements) ==> Balanced(c.book.products, c.book.movements))
      && ((forall q :: q in products ==> products[q].packSize >= 0) ==>
            forall q :: q in products ==> c.book.products[q].stockUnits >= products[q].stockUnits)
      && (forall i :: 0 <= i < |lines| ==> lines[i].productId in products)
      && c.book.movements == movements + GrnMovements(products, lines, grnId)
      && c.book.grnItems == grnItems + GrnRows(lines, grnId)
      && Distinct(c.book.touched)
      && (forall pid :: pid in c.book.touched <==> Names(lines, pid))
  {
    var b := GrnBook(products, movements, grnItems, []);
    CreditStock(b, lines, grnId);
    CreditMovements(b, lines, grnId);
    CreditRows(b, lines, grnId);
    CreditTouched(b, lines, grnId);
    if Balanced(products, movements) {
      CreditBalanced(b, lines, grnId);
    }
    if forall q :: q in products ==> products[q].packSize >= 0 {
      CreditNeverLowersStock(b, lines, grnId);
    }
  }

  /** The receipt records only movements of existing products and rows of this GRN. */
  lemma CreditKeepsForeignKeys(b: GrnBook, lines: seq<GrnLine>, grnId: int, nextProductId: int)
    requires Credit(b, lines, grnId).Ok?
    requires forall k :: k in b.products ==> k < nextProductId
    requires forall i :: 0 <= i < |b.movements| ==> b.movements[i].productId < nextProductId
    requires forall i :: 0 <= i < |b.grnItems| ==> b.grnItems[i].grnId < grnId
    ensures var r := Credit(b, lines, grnId).value;
      && r.products.Keys == b.products.Keys
      && (forall i :: 0 <= i < |r.movements| ==> r.movements[i].productId < nextProductId)
      && (forall i :: 0 <= i < |r.grnItems| ==> r.grnItems[i].grnId <= grnId)
  {
    CreditStock(b, lines, grnId);
    CreditMovements(b, lines, grnId);
    CreditRows(b, lines, grnId);
    var r := Credit(b, lines, grnId).value;
    forall i | 0 <= i < |r.movements|
      ensures r.movements[i].productId < nextProductId
    {
      if i >= |b.movements| {
        GrnMovementsAt(b.products, lines, grnId, i - |b.movements|);
      }
    }
    forall i | 0 <= i < |r.grnItems|
      ensures r.grnItems[i].grnId <= grnId
    {
      if i >= |b.grnItems| {
        GrnRowsAt(lines, grnId, i - |b.grnItems|);
      }
    }
  }

  /** `receiveGRN` inside its transaction: on any error no table changes. */
  method ReceiveGRN(db: Database, poId: Option<int>, items: seq<GrnLine>, note: Option<string>, receivedBy: int)
    returns (r: Result<GrnCommit, GrnError>)
    requires db.Valid()
    modifies db`products, db`movements, db`grnReceipts, db`nextGrnId, db`grnItems, db`purchaseOrders
    ensures db.Valid()
    ensures r == ReceiveSpec(old(db.purchaseOrders), old(db.products), old(db.movements), old(db.grnItems),
      old(db.nextGrnId), poId, items, note, receivedBy)
    ensures r.Ok? ==>
      && db.products == r.value.book.products
      && db.movements == r.value.book.movements
      && db.grnItems == r.value.book.grnItems
      && db.purchaseOrders == r.value.purchaseOrders
      && db.grnReceipts == old(db.grnReceipts)[r.value.grnId := r.value.receipt]
      && db.nextGrnId == old(db.nextGrnId) + 1
    ensures r.Err? ==> unchanged(db)
  {
    var invalid := ValidateGrnLines(poId, items);
    if invalid.Some? {
      return Err(invalid.value);
    }
    var id := poId.value;
    if id !in db.purchaseOrders {
      return Err(PONotFound);
    }
    var status := db.purchaseOrders[id].status;
    if status != Sent && status != Confirmed && status != Draft {
      return Err(NotReceivable);
    }
    var grnId := db.nextGrnId;
    var receipt := GrnReceipt(id, IdOrNull(receivedBy), OrNull(note));
    var b := GrnBook(db.products, db.movements, db.grnItems, []);
    var credited := CreditLines(b, items, grnId);
    if credited.Err? {
      return Err(credited.error);
    }
    CreditKeepsForeignKeys(b, items, grnId, db.nextProductId);
    var book := credited.value;
    CommitGrn(db, id, receipt, book);
    r := Ok(GrnCommit(grnId, receipt, book, db.purchaseOrders));
  }

  /** The writes of a receipt that passed every check. */
  method CommitGrn(db: Database, poId: int, receipt: GrnReceipt, book: GrnBook)
    requires db.Valid() && poId in db.purchaseOrders
    requires book.products.Keys == db.products.Keys
    requires forall i :: 0 <= i < |book.movements| ==> book.movements[i].productId < db.nextProductId
    requires forall i :: 0 <= i < |book.grnItems| ==> book.grnItems[i].grnId <= db.nextGrnId
    modifies db`products, db`movements, db`grnReceipts, db`nextGrnId, db`grnItems, db`purchaseOrders
    ensures db.Valid()
    ensures db.products == book.products && db.movements == book.movements && db.grnItems == book.grnItems
    ensures db.grnReceipts == old(db.grnReceipts)[old(db.nextGrnId) := receipt]
    ensures db.nextGrnId == old(db.nextGrnId) + 1
    ensures db.purchaseOrders == old(db.purchaseOrders)[poId := old(db.purchaseOrders)[poId].(status := Received)]
  {
    db.products, db.movements, db.grnItems := book.products, book.movements, book.grnItems;
    db.grnReceipts, db.nextGrnId := db.grnReceipts[db.nextGrnId := receipt], db.nextGrnId + 1;
    db.purchaseOrders := db.purchaseOrders[poId := db.purchaseOrders[poId].(status := Received)];
  }

  /** `receiveGRN` followed, after the commit, by the notifier for every received product. */
  method ReceiveGRNAndNotify(db: Database, poId: Option<int>, items: seq<GrnLine>, note: Option<string>, receivedBy: int)
    returns (r: Result<GrnCommit, GrnError>)
    requires db.Valid()
    modifies db`products, db`movements, db`grnReceipts, db`nextGrnId, db`grnItems, db`purchaseOrders, db`outbox
    ensures db.Valid()
    ensures r == ReceiveSpec(old(db.purchaseOrders), old(db.products), old(db.movements), old(db.grnItems),
      old(db.nextGrnId), poId, items, note, receivedBy)
    ensures r.Ok? ==>
      var n := NotifyAll(r.value.book.products, RecipientsOf(db.users, db.nextUserId), r.value.book.touched);
      && db.products == n.products
      && db.outbox == old(db.outbox) + n.sent
      && db.movements == r.value.book.movements
      && db.grnItems == r.value.book.grnItems
      && db.grnReceipts == old(db.grnReceipts)[r.value.grnId := r.value.receipt]
      && db.nextGrnId == old(db.nextGrnId) + 1
      && db.purchaseOrders == r.value.purchaseOrders
    ensures r.Err? ==> unchanged(db)
  {
    r := ReceiveGRN(db, poId, items, note, receivedBy);
    if r.Ok? {
      NotifyEach(db, r.value.book.touched);
    }
  }

  /**
   * Because `sendPO` checks no status, sending a `received` PO makes it receivable again:
   * the same order can then be received, and stock credited, a second time.
   */
  lemma SendReopensReceivedPO(pos: map<int, PurchaseOrder>, id: int)
    requires id in pos && pos[id].status == Received
    ensures Receivable(SendSpec(pos, id)[id].status)
  {
  }

  // ---------------------------------------------------------------- supplierConfirmPO

  datatype ConfirmError = NotLinked | ConfirmNotFound | ConfirmForbidden | NotConfirmable

  /** The supplier organisation the caller's account is linked to (`usr?.supplier_id`, 0 as NULL). */
  function LinkedSupplier(users: map<int, User>, userId: int): (r: Option<int>)
    ensures r.Some? ==> userId in users && users[userId].supplierId == r && r.value != 0
  {
    if userId in users && users[userId].supplierId.Some? && users[userId].supplierId.value != 0
    then users[userId].supplierId
    else None
  }

  /** `supplierConfirmPO`: only the owning supplier, only from `draft` or `sent`. */
  function ConfirmSpec(pos: map<int, PurchaseOrder>, users: map<int, User>, userId: int, poId: int)
    : (r: Result<map<int, PurchaseOrder>, ConfirmError>)
    ensures r.Ok? ==> StatusStep(pos, r.value, poId) && r.value[poId].status == Confirmed
    ensures r.Ok? ==> LinkedSupplier(users, userId) == Some(pos[poId].supplierId)
    ensures r.Ok? ==> pos[poId].status in {Draft, Sent}
    ensures LinkedSupplier(users, userId).None? ==> r == Err(NotLinked)
    ensures (LinkedSupplier(users, userId).Some? && poId in pos
      && LinkedSupplier(users, userId).value != pos[poId].supplierId) ==> r == Err(ConfirmForbidden)
    ensures LinkedSupplier(users, userId).Some? && poId !in pos ==> r == Err(ConfirmNotFound)
    ensures (LinkedSupplier(users, userId).Some? && poId in pos
      && LinkedSupplier(users, userId).value == pos[poId].supplierId && pos[poId].status !in {Draft, Sent})
      ==> r == Err(NotConfirmable)
  {
    match LinkedSupplier(users, userId)
    case None => Err(NotLinked)
    case Some(sid) =>
      if poId !in pos then Err(ConfirmNotFound)
      else if pos[poId].supplierId != sid then Err(ConfirmForbidden)
      else if pos[poId].status != Sent && pos[poId].status != Draft then Err(NotConfirmable)
      else Ok(pos[poId := pos[poId].(status := Confirmed)])
  }

  /** Confirming twice fails the second time; a confirmed PO can still be received. */
  lemma ConfirmOnce(pos: map<int, PurchaseOrder>, users: map<int, User>, userId: int, poId: int)
    requires ConfirmSpec(pos, users, userId, poId).Ok?
    ensures ConfirmSpec(ConfirmSpec(pos, users, userId, poId).value, users, userId, poId) == Err(NotConfirmable)
    ensures Receivable(ConfirmSpec(pos, users, userId, poId).value[poId].status)
  {
  }

  /** `supplierConfirmPO` against the database; `None` is the success answer. */
  method SupplierConfirmPO(db: Database, userId: int, poId: int) returns (err: Option<ConfirmError>)
    requires db.Valid()
    modifies db`purchaseOrders
    ensures db.Valid()
    ensures var spec := ConfirmSpec(old(db.purchaseOrders), db.users, userId, poId);
      && (spec.Ok? ==> err.None? && db.purchaseOrders == spec.value)
      && (spec.Err? ==> err == Some(spec.error) && db.purchaseOrders == old(db.purchaseOrders))
  {
    if userId !in db.users || db.users[userId].supplierId.None? || db.users[userId].supplierId.value == 0 {
      return Some(NotLinked);
    }
    var sid := db.users[userId].supplierId.value;
    if poId !in db.purchaseOrders {
      return Some(ConfirmNotFound);
    }
    var po := db.purchaseOrders[poId];
    if po.supplierId != sid {
      return Some(ConfirmForbidden);
    }
    if po.status != Sent && po.status != Draft {
      return Some(NotConfirmable);
    }
    db.purchaseOrders := db.purchaseOrders[poId := po.(status := Confirmed)];
    return None;
  }

  // ---------------------------------------------------------------- getPOById

  /** An item of the PO joined with its product. */
  datatype LineView = LineView(
    productId: int, productName: string, qtyPack: int, pricePerPack: int, packSize: int, unitName: string)

  datatype PODetail = PODetail(po: PurchaseOrder, supplierName: string, items: seq<LineView>)

  datatype ViewError = ViewNotFound | ViewForbidden

  function ViewOf(row: POItem, p: Product): LineView
  {
    LineView(row.productId, p.name, row.qtyPack, row.pricePerPack, p.packSize, p.unitName)
  }

  /** The item rows of `poId` joined with `products` (an inner join drops orphan rows). */
  function LineViews(rows: seq<POItem>, products: map<int, Product>, poId: int): (r: seq<LineView>)
    ensures |r| <= |rows|
    ensures forall v :: v in r ==>
      exists i :: (0 <= i < |rows| && rows[i].poId == poId
        && rows[i].productId in products && v == ViewOf(rows[i], products[rows[i].productId]))
    ensures forall i :: 0 <= i < |rows| && rows[i].poId == poId && rows[i].productId in products ==>
      ViewOf(rows[i], products[rows[i].productId]) in r
  {
    if rows == [] then []
    else
      var rest := LineViews(rows[1..], products, poId);
      assert forall i :: 1 <= i < |rows| ==> rows[i] == rows[1..][i - 1];
      if rows[0].poId == poId && rows[0].productId in products
      then [ViewOf(rows[0], products[rows[0].productId])] + rest
      else rest
  }
  /** One item row gives one view when it belongs to the PO and its product exists. */
  lemma LineViewsOne(row: POItem, products: map<int, Product>, poId: int)
    ensures LineViews([row], products, poId)
      == if row.poId == poId && row.productId in products then [ViewOf(row, products[row.productId])] else []
  {
    assert [row][1..] == [];
  }

  /**
   * The join keeps item rows one at a time, in order: with `LineViewsOne` this pins the
   * result to one view per matching row, in row order.
   */
  lemma {:induction false} LineViewsAppend(a: seq<POItem>, b: seq<POItem>, products: map<int, Product>, poId: int)
    ensures LineViews(a + b, products, poId) == LineViews(a, products, poId) + LineViews(b, products, poId)
    decreases |a|
  {
    if a == [] {
      assert a + b == b;
    } else {
      assert (a + b)[0] == a[0] && (a + b)[1..] == a[1..] + b;
      LineViewsAppend(a[1..], b, products, poId);
    }
  }

  /**
   * `getPOById`: the PO joined with its supplier (404 when either is missing); a caller
   * with role `supplier` must be linked to the PO's supplier (403 otherwise).
   */
  function GetPOById(
    pos: map<int, PurchaseOrder>, suppliers: map<int, Supplier>, users: map<int, User>,
    rows: seq<POItem>, products: map<int, Product>,
    callerRole: string, callerId: int, poId: int): (r: Result<PODetail, ViewError>)
    ensures r.Ok? ==> (poId in pos && pos[poId].supplierId in suppliers && r.value.po == pos[poId]
      && r.value.supplierName == suppliers[pos[poId].supplierId].name)
    ensures r.Ok? && callerRole == "supplier" ==>
      callerId in users && users[callerId].supplierId == Some(r.value.po.supplierId)
    ensures r == Err(ViewNotFound) <==> poId !in pos || pos[poId].supplierId !in suppliers
    ensures r.Ok? ==> r.value.items == LineViews(rows, products, poId)
  {
    if poId !in pos || pos[poId].supplierId !in suppliers then Err(ViewNotFound)
    else
      var po := pos[poId];
      if callerRole == "supplier" && (callerId !in users || users[callerId].supplierId != Some(po.supplierId))
      then Err(ViewForbidden)
      else Ok(PODetail(po, suppliers[po.supplierId].name, LineViews(rows, products, poId)))
  }

  /** A supplier sees only its own POs; any other role sees every PO that exists. */
  lemma SupplierSeesOnlyOwnPOs(
    pos: map<int, PurchaseOrder>, suppliers: map<int, Supplier>, users: map<int, User>,
    rows: seq<POItem>, products: map<int, Product>, callerId: int, poId: int)
    requires poId in pos && pos[poId].supplierId in suppliers
    ensures GetPOById(pos, suppliers, users, rows, products, "supplier", callerId, poId).Ok?
      <==> callerId in users && users[callerId].supplierId == Some(pos[poId].supplierId)
    ensures GetPOById(pos, suppliers, users, rows, products, "admin", callerId, poId).Ok?
  {
  }

  // ---------------------------------------------------------------- listAllPOs

  datatype POListQuery = POListQuery(conditions: seq<Condition>, args: seq<string>, page: Page)

  /** `%s%`: a LIKE pattern matching any text containing `s`. */
  function LikePattern(s: string): string
  {
    "%" + s + "%"
  }

  /**
   * The WHERE conditions, their arguments and the page of `listAllPOs`: every
   * placeholder has exactly one argument, a condition is present iff its trimmed query
   * value is non-empty, and the search condition comes first.
   */
  method ListAllPOsQuery(search: Option<string>, status: Option<string>, page: Option<int>, limit: Option<int>)
    returns (q: POListQuery)
    ensures q.page == ClampPage(page, limit)
    ensures TotalArity(q.conditions) == |q.args|
    ensures CodeOrSupplierLike in q.conditions <==> Trim(search.GetOr("")) != ""
    ensures StatusIs in q.conditions <==> Trim(status.GetOr("")) != ""
    ensures var s := Trim(search.GetOr("")); var st := Trim(status.GetOr(""));
      && q.conditions == (if s != "" then [CodeOrSupplierLike] else []) + (if st != "" then [StatusIs] else [])
      && q.args == (if s != "" then [LikePattern(s), LikePattern(s)] else []) + (if st != "" then [st] else [])
  {
    var s := Trim(search.GetOr(""));
    var st := Trim(status.GetOr(""));
    var conditions: seq<Condition> := [];
    var args: seq<string> := [];
    if s != "" {
      conditions, args := [CodeOrSupplierLike], [LikePattern(s), LikePattern(s)];
    }
    if st != "" {
      assert TotalArity(conditions + [StatusIs]) == TotalArity(conditions) + 1 by {
        assert (conditions + [StatusIs])[..|conditions|] == conditions;
      }
      conditions, args := conditions + [StatusIs], args + [st];
    }
    q := POListQuery(conditions, args, ClampPage(page, limit));
  }
}
