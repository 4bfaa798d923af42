/**
 * The product controller: `addProduct` validates a new product, clamps its initial
 * stock at zero, stores the status that stock and those thresholds give, and records
 * one `in`/`init` movement when the initial stock is positive; `updateProduct` writes
 * only the fields the request supplies and then runs the stock-status notifier when
 * stock or a threshold was among them. A direct stock edit is not paired with any
 * movement, so it is the one write here that can unbalance the ledger.
 */
module Products {
  import opened Common
  import opened StockStatus
  import opened Tables
  import opened Ledger
  import opened StockAlertService

  // ---------------------------------------------------------------- addProduct

  /**
   * An `addProduct` body. `None` is a field that is missing or null; `imageUrl` is the
   * path of the uploaded file, if any.
   */
  datatype NewProduct = NewProduct(
    name: Option<string>,
    sku: Option<string>,
    category: Option<string>,
    packSize: Option<int>,
    unitName: Option<string>,
    wholesalePricePerPack: Option<int>,
    retailPricePerUnit: Option<int>,
    minStock: Option<int>,
    maxStock: Option<int>,
    initialStock: Option<int>,
    imageUrl: Option<string>)

  datatype ProductError =
    | NameRequired
    | UnitNameRequired
    | BadPackSize
    | BadWholesalePrice
    | BadRetailPrice
    | SkuTaken
    | BadId
    | ProductNotFound

  /** Some product already carries this SKU. */
  predicate SkuInUse(products: map<int, Product>, sku: string)
  {
    exists pid :: pid in products && products[pid].sku == Some(sku)
  }

  /** The checks of `addProduct`, in the order the handler makes them. */
  function AddProductError(products: map<int, Product>, req: NewProduct): (r: Option<ProductError>)
    ensures Blank(req.name) ==> r == Some(NameRequired)
    ensures r.None? <==>
      && !Blank(req.name) && !Blank(req.unitName)
      && req.packSize.Some? && req.packSize.value > 0
      && req.wholesalePricePerPack.Some? && req.wholesalePricePerPack.value >= 0
      && req.retailPricePerUnit.Some? && req.retailPricePerUnit.value >= 0
      && (Blank(req.sku) || !SkuInUse(products, req.sku.value))
  {
    if Blank(req.name) then Some(NameRequired)
    else if Blank(req.unitName) then Some(UnitNameRequired)
    else if req.packSize.None? || req.packSize.value <= 0 then Some(BadPackSize)
    else if req.wholesalePricePerPack.None? || req.wholesalePricePerPack.value < 0 then Some(BadWholesalePrice)
    else if req.retailPricePerUnit.None? || req.retailPricePerUnit.value < 0 then Some(BadRetailPrice)
    else if !Blank(req.sku) && SkuInUse(products, req.sku.value) then Some(SkuTaken)
    else None
  }

  /** `Math.max(0, Number(initial_stock_units || 0))`. */
  function InitialStock(req: NewProduct): (r: int)
    ensures r >= 0
    ensures req.initialStock.Some? && req.initialStock.value >= 0 ==> r == req.initialStock.value
    ensures req.initialStock.None? || req.initialStock.value <= 0 ==> r == 0
  {
    var given := req.initialStock.GetOr(0);
    if given > 0 then given else 0
  }

  /** The row `addProduct` inserts, for a request that passed validation. */
  function NewRow(req: NewProduct): (p: Product)
    requires AddProductError(map[], req).None?
    ensures p.stockUnits == InitialStock(req)
    ensures p.lastStatus == Some(ComputeStatus(InitialStock(req), req.minStock, req.maxStock))
    ensures p.packSize > 0 && p.name != "" && p.unitName != ""
  {
    var stock := InitialStock(req);
    Product(req.name.value, OrNull(req.sku), OrNull(req.category), req.packSize.value, req.unitName.value,
      req.wholesalePricePerPack.value, req.retailPricePerUnit.value, stock, req.minStock, req.maxStock,
      Some(ComputeStatus(stock, req.minStock, req.maxStock)), OrNull(req.imageUrl))
  }

  /** The movement that records a positive initial stock. */
  function InitMovement(pid: int, units: int): Movement
  {
    Movement(pid, In, Init, "products", pid, units, "Initial stock")
  }

  /** The movements `addProduct` appends: one `in`/`init` movement iff the stock is positive. */
  function InitMovements(pid: int, req: NewProduct): (r: seq<Movement>)
    ensures |r| == (if InitialStock(req) > 0 then 1 else 0)
    ensures forall i :: 0 <= i < |r| ==> r[i] == InitMovement(pid, InitialStock(req))
  {
    if InitialStock(req) > 0 then [InitMovement(pid, InitialStock(req))] else []
  }

  datatype AddCommit = AddCommit(productId: int, product: Product, movements: seq<Movement>)

  /** `addProduct` from validation to commit; `pid` is the id the insert receives. */
  function AddProductSpec(products: map<int, Product>, movements: seq<Movement>, pid: int, req: NewProduct)
    : (r: Result<AddCommit, ProductError>)
    ensures r.Err? <==> AddProductError(products, req).Some?
    ensures r.Err? ==> r.error == AddProductError(products, req).value
    ensures r.Ok? ==>
      && AddProductError(map[], req).None?
      && r.value == AddCommit(pid, NewRow(req), movements + InitMovements(pid, req))
  {
    match AddProductError(products, req)
    case Some(e) => Err(e)
    case None => Ok(AddCommit(pid, NewRow(req), movements + InitMovements(pid, req)))
  }

  /**
   * Adding a product whose id no movement names yet keeps the ledger balanced and every
   * stock non-negative: the new stock is exactly the units of its own init movement.
   */
  lemma AddProductKeepsLedger(products: map<int, Product>, movements: seq<Movement>, pid: int, req: NewProduct)
    requires AddProductSpec(products, movements, pid, req).Ok?
    requires pid !in products
    requires forall i :: 0 <= i < |movements| ==> movements[i].productId != pid
    ensures var c := AddProductSpec(products, movements, pid, req).value;
      && (Balanced(products, movements) ==> Balanced(products[pid := c.product], c.movements))
      && (NonNegative(products) ==> NonNegative(products[pid := c.product]))
  {
    var c := AddProductSpec(products, movements, pid, req).value;
    var added := InitMovements(pid, req);
    assert c.product == NewRow(req) && c.movements == movements + added;
    var ps := products[pid := c.product];
    NetUnitsUnmentioned(movements, pid);
    if Balanced(products, movements) {
      forall q | q in ps
        ensures ps[q].stockUnits == NetUnits(c.movements, q)
      {
        NetUnitsConcat(movements, added, q);
        InitMovementsNet(pid, req, q);
      }
    }
  }

  /** The init movements add the initial stock to the new product and nothing to any other. */
  lemma InitMovementsNet(pid: int, req: NewProduct, q: int)
    ensures NetUnits(InitMovements(pid, req), q) == if q == pid then InitialStock(req) else 0
  {
    var stock := InitialStock(req);
    if stock > 0 {
      var m := InitMovement(pid, stock);
      assert InitMovements(pid, req) == [m];
      assert [m][..0] == [];
      assert NetUnits([m], q) == Delta(m, q);
    }
  }

  /** `addProduct` inside its transaction; no notification is sent on creation. */
  method AddProduct(db: Database, req: NewProduct) returns (r: Result<AddCommit, ProductError>)
    requires db.Valid()
    modifies db`products, db`nextProductId, db`movements
    ensures db.Valid()
    ensures r == AddProductSpec(old(db.products), old(db.movements), old(db.nextProductId), req)
    ensures r.Ok? ==>
      && db.products == old(db.products)[r.value.productId := r.value.product]
      && db.movements == r.value.movements
      && db.nextProductId == old(db.nextProductId) + 1
    ensures r.Err? ==> unchanged(db)
  {
    if req.name.None? || req.name.value == "" {
      return Err(NameRequired);
    }
    if req.unitName.None? || req.unitName.value == "" {
      return Err(UnitNameRequired);
    }
    if req.packSize.None? || req.packSize.value <= 0 {
      return Err(BadPackSize);
    }
    if req.wholesalePricePerPack.None? || req.wholesalePricePerPack.value < 0 {
      return Err(BadWholesalePrice);
    }
    if req.retailPricePerUnit.None? || req.retailPricePerUnit.value < 0 {
      return Err(BadRetailPrice);
    }
    if req.sku.Some? && req.sku.value != "" && SkuInUse(db.products, req.sku.value) {
      return Err(SkuTaken);
    }
    var stockInit := if req.initialStock.GetOr(0) > 0 then req.initialStock.GetOr(0) else 0;
    var status := ComputeStatus(stockInit, req.minStock, req.maxStock);
    var pid := db.nextProductId;
    var row := Product(req.name.value, OrNull(req.sku), OrNull(req.category), req.packSize.value,
      req.unitName.value, req.wholesalePricePerPack.value, req.retailPricePerUnit.value, stockInit,
      req.minStock, req.maxStock, Some(status), OrNull(req.imageUrl));
    var ms := db.movements;
    if stockInit > 0 {
      ms := ms + [Movement(pid, In, Init, "products", pid, stockInit, "Initial stock")];
    }
    assert row == NewRow(req);
    assert ms == db.movements + InitMovements(pid, req);
    assert db.LedgerValid();
    db.products, db.nextProductId, db.movements := db.products[pid := row], pid + 1, ms;
    r := Ok(AddCommit(pid, row, ms));
  }

  // ---------------------------------------------------------------- updateProduct

  /** The columns `updateProduct` may set; a nullable column takes an `Option`. */
  datatype ProductPatch = ProductPatch(
    name: Field<string>,
    sku: Field<Option<string>>,
    category: Field<Option<string>>,
    unitName: Field<string>,
    packSize: Field<int>,
    wholesalePricePerPack: Field<int>,
    retailPricePerUnit: Field<int>,
    stockUnits: Field<int>,
    minStock: Field<Option<int>>,
    maxStock: Field<Option<int>>)

  /** No key of the body was supplied: the `fields` list stays empty. */
  predicate EmptyPatch(f: ProductPatch)
  {
    && f.name.Absent? && f.sku.Absent? && f.category.Absent? && f.unitName.Absent?
    && f.packSize.Absent? && f.wholesalePricePerPack.Absent? && f.retailPricePerUnit.Absent?
    && f.stockUnits.Absent? && f.minStock.Absent? && f.maxStock.Absent?
  }

  /** Stock or a threshold was supplied: the condition for running the notifier afterwards. */
  predicate TouchesStockOrThresholds(f: ProductPatch)
  {
    f.stockUnits.Given? || f.minStock.Given? || f.maxStock.Given?
  }

  /** The row after `UPDATE products SET <supplied columns>`. */
  function Patched(p: Product, f: ProductPatch): (r: Product)
    ensures r.name == f.name.Apply(p.name) && r.sku == f.sku.Apply(p.sku)
    ensures r.category == f.category.Apply(p.category) && r.unitName == f.unitName.Apply(p.unitName)
    ensures r.packSize == f.packSize.Apply(p.packSize)
    ensures r.wholesalePricePerPack == f.wholesalePricePerPack.Apply(p.wholesalePricePerPack)
    ensures r.retailPricePerUnit == f.retailPricePerUnit.Apply(p.retailPricePerUnit)
    ensures r.stockUnits == f.stockUnits.Apply(p.stockUnits)
    ensures r.minStock == f.minStock.Apply(p.minStock) && r.maxStock == f.maxStock.Apply(p.maxStock)
    ensures r.lastStatus == p.lastStatus && r.imageUrl == p.imageUrl
    ensures EmptyPatch(f) ==> r == p
  {
    p.(name := f.name.Apply(p.name), sku := f.sku.Apply(p.sku), category := f.category.Apply(p.category),
       unitName := f.unitName.Apply(p.unitName), packSize := f.packSize.Apply(p.packSize),
       wholesalePricePerPack := f.wholesalePricePerPack.Apply(p.wholesalePricePerPack),
       retailPricePerUnit := f.retailPricePerUnit.Apply(p.retailPricePerUnit),
       stockUnits := f.stockUnits.Apply(p.stockUnits),
       minStock := f.minStock.Apply(p.minStock), maxStock := f.maxStock.Apply(p.maxStock))
  }

  datatype UpdateOutcome = Updated | NoChanges

  /**
   * `updateProduct` up to its write: `id` is `Number(req.params.id)` with a non-numeric
   * id taken as 0.
   */
  function UpdateSpec(products: map<int, Product>, id: int, f: ProductPatch)
    : (r: Result<(UpdateOutcome, map<int, Product>), ProductError>)
    ensures id == 0 ==> r == Err(BadId)
    ensures id != 0 && id !in products ==> r == Err(ProductNotFound)
    ensures r.Ok? ==> id in products && r.value.1.Keys == products.Keys
    ensures r.Ok? ==> forall q :: q in products && q != id ==> r.value.1[q] == products[q]
    ensures r.Ok? && EmptyPatch(f) ==> r.value == (NoChanges, products)
    ensures r.Ok? && !EmptyPatch(f) ==> r.value.0 == Updated && r.value.1[id] == Patched(products[id], f)
  {
    if id == 0 then Err(BadId)
    else if id !in products then Err(ProductNotFound)
    else if EmptyPatch(f) then Ok((NoChanges, products))
    else Ok((Updated, products[id := Patched(products[id], f)]))
  }

  /**
   * The ledger after an update that supplies `stock_units`: it stays balanced exactly
   * when the new stock equals the old one, because no movement is written.
   */
  lemma StockEditUnbalances(products: map<int, Product>, ms: seq<Movement>, id: int, f: ProductPatch)
    requires Balanced(products, ms)
    requires UpdateSpec(products, id, f).Ok?
    ensures Balanced(UpdateSpec(products, id, f).value.1, ms)
      <==> f.stockUnits.Apply(products[id].stockUnits) == products[id].stockUnits
  {
    var ps' := UpdateSpec(products, id, f).value.1;
    if f.stockUnits.Apply(products[id].stockUnits) != products[id].stockUnits {
      assert ps'[id].stockUnits != NetUnits(ms, id);
    }
  }

  /** An update without `stock_units` keeps a balanced ledger balanced. */
  lemma UpdateWithoutStockKeepsLedger(products: map<int, Product>, ms: seq<Movement>, id: int, f: ProductPatch)
    requires Balanced(products, ms) && f.stockUnits.Absent?
    requires UpdateSpec(products, id, f).Ok?
    ensures Balanced(UpdateSpec(products, id, f).value.1, ms)
  {
    StockEditUnbalances(products, ms, id, f);
  }

  /** `updateProduct`: the write, then the notifier when stock or a threshold was supplied. */
  method UpdateProduct(db: Database, id: int, f: ProductPatch) returns (r: Result<UpdateOutcome, ProductError>)
    requires db.Valid()
    modifies db`products, db`outbox
    ensures db.Valid()
    ensures var spec := UpdateSpec(old(db.products), id, f);
      && (spec.Err? ==> r == Err(spec.error) && unchanged(db))
      && (spec.Ok? ==> r == Ok(spec.value.0))
      && (spec.Ok? && !TouchesStockOrThresholds(f) ==> db.products == spec.value.1 && db.outbox == old(db.outbox))
      && (spec.Ok? && TouchesStockOrThresholds(f) ==>
            var n := Notify(spec.value.1, RecipientsOf(db.users, db.nextUserId), id);
            db.products == n.products && db.outbox == old(db.outbox) + n.sent)
  {
    if id == 0 {
      return Err(BadId);
    }
    if id !in db.products {
      return Err(ProductNotFound);
    }
    if EmptyPatch(f) {
      return Ok(NoChanges);
    }
    var row := Patched(db.products[id], f);
    db.products := db.products[id := row];
    r := Ok(Updated);
    if f.stockUnits.Given? || f.minStock.Given? || f.maxStock.Given? {
      NotifyStockStatus(db, id);
    }
  }
}
