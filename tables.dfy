/**
 * The relational database the controllers share, as in-memory state: one class whose
 * fields are the tables. Tables keyed by an AUTO_INCREMENT id are maps together with
 * the next id to hand out; append-only tables (stock movements, sale items, PO items,
 * GRN items) are sequences. Outbound WhatsApp messages are collected in `outbox`.
 */
module Tables {
  import opened Common
  import opened StockStatus

  /** A row of `products`. The id is the map key. */
  datatype Product = Product(
    name: string,
    sku: Option<string>,
    category: Option<string>,
    packSize: int,
    unitName: string,
    wholesalePricePerPack: int,
    retailPricePerUnit: int,
    stockUnits: int,
    minStock: Option<int>,
    maxStock: Option<int>,
    lastStatus: Option<Status>,
    imageUrl: Option<string>)

  datatype Direction = In | Out
  datatype Source = Init | Purchase | SaleOut

  /** A row of `stock_movements`: never updated or deleted. */
  datatype Movement = Movement(
    productId: int,
    direction: Direction,
    source: Source,
    refTable: string,
    refId: int,
    qtyUnits: int,
    note: string)

  datatype ItemType = Unit | Pack
  datatype PaymentMethod = Cash | Qris | Card

  /** A row of `sales`. */
  datatype Sale = Sale(
    receiptNo: string,
    cashierId: Option<int>,
    subtotal: int,
    total: int,
    paymentMethod: PaymentMethod,
    customerName: Option<string>,
    cashReceived: Option<int>,
    changeAmount: int)

  /** A row of `sale_items`. */
  datatype SaleItem = SaleItem(
    saleId: int,
    productId: int,
    itemType: ItemType,
    qty: int,
    price: int,
    lineTotal: int)

  datatype POStatus = Draft | Sent | Confirmed | Received

  /** A row of `purchase_orders`. */
  datatype PurchaseOrder = PurchaseOrder(
    code: string,
    supplierId: int,
    requestedBy: int,
    status: POStatus,
    note: Option<string>)

  /** A row of `purchase_order_items`. */
  datatype POItem = POItem(poId: int, productId: int, qtyPack: int, pricePerPack: int)

  /** A row of `grn_receipts`. */
  datatype GrnReceipt = GrnReceipt(poId: int, receivedBy: Option<int>, note: Option<string>)

  /** A row of `grn_receipt_items`. */
  datatype GrnItem = GrnItem(grnId: int, productId: int, qtyPack: int)

  /** A row of `users`; the role is stored by name (the `roles` table maps names to ids). */
  datatype User = User(
    name: string,
    email: string,
    phone: Option<string>,
    role: string,
    supplierId: Option<int>,
    passwordHash: string,
    isActive: bool)

  /** A row of `suppliers`. */
  datatype Supplier = Supplier(
    name: string,
    phone: Option<string>,
    email: Option<string>,
    address: Option<string>,
    picName: Option<string>)

  /** One stock warning handed to the WhatsApp gateway. */
  datatype WaMessage = StockWarning(
    phone: string,
    displayName: string,
    condition: string,
    productName: string,
    stock: int)

  /** Every key is a valid AUTO_INCREMENT id below the next one to be handed out. */
  ghost predicate IdsBelow<V>(m: map<int, V>, next: int)
  {
    1 <= next && forall k :: k in m ==> 1 <= k < next
  }

  /**
   * The rows of `users` with id below `upTo`, in ascending id order: the order in which
   * the model lets a query without ORDER BY return them.
   */
  function UsersInIdOrder(users: map<int, User>, upTo: int): (r: seq<User>)
    ensures |r| <= if upTo <= 1 then 0 else upTo - 1
    ensures forall i :: 0 <= i < |r| ==> r[i] in users.Values
    decreases upTo
  {
    if upTo <= 1 then []
    else UsersInIdOrder(users, upTo - 1) + (if upTo - 1 in users then [users[upTo - 1]] else [])
  }

  class Database {
    var products: map<int, Product>
    var nextProductId: int
    var movements: seq<Movement>
    var sales: map<int, Sale>
    var nextSaleId: int
    var saleItems: seq<SaleItem>
    var purchaseOrders: map<int, PurchaseOrder>
    var nextPOId: int
    var poItems: seq<POItem>
    var grnReceipts: map<int, GrnReceipt>
    var nextGrnId: int
    var grnItems: seq<GrnItem>
    var users: map<int, User>
    var nextUserId: int
    var suppliers: map<int, Supplier>
    var nextSupplierId: int
    var roles: set<string>
    var outbox: seq<WaMessage>

    /** Product ids follow AUTO_INCREMENT and every movement names a product id handed out. */
    ghost predicate LedgerValid()
      reads this`products, this`nextProductId, this`movements
    {
      && IdsBelow(products, nextProductId)
      && (forall i :: 0 <= i < |movements| ==> movements[i].productId < nextProductId)
    }

    ghost predicate SalesValid()
      reads this`sales, this`nextSaleId
    {
      IdsBelow(sales, nextSaleId)
    }

    /** PO and GRN ids follow AUTO_INCREMENT and item rows refer to ids already handed out. */
    ghost predicate PurchasesValid()
      reads this`purchaseOrders, this`nextPOId, this`poItems, this`grnReceipts, this`nextGrnId, this`grnItems
    {
      && IdsBelow(purchaseOrders, nextPOId)
      && IdsBelow(grnReceipts, nextGrnId)
      && (forall i :: 0 <= i < |poItems| ==> poItems[i].poId < nextPOId)
      && (forall i :: 0 <= i < |grnItems| ==> grnItems[i].grnId < nextGrnId)
    }

    ghost predicate PeopleValid()
      reads this`users, this`nextUserId, this`suppliers, this`nextSupplierId
    {
      IdsBelow(users, nextUserId) && IdsBelow(suppliers, nextSupplierId)
    }

    /**
     * The id discipline of AUTO_INCREMENT, the foreign key from stock movements to
     * products (products are never deleted in this model), and item rows that refer
     * to ids already handed out.
     */
    ghost predicate Valid()
      reads this
    {
      LedgerValid() && SalesValid() && PurchasesValid() && PeopleValid()
    }

    /** An empty database whose `roles` table holds the given role names. */
    constructor (roleNames: set<string>)
      ensures Valid()
      ensures products == map[] && movements == [] && sales == map[] && saleItems == []
      ensures purchaseOrders == map[] && poItems == [] && grnReceipts == map[] && grnItems == []
      ensures users == map[] && suppliers == map[] && roles == roleNames && outbox == []
    {
      products, nextProductId, movements := map[], 1, [];
      sales, nextSaleId, saleItems := map[], 1, [];
      purchaseOrders, nextPOId, poItems := map[], 1, [];
      grnReceipts, nextGrnId, grnItems := map[], 1, [];
      users, nextUserId, suppliers, nextSupplierId := map[], 1, map[], 1;
      roles, outbox := roleNames, [];
    }
  }
}
