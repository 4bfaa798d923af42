/**
 * The edge-triggered stock-status notifier. It recomputes a product's status, and only
 * when that differs from the stored `last_stock_status` (a missing one counts as
 * NORMAL) it stores the new status and, for LOW or OVER, hands one warning per admin
 * recipient to the WhatsApp gateway. Delivery outcomes are ignored.
 */
module StockAlertService {
  import opened Common
  import opened Text
  import opened StockStatus
  import opened Tables
  import opened Phone
  import opened Ledger

  datatype Recipient = Recipient(name: string, phone: string)

  /** The SQL filter: active admins whose phone is neither NULL nor empty. */
  predicate IsAdminWithPhone(u: User)
  {
    u.role == "admin" && u.isActive && u.phone.Some? && u.phone.value != ""
  }

  /** Admin rows that survive the SQL filter and whose phone normalises to a number. */
  predicate Reachable(u: User)
  {
    IsAdminWithPhone(u) && NormalizePhone(u.phone).Some?
  }

  function RecipientOf(u: User): Recipient
    requires Reachable(u)
  {
    Recipient(if u.name == "" then "Admin" else u.name, NormalizePhone(u.phone).value)
  }

  /** `getAdminRecipients`: map to {name || 'Admin', normalised phone}, drop null phones. */
  function AdminRecipients(rows: seq<User>): (r: seq<Recipient>)
    ensures |r| <= |rows|
    ensures forall i :: 0 <= i < |r| ==>
      AllDigits(r[i].phone) && StartsWith(r[i].phone, "62") && r[i].name != ""
    ensures forall u :: u in rows && Reachable(u) ==> RecipientOf(u) in r
    ensures forall x :: x in r ==> exists u :: u in rows && Reachable(u) && x == RecipientOf(u)
  {
    if rows == [] then []
    else
      var rest := AdminRecipients(rows[1..]);
      assert forall u :: u in rows[1..] ==> u in rows;
      if Reachable(rows[0]) then [RecipientOf(rows[0])] + rest else rest
  }

  /** One admin row gives one recipient when it is reachable and none otherwise. */
  lemma AdminRecipientsOne(u: User)
    ensures AdminRecipients([u]) == if Reachable(u) then [RecipientOf(u)] else []
  {
    assert [u][1..] == [];
  }

  /**
   * The rows are mapped one at a time, in order: with `AdminRecipientsOne` this pins the
   * result to one recipient per reachable row, in row order, duplicates included.
   */
  lemma {:induction false} AdminRecipientsAppend(a: seq<User>, b: seq<User>)
    ensures AdminRecipients(a + b) == AdminRecipients(a) + AdminRecipients(b)
    decreases |a|
  {
    if a == [] {
      assert a + b == b;
    } else {
      assert (a + b)[0] == a[0] && (a + b)[1..] == a[1..] + b;
      AdminRecipientsAppend(a[1..], b);
    }
  }

  /** The recipients as the database currently yields them. */
  function RecipientsOf(users: map<int, User>, nextUserId: int): seq<Recipient>
  {
    AdminRecipients(UsersInIdOrder(users, nextUserId))
  }

  function Warnings(admins: seq<Recipient>, condition: string, productName: string, stock: int): (r: seq<WaMessage>)
    ensures |r| == |admins|
    ensures forall i :: 0 <= i < |r| ==>
      r[i] == StockWarning(admins[i].phone, admins[i].name, condition, productName, stock)
  {
    seq(|admins|, i requires 0 <= i < |admins| =>
      StockWarning(admins[i].phone, admins[i].name, condition, productName, stock))
  }

  function CurrentStatus(p: Product): Status
  {
    ComputeStatus(p.stockUnits, p.minStock, p.maxStock)
  }

  function PreviousStatus(p: Product): Status
  {
    p.lastStatus.GetOr(Normal)
  }

  /** Two product tables that differ at most in the stored statuses. */
  ghost predicate SameExceptStatus(ps: map<int, Product>, ps': map<int, Product>)
  {
    ps'.Keys == ps.Keys &&
    forall q :: q in ps ==> ps'[q] == ps[q].(lastStatus := ps'[q].lastStatus)
  }

  datatype NotifyEffect = NotifyEffect(products: map<int, Product>, sent: seq<WaMessage>)

  /** `notifyAdminsStockStatus(pid)`: the status write and the warnings it hands out. */
  function Notify(products: map<int, Product>, admins: seq<Recipient>, pid: int): (e: NotifyEffect)
    ensures SameExceptStatus(products, e.products)
    ensures forall q :: q in products && q != pid ==> e.products[q] == products[q]
    ensures pid !in products ==> e == NotifyEffect(products, [])
    ensures pid in products && CurrentStatus(products[pid]) == PreviousStatus(products[pid])
      ==> e == NotifyEffect(products, [])
    ensures pid in products && CurrentStatus(products[pid]) != PreviousStatus(products[pid])
      ==> e.products[pid].lastStatus == Some(CurrentStatus(products[pid]))
    ensures |e.sent| > 0 ==>
      pid in products && CurrentStatus(products[pid]) != PreviousStatus(products[pid])
      && CurrentStatus(products[pid]) != Normal
    ensures pid in products && CurrentStatus(products[pid]) != PreviousStatus(products[pid])
      && CurrentStatus(products[pid]) != Normal
      ==> e.sent == Warnings(admins, Label(CurrentStatus(products[pid])), products[pid].name, products[pid].stockUnits)
  {
    if pid !in products then NotifyEffect(products, [])
    else
      var p := products[pid];
      var current := CurrentStatus(p);
      if current == PreviousStatus(p) then NotifyEffect(products, [])
      else
        var stored := products[pid := p.(lastStatus := Some(current))];
        if current == Normal then NotifyEffect(stored, [])
        else NotifyEffect(stored, Warnings(admins, Label(current), p.name, p.stockUnits))
  }

  /** A second call with nothing changed in between writes nothing and sends nothing. */
  lemma NotifyIdempotent(products: map<int, Product>, admins: seq<Recipient>, pid: int)
    ensures var once := Notify(products, admins, pid);
      Notify(once.products, admins, pid) == NotifyEffect(once.products, [])
  {
  }

  /** Two calls in a row send at most one round of warnings between them. */
  lemma NotifyTwiceSendsOneRound(products: map<int, Product>, admins: seq<Recipient>, pid: int)
    ensures var once := Notify(products, admins, pid);
      var twice := Notify(once.products, admins, pid);
      |once.sent| + |twice.sent| <= |admins|
  {
    NotifyIdempotent(products, admins, pid);
  }

  /**
   * After a notification, a stock or threshold change that leaves the computed status
   * where it was sends nothing: alerts fire on transitions, not on levels.
   */
  lemma NoAlertWithoutTransition(products: map<int, Product>, admins: seq<Recipient>, pid: int, p': Product)
    requires pid in products
    requires var once := Notify(products, admins, pid);
      p'.lastStatus == once.products[pid].lastStatus
      && CurrentStatus(p') == CurrentStatus(products[pid])
    ensures var once := Notify(products, admins, pid);
      Notify(once.products[pid := p'], admins, pid).sent == []
  {
  }

  /** Notifying a list of products in turn, as the post-commit loops do. */
  function NotifyAll(products: map<int, Product>, admins: seq<Recipient>, ids: seq<int>): (r: NotifyEffect)
    ensures r.products.Keys == products.Keys
    ensures |r.sent| <= |ids| * |admins|
    decreases |ids|
  {
    if ids == [] then NotifyEffect(products, [])
    else
      var first := Notify(products, admins, ids[0]);
      var rest := NotifyAll(first.products, admins, ids[1..]);
      assert |first.sent| <= |admins|;
      assert (|ids| - 1) * |admins| + |admins| == |ids| * |admins|;
      NotifyEffect(rest.products, first.sent + rest.sent)
  }

  /** The notification loop touches nothing but stored statuses. */
  lemma {:induction false} NotifyAllOnlyStatus(products: map<int, Product>, admins: seq<Recipient>, ids: seq<int>)
    ensures SameExceptStatus(products, NotifyAll(products, admins, ids).products)
    decreases |ids|
  {
    if ids != [] {
      var first := Notify(products, admins, ids[0]);
      NotifyAllOnlyStatus(first.products, admins, ids[1..]);
    }
  }

  /** Statuses play no part in the ledger, so notifying keeps it balanced and non-negative. */
  lemma SameExceptStatusKeepsLedger(ps: map<int, Product>, ps': map<int, Product>, ms: seq<Movement>)
    requires SameExceptStatus(ps, ps')
    ensures Balanced(ps, ms) ==> Balanced(ps', ms)
    ensures NonNegative(ps) ==> NonNegative(ps')
  {
    assert forall q :: q in ps' ==> ps'[q].stockUnits == ps[q].stockUnits;
  }

  /** `notifyAdminsStockStatus` on a product id, against the database. */
  method NotifyStockStatus(db: Database, pid: int)
    requires db.Valid()
    modifies db`products, db`outbox
    ensures db.Valid()
    ensures var e := Notify(old(db.products), RecipientsOf(db.users, db.nextUserId), pid);
      db.products == e.products && db.outbox == old(db.outbox) + e.sent
  {
    if pid !in db.products {
      return;
    }
    var p := db.products[pid];
    var current := ComputeStatus(p.stockUnits, p.minStock, p.maxStock);
    var previous := p.lastStatus.GetOr(Normal);
    if current == previous {
      return;
    }
    db.products := db.products[pid := p.(lastStatus := Some(current))];
    if current == Normal {
      return;
    }
    var condition := Label(current);
    var admins := RecipientsOf(db.users, db.nextUserId);
    if |admins| == 0 {
      return;
    }
    db.outbox := db.outbox + Warnings(admins, condition, p.name, p.stockUnits);
  }

  /** The post-commit loop: notify each changed product once, in order. */
  method NotifyEach(db: Database, ids: seq<int>)
    requires db.Valid()
    modifies db`products, db`outbox
    ensures db.Valid()
    ensures var e := NotifyAll(old(db.products), RecipientsOf(db.users, db.nextUserId), ids);
      db.products == e.products && db.outbox == old(db.outbox) + e.sent
  {
    ghost var admins := RecipientsOf(db.users, db.nextUserId);
    ghost var whole := NotifyAll(db.products, admins, ids);
    var i := 0;
    while i < |ids|
      invariant 0 <= i <= |ids|
      invariant db.Valid()
      invariant admins == RecipientsOf(db.users, db.nextUserId)
      invariant whole.products == NotifyAll(db.products, admins, ids[i..]).products
      invariant old(db.outbox) + whole.sent == db.outbox + NotifyAll(db.products, admins, ids[i..]).sent
    {
      ghost var before, sentBefore := db.products, db.outbox;
      ghost var first := Notify(before, admins, ids[i]);
      ghost var rest := NotifyAll(first.products, admins, ids[i + 1..]);
      assert ids[i..][0] == ids[i] && ids[i..][1..] == ids[i + 1..];
      assert NotifyAll(before, admins, ids[i..]) == NotifyEffect(rest.products, first.sent + rest.sent);
      NotifyStockStatus(db, ids[i]);
      assert db.outbox == sentBefore + first.sent;
      AppendAssoc(sentBefore, first.sent, rest.sent);
      i := i + 1;
    }
  }
}
