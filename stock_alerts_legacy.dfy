/**
 * The older stock notifier. It reads admin targets from a view, drops targets without
 * a phone, classifies the product with strict comparisons against `min ?? 0` and
 * `max ?? 999999999`, and sends one warning per target, counting the sends whose
 * response carries no error. It stores nothing and is not edge-triggered.
 */
module LegacyStockAlerts {
  import opened Common
  import opened StockStatus
  import opened Tables

  /** A row of the admin-targets view. */
  datatype Target = Target(name: string, phone: Option<string>)

  /** `!!r.phone`: a phone that is neither null nor empty. */
  predicate HasPhone(t: Target)
  {
    t.phone.Some? && t.phone.value != ""
  }

  /** `rows.filter(r => !!r.phone)`. */
  function AdminTargets(rows: seq<Target>): (r: seq<Target>)
    ensures |r| <= |rows|
    ensures forall i :: 0 <= i < |r| ==> HasPhone(r[i])
    ensures forall t :: t in r <==> t in rows && HasPhone(t)
  {
    if rows == [] then []
    else
      var rest := AdminTargets(rows[1..]);
      assert forall t :: t in rows <==> t == rows[0] || t in rows[1..];
      if HasPhone(rows[0]) then [rows[0]] + rest else rest
  }

  /** One row gives itself when it has a phone and nothing otherwise. */
  lemma AdminTargetsOne(t: Target)
    ensures AdminTargets([t]) == if HasPhone(t) then [t] else []
  {
    assert [t][1..] == [];
  }

  /**
   * The filter keeps rows one at a time, in order: with `AdminTargetsOne` this pins the
   * result to one target per phone-bearing row, in row order, duplicates included.
   */
  lemma {:induction false} AdminTargetsAppend(a: seq<Target>, b: seq<Target>)
    ensures AdminTargets(a + b) == AdminTargets(a) + AdminTargets(b)
    decreases |a|
  {
    if a == [] {
      assert a + b == b;
    } else {
      assert (a + b)[0] == a[0] && (a + b)[1..] == a[1..] + b;
      AdminTargetsAppend(a[1..], b);
    }
  }

  const NoMaxDefault := 999999999

  /** The product fields the legacy notifier reads. */
  datatype StockSnapshot = StockSnapshot(name: string, stock: int, minStock: Option<int>, maxStock: Option<int>)

  /** `kondisi`: strictly below the minimum, else strictly above the maximum, else none. */
  function Kondisi(p: StockSnapshot): (r: Option<string>)
    ensures r == Some("STOK MENIPIS") <==> p.stock < p.minStock.GetOr(0)
    ensures r == Some("STOK MELEBIHI BATAS") <==>
      !(p.stock < p.minStock.GetOr(0)) && p.stock > p.maxStock.GetOr(NoMaxDefault)
    ensures r.None? <==> p.minStock.GetOr(0) <= p.stock <= p.maxStock.GetOr(NoMaxDefault)
  {
    if p.stock < p.minStock.GetOr(0) then Some("STOK MENIPIS")
    else if p.stock > p.maxStock.GetOr(NoMaxDefault) then Some("STOK MELEBIHI BATAS")
    else None
  }

  /** What the legacy notifier answers. */
  datatype LegacyOutcome =
    | NoTargets
    | NoViolation
    | Warned(sent: nat, kondisi: string, attempted: seq<WaMessage>)

  /** How many of the first `n` sends came back without an error. */
  function Delivered(ok: nat -> bool, n: nat): (r: nat)
    ensures r <= n
  {
    if n == 0 then 0 else Delivered(ok, n - 1) + (if ok(n - 1) then 1 else 0)
  }

  /** The warnings handed to the gateway: one per target, with its raw phone and name. */
  function LegacyWarnings(targets: seq<Target>, kondisi: string, p: StockSnapshot): (r: seq<WaMessage>)
    requires forall i :: 0 <= i < |targets| ==> targets[i].phone.Some?
    ensures |r| == |targets|
    ensures forall i :: 0 <= i < |r| ==>
      r[i] == StockWarning(targets[i].phone.value, targets[i].name, kondisi, p.name, p.stock)
  {
    seq(|targets|, i requires 0 <= i < |targets| =>
      StockWarning(targets[i].phone.value, targets[i].name, kondisi, p.name, p.stock))
  }

  /**
   * `notifyAdminsStockStatus(prod)` of the older notifier. `ok(i)` is whether the i-th
   * send came back without an `error` field; the gateway itself is not modelled.
   */
  method LegacyNotify(rows: seq<Target>, p: StockSnapshot, ok: nat -> bool) returns (r: LegacyOutcome)
    ensures AdminTargets(rows) == [] ==> r == NoTargets
    ensures AdminTargets(rows) != [] && Kondisi(p).None? ==> r == NoViolation
    ensures AdminTargets(rows) != [] && Kondisi(p).Some? ==>
      r == Warned(Delivered(ok, |AdminTargets(rows)|), Kondisi(p).value,
        LegacyWarnings(AdminTargets(rows), Kondisi(p).value, p))
    ensures r.Warned? ==> r.sent <= |r.attempted| == |AdminTargets(rows)|
  {
    var admins := AdminTargets(rows);
    if |admins| == 0 {
      return NoTargets;
    }
    var kondisi := if p.stock < p.minStock.GetOr(0) then Some("STOK MENIPIS")
      else if p.stock > p.maxStock.GetOr(NoMaxDefault) then Some("STOK MELEBIHI BATAS")
      else None;
    if kondisi.None? {
      return NoViolation;
    }
    var sent := 0;
    var attempted: seq<WaMessage> := [];
    for i := 0 to |admins|
      invariant sent == Delivered(ok, i)
      invariant |attempted| == i
      invariant forall k :: 0 <= k < i ==>
        attempted[k] == StockWarning(admins[k].phone.value, admins[k].name, kondisi.value, p.name, p.stock)
    {
      var a := admins[i];
      attempted := attempted + [StockWarning(a.phone.value, a.name, kondisi.value, p.name, p.stock)];
      if ok(i) {
        sent := sent + 1;
      }
    }
    assert attempted == LegacyWarnings(admins, kondisi.value, p);
    r := Warned(sent, kondisi.value, attempted);
  }

  /** With every send accepted, `sent` is the number of targets. */
  lemma {:induction false} AllDeliveredCountsAll(ok: nat -> bool, n: nat)
    requires forall i: nat :: i < n ==> ok(i)
    ensures Delivered(ok, n) == n
  {
    if n > 0 {
      AllDeliveredCountsAll(ok, n - 1);
    }
  }

  /**
   * Away from the thresholds the two classifiers agree: when both thresholds are set and
   * stock equals neither, the legacy condition is the label of `computeStatus`.
   */
  lemma KondisiAgreesOffThresholds(p: StockSnapshot)
    requires p.minStock.Some? && p.maxStock.Some?
    requires p.stock != p.minStock.value && p.stock != p.maxStock.value
    ensures var s := ComputeStatus(p.stock, p.minStock, p.maxStock);
      && (Kondisi(p).None? <==> s == Normal)
      && (s != Normal ==> Kondisi(p) == Some(Label(s)))
  {
  }

  /**
   * On a threshold they disagree: stock exactly at the minimum is LOW for `computeStatus`
   * and no violation for the legacy notifier (when the maximum is not exceeded), and
   * stock exactly at a set maximum above the minimum is OVER there and no violation here.
   */
  lemma KondisiDisagreesOnThresholds(p: StockSnapshot)
    ensures p.minStock.Some? && p.stock == p.minStock.value && p.stock <= p.maxStock.GetOr(NoMaxDefault)
      ==> ComputeStatus(p.stock, p.minStock, p.maxStock) == Low && Kondisi(p).None?
    ensures p.maxStock.Some? && p.stock == p.maxStock.value && p.minStock.GetOr(0) <= p.stock
      && !AtOrBelowMin(p.stock, p.minStock)
      ==> ComputeStatus(p.stock, p.minStock, p.maxStock) == Over && Kondisi(p).None?
  {
  }

  /** Without a minimum, negative stock is "STOK MENIPIS" here but never LOW in `computeStatus`. */
  lemma MissingMinDefaultsToZero(p: StockSnapshot)
    requires p.minStock.None? && p.stock < 0
    ensures Kondisi(p) == Some("STOK MENIPIS")
    ensures ComputeStatus(p.stock, p.minStock, p.maxStock) != Low
  {
  }
}
