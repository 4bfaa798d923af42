/**
 * The WHERE conditions the list and report handlers push, and how many `?`
 * placeholders each one's SQL carries: a query is well formed when its argument list is
 * exactly as long as the placeholders of its conditions.
 */
module Sql {
  /** `s.created_at BETWEEN ? AND ?`, `s.cashier_id = ?`, `(po.code LIKE ? OR s.name LIKE ?)`, `po.status = ?`. */
  datatype Condition = CreatedBetween | CashierIs | CodeOrSupplierLike | StatusIs

  function Arity(c: Condition): nat
  {
    match c
    case CreatedBetween => 2
    case CashierIs => 1
    case CodeOrSupplierLike => 2
    case StatusIs => 1
  }

  /** The placeholders of a list of conditions joined by AND. */
  function TotalArity(cs: seq<Condition>): nat
  {
    if cs == [] then 0 else TotalArity(cs[..|cs| - 1]) + Arity(cs[|cs| - 1])
  }
}
