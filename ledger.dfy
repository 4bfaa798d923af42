/**
 * The stock ledger: every change to a product's `stock_units` is meant to be paired
 * with one stock movement, so that a product's stock equals the units moved in minus
 * the units moved out over all of its movements. This module states that balance and
 * the facts about movement sums the operations use.
 */
module Ledger {
  import opened Tables

  /** The signed effect of one movement on product `pid`. */
  function Delta(m: Movement, pid: int): int
  {
    if m.productId != pid then 0
    else if m.direction == In then m.qtyUnits
    else -m.qtyUnits
  }

  /** Σ in − Σ out over the movements of product `pid`. */
  function NetUnits(ms: seq<Movement>, pid: int): int
  {
    if ms == [] then 0 else NetUnits(ms[..|ms| - 1], pid) + Delta(ms[|ms| - 1], pid)
  }

  /** Every product's stock equals the net of its movements. */
  ghost predicate Balanced(products: map<int, Product>, ms: seq<Movement>)
  {
    forall pid :: pid in products ==> products[pid].stockUnits == NetUnits(ms, pid)
  }

  /** No product's stock is negative. */
  ghost predicate NonNegative(products: map<int, Product>)
  {
    forall pid :: pid in products ==> products[pid].stockUnits >= 0
  }

  lemma NetUnitsAppend(ms: seq<Movement>, m: Movement, pid: int)
    ensures NetUnits(ms + [m], pid) == NetUnits(ms, pid) + Delta(m, pid)
  {
    assert (ms + [m])[..|ms|] == ms;
  }

  /** The net of a concatenation is the sum of the nets. */
  lemma {:induction false} NetUnitsConcat(ms: seq<Movement>, ns: seq<Movement>, pid: int)
    ensures NetUnits(ms + ns, pid) == NetUnits(ms, pid) + NetUnits(ns, pid)
    decreases |ns|
  {
    if ns != [] {
      var init, last := ns[..|ns| - 1], ns[|ns| - 1];
      assert ns == init + [last];
      assert ms + ns == (ms + init) + [last];
      NetUnitsConcat(ms, init, pid);
      NetUnitsAppend(ms + init, last, pid);
      NetUnitsAppend(init, last, pid);
    } else {
      assert ms + ns == ms;
    }
  }

  /** Movements that never name `pid` do not change its net. */
  lemma {:induction false} NetUnitsUnmentioned(ms: seq<Movement>, pid: int)
    requires forall i :: 0 <= i < |ms| ==> ms[i].productId != pid
    ensures NetUnits(ms, pid) == 0
    decreases |ms|
  {
    if ms != [] {
      NetUnitsUnmentioned(ms[..|ms| - 1], pid);
    }
  }

  /**
   * Changing one product's stock by `d` and appending one movement whose effect on that
   * product is `d` (and that names no other product) keeps the ledger balanced.
   */
  lemma BalancedStep(products: map<int, Product>, ms: seq<Movement>, pid: int, p': Product, m: Movement)
    requires Balanced(products, ms)
    requires pid in products && m.productId == pid
    requires p'.stockUnits == products[pid].stockUnits + Delta(m, pid)
    ensures Balanced(products[pid := p'], ms + [m])
  {
    forall q | q in products[pid := p']
      ensures products[pid := p'][q].stockUnits == NetUnits(ms + [m], q)
    {
      NetUnitsAppend(ms, m, q);
    }
  }
}
