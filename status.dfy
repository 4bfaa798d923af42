/**
 * The stock-status classifier shared by the product controller and the stock-alert
 * service: a product is LOW when its stock is at or below its minimum, otherwise OVER
 * when at or above its maximum, otherwise NORMAL. Both thresholds are optional.
 */
module StockStatus {
  import opened Common

  datatype Status = Low | Normal | Over

  /** The predicate that decides LOW: a minimum is set and stock has reached it. */
  predicate AtOrBelowMin(stock: int, min: Option<int>)
  {
    min.Some? && stock <= min.value
  }

  /** The predicate that decides OVER when the product is not LOW. */
  predicate AtOrAboveMax(stock: int, max: Option<int>)
  {
    max.Some? && stock >= max.value
  }

  /** `computeStatus`: LOW is tested before OVER. */
  function ComputeStatus(stock: int, min: Option<int>, max: Option<int>): (r: Status)
    ensures r == Low <==> AtOrBelowMin(stock, min)
    ensures r == Over <==> !AtOrBelowMin(stock, min) && AtOrAboveMax(stock, max)
    ensures r == Normal <==> !AtOrBelowMin(stock, min) && !AtOrAboveMax(stock, max)
  {
    if AtOrBelowMin(stock, min) then Low
    else if AtOrAboveMax(stock, max) then Over
    else Normal
  }

  /** The alert label sent to admins; NORMAL is never announced. */
  function Label(s: Status): (r: string)
    requires s != Normal
    ensures s == Low ==> r == "STOK MENIPIS"
    ensures s == Over ==> r == "STOK MELEBIHI BATAS"
  {
    if s == Low then "STOK MENIPIS" else "STOK MELEBIHI BATAS"
  }

  /** With thresholds configured so that both tests hold, the product is reported LOW. */
  lemma LowWinsWhenBothHold(stock: int, min: int, max: int)
    requires stock <= min && stock >= max
    ensures ComputeStatus(stock, Some(min), Some(max)) == Low
  {
  }

  /** Lowering stock (a sale) never takes a LOW product out of LOW. */
  lemma LowStaysLowWhenStockFalls(stock: int, stock': int, min: Option<int>, max: Option<int>)
    requires stock' <= stock
    requires ComputeStatus(stock, min, max) == Low
    ensures ComputeStatus(stock', min, max) == Low
  {
  }

  /** Raising stock (a goods receipt) never takes an OVER product out of OVER. */
  lemma OverStaysOverWhenStockRises(stock: int, stock': int, min: Option<int>, max: Option<int>)
    requires stock' >= stock
    requires ComputeStatus(stock, min, max) == Over
    ensures ComputeStatus(stock', min, max) == Over
  {
  }
}
