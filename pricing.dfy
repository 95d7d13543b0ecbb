/** Price rules shared by the server and the two client stores. All amounts
    are whole rupees. */
module Pricing {

  /** The 5% bulk discount: the largest whole amount not above a twentieth of
      `total` once `total` passes 1000, and nothing below that. */
  function BulkDiscount(total: int): (d: int)
    ensures total > 1000 ==> 0 < d && 20 * d <= total < 20 * d + 20
    ensures total <= 1000 ==> d == 0
  {
    if total > 1000 then total * 5 / 100 else 0
  }

  /** The price breakdown the server stores on an order. */
  datatype Totals = Totals(subtotal: int, shipping: int, discount: int, total: int)

  /** Server pricing: free shipping and the bulk discount above 1000, a flat
      50 shipping otherwise. */
  function OrderTotals(subtotal: int): (t: Totals)
    ensures t.subtotal == subtotal
    ensures t.total == t.subtotal + t.shipping - t.discount
    ensures t.shipping == (if subtotal > 1000 then 0 else 50)
    ensures t.discount == BulkDiscount(subtotal)
    ensures subtotal >= 0 ==> t.total >= 0 && t.shipping >= 0 && t.discount >= 0
    ensures t.total <= subtotal + 50
  {
    var shipping := if subtotal > 1000 then 0 else 50;
    var discount := BulkDiscount(subtotal);
    Totals(subtotal, shipping, discount, subtotal + shipping - discount)
  }

  /** Crossing the free-shipping threshold makes a larger cart cheaper. */
  lemma ThresholdIsNotMonotone()
    ensures OrderTotals(1000).total == 1050 && OrderTotals(1001).total == 951
  {
  }

  /** Above the threshold the total still never falls as the subtotal grows. */
  lemma {:induction false} TotalMonotoneAboveThreshold(a: int, b: int)
    requires 1000 < a <= b
    ensures OrderTotals(a).total <= OrderTotals(b).total
  {
    var da, db := BulkDiscount(a), BulkDiscount(b);
    assert a < 20 * da + 20 && 20 * db <= b;
    assert 20 * (db - da) < b - a + 20;
  }

  /** The storefront's tiered shipping. */
  function TieredShipping(total: int): (s: int)
    ensures s in {0, 100, 200}
    ensures s == 0 <==> total > 5000
    ensures s == 200 <==> total <= 2000
  {
    if total > 5000 then 0 else if total > 2000 then 100 else 200
  }

  /** `Math.round(total * percent / 100)`: the nearest whole amount, halves
      rounding up. */
  function RoundedShare(total: int, percent: nat): (d: int)
    ensures 100 * d - 50 <= total * percent < 100 * d + 50
  {
    (total * percent + 50) / 100
  }

  /** A share of at most 100 percent of a non-negative total lies between
      nothing and the whole total. */
  lemma RoundedShareBounds(total: int, percent: nat)
    ensures total >= 0 && percent <= 100 ==> 0 <= RoundedShare(total, percent) <= total
  {
    if total >= 0 && percent <= 100 {
      assert total * percent <= total * 100;
    }
  }
}
