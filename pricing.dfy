/** The amounts the storefront derives from a cart subtotal: shipping, tax, the grand total
    and the "add more for free shipping" hint. Two policies appear in the pages: the GST
    policy of the checkout page and the cart sidebar, and the older policy of the cart page.
    Amounts are exact reals. */
module Pricing {
  import opened Wrappers

  /** Free shipping from `freeShippingFrom` on, a flat fee below it, and tax as a fraction
      of the subtotal. */
  datatype Policy = Policy(freeShippingFrom: real, flatShipping: real, taxRate: real)

  /** Checkout page and cart sidebar: free from 2000, otherwise 200, 18% GST. */
  const Gst := Policy(2000.0, 200.0, 0.18)

  /** Cart page: free from 500, otherwise 50, 8% tax. */
  const CartPageRates := Policy(500.0, 50.0, 0.08)

  predicate Sensible(p: Policy) {
    p.freeShippingFrom > 0.0 && p.flatShipping > 0.0 && p.taxRate >= 0.0
  }

  datatype Quote = Quote(subtotal: real, shipping: real, tax: real, total: real)

  /** The order summary for a subtotal: shipping is waived exactly from the threshold on,
      tax is the policy's share of the subtotal, and the total adds both to the subtotal, so
      it never falls below a non-negative subtotal. */
  function QuoteFor(p: Policy, subtotal: real): (q: Quote)
    ensures q.subtotal == subtotal
    ensures Sensible(p) ==> (q.shipping == 0.0 <==> subtotal >= p.freeShippingFrom)
    ensures q.shipping != 0.0 ==> q.shipping == p.flatShipping
    ensures q.tax == subtotal * p.taxRate
    ensures q.total == subtotal + q.shipping + q.tax
    ensures Sensible(p) && subtotal >= 0.0 ==> q.total >= subtotal
  {
    var shipping := if subtotal >= p.freeShippingFrom then 0.0 else p.flatShipping;
    var tax := subtotal * p.taxRate;
    Quote(subtotal, shipping, tax, subtotal + shipping + tax)
  }

  /** "Add X more for free shipping!": shown below the threshold, with the positive amount
      that brings the subtotal exactly to it. */
  function FreeShippingHint(p: Policy, subtotal: real): (h: Option<real>)
    ensures h.Some? <==> subtotal < p.freeShippingFrom
    ensures h.Some? ==> h.value > 0.0 && subtotal + h.value == p.freeShippingFrom
  {
    if subtotal < p.freeShippingFrom then Some(p.freeShippingFrom - subtotal) else None
  }

  /** The hint is shown exactly when a shipping fee is charged. */
  lemma HintIffShippingCharged(p: Policy, subtotal: real)
    requires Sensible(p)
    ensures FreeShippingHint(p, subtotal).Some? <==> QuoteFor(p, subtotal).shipping > 0.0
  {
  }

  /** Following the hint (adding exactly the amount it shows) makes shipping free. */
  lemma FollowingHintWaivesShipping(p: Policy, subtotal: real)
    requires Sensible(p) && FreeShippingHint(p, subtotal).Some?
    ensures QuoteFor(p, subtotal + FreeShippingHint(p, subtotal).value).shipping == 0.0
  {
  }

  /** The worked examples of the GST policy: 1500 pays 200 shipping and 270 tax, 1970 in
      all; 2500 ships free and pays 450 tax, 2950 in all. */
  lemma GstExamples()
    ensures QuoteFor(Gst, 1500.0) == Quote(1500.0, 200.0, 270.0, 1970.0)
    ensures QuoteFor(Gst, 2500.0) == Quote(2500.0, 0.0, 450.0, 2950.0)
  {
  }

  /** The two policies disagree: a subtotal of 1000 ships free on the cart page but pays
      200 at checkout, and the totals differ as well. */
  lemma PoliciesDisagree()
    ensures QuoteFor(CartPageRates, 1000.0).shipping == 0.0
    ensures QuoteFor(Gst, 1000.0).shipping == 200.0
    ensures QuoteFor(CartPageRates, 1000.0).total != QuoteFor(Gst, 1000.0).total
  {
  }

  /** On either side of the threshold the total grows with the subtotal. */
  lemma {:induction false} TotalGrowsWithinBand(p: Policy, a: real, b: real)
    requires Sensible(p) && a <= b
    requires b < p.freeShippingFrom || p.freeShippingFrom <= a
    ensures QuoteFor(p, a).total <= QuoteFor(p, b).total
  {
    var qa, qb := QuoteFor(p, a), QuoteFor(p, b);
    assert qa.shipping == qb.shipping;
    assert qb.tax - qa.tax == (b - a) * p.taxRate;
    ScaleNonNegative(b - a, p.taxRate);
    assert qb.total - qa.total == (b - a) + (qb.tax - qa.tax);
  }

  lemma ScaleNonNegative(x: real, y: real)
    requires x >= 0.0 && y >= 0.0
    ensures x * y >= 0.0
  {
  }

  /** Reaching the threshold can lower the amount due: when the shortfall, taxed, is less
      than the flat fee, the total at the threshold is below the total just under it. */
  lemma {:induction false} ReachingThresholdLowersTotal(p: Policy, subtotal: real)
    requires Sensible(p) && subtotal < p.freeShippingFrom
    requires (p.freeShippingFrom - subtotal) * (1.0 + p.taxRate) < p.flatShipping
    ensures QuoteFor(p, p.freeShippingFrom).total < QuoteFor(p, subtotal).total
  {
    var t := p.freeShippingFrom;
    assert t * p.taxRate - subtotal * p.taxRate == (t - subtotal) * p.taxRate;
    assert (t - subtotal) * (1.0 + p.taxRate) == (t - subtotal) + (t - subtotal) * p.taxRate;
  }

  /** At checkout, 1999 costs more than 2000. */
  lemma GstJustBelowThresholdCostsMore()
    ensures QuoteFor(Gst, 2000.0).total < QuoteFor(Gst, 1999.0).total
  {
    ReachingThresholdLowersTotal(Gst, 1999.0);
  }
}
