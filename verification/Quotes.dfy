/** The merchant-confirmed price breakdown (internal/domain/quote). */
module Quotes {
  import opened Money
  import opened Approvals

  datatype Quote = Quote(
    cart: nat,
    merchant: string,
    items: seq<Item>,
    subtotal: Amount,
    itemDiscounts: Amount,
    couponDiscount: Amount,
    bankOffer: Amount,
    cardOffer: Amount,
    cashback: Amount,
    deliveryFee: Amount,
    handlingFee: Amount,
    platformFee: Amount,
    tax: Amount,
    otherFee: Amount,
    finalPayable: Amount,
    effectiveCost: Amount)

  const UNSET := Amount(0, "")

  /** A component nobody set counts as zero of the quote's currency. */
  function OrZero(a: Amount, currency: string): Amount {
    if a.currency == "" then Amount(0, currency) else a
  }

  /** Every component that is set is in the subtotal's currency; otherwise the source panics. */
  predicate OneCurrency(q: Quote) {
    forall a | a in {q.itemDiscounts, q.couponDiscount, q.bankOffer, q.cardOffer, q.cashback, q.deliveryFee,
                     q.handlingFee, q.platformFee, q.tax, q.otherFee} ::
      a.currency == "" || a.currency == q.subtotal.currency
  }

  function Units(a: Amount): int {
    if a.currency == "" then 0 else a.minorUnits
  }

  function Discounts(q: Quote): int {
    Units(q.itemDiscounts) + Units(q.couponDiscount) + Units(q.bankOffer) + Units(q.cardOffer)
  }

  function Fees(q: Quote): int {
    Units(q.deliveryFee) + Units(q.handlingFee) + Units(q.platformFee) + Units(q.tax) + Units(q.otherFee)
  }

  function Recomputed(q: Quote): Quote {
    var payable := q.subtotal.minorUnits - Discounts(q) + Fees(q);
    q.(finalPayable := Amount(payable, q.subtotal.currency),
       effectiveCost := Amount(payable - Units(q.cashback), q.subtotal.currency))
  }

  /** Recompute: one running amount, from the subtotal through every discount and fee. */
  method Recompute(q: Quote) returns (r: Quote)
    requires OneCurrency(q)
    ensures r == Recomputed(q)
  {
    var cur := q.subtotal.currency;
    var final := q.subtotal;
    final := final.Sub(OrZero(q.itemDiscounts, cur));
    final := final.Sub(OrZero(q.couponDiscount, cur));
    final := final.Sub(OrZero(q.bankOffer, cur));
    final := final.Sub(OrZero(q.cardOffer, cur));
    final := final.Add(OrZero(q.deliveryFee, cur));
    final := final.Add(OrZero(q.handlingFee, cur));
    final := final.Add(OrZero(q.platformFee, cur));
    final := final.Add(OrZero(q.tax, cur));
    final := final.Add(OrZero(q.otherFee, cur));
    r := q.(finalPayable := final, effectiveCost := final.Sub(OrZero(q.cashback, cur)));
  }

  /** The books of a quote: what is paid and what is taken off make up the subtotal and the fees, the cashback is the
      difference between what is paid and what it comes to, and no other component changes. A component that nobody set
      counts as nothing. */
  lemma {:induction false} RecomputedBalances(q: Quote)
    ensures var r := Recomputed(q);
            var off := (if q.itemDiscounts.currency == "" then 0 else q.itemDiscounts.minorUnits)
                       + (if q.couponDiscount.currency == "" then 0 else q.couponDiscount.minorUnits)
                       + (if q.bankOffer.currency == "" then 0 else q.bankOffer.minorUnits)
                       + (if q.cardOffer.currency == "" then 0 else q.cardOffer.minorUnits);
            var fees := (if q.deliveryFee.currency == "" then 0 else q.deliveryFee.minorUnits)
                        + (if q.handlingFee.currency == "" then 0 else q.handlingFee.minorUnits)
                        + (if q.platformFee.currency == "" then 0 else q.platformFee.minorUnits)
                        + (if q.tax.currency == "" then 0 else q.tax.minorUnits)
                        + (if q.otherFee.currency == "" then 0 else q.otherFee.minorUnits);
            var back := if q.cashback.currency == "" then 0 else q.cashback.minorUnits;
            && r.finalPayable.minorUnits + off == q.subtotal.minorUnits + fees
            && r.effectiveCost.minorUnits + back == r.finalPayable.minorUnits
            && r.finalPayable.currency == q.subtotal.currency && r.effectiveCost.currency == q.subtotal.currency
            && r.(finalPayable := q.finalPayable, effectiveCost := q.effectiveCost) == q
  {
  }

  /** So a quote may be recomputed any number of times. */
  lemma {:induction false} RecomputedAgain(q: Quote)
    ensures Recomputed(Recomputed(q)) == Recomputed(q)
  {
  }
}
