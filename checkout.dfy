/** The hand-off from the catalog pages to the payment screen: whichever
    page an order comes from, every request the payment screen makes for it
    charges the product's price, and the quantity the page passes along
    plays no part. */
module Checkout {
  import opened Js
  import opened Catalog
  import GetProducts
  import Hypertension
  import MpesaPayment

  /** The amount the payment screen charges for a navigation state. */
  function AmountFor(intent: OrderIntent): int
  {
    intent.product.Price()
  }

  /** An order from the catalog: any run of submissions charges exactly the
      product's price each time. */
  lemma CatalogOrderChargesPrice(p: Product, outcomes: seq<MpesaPayment.GatewayOutcome>)
    ensures GetProducts.OrderRoute(p).state.Some?
    ensures var price := AmountFor(GetProducts.OrderRoute(p).state.value);
            MpesaPayment.ChargesPrice(MpesaPayment.SubmitAll(MpesaPayment.Initial, price, outcomes), p.price)
  {
    var price := AmountFor(GetProducts.OrderRoute(p).state.value);
    assert price == p.price;
    MpesaPayment.SubmissionsChargePrice(MpesaPayment.Initial, price, outcomes);
  }

  /** An order from the diabetes page carries a quantity of one, yet the
      amount charged is the price alone, and the same as the catalog's. */
  lemma DiabetesOrderChargesPrice(p: Product, outcomes: seq<MpesaPayment.GatewayOutcome>)
    ensures Hypertension.OrderNow(p).state.Some?
    ensures Hypertension.OrderNow(p).state.value.quantity == Some(1)
    ensures AmountFor(Hypertension.OrderNow(p).state.value) == AmountFor(GetProducts.OrderRoute(p).state.value)
    ensures var price := AmountFor(Hypertension.OrderNow(p).state.value);
            MpesaPayment.ChargesPrice(MpesaPayment.SubmitAll(MpesaPayment.Initial, price, outcomes), p.price)
  {
    var price := AmountFor(Hypertension.OrderNow(p).state.value);
    assert price == p.price;
    MpesaPayment.SubmissionsChargePrice(MpesaPayment.Initial, price, outcomes);
  }

  /** The quantity in the navigation state never changes the amount. */
  lemma QuantityIgnored(product: OrderedProduct, q1: Option<int>, q2: Option<int>)
    ensures AmountFor(OrderIntent(product, q1)) == AmountFor(OrderIntent(product, q2))
  {
  }
}
