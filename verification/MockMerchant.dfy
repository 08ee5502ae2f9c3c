/** The deterministic in-memory merchant (connectors/mock/connector.go), over any price list. */
module MockMerchant {
  import opened Results
  import opened Text
  import opened Money
  import opened Approvals
  import opened Quotes

  const INR := "INR"
  const COUPON := "SAVE10"
  const DELIVERY_FEE: int := 2000
  const PLATFORM_FEE: int := 500

  /** The merchant's price list. */
  const CATALOG: map<string, int> :=
    map["mock-coke-zero-750ml" := 6000,
        "mock-lays-chips-52g" := 2000,
        "mock-pasta-500g" := 12000,
        "mock-tomato-sauce-400g" := 15000,
        "mock-garlic-bread-250g" := 8000,
        "mock-parmesan-100g" := 22000,
        "mock-gift-card-500" := 50000,
        "mock-jacket-black-casual-l" := 350000,
        "mock-jacket-navy-casual-l" := 380000,
        "mock-blazer-grey-formal-l" := 550000]

  datatype CartItem = CartItem(id: string, quantity: int)

  datatype Cart = Cart(items: seq<CartItem>, coupon: bool)

  datatype OrderStatus = Placed | Confirmed | Shipped | Delivered | Cancelled | Failed

  /** An order as its merchant reports it. */
  datatype MerchantOrder = MerchantOrder(merchant: string, id: nat, items: seq<Item>, total: Amount,
                                         status: OrderStatus)

  datatype Shop = Shop(name: string, catalog: map<string, int>, carts: map<nat, Cart>, orders: map<nat, MerchantOrder>)

  function AddItem(items: seq<CartItem>, id: string, quantity: int): seq<CartItem> {
    if items == [] then [CartItem(id, quantity)]
    else if items[0].id == id then [CartItem(id, items[0].quantity + quantity)] + items[1..]
    else [items[0]] + AddItem(items[1..], id, quantity)
  }

  function RemoveItem(items: seq<CartItem>, id: string): seq<CartItem> {
    if items == [] then []
    else
      var before, last := RemoveItem(items[..|items| - 1], id), items[|items| - 1];
      if last.id == id then before else before + [last]
  }

  /** Catalogued lines only, at catalogue prices. */
  function QuoteItems(catalog: map<string, int>, items: seq<CartItem>): seq<Item> {
    if items == [] then []
    else
      var before, last := QuoteItems(catalog, items[..|items| - 1]), items[|items| - 1];
      if last.id in catalog then before + [Item(last.id, last.quantity, catalog[last.id])] else before
  }

  function Subtotal(items: seq<Item>): int {
    if items == [] then 0
    else Subtotal(items[..|items| - 1]) + items[|items| - 1].unitPrice * items[|items| - 1].quantity
  }

  /** Integer division that truncates toward zero. */
  function TenthOf(x: int): int {
    if x >= 0 then x / 10 else -(-x / 10)
  }

  function DraftQuote(shop: Shop, cart: nat, items: seq<Item>, coupon: bool): Quote {
    var subtotal := Subtotal(items);
    Quote(cart, shop.name, items, Amount(subtotal, INR), UNSET,
          Amount(if coupon then TenthOf(subtotal) else 0, INR), UNSET, UNSET, UNSET,
          Amount(DELIVERY_FEE, INR), UNSET, Amount(PLATFORM_FEE, INR), UNSET, UNSET, UNSET, UNSET)
  }

  /** GetCheckoutQuote. */
  function QuoteOf(shop: Shop, cart: nat): Result<Quote, Error> {
    if cart !in shop.carts then Err(NotFound)
    else
      var c := shop.carts[cart];
      if c.items == [] then Err(Invalid)
      else Ok(Recomputed(DraftQuote(shop, cart, QuoteItems(shop.catalog, c.items), c.coupon)))
  }

  /** What a connector reports about a checkout. */
  datatype Outcome =
    | Succeeded(order: Option<MerchantOrder>)
    | AuthenticationRequired
    | MerchantIntervention
    | UserIntervention
    | Refused

  /** ExecuteCheckout: quotes the cart again, needs a shipping address, then turns the cart into an order. */
  function Checkout(shop: Shop, cart: nat, shipping: bool, orderId: nat): (Shop, Result<Outcome, Error>) {
    var q := QuoteOf(shop, cart);
    if q.Err? then (shop, Err(q.error))
    else if !shipping then (shop, Ok(UserIntervention))
    else
      var o := MerchantOrder(shop.name, orderId, q.value.items, q.value.finalPayable, Placed);
      (shop.(carts := shop.carts - {cart}, orders := shop.orders[orderId := o]), Ok(Succeeded(Some(o))))
  }

  function GetOrderFrom(shop: Shop, orderId: nat): Result<MerchantOrder, Error> {
    if orderId in shop.orders then Ok(shop.orders[orderId]) else Err(NotFound)
  }

  function OrderCancelled(shop: Shop, orderId: nat): Result<Shop, Error> {
    if orderId !in shop.orders then Err(NotFound)
    else Ok(shop.(orders := shop.orders[orderId := shop.orders[orderId].(status := Cancelled)]))
  }

  function CartWith(shop: Shop, cart: nat, id: string, quantity: int): Result<Shop, Error> {
    if id !in shop.catalog || cart !in shop.carts then Err(NotFound)
    else
      var c := shop.carts[cart];
      Ok(shop.(carts := shop.carts[cart := c.(items := AddItem(c.items, id, quantity))]))
  }

  function CartWithout(shop: Shop, cart: nat, id: string): Result<Shop, Error> {
    if cart !in shop.carts then Err(NotFound)
    else Ok(shop.(carts := shop.carts[cart := shop.carts[cart].(items := RemoveItem(shop.carts[cart].items, id))]))
  }

  function CartWithCoupon(shop: Shop, cart: nat, code: string): Result<Shop, Error> {
    if cart !in shop.carts then Err(NotFound)
    else if Upper(code) != COUPON then Err(Invalid)
    else Ok(shop.(carts := shop.carts[cart := shop.carts[cart].(coupon := true)]))
  }

  /** Adding changes the first line of the product, or adds a line when there is none. */
  lemma {:induction false} AddAt(items: seq<CartItem>, id: string, quantity: int, i: nat)
    requires i <= |items| && forall j | 0 <= j < i :: items[j].id != id
    requires i < |items| ==> items[i].id == id
    ensures AddItem(items, id, quantity)
            == if i < |items| then items[i := CartItem(id, items[i].quantity + quantity)]
               else items + [CartItem(id, quantity)]
  {
    if i > 0 {
      AddAt(items[1..], id, quantity, i - 1);
    }
  }

  /** How many of a product a cart holds. */
  function Holds(items: seq<CartItem>, id: string): int {
    if items == [] then 0 else (if items[0].id == id then items[0].quantity else 0) + Holds(items[1..], id)
  }

  ghost predicate DistinctLines(items: seq<CartItem>) {
    forall i, j | 0 <= i < j < |items| :: items[i].id != items[j].id
  }

  /** Adding changes one product's quantity, by exactly what was added, and never splits a product over two lines. */
  lemma {:induction false} AddIsExact(items: seq<CartItem>, id: string, quantity: int, other: string)
    ensures Holds(AddItem(items, id, quantity), other) == Holds(items, other) + if other == id then quantity else 0
  {
    if items != [] {
      if items[0].id != id {
        AddIsExact(items[1..], id, quantity, other);
        assert AddItem(items, id, quantity)[1..] == AddItem(items[1..], id, quantity);
      } else {
        assert AddItem(items, id, quantity)[1..] == items[1..];
      }
    }
  }

  /** No product is ever split over two lines. */
  lemma {:induction false} AddKeepsDistinct(items: seq<CartItem>, id: string, quantity: int)
    requires DistinctLines(items)
    ensures DistinctLines(AddItem(items, id, quantity))
    ensures forall j | 0 <= j < |AddItem(items, id, quantity)| ::
              AddItem(items, id, quantity)[j].id == if j < |items| then items[j].id else id
  {
    if items != [] {
      var after := AddItem(items, id, quantity);
      if items[0].id != id {
        AddKeepsDistinct(items[1..], id, quantity);
        var rest := AddItem(items[1..], id, quantity);
        assert after[1..] == rest;
        forall j | 1 <= j < |after|
          ensures after[j].id == if j < |items| then items[j].id else id
        {
          assert after[j] == rest[j - 1];
        }
      } else {
        assert after[1..] == items[1..];
      }
    }
  }

  lemma {:induction false} HoldsOneMore(items: seq<CartItem>, last: CartItem, id: string)
    ensures Holds(items + [last], id) == Holds(items, id) + if last.id == id then last.quantity else 0
  {
    if items != [] {
      assert (items + [last])[1..] == items[1..] + [last];
      HoldsOneMore(items[1..], last, id);
    }
  }

  /** Removing a product leaves none of it, and of everything else exactly what there was. */
  lemma {:induction false} RemoveIsExact(items: seq<CartItem>, id: string, other: string)
    ensures Holds(RemoveItem(items, id), other) == if other == id then 0 else Holds(items, other)
    ensures forall line | line in RemoveItem(items, id) :: line in items && line.id != id
  {
    if items != [] {
      var init, last := items[..|items| - 1], items[|items| - 1];
      assert items == init + [last];
      RemoveIsExact(init, id, other);
      HoldsOneMore(init, last, other);
      HoldsOneMore(RemoveItem(init, id), last, other);
    }
  }

  /** How many of a product a quote is for. */
  function QuotedOf(items: seq<Item>, id: string): int {
    if items == [] then 0
    else QuotedOf(items[..|items| - 1], id)
         + if items[|items| - 1].id == id then items[|items| - 1].quantity else 0
  }

  lemma {:induction false} QuotedOneMore(items: seq<Item>, line: Item, id: string)
    ensures QuotedOf(items + [line], id) == QuotedOf(items, id) + if line.id == id then line.quantity else 0
  {
    assert (items + [line])[..|items|] == items;
  }

  /** A quote is for what the cart holds of the catalogued products, and for nothing else. */
  lemma {:induction false} QuotedIsHeld(catalog: map<string, int>, items: seq<CartItem>, id: string)
    ensures QuotedOf(QuoteItems(catalog, items), id) == if id in catalog then Holds(items, id) else 0
  {
    if items != [] {
      var init, last := items[..|items| - 1], items[|items| - 1];
      assert items == init + [last];
      QuotedIsHeld(catalog, init, id);
      HoldsOneMore(init, last, id);
      if last.id in catalog {
        QuotedOneMore(QuoteItems(catalog, init), Item(last.id, last.quantity, catalog[last.id]), id);
      }
    }
  }

  /** At catalogue prices; and line by line when everything is catalogued. */
  lemma {:induction false} QuotedLines(catalog: map<string, int>, items: seq<CartItem>)
    ensures var q := QuoteItems(catalog, items);
            && (forall k | 0 <= k < |q| :: q[k].id in catalog && q[k].unitPrice == catalog[q[k].id])
            && ((forall k | 0 <= k < |items| :: items[k].id in catalog) ==>
                  |q| == |items| && forall k | 0 <= k < |items| ::
                                      q[k].id == items[k].id && q[k].quantity == items[k].quantity)
  {
    if items != [] {
      QuotedLines(catalog, items[..|items| - 1]);
    }
  }

  /** The subtotal is price times quantity over all lines. */
  lemma {:induction false} SubtotalAdds(a: seq<Item>, b: seq<Item>)
    ensures Subtotal(a + b) == Subtotal(a) + Subtotal(b)
    ensures forall x: Item :: Subtotal([x]) == x.unitPrice * x.quantity
  {
    assert forall x: Item :: [x][..0] == [] && Subtotal([]) == 0;
    if b == [] {
      assert a + b == a;
    } else {
      SubtotalAdds(a, b[..|b| - 1]);
      assert (a + b)[..|a + b| - 1] == a + b[..|b| - 1];
    }
  }

  /** A cart that is there and not empty is quoted: a tenth off the subtotal, rounded toward zero, if the coupon is on,
      and two fees of 20 and 5 rupees. */
  lemma {:induction false} PricedExactly(shop: Shop, cart: nat)
    ensures var q := QuoteOf(shop, cart);
            && (q.Ok? <==> cart in shop.carts && shop.carts[cart].items != [])
            && (q.Err? ==> q.error == if cart in shop.carts then Invalid else NotFound)
            && (q.Ok? ==>
                  var s, d := q.value.subtotal.minorUnits, q.value.couponDiscount.minorUnits;
                  && q.value.merchant == shop.name && q.value.cart == cart
                  && q.value.items == QuoteItems(shop.catalog, shop.carts[cart].items) && s == Subtotal(q.value.items)
                  && (!shop.carts[cart].coupon ==> d == 0)
                  && (shop.carts[cart].coupon && s >= 0 ==> 10 * d <= s < 10 * d + 10)
                  && (shop.carts[cart].coupon && s < 0 ==> 10 * d - 10 < s <= 10 * d)
                  && q.value.finalPayable == Amount(s - d + 2500, "INR")
                  && q.value.effectiveCost == q.value.finalPayable)
  {
    if cart in shop.carts && shop.carts[cart].items != [] {
      TenthIsExact(Subtotal(QuoteItems(shop.catalog, shop.carts[cart].items)));
    }
  }

  lemma {:induction false} TenthIsExact(x: int)
    ensures x >= 0 ==> 10 * TenthOf(x) <= x < 10 * TenthOf(x) + 10
    ensures x < 0 ==> 10 * TenthOf(x) - 10 < x <= 10 * TenthOf(x)
  {
  }

  /** A checkout needs a cart that can be quoted and an address; without the address the user is asked for one and the
      cart stays. The order takes the cart's place. */
  lemma {:induction false} CheckoutExactly(shop: Shop, cart: nat, shipping: bool, orderId: nat)
    ensures var (t, r) := Checkout(shop, cart, shipping, orderId);
            if cart !in shop.carts || shop.carts[cart].items == [] then t == shop && r.Err?
            else if !shipping then t == shop && r == Ok(UserIntervention)
            else
              var q := QuoteOf(shop, cart).value;
              var o := MerchantOrder(shop.name, orderId, q.items, q.finalPayable, Placed);
              && r == Ok(Succeeded(Some(o))) && cart !in t.carts && t.orders == shop.orders[orderId := o]
              && t.name == shop.name && t.catalog == shop.catalog
              && forall c | c in shop.carts && c != cart :: c in t.carts && t.carts[c] == shop.carts[c]
  {
  }

  /** A placed order can be looked up under the id its checkout gave, with the items and total just quoted; once
      cancelled it is found cancelled and otherwise unchanged; and no other order is affected. */
  lemma {:induction false} PlacedOrderIsFound(shop: Shop, cart: nat, shipping: bool, orderId: nat, other: nat)
    requires Checkout(shop, cart, shipping, orderId).1.Ok? && Checkout(shop, cart, shipping, orderId).1.value.Succeeded?
    ensures var (t, r) := Checkout(shop, cart, shipping, orderId);
            var found := GetOrderFrom(t, orderId);
            && found.Ok? && r.value.order == Some(found.value)
            && found.value.id == orderId && found.value.merchant == shop.name && found.value.status == Placed
            && found.value.items == QuoteOf(shop, cart).value.items
            && found.value.total == QuoteOf(shop, cart).value.finalPayable
            && OrderCancelled(t, orderId).Ok?
            && GetOrderFrom(OrderCancelled(t, orderId).value, orderId) == Ok(found.value.(status := Cancelled))
            && (other != orderId ==> GetOrderFrom(t, other) == GetOrderFrom(shop, other)
                                     == GetOrderFrom(OrderCancelled(t, orderId).value, other))
  {
  }

  class Connector {
    const name: string
    var catalog: map<string, int>
    var carts: map<nat, Cart>
    var orders: map<nat, MerchantOrder>

    ghost function View(): Shop
      reads this
    {
      Shop(name, catalog, carts, orders)
    }

    constructor (name: string, catalog: map<string, int>)
      ensures View() == Shop(name, catalog, map[], map[])
    {
      this.name, this.catalog := name, catalog;
      carts, orders := map[], map[];
    }

    method CreateCart(id: nat)
      modifies this
      ensures View() == old(View()).(carts := old(carts)[id := Cart([], false)])
    {
      carts := carts[id := Cart([], false)];
    }

    method AddToCart(cart: nat, id: string, quantity: int) returns (e: Option<Error>)
      modifies this
      ensures var r := CartWith(old(View()), cart, id, quantity);
              View() == (if r.Ok? then r.value else old(View())) && e == if r.Ok? then None else Some(r.error)
    {
      if id !in catalog {
        return Some(NotFound);
      }
      if cart !in carts {
        return Some(NotFound);
      }
      var items := MergeItem(carts[cart].items, id, quantity);
      carts := carts[cart := carts[cart].(items := items)];
      return None;
    }

    /** More of a line that is there, else a new line at the end. */
    method MergeItem(items: seq<CartItem>, id: string, quantity: int) returns (merged: seq<CartItem>)
      ensures merged == AddItem(items, id, quantity)
    {
      for i := 0 to |items|
        invariant forall j | 0 <= j < i :: items[j].id != id
      {
        if items[i].id == id {
          AddAt(items, id, quantity, i);
          return items[i := CartItem(id, items[i].quantity + quantity)];
        }
      }
      AddAt(items, id, quantity, |items|);
      merged := items + [CartItem(id, quantity)];
    }

    method RemoveFromCart(cart: nat, id: string) returns (e: Option<Error>)
      modifies this
      ensures var r := CartWithout(old(View()), cart, id);
              View() == (if r.Ok? then r.value else old(View())) && e == if r.Ok? then None else Some(r.error)
    {
      if cart !in carts {
        return Some(NotFound);
      }
      var items := carts[cart].items;
      var filtered: seq<CartItem> := [];
      for i := 0 to |items|
        invariant filtered == RemoveItem(items[..i], id)
      {
        assert items[..i + 1][..i] == items[..i];
        if items[i].id != id {
          filtered := filtered + [items[i]];
        }
      }
      assert items[..|items|] == items;
      carts := carts[cart := carts[cart].(items := filtered)];
      return None;
    }

    method ApplyCoupon(cart: nat, code: string) returns (e: Option<Error>)
      modifies this
      ensures var r := CartWithCoupon(old(View()), cart, code);
              View() == (if r.Ok? then r.value else old(View())) && e == if r.Ok? then None else Some(r.error)
    {
      if cart !in carts {
        return Some(NotFound);
      }
      if Upper(code) != COUPON {
        return Some(Invalid);
      }
      carts := carts[cart := carts[cart].(coupon := true)];
      return None;
    }

    method GetCheckoutQuote(cart: nat) returns (r: Result<Quote, Error>)
      ensures r == QuoteOf(View(), cart)
    {
      if cart !in carts {
        return Err(NotFound);
      }
      var items := carts[cart].items;
      if |items| == 0 {
        return Err(Invalid);
      }
      var subtotal := 0;
      var quoted: seq<Item> := [];
      for i := 0 to |items|
        invariant quoted == QuoteItems(catalog, items[..i])
        invariant subtotal == Subtotal(quoted)
      {
        assert items[..i + 1][..i] == items[..i];
        if items[i].id !in catalog {
          continue;
        }
        var line := Item(items[i].id, items[i].quantity, catalog[items[i].id]);
        assert (quoted + [line])[..|quoted|] == quoted;
        subtotal := subtotal + line.unitPrice * line.quantity;
        quoted := quoted + [line];
      }
      assert items[..|items|] == items;
      var discount := 0;
      if carts[cart].coupon {
        discount := TenthOf(subtotal);
      }
      var q := Quote(cart, name, quoted, Amount(subtotal, INR), UNSET, Amount(discount, INR), UNSET, UNSET, UNSET,
                     Amount(DELIVERY_FEE, INR), UNSET, Amount(PLATFORM_FEE, INR), UNSET, UNSET, UNSET, UNSET);
      q := Recompute(q);
      return Ok(q);
    }

    method ExecuteCheckout(cart: nat, shipping: bool, orderId: nat) returns (r: Result<Outcome, Error>)
      modifies this
      ensures (View(), r) == Checkout(old(View()), cart, shipping, orderId)
    {
      var q := GetCheckoutQuote(cart);
      if q.Err? {
        return Err(q.error);
      }
      if !shipping {
        return Ok(UserIntervention);
      }
      var o := MerchantOrder(name, orderId, q.value.items, q.value.finalPayable, Placed);
      orders := orders[orderId := o];
      carts := carts - {cart};
      return Ok(Succeeded(Some(o)));
    }

    method GetOrder(orderId: nat) returns (r: Result<MerchantOrder, Error>)
      ensures r == GetOrderFrom(View(), orderId)
    {
      if orderId !in orders {
        return Err(NotFound);
      }
      return Ok(orders[orderId]);
    }

    method CancelOrder(orderId: nat) returns (e: Option<Error>)
      modifies this
      ensures var r := OrderCancelled(old(View()), orderId);
              View() == (if r.Ok? then r.value else old(View())) && e == if r.Ok? then None else Some(r.error)
    {
      if orderId !in orders {
        return Some(NotFound);
      }
      orders := orders[orderId := orders[orderId].(status := Cancelled)];
      return None;
    }
  }
}
