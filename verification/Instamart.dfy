/** Swiggy Instamart: the local cart, the bill and the checkout (connectors/swiggyinstamart/connector.go).
    The merchant's replies are inputs; amounts arrive as paise, or as nothing when unreadable. */
module Instamart {
  import opened Results
  import opened Text
  import opened Money
  import opened ProductIds
  import opened Approvals
  import opened Quotes

  const NAME := "swiggy_instamart"
  const INR := "INR"

  datatype Line = Line(spin: Bytes, sku: Bytes, qty: int)

  datatype Cart = Cart(address: string, aliasVerified: bool, lines: seq<Line>)

  datatype BillLine = BillLine(title: string, amount: Option<int>)

  datatype RemoteItem = RemoteItem(spin: Bytes, sku: Bytes, quantity: int, available: bool, price: Option<int>)

  datatype RemoteCart = RemoteCart(
    address: string,
    items: seq<RemoteItem>,
    bill: seq<BillLine>,
    toPay: Option<int>,
    absent: bool,
    cartWarning: bool,
    addressWarning: bool,
    unserviceable: nat)

  // ----- quantities by spin id

  function LinePair(l: Line): (Bytes, int) {
    (l.spin, l.qty)
  }

  function ItemPair(it: RemoteItem): (Bytes, int) {
    (it.spin, it.quantity)
  }

  function LinePairs(lines: seq<Line>): seq<(Bytes, int)> {
    seq(|lines|, i requires 0 <= i < |lines| => LinePair(lines[i]))
  }

  function ItemPairs(items: seq<RemoteItem>): seq<(Bytes, int)> {
    seq(|items|, i requires 0 <= i < |items| => ItemPair(items[i]))
  }

  /** How much of `k` a list holds. */
  function Quantity(pairs: seq<(Bytes, int)>, k: string): int {
    if pairs == [] then 0
    else Quantity(pairs[..|pairs| - 1], k) + if pairs[|pairs| - 1].0 == k then pairs[|pairs| - 1].1 else 0
  }

  function Bump(m: map<Bytes, int>, k: Bytes, v: int): map<Bytes, int> {
    m[k := (if k in m then m[k] else 0) + v]
  }

  function Tally(pairs: seq<(Bytes, int)>): map<Bytes, int> {
    if pairs == [] then map[]
    else Bump(Tally(pairs[..|pairs| - 1]), pairs[|pairs| - 1].0, pairs[|pairs| - 1].1)
  }

  lemma {:induction false} TallyQuantity(pairs: seq<(Bytes, int)>, k: Bytes)
    ensures k in Tally(pairs) <==> exists i :: 0 <= i < |pairs| && pairs[i].0 == k
    ensures Quantity(pairs, k) == if k in Tally(pairs) then Tally(pairs)[k] else 0
  {
    if pairs != [] {
      var init, last := pairs[..|pairs| - 1], pairs[|pairs| - 1];
      TallyQuantity(init, k);
      if k in Tally(init) {
        var i :| 0 <= i < |init| && init[i].0 == k;
        assert pairs[i].0 == k;
      }
    }
  }

  // ----- the local cart

  /** Distinct spin ids, each present, each with a positive quantity. */
  ghost predicate Tidy(lines: seq<Line>) {
    && (forall i | 0 <= i < |lines| :: lines[i].qty > 0 && lines[i].spin != "")
    && (forall i, j | 0 <= i < j < |lines| :: lines[i].spin != lines[j].spin)
  }

  predicate HasSpin(lines: seq<Line>, spin: string) {
    exists i | 0 <= i < |lines| :: lines[i].spin == spin
  }

  function Bumped(lines: seq<Line>, spin: Bytes, qty: int): seq<Line> {
    seq(|lines|, i requires 0 <= i < |lines| =>
      if lines[i].spin == spin then lines[i].(qty := lines[i].qty + qty) else lines[i])
  }

  /** `qty` more of a product: onto the line that has it, else as a new line. */
  function Added(lines: seq<Line>, spin: Bytes, sku: Bytes, qty: int): seq<Line> {
    if HasSpin(lines, spin) then Bumped(lines, spin, qty) else Bumped(lines, spin, qty) + [Line(spin, sku, qty)]
  }

  function Without(lines: seq<Line>, spin: string): seq<Line> {
    if lines == [] then []
    else
      var before, last := Without(lines[..|lines| - 1], spin), lines[|lines| - 1];
      if last.spin == spin then before else before + [last]
  }

  function AcceptedQty(accepted: map<Bytes, int>, spin: Bytes): int {
    if spin in accepted then accepted[spin] else 0
  }

  /** The lines the merchant took, at the quantities it took. */
  function Adopted(lines: seq<Line>, accepted: map<Bytes, int>): seq<Line> {
    if lines == [] then []
    else
      var before, last := Adopted(lines[..|lines| - 1], accepted), lines[|lines| - 1];
      var q := AcceptedQty(accepted, last.spin);
      if q <= 0 then before else before + [last.(qty := q)]
  }

  /** pushCart's effect: the cart it leaves and whether it reports an error. */
  function Pushed(cart: Cart, lines: seq<Line>, reply: Result<seq<RemoteItem>, Error>): (Cart, Option<Error>) {
    if reply.Err? then (cart, Some(reply.error))
    else if lines == [] then (cart.(lines := []), None)
    else
      var adopted := Adopted(lines, Tally(ItemPairs(reply.value)));
      (cart.(lines := adopted), if |adopted| < |lines| then Some(Unavailable) else None)
  }

  function CartAfterAdd(cart: Cart, productId: string, qty: int, reply: Result<seq<RemoteItem>, Error>)
    : (Cart, Option<Error>)
  {
    if qty <= 0 then (cart, Some(Invalid))
    else
      match DecodeBytes(productId)
      case Err(e) => (cart, Some(e))
      case Ok(pair) => Pushed(cart, Added(cart.lines, pair.0, pair.1, qty), reply)
  }

  function CartAfterRemove(cart: Cart, productId: string, reply: Result<seq<RemoteItem>, Error>)
    : (Cart, Option<Error>)
  {
    match DecodeBytes(productId)
    case Err(e) => (cart, Some(e))
    case Ok(pair) => Pushed(cart, Without(cart.lines, pair.0), reply)
  }

  /** Decoding, with both parts known to be byte strings; ids arrive as byte strings, so they always are. */
  function DecodeBytes(id: string): Result<(Bytes, Bytes), Error> {
    match DecodeProductId(id)
    case Err(e) => Err(e)
    case Ok(pair) => if IsBytes(pair.0) && IsBytes(pair.1) then Ok((pair.0, pair.1)) else Err(Invalid)
  }

  lemma {:induction false} DecodeNonEmpty(id: string)
    ensures DecodeBytes(id).Ok? ==> DecodeBytes(id).value.0 != ""
  {
  }

  lemma {:induction false} AddedTidy(lines: seq<Line>, spin: Bytes, sku: Bytes, qty: int)
    requires Tidy(lines) && qty > 0 && spin != ""
    ensures Tidy(Added(lines, spin, sku, qty))
  {
    var next := Added(lines, spin, sku, qty);
    assert forall i | 0 <= i < |lines| :: next[i].spin == lines[i].spin;
  }

  lemma {:induction false} WithoutTidy(lines: seq<Line>, spin: string)
    requires Tidy(lines)
    ensures Tidy(Without(lines, spin))
    ensures forall l | l in Without(lines, spin) :: HasSpin(lines, l.spin)
  {
    if lines != [] {
      var init, last := lines[..|lines| - 1], lines[|lines| - 1];
      WithoutTidy(init, spin);
      assert forall s | HasSpin(init, s) :: HasSpin(lines, s);
      assert !HasSpin(init, last.spin);
    }
  }

  lemma {:induction false} AdoptedTidy(lines: seq<Line>, accepted: map<Bytes, int>)
    requires Tidy(lines)
    ensures Tidy(Adopted(lines, accepted))
    ensures forall l | l in Adopted(lines, accepted) :: HasSpin(lines, l.spin)
  {
    if lines != [] {
      var init, last := lines[..|lines| - 1], lines[|lines| - 1];
      AdoptedTidy(init, accepted);
      assert forall s | HasSpin(init, s) :: HasSpin(lines, s);
      assert !HasSpin(init, last.spin);
    }
  }

  datatype CartStep =
    | Add(productId: string, qty: int, reply: Result<seq<RemoteItem>, Error>)
    | Remove(productId: string, reply: Result<seq<RemoteItem>, Error>)

  function Step(cart: Cart, step: CartStep): Cart {
    match step
    case Add(id, qty, reply) => CartAfterAdd(cart, id, qty, reply).0
    case Remove(id, reply) => CartAfterRemove(cart, id, reply).0
  }

  function Run(cart: Cart, steps: seq<CartStep>): Cart
    decreases |steps|
  {
    if steps == [] then cart else Run(Step(cart, steps[0]), steps[1..])
  }

  lemma {:induction false} StepTidy(cart: Cart, step: CartStep)
    requires Tidy(cart.lines)
    ensures Tidy(Step(cart, step).lines)
  {
    var decoded := DecodeBytes(step.productId);
    if decoded.Ok? && step.reply.Ok? {
      DecodeNonEmpty(step.productId);
      var accepted := Tally(ItemPairs(step.reply.value));
      if step.Add? && step.qty > 0 {
        AddedTidy(cart.lines, decoded.value.0, decoded.value.1, step.qty);
        AdoptedTidy(Added(cart.lines, decoded.value.0, decoded.value.1, step.qty), accepted);
      } else if step.Remove? {
        WithoutTidy(cart.lines, decoded.value.0);
        AdoptedTidy(Without(cart.lines, decoded.value.0), accepted);
      }
    }
  }

  /** Whatever is asked and whatever the merchant answers, the local cart stays tidy. */
  lemma {:induction false} RunTidy(cart: Cart, steps: seq<CartStep>)
    requires Tidy(cart.lines)
    ensures Tidy(Run(cart, steps).lines)
    decreases |steps|
  {
    if steps != [] {
      StepTidy(cart, steps[0]);
      RunTidy(Step(cart, steps[0]), steps[1..]);
    }
  }

  // ----- what a call does to the cart

  /** How much of a product a cart holds. */
  function Held(lines: seq<Line>, spin: string): int {
    Quantity(LinePairs(lines), spin)
  }

  /** How much of it the merchant has. */
  function Remote(items: seq<RemoteItem>, spin: string): int {
    Quantity(ItemPairs(items), spin)
  }

  lemma {:induction false} HeldOneMore(lines: seq<Line>, last: Line, k: string)
    ensures Held(lines + [last], k) == Held(lines, k) + if last.spin == k then last.qty else 0
  {
    var pairs := LinePairs(lines + [last]);
    assert pairs[..|pairs| - 1] == LinePairs(lines);
  }

  lemma {:induction false} HeldWithout(lines: seq<Line>, k: string)
    requires !HasSpin(lines, k)
    ensures Held(lines, k) == 0
  {
    if lines != [] {
      var init, last := lines[..|lines| - 1], lines[|lines| - 1];
      assert lines == init + [last] && lines[|lines| - 1].spin != k;
      assert forall i | 0 <= i < |init| :: init[i] == lines[i];
      HeldWithout(init, k);
      HeldOneMore(init, last, k);
    }
  }

  lemma {:induction false} BumpedHolds(lines: seq<Line>, spin: Bytes, qty: int, k: string)
    requires forall i, j | 0 <= i < j < |lines| :: lines[i].spin != lines[j].spin
    ensures Held(Bumped(lines, spin, qty), k) == Held(lines, k) + if k == spin && HasSpin(lines, spin) then qty else 0
  {
    if lines != [] {
      var init, last := lines[..|lines| - 1], lines[|lines| - 1];
      assert lines == init + [last];
      assert forall i | 0 <= i < |init| :: init[i] == lines[i];
      BumpedHolds(init, spin, qty, k);
      var more := if last.spin == spin then last.(qty := last.qty + qty) else last;
      assert Bumped(lines, spin, qty) == Bumped(init, spin, qty) + [more];
      HeldOneMore(init, last, k);
      HeldOneMore(Bumped(init, spin, qty), more, k);
      SpinOneMore(init, last, spin);
    }
  }

  lemma {:induction false} SpinOneMore(lines: seq<Line>, last: Line, k: string)
    ensures HasSpin(lines + [last], k) <==> HasSpin(lines, k) || last.spin == k
  {
    var more := lines + [last];
    assert more[|lines|] == last;
    if HasSpin(lines, k) {
      var i :| 0 <= i < |lines| && lines[i].spin == k;
      assert more[i].spin == k;
    }
  }

  /** What is asked for when a product is added: exactly so much more of it, and of everything else what there was. */
  lemma {:induction false} AddedHolds(lines: seq<Line>, spin: Bytes, sku: Bytes, qty: int, k: string)
    requires Tidy(lines)
    ensures Held(Added(lines, spin, sku, qty), k) == Held(lines, k) + if k == spin then qty else 0
    ensures HasSpin(Added(lines, spin, sku, qty), k) <==> HasSpin(lines, k) || k == spin
  {
    BumpedHolds(lines, spin, qty, k);
    var bumped := Bumped(lines, spin, qty);
    assert forall i | 0 <= i < |lines| :: bumped[i].spin == lines[i].spin;
    HeldOneMore(bumped, Line(spin, sku, qty), k);
    SpinOneMore(bumped, Line(spin, sku, qty), k);
  }

  /** And when it is removed: none of it. */
  lemma {:induction false} WithoutHolds(lines: seq<Line>, spin: string, k: string)
    ensures Held(Without(lines, spin), k) == if k == spin then 0 else Held(lines, k)
    ensures HasSpin(Without(lines, spin), k) <==> HasSpin(lines, k) && k != spin
  {
    if lines != [] {
      var init, last := lines[..|lines| - 1], lines[|lines| - 1];
      assert lines == init + [last];
      WithoutHolds(init, spin, k);
      HeldOneMore(init, last, k);
      HeldOneMore(Without(init, spin), last, k);
      SpinOneMore(init, last, k);
      SpinOneMore(Without(init, spin), last, k);
    }
  }

  lemma {:induction false} AdoptedHolds(lines: seq<Line>, items: seq<RemoteItem>, k: Bytes)
    requires forall i, j | 0 <= i < j < |lines| :: lines[i].spin != lines[j].spin
    ensures Held(Adopted(lines, Tally(ItemPairs(items))), k)
            == if HasSpin(lines, k) && Remote(items, k) > 0 then Remote(items, k) else 0
  {
    if lines != [] {
      var init, last := lines[..|lines| - 1], lines[|lines| - 1];
      var accepted := Tally(ItemPairs(items));
      assert lines == init + [last];
      assert forall i | 0 <= i < |init| :: init[i] == lines[i];
      AdoptedHolds(init, items, k);
      SpinOneMore(init, last, k);
      TallyQuantity(ItemPairs(items), last.spin);
      HeldOneMore(Adopted(init, accepted), last.(qty := AcceptedQty(accepted, last.spin)), k);
    }
  }

  /** A line is dropped exactly when the merchant has none of its product. */
  lemma {:induction false} AdoptedLines(lines: seq<Line>, items: seq<RemoteItem>)
    ensures var adopted := Adopted(lines, Tally(ItemPairs(items)));
            && |adopted| <= |lines|
            && (|adopted| == |lines| <==> forall i | 0 <= i < |lines| :: Remote(items, lines[i].spin) > 0)
  {
    if lines != [] {
      AdoptedLines(lines[..|lines| - 1], items);
      TallyQuantity(ItemPairs(items), lines[|lines| - 1].spin);
    }
  }

  /** The cart after a call that wanted `lines`: of every product wanted it holds what the merchant has, and an error
      says that the merchant has none of one of them. */
  lemma {:induction false} PushedHolds(cart: Cart, lines: seq<Line>, items: seq<RemoteItem>, k: Bytes)
    requires Tidy(lines)
    ensures var (t, e) := Pushed(cart, lines, Ok(items));
            && t.address == cart.address && t.aliasVerified == cart.aliasVerified
            && Held(t.lines, k) == (if HasSpin(lines, k) && Remote(items, k) > 0 then Remote(items, k) else 0)
            && (e == None <==> forall i | 0 <= i < |lines| :: Remote(items, lines[i].spin) > 0)
            && (e.Some? ==> e.value == Unavailable)
  {
    AdoptedHolds(lines, items, k);
    AdoptedLines(lines, items);
  }

  /** Adding to a cart: refused without a positive quantity or a readable id, and nothing changes when the merchant does
      not answer; otherwise the cart holds what the merchant has, of the product and of what was there. So when the
      merchant takes what was asked, exactly that much is added. */
  lemma {:induction false} AddExactly(cart: Cart, productId: string, qty: int, reply: Result<seq<RemoteItem>, Error>,
                                      k: Bytes)
    requires Tidy(cart.lines)
    ensures var (t, e) := CartAfterAdd(cart, productId, qty, reply);
            var id := DecodeBytes(productId);
            if qty <= 0 || id.Err? || reply.Err? then t == cart && e.Some?
            else
              var had := Remote(reply.value, k);
              && t.address == cart.address && t.aliasVerified == cart.aliasVerified
              && Held(t.lines, k) == (if (HasSpin(cart.lines, k) || k == id.value.0) && had > 0 then had else 0)
              && (e == None ==> (HasSpin(cart.lines, k) || k == id.value.0 ==> had > 0))
              && (had == Held(cart.lines, k) + (if k == id.value.0 then qty else 0) ==> Held(t.lines, k) == had)
  {
    var id := DecodeBytes(productId);
    if qty > 0 && id.Ok? && reply.Ok? {
      var (spin, sku) := id.value;
      var lines := Added(cart.lines, spin, sku, qty);
      DecodeNonEmpty(productId);
      AddedTidy(cart.lines, spin, sku, qty);
      AddedHolds(cart.lines, spin, sku, qty, k);
      PushedHolds(cart, lines, reply.value, k);
      if !HasSpin(cart.lines, k) {
        HeldWithout(cart.lines, k);
      } else {
        HeldPositive(cart.lines, k);
      }
    }
  }

  lemma {:induction false} HeldPositive(lines: seq<Line>, k: string)
    requires Tidy(lines)
    ensures Held(lines, k) >= 0 && (HasSpin(lines, k) ==> Held(lines, k) > 0)
  {
    if lines != [] {
      var init, last := lines[..|lines| - 1], lines[|lines| - 1];
      assert lines == init + [last];
      assert forall i | 0 <= i < |init| :: init[i] == lines[i];
      HeldPositive(init, k);
      HeldOneMore(init, last, k);
      SpinOneMore(init, last, k);
    }
  }

  /** Removing from a cart: none of the product is left, and of the rest what the merchant has. */
  lemma {:induction false} RemoveExactly(cart: Cart, productId: string, reply: Result<seq<RemoteItem>, Error>, k: Bytes)
    requires Tidy(cart.lines)
    ensures var (t, e) := CartAfterRemove(cart, productId, reply);
            var id := DecodeBytes(productId);
            if id.Err? || reply.Err? then t == cart && e.Some?
            else
              var had := Remote(reply.value, k);
              && t.address == cart.address && t.aliasVerified == cart.aliasVerified
              && Held(t.lines, k) == if HasSpin(cart.lines, k) && k != id.value.0 && had > 0 then had else 0
  {
    var id := DecodeBytes(productId);
    if id.Ok? && reply.Ok? {
      WithoutTidy(cart.lines, id.value.0);
      WithoutHolds(cart.lines, id.value.0, k);
      PushedHolds(cart, Without(cart.lines, id.value.0), reply.value, k);
    }
  }

  // ----- the bill

  datatype Totals = Totals(
    subtotal: Option<int>, discounts: int, delivery: int, handling: int, platform: int, tax: int)

  const NO_TOTALS := Totals(None, 0, 0, 0, 0, 0)

  function Abs(v: int): int {
    if v < 0 then -v else v
  }

  /** One bill line: its title and sign decide which component it belongs to. */
  function AddLine(t: Totals, line: BillLine): Totals {
    if line.amount == None then t
    else
      var amt, title := line.amount.value, Lower(line.title);
      if Contains(title, "item total") || Contains(title, "subtotal") then t.(subtotal := Some(Abs(amt)))
      else if amt < 0 || Contains(title, "discount") || Contains(title, "saving") || Contains(title, "coupon") then
        t.(discounts := t.discounts + Abs(amt))
      else if Contains(title, "delivery") then t.(delivery := t.delivery + amt)
      else if Contains(title, "handling") then t.(handling := t.handling + amt)
      else if Contains(title, "platform") then t.(platform := t.platform + amt)
      else if Contains(title, "gst") || Contains(title, "tax") then t.(tax := t.tax + amt)
      else t
  }

  function BillTotals(lines: seq<BillLine>): Totals {
    if lines == [] then NO_TOTALS else AddLine(BillTotals(lines[..|lines| - 1]), lines[|lines| - 1])
  }

  predicate IsSubtotal(title: string) {
    Contains(title, "item total") || Contains(title, "subtotal")
  }

  predicate IsDiscount(title: string, amount: int) {
    amount < 0 || Contains(title, "discount") || Contains(title, "saving") || Contains(title, "coupon")
  }

  /** Where one more line of a bill goes: an unreadable one nowhere, the stated subtotal in place of the one before, a
      discount by its size, and any other line to the first fee its title names, or to none. */
  lemma {:induction false} LineGoes(lines: seq<BillLine>, line: BillLine)
    ensures var t, u := BillTotals(lines), BillTotals(lines + [line]);
            if line.amount == None then u == t
            else
              var amount, title := line.amount.value, Lower(line.title);
              var size := if amount < 0 then -amount else amount;
              var fee := if IsSubtotal(title) || IsDiscount(title, amount) then 0 else amount;
              var named := Contains(title, "delivery");
              var handled := !named && Contains(title, "handling");
              var platform := !named && !handled && Contains(title, "platform");
              var taxed := !named && !handled && !platform && (Contains(title, "gst") || Contains(title, "tax"));
              && u.subtotal == (if IsSubtotal(title) then Some(size) else t.subtotal)
              && u.discounts == t.discounts + (if !IsSubtotal(title) && IsDiscount(title, amount) then size else 0)
              && u.delivery == t.delivery + (if named then fee else 0)
              && u.handling == t.handling + (if handled then fee else 0)
              && u.platform == t.platform + (if platform then fee else 0)
              && u.tax == t.tax + (if taxed then fee else 0)
    ensures BillTotals([]) == Totals(None, 0, 0, 0, 0, 0)
  {
    assert (lines + [line])[..|lines|] == lines;
  }

  /** What the items cost at their unit prices; nothing when a price is unreadable. */
  function ItemsTotal(items: seq<RemoteItem>): Option<int> {
    if items == [] then Some(0)
    else
      var before, last := ItemsTotal(items[..|items| - 1]), items[|items| - 1];
      if before == None || last.price == None then None
      else Some(before.value + last.price.value * last.quantity)
  }

  function QuoteItem(it: RemoteItem): Item {
    Item(EncodeProductId(it.spin, it.sku), it.quantity, if it.price.Some? then it.price.value else 0)
  }

  function QuoteItems(items: seq<RemoteItem>): seq<Item> {
    seq(|items|, i requires 0 <= i < |items| => QuoteItem(items[i]))
  }

  function Rupees(v: int): Amount {
    Amount(v, INR)
  }

  /** The quote before recomputation: labelled components, and a remainder that reconciles them to To Pay. */
  function Draft(cartId: nat, items: seq<Item>, itemsTotal: int, t: Totals, toPay: int): Quote {
    var subtotal := if t.subtotal.Some? then t.subtotal.value else itemsTotal;
    var other := toPay - (subtotal - t.discounts + t.delivery + t.handling + t.platform + t.tax);
    Quote(cartId, NAME, items,
          Rupees(subtotal), Rupees(if other < 0 then t.discounts - other else t.discounts),
          UNSET, UNSET, UNSET, UNSET,
          Rupees(t.delivery), Rupees(t.handling), Rupees(t.platform), Rupees(t.tax),
          Rupees(if other < 0 then 0 else other), UNSET, UNSET)
  }

  function BuildQuote(cartId: nat, data: RemoteCart): Result<Quote, Error> {
    var total := ItemsTotal(data.items);
    if data.toPay == None || total == None then Err(Invalid)
    else Ok(Recomputed(Draft(cartId, QuoteItems(data.items), total.value, BillTotals(data.bill), data.toPay.value)))
  }

  /** buildQuote: the item loop, the bill loop, the remainder, and the final reconciliation check. */
  method BuildQuoteLoops(cartId: nat, data: RemoteCart) returns (r: Result<Quote, Error>)
    ensures r == BuildQuote(cartId, data)
  {
    if data.toPay == None {
      return Err(Invalid);
    }
    var toPay := data.toPay.value;
    var total, items := ItemLoop(data.items);
    if total == None {
      return Err(Invalid);
    }
    var itemsTotal := total.value;
    var totals := BillLoop(data.bill);
    var subtotal := if totals.subtotal.Some? then totals.subtotal.value else itemsTotal;
    var discounts := totals.discounts;
    var other := toPay - (subtotal - discounts + totals.delivery + totals.handling + totals.platform + totals.tax);
    if other < 0 {
      discounts := discounts + -other;
      other := 0;
    }
    var q := Quote(cartId, NAME, items, Rupees(subtotal), Rupees(discounts), UNSET, UNSET, UNSET, UNSET,
                   Rupees(totals.delivery), Rupees(totals.handling), Rupees(totals.platform), Rupees(totals.tax),
                   Rupees(other), UNSET, UNSET);
    assert q == Draft(cartId, QuoteItems(data.items), itemsTotal, BillTotals(data.bill), toPay);
    q := Recompute(q);
    if q.finalPayable.minorUnits != toPay {
      assert false;
      return Err(Conflict);
    }
    return Ok(q);
  }

  method ItemLoop(remote: seq<RemoteItem>) returns (total: Option<int>, items: seq<Item>)
    ensures total == ItemsTotal(remote)
    ensures total.Some? ==> items == QuoteItems(remote)
  {
    var itemsTotal := 0;
    items := [];
    for i := 0 to |remote|
      invariant ItemsTotal(remote[..i]) == Some(itemsTotal)
      invariant items == QuoteItems(remote[..i])
    {
      assert remote[..i + 1][..i] == remote[..i];
      var it := remote[i];
      if it.price == None {
        UnreadableStays(remote, i + 1);
        return None, items;
      }
      items := items + [Item(EncodeProductId(it.spin, it.sku), it.quantity, it.price.value)];
      itemsTotal := itemsTotal + it.price.value * it.quantity;
    }
    assert remote[..|remote|] == remote;
    total := Some(itemsTotal);
  }

  method BillLoop(lines: seq<BillLine>) returns (t: Totals)
    ensures t == BillTotals(lines)
  {
    var subtotal, discounts, delivery, handling, platform, tax := 0, 0, 0, 0, 0, 0;
    var subtotalFromBill := false;
    for i := 0 to |lines|
      invariant BillTotals(lines[..i])
                == Totals(if subtotalFromBill then Some(subtotal) else None,
                          discounts, delivery, handling, platform, tax)
    {
      assert lines[..i + 1][..i] == lines[..i];
      if lines[i].amount == None {
        continue;
      }
      var amt, title := lines[i].amount.value, Lower(lines[i].title);
      if Contains(title, "item total") || Contains(title, "subtotal") {
        subtotal, subtotalFromBill := Abs(amt), true;
      } else if amt < 0 || Contains(title, "discount") || Contains(title, "saving") || Contains(title, "coupon") {
        discounts := discounts + Abs(amt);
      } else if Contains(title, "delivery") {
        delivery := delivery + amt;
      } else if Contains(title, "handling") {
        handling := handling + amt;
      } else if Contains(title, "platform") {
        platform := platform + amt;
      } else if Contains(title, "gst") || Contains(title, "tax") {
        tax := tax + amt;
      }
    }
    assert lines[..|lines|] == lines;
    t := Totals(if subtotalFromBill then Some(subtotal) else None, discounts, delivery, handling, platform, tax);
  }

  lemma {:induction false} UnreadableStays(items: seq<RemoteItem>, k: nat)
    requires k <= |items| && ItemsTotal(items[..k]) == None
    ensures ItemsTotal(items) == None
    decreases |items| - k
  {
    if k < |items| {
      assert items[..k + 1][..k] == items[..k];
      UnreadableStays(items, k + 1);
    } else {
      assert items[..k] == items;
    }
  }

  lemma {:induction false} BillSigns(lines: seq<BillLine>)
    ensures var t := BillTotals(lines);
            && t.discounts >= 0 && t.delivery >= 0 && t.handling >= 0 && t.platform >= 0 && t.tax >= 0
            && (t.subtotal.Some? ==> t.subtotal.value >= 0)
  {
    if lines != [] {
      BillSigns(lines[..|lines| - 1]);
    }
  }

  /** Whatever the bill says, the quote charges exactly To Pay, and no discount or fee is negative;
      the only failures are an unreadable To Pay and an unreadable item price. */
  lemma {:induction false} QuoteReconciles(cartId: nat, data: RemoteCart)
    ensures BuildQuote(cartId, data).Ok? <==> data.toPay.Some? && ItemsTotal(data.items).Some?
    ensures BuildQuote(cartId, data).Ok? ==>
              var q := BuildQuote(cartId, data).value;
              && q.finalPayable == Amount(data.toPay.value, INR)
              && q.subtotal.minorUnits - Discounts(q) + Fees(q) == data.toPay.value
              && q.itemDiscounts.minorUnits >= 0 && q.deliveryFee.minorUnits >= 0 && q.handlingFee.minorUnits >= 0
              && q.platformFee.minorUnits >= 0 && q.tax.minorUnits >= 0 && q.otherFee.minorUnits >= 0
              && q.items == QuoteItems(data.items)
  {
    BillSigns(data.bill);
  }

  /** Items are priced together exactly when every price can be read: each unit price times its quantity. */
  lemma {:induction false} ItemsPriced(items: seq<RemoteItem>)
    ensures ItemsTotal(items).Some? <==> forall i | 0 <= i < |items| :: items[i].price.Some?
    ensures ItemsTotal([]) == Some(0)
    ensures items != [] && ItemsTotal(items).Some? ==>
              var last := items[|items| - 1];
              ItemsTotal(items) == Some(ItemsTotal(items[..|items| - 1]).value + last.price.value * last.quantity)
  {
    if items != [] {
      ItemsPriced(items[..|items| - 1]);
    }
  }

  /** Every component of a quote is the bill's own: the fees as they are labelled, the stated subtotal or else the items',
      the merchant's items at its unit prices, and what the labels leave unexplained as another fee or as more discount,
      never both. */
  lemma {:induction false} QuoteComponents(cartId: nat, data: RemoteCart)
    requires data.toPay.Some? && ItemsTotal(data.items).Some?
    ensures var t := BillTotals(data.bill);
            var r := BuildQuote(cartId, data);
            && r.Ok?
            && var q := r.value;
               && q.merchant == "swiggy_instamart" && q.cart == cartId
               && q.subtotal == Amount(if t.subtotal.Some? then t.subtotal.value else ItemsTotal(data.items).value, "INR")
               && q.deliveryFee == Amount(t.delivery, "INR") && q.handlingFee == Amount(t.handling, "INR")
               && q.platformFee == Amount(t.platform, "INR") && q.tax == Amount(t.tax, "INR")
               && q.couponDiscount == UNSET && q.bankOffer == UNSET && q.cardOffer == UNSET && q.cashback == UNSET
               && q.effectiveCost == q.finalPayable
               && q.itemDiscounts.minorUnits >= t.discounts
               && (q.otherFee.minorUnits == 0 || q.itemDiscounts.minorUnits == t.discounts)
               && |q.items| == |data.items|
               && forall i | 0 <= i < |data.items| ::
                    && q.items[i].id == EncodeProductId(data.items[i].spin, data.items[i].sku)
                    && q.items[i].quantity == data.items[i].quantity
                    && (data.items[i].price.Some? ==> q.items[i].unitPrice == data.items[i].price.value)
  {
  }

  // ----- checkout

  predicate SameAddress(cart: Cart, data: RemoteCart) {
    data.address == "" || data.address == cart.address
  }

  /** Nothing at the merchant stands between the local cart and an order: no warning, the address it was built for,
      and per product the quantity it holds, all of it in stock. */
  predicate Verified(cart: Cart, data: RemoteCart) {
    && !data.absent && !data.cartWarning && !data.addressWarning && data.unserviceable == 0
    && SameAddress(cart, data)
    && cart.lines != []
    && (forall i | 0 <= i < |data.items| :: data.items[i].available)
    && Tally(LinePairs(cart.lines)) == Tally(ItemPairs(data.items))
  }

  datatype Placement = ToolError | SessionExpired | UnknownOutcome | Answer(data: CheckoutData)

  datatype CheckoutData = CheckoutData(
    pendingPayment: bool,
    orderId: string,
    orders: seq<(string, bool)>,
    failureCount: int,
    allSucceeded: Option<bool>)

  datatype Order = Order(merchantOrderIds: seq<string>, items: seq<Item>, total: Amount)

  datatype Checkout = Succeeded(order: Order) | Failed | NeedsUser | NeedsMerchant

  /** Everything a checkout hears from outside. */
  datatype Replies = Replies(
    ready: bool,
    shipping: bool,
    liveCart: Result<RemoteCart, Error>,
    addressMatches: Result<bool, Error>,
    cashOnDelivery: Result<bool, Error>,
    placement: Placement)

  predicate UsableId(id: string) {
    && 1 <= |id| <= 64
    && forall i | 0 <= i < |id| ::
         'A' <= id[i] <= 'Z' || 'a' <= id[i] <= 'z' || IsDigit(id[i])
         || id[i] == '_' || id[i] == '.' || id[i] == ':' || id[i] == '-'
  }

  /** The usable order ids, in order; the second part of an entry says whether that store reported an error. */
  function GoodIds(orders: seq<(string, bool)>): seq<string> {
    if orders == [] then []
    else
      var before, last := GoodIds(orders[..|orders| - 1]), orders[|orders| - 1];
      if !last.1 && UsableId(last.0) then before + [last.0] else before
  }

  function Interpret(q: Quote, d: CheckoutData): Checkout {
    if d.pendingPayment then NeedsMerchant
    else
      var ids := if d.orders != [] then GoodIds(d.orders) else if UsableId(d.orderId) then [d.orderId] else [];
      if d.orders != [] && (d.allSucceeded != Some(true) || |ids| < |d.orders| || d.failureCount > 0) then NeedsMerchant
      else if ids == [] then NeedsMerchant
      else Succeeded(Order(ids, q.items, q.finalPayable))
  }

  function CheckoutOutcome(cartId: nat, cart: Cart, r: Replies): Result<Checkout, Error> {
    if !r.ready || !cart.aliasVerified || !r.shipping then Ok(NeedsUser)
    else if r.liveCart.Err? then Err(r.liveCart.error)
    else if !Verified(cart, r.liveCart.value) then Ok(NeedsUser)
    else
      var q := BuildQuote(cartId, r.liveCart.value);
      if q.Err? then Err(q.error)
      else if r.addressMatches.Err? then Err(r.addressMatches.error)
      else if !r.addressMatches.value then Ok(NeedsUser)
      else if r.cashOnDelivery.Err? then Err(r.cashOnDelivery.error)
      else if !r.cashOnDelivery.value then Ok(NeedsUser)
      else match r.placement
        case ToolError => Ok(Failed)
        case SessionExpired => Ok(NeedsUser)
        case UnknownOutcome => Ok(NeedsMerchant)
        case Answer(d) => Ok(Interpret(q.value, d))
  }

  /** The live cart says nothing against an order, product by product. */
  ghost predicate NothingAgainst(cart: Cart, data: RemoteCart) {
    && !data.absent && !data.cartWarning && !data.addressWarning && data.unserviceable == 0
    && (data.address == "" || data.address == cart.address) && cart.lines != []
    && (forall i | 0 <= i < |data.items| :: data.items[i].available)
    && (forall k: Bytes :: Held(cart.lines, k) == Remote(data.items, k))
    && (forall k: Bytes :: HasSpin(cart.lines, k) <==> exists i | 0 <= i < |data.items| :: data.items[i].spin == k)
  }

  lemma {:induction false} VerifiedMeans(cart: Cart, data: RemoteCart)
    ensures Verified(cart, data) <==> NothingAgainst(cart, data)
  {
    var mine, theirs := LinePairs(cart.lines), ItemPairs(data.items);
    forall k: Bytes
      ensures k in Tally(mine) <==> HasSpin(cart.lines, k)
      ensures k in Tally(theirs) <==> exists i | 0 <= i < |data.items| :: data.items[i].spin == k
      ensures Held(cart.lines, k) == (if k in Tally(mine) then Tally(mine)[k] else 0)
      ensures Remote(data.items, k) == (if k in Tally(theirs) then Tally(theirs)[k] else 0)
    {
      TallyQuantity(mine, k);
      TallyQuantity(theirs, k);
      SpinsOf(cart.lines, data.items, k);
    }
  }

  lemma {:induction false} SpinsOf(lines: seq<Line>, items: seq<RemoteItem>, k: Bytes)
    ensures HasSpin(lines, k) <==> exists i :: 0 <= i < |LinePairs(lines)| && LinePairs(lines)[i].0 == k
    ensures (exists i | 0 <= i < |items| :: items[i].spin == k)
            <==> exists i :: 0 <= i < |ItemPairs(items)| && ItemPairs(items)[i].0 == k
  {
    if HasSpin(lines, k) {
      var i :| 0 <= i < |lines| && lines[i].spin == k;
      assert LinePairs(lines)[i].0 == k;
    }
    if j :| 0 <= j < |items| && items[j].spin == k {
      assert ItemPairs(items)[j].0 == k;
    }
  }

  /** Everything is in place for an order to be placed: the connector is ready, the alias verified, the address
      resolved and still the cart's own, cash accepted, and a live cart that can be priced and has nothing against it.
      */
  ghost predicate MayPlace(cart: Cart, r: Replies) {
    && r.ready && cart.aliasVerified && r.shipping
    && r.liveCart.Ok? && NothingAgainst(cart, r.liveCart.value)
    && r.liveCart.value.toPay.Some? && ItemsTotal(r.liveCart.value.items).Some?
    && r.addressMatches == Ok(true) && r.cashOnDelivery == Ok(true)
  }

  /** An order is reported exactly if one may be placed and the answer is a whole success. */
  lemma {:induction false} CheckoutExactly(cartId: nat, cart: Cart, r: Replies)
    ensures var c := CheckoutOutcome(cartId, cart, r);
            && (c.Ok? && c.value.Succeeded? <==>
                  && MayPlace(cart, r) && r.placement.Answer?
                  && var d := r.placement.data;
                     && !d.pendingPayment
                     && (d.orders == [] ==> UsableId(d.orderId))
                     && (d.orders != [] ==> d.allSucceeded == Some(true) && d.failureCount <= 0
                                            && forall i | 0 <= i < |d.orders| ::
                                                 !d.orders[i].1 && UsableId(d.orders[i].0)))
            && (MayPlace(cart, r) ==>
                  && (r.placement == ToolError ==> c == Ok(Failed))
                  && (r.placement == SessionExpired ==> c == Ok(NeedsUser))
                  && (r.placement == UnknownOutcome ==> c == Ok(NeedsMerchant))
                  && (r.placement.Answer? ==> c.Ok? && (c.value.Succeeded? || c.value.NeedsMerchant?)))
            && (!MayPlace(cart, r) ==> c.Err? || c.value.NeedsUser?)
  {
    if r.liveCart.Ok? {
      VerifiedMeans(cart, r.liveCart.value);
      if r.placement.Answer? && BuildQuote(cartId, r.liveCart.value).Ok? {
        SuccessIsWhole(BuildQuote(cartId, r.liveCart.value).value, r.placement.data);
      }
    }
  }

  /** How much of a spin id an order holds, reading its product ids back. */
  function Ordered(items: seq<Item>, spin: string): int {
    if items == [] then 0
    else
      var before, last := Ordered(items[..|items| - 1], spin), items[|items| - 1];
      var id := DecodeProductId(last.id);
      before + if id.Ok? && id.value.0 == spin then last.quantity else 0
  }

  lemma {:induction false} OrderedIsQuantity(items: seq<RemoteItem>, spin: Bytes)
    requires forall i | 0 <= i < |items| :: items[i].spin != ""
    ensures Ordered(QuoteItems(items), spin) == Quantity(ItemPairs(items), spin)
  {
    if items != [] {
      var init, last := items[..|items| - 1], items[|items| - 1];
      OrderedIsQuantity(init, spin);
      assert QuoteItems(items)[..|items| - 1] == QuoteItems(init);
      assert ItemPairs(items)[..|items| - 1] == ItemPairs(init);
      DecodeEncode(last.spin, last.sku);
    }
  }

  lemma {:induction false} VerifiedSpins(cart: Cart, data: RemoteCart)
    requires Tidy(cart.lines) && Verified(cart, data)
    ensures forall i | 0 <= i < |data.items| :: data.items[i].spin != ""
  {
    forall i | 0 <= i < |data.items|
      ensures data.items[i].spin != ""
    {
      var k := data.items[i].spin;
      assert ItemPairs(data.items)[i].0 == k;
      TallyQuantity(ItemPairs(data.items), k);
      TallyQuantity(LinePairs(cart.lines), k);
      var j :| 0 <= j < |cart.lines| && LinePairs(cart.lines)[j].0 == k;
      assert cart.lines[j].spin == k;
    }
  }

  /** What a reported success rests on. */
  lemma {:induction false} PlacedFrom(cartId: nat, cart: Cart, r: Replies)
    requires CheckoutOutcome(cartId, cart, r).Ok? && CheckoutOutcome(cartId, cart, r).value.Succeeded?
    ensures r.liveCart.Ok? && Verified(cart, r.liveCart.value) && BuildQuote(cartId, r.liveCart.value).Ok?
    ensures var order := CheckoutOutcome(cartId, cart, r).value.order;
            var q := BuildQuote(cartId, r.liveCart.value).value;
            order.items == q.items && order.total == q.finalPayable && order.merchantOrderIds != []
  {
  }

  lemma {:induction false} LiveQuantities(cart: Cart, data: RemoteCart, spin: Bytes)
    requires Tidy(cart.lines) && Verified(cart, data)
    ensures Ordered(QuoteItems(data.items), spin) == Quantity(LinePairs(cart.lines), spin)
  {
    VerifiedSpins(cart, data);
    OrderedIsQuantity(data.items, spin);
    TallyQuantity(ItemPairs(data.items), spin);
    TallyQuantity(LinePairs(cart.lines), spin);
  }

  lemma {:induction false} AllUsable(orders: seq<(string, bool)>)
    ensures |GoodIds(orders)| <= |orders|
    ensures |GoodIds(orders)| == |orders| <==> forall i | 0 <= i < |orders| :: !orders[i].1 && UsableId(orders[i].0)
    ensures |GoodIds(orders)| == |orders| ==> forall i | 0 <= i < |orders| :: GoodIds(orders)[i] == orders[i].0
  {
    if orders != [] {
      AllUsable(orders[..|orders| - 1]);
    }
  }

  /** Success is reported exactly for an answer without a pending payment in which every store of a split cart
      placed a usable order, or, for an unsplit cart, the one order id is usable; and the order names them all. */
  lemma {:induction false} SuccessIsWhole(q: Quote, d: CheckoutData)
    ensures Interpret(q, d).Succeeded? <==>
              && !d.pendingPayment
              && (d.orders == [] ==> UsableId(d.orderId))
              && (d.orders != [] ==> d.allSucceeded == Some(true) && d.failureCount <= 0
                                     && forall i | 0 <= i < |d.orders| :: !d.orders[i].1 && UsableId(d.orders[i].0))
    ensures Interpret(q, d).Succeeded? && d.orders != [] ==>
              var ids := Interpret(q, d).order.merchantOrderIds;
              |ids| == |d.orders| && forall i | 0 <= i < |ids| :: ids[i] == d.orders[i].0
  {
    AllUsable(d.orders);
  }

  /** A successful checkout orders, of every product, exactly what the local cart holds, for exactly To Pay. */
  lemma {:induction false} CheckoutConserves(cartId: nat, cart: Cart, r: Replies, spin: Bytes)
    requires Tidy(cart.lines)
    requires CheckoutOutcome(cartId, cart, r).Ok? && CheckoutOutcome(cartId, cart, r).value.Succeeded?
    ensures var order := CheckoutOutcome(cartId, cart, r).value.order;
            && Ordered(order.items, spin) == Quantity(LinePairs(cart.lines), spin)
            && r.liveCart.value.toPay == Some(order.total.minorUnits)
            && order.merchantOrderIds != []
  {
    PlacedFrom(cartId, cart, r);
    QuoteReconciles(cartId, r.liveCart.value);
    LiveQuantities(cart, r.liveCart.value, spin);
  }

  // ----- the connector

  /** The connector's carts by id. Calls to the merchant are replaced by the replies they would give. */
  class Connector {
    var carts: map<nat, Cart>

    ghost predicate Valid()
      reads this
    {
      forall id | id in carts :: Tidy(carts[id].lines)
    }

    constructor ()
      ensures Valid() && carts == map[]
    {
      carts := map[];
    }

    method CreateCart(id: nat, address: string)
      requires Valid() && id !in carts
      modifies this
      ensures Valid() && carts == old(carts)[id := Cart(address, false, [])]
    {
      carts := carts[id := Cart(address, false, [])];
    }

    /** GetDeliveryOptions: confirms that the alias names the very address the cart was built for. `linked` is the
        user's saved address and the alias linked to it. */
    method GetDeliveryOptions(id: nat, shippingAlias: string, linked: Result<(string, string), Error>)
      returns (e: Option<Error>)
      requires Valid()
      modifies this
      ensures Valid()
      ensures e == None <==> id in old(carts) && linked.Ok? && linked.value.1 != "" && shippingAlias == linked.value.1
                             && old(carts)[id].address == linked.value.0
      ensures carts == if e == None then old(carts)[id := old(carts)[id].(aliasVerified := true)] else old(carts)
    {
      if id !in carts {
        return Some(NotFound);
      }
      if linked.Err? {
        return Some(linked.error);
      }
      if linked.value.1 == "" || shippingAlias != linked.value.1 {
        return Some(Invalid);
      }
      if carts[id].address != linked.value.0 {
        return Some(Invalid);
      }
      carts := carts[id := carts[id].(aliasVerified := true)];
      return None;
    }

    method AddToCart(id: nat, productId: string, qty: int, reply: Result<seq<RemoteItem>, Error>)
      returns (e: Option<Error>)
      requires Valid()
      modifies this
      ensures Valid()
      ensures id !in old(carts) ==> carts == old(carts) && e.Some?
      ensures id in old(carts) ==>
                var r := CartAfterAdd(old(carts)[id], productId, qty, reply);
                e == r.1 && carts == old(carts)[id := r.0]
    {
      if id in carts {
        StepTidy(carts[id], Add(productId, qty, reply));
        assert carts[id := carts[id]] == carts;
      }
      if qty <= 0 {
        return Some(Invalid);
      }
      var decoded := DecodeBytes(productId);
      if decoded.Err? {
        return Some(decoded.error);
      }
      if id !in carts {
        return Some(NotFound);
      }
      var (spin, sku) := decoded.value;
      var next, found := BumpLines(carts[id].lines, spin, qty);
      if !found {
        next := next + [Line(spin, sku, qty)];
      }
      e := PushCart(id, next, reply);
    }

    /** The quantity loop of AddToCart. */
    method BumpLines(lines: seq<Line>, spin: Bytes, qty: int) returns (next: seq<Line>, found: bool)
      ensures found == HasSpin(lines, spin)
      ensures next == Bumped(lines, spin, qty)
    {
      next := lines;
      found := false;
      for i := 0 to |next|
        invariant |next| == |lines|
        invariant found <==> exists j | 0 <= j < i :: lines[j].spin == spin
        invariant forall j | 0 <= j < |lines| ::
                    next[j] == if j < i && lines[j].spin == spin then lines[j].(qty := lines[j].qty + qty) else lines[j]
      {
        if next[i].spin == spin {
          next := next[i := next[i].(qty := next[i].qty + qty)];
          found := true;
        }
      }
    }

    method RemoveFromCart(id: nat, productId: string, reply: Result<seq<RemoteItem>, Error>)
      returns (e: Option<Error>)
      requires Valid()
      modifies this
      ensures Valid()
      ensures id !in old(carts) ==> carts == old(carts) && e.Some?
      ensures id in old(carts) ==>
                var r := CartAfterRemove(old(carts)[id], productId, reply);
                e == r.1 && carts == old(carts)[id := r.0]
    {
      if id in carts {
        StepTidy(carts[id], Remove(productId, reply));
        assert carts[id := carts[id]] == carts;
      }
      var decoded := DecodeBytes(productId);
      if decoded.Err? {
        return Some(decoded.error);
      }
      if id !in carts {
        return Some(NotFound);
      }
      var lines := carts[id].lines;
      var next: seq<Line> := [];
      for i := 0 to |lines|
        invariant next == Without(lines[..i], decoded.value.0)
      {
        assert lines[..i + 1][..i] == lines[..i];
        if lines[i].spin != decoded.value.0 {
          next := next + [lines[i]];
        }
      }
      assert lines[..|lines|] == lines;
      e := PushCart(id, next, reply);
    }

    /** pushCart: sums what was accepted, then adopts it line by line. */
    method PushCart(id: nat, lines: seq<Line>, reply: Result<seq<RemoteItem>, Error>) returns (e: Option<Error>)
      requires id in carts
      modifies this
      ensures var r := Pushed(old(carts)[id], lines, reply); e == r.1 && carts == old(carts)[id := r.0]
    {
      assert carts[id := carts[id]] == carts;
      if reply.Err? {
        return Some(reply.error);
      }
      if lines == [] {
        carts := carts[id := carts[id].(lines := [])];
        return None;
      }
      var items := reply.value;
      var accepted: map<Bytes, int> := map[];
      for i := 0 to |items|
        invariant accepted == Tally(ItemPairs(items[..i]))
      {
        assert ItemPairs(items[..i + 1])[..i] == ItemPairs(items[..i]);
        accepted := Bump(accepted, items[i].spin, items[i].quantity);
      }
      assert items[..|items|] == items;
      var adopted: seq<Line> := [];
      var refused := 0;
      for i := 0 to |lines|
        invariant adopted == Adopted(lines[..i], accepted)
        invariant refused == i - |adopted|
      {
        assert lines[..i + 1][..i] == lines[..i];
        var q := AcceptedQty(accepted, lines[i].spin);
        if q <= 0 {
          refused := refused + 1;
          continue;
        }
        adopted := adopted + [lines[i].(qty := q)];
      }
      assert lines[..|lines|] == lines;
      carts := carts[id := carts[id].(lines := adopted)];
      return if refused > 0 then Some(Unavailable) else None;
    }

    /** The cart is gone once its order is placed, and untouched otherwise. */
    method ExecuteCheckout(id: nat, r: Replies) returns (result: Result<Checkout, Error>)
      requires Valid()
      modifies this
      ensures Valid()
      ensures id in old(carts) ==> result == CheckoutOutcome(id, old(carts)[id], r)
      ensures carts == if id in old(carts) && result.Ok? && result.value.Succeeded? then old(carts) - {id}
                       else old(carts)
    {
      if id !in carts {
        return if !r.ready then Ok(NeedsUser) else Err(NotFound);
      }
      if !r.ready {
        return Ok(NeedsUser);
      }
      var cart := carts[id];
      if !cart.aliasVerified || !r.shipping {
        return Ok(NeedsUser);
      }
      if r.liveCart.Err? {
        return Err(r.liveCart.error);
      }
      var ok := VerifyRemote(cart, r.liveCart.value);
      if !ok {
        return Ok(NeedsUser);
      }
      var q := BuildQuoteLoops(id, r.liveCart.value);
      if q.Err? {
        return Err(q.error);
      }
      if r.addressMatches.Err? {
        return Err(r.addressMatches.error);
      }
      if !r.addressMatches.value {
        return Ok(NeedsUser);
      }
      if r.cashOnDelivery.Err? {
        return Err(r.cashOnDelivery.error);
      }
      if !r.cashOnDelivery.value {
        return Ok(NeedsUser);
      }
      match r.placement
      case ToolError => return Ok(Failed);
      case SessionExpired => return Ok(NeedsUser);
      case UnknownOutcome => return Ok(NeedsMerchant);
      case Answer(d) =>
        var outcome := Interpret(q.value, d);
        if outcome.Succeeded? {
          carts := carts - {id};
        }
        return Ok(outcome);
    }

    method Wanted(lines: seq<Line>) returns (want: map<Bytes, int>)
      ensures want == Tally(LinePairs(lines))
    {
      want := map[];
      for i := 0 to |lines|
        invariant want == Tally(LinePairs(lines[..i]))
      {
        assert LinePairs(lines[..i + 1])[..i] == LinePairs(lines[..i]);
        want := Bump(want, lines[i].spin, lines[i].qty);
      }
      assert lines[..|lines|] == lines;
    }

    /** verifyRemote: both sides are totalled by spin id and compared as maps. */
    method VerifyRemote(cart: Cart, data: RemoteCart) returns (ok: bool)
      ensures ok == Verified(cart, data)
    {
      if data.absent || data.cartWarning || data.addressWarning || data.unserviceable > 0 {
        return false;
      }
      if data.address != "" && data.address != cart.address {
        return false;
      }
      var want := Wanted(cart.lines);
      assert want == map[] <==> cart.lines == [] by {
        if cart.lines != [] {
          assert cart.lines[|cart.lines| - 1].spin in want;
        }
      }
      if want == map[] {
        return false;
      }
      var got: map<Bytes, int> := map[];
      for i := 0 to |data.items|
        invariant got == Tally(ItemPairs(data.items[..i]))
        invariant forall j | 0 <= j < i :: data.items[j].available
      {
        assert ItemPairs(data.items[..i + 1])[..i] == ItemPairs(data.items[..i]);
        if !data.items[i].available {
          return false;
        }
        got := Bump(got, data.items[i].spin, data.items[i].quantity);
      }
      assert data.items[..|data.items|] == data.items;
      return want == got;
    }
  }
}
