/** The order service (backend/src/controllers/orderController.js): checkout turns the caller's
    cart into an order, snapshots each line's price into `order_items`, decrements stock and
    empties the cart; two read handlers list orders newest first with their items. */
module OrderController {
  import opened Common
  import opened Http
  import opened Seqs
  import opened Db
  import opened CartController

  // ---- createOrder ---------------------------------------------------------------------

  /** One row of `SELECT ci.product_id, ci.quantity, p.price FROM cart_items ci JOIN products p`. */
  datatype CheckoutLine = CheckoutLine(productId: int, quantity: int, price: int)

  /** The join with `products`, taking each product's current price. */
  function JoinPrices(rows: seq<CartItem>, products: seq<Product>): (lines: seq<CheckoutLine>)
    ensures |lines| <= |rows|
    ensures (forall k :: 0 <= k < |rows| ==> FindProduct(products, rows[k].productId).Some?) ==>
              |lines| == |rows| &&
              forall k :: 0 <= k < |rows| ==>
                lines[k] == CheckoutLine(rows[k].productId, rows[k].quantity,
                                         FindProduct(products, rows[k].productId).value.price)
  {
    if rows == [] then []
    else
      var rest := JoinPrices(rows[1..], products);
      match FindProduct(products, rows[0].productId)
      case None => rest
      case Some(p) => [CheckoutLine(rows[0].productId, rows[0].quantity, p.price)] + rest
  }

  /** The caller's cart lines at current prices. */
  function CheckoutLines(cart: seq<CartItem>, products: seq<Product>, userId: int): seq<CheckoutLine>
  {
    JoinPrices(RowsOf(cart, userId), products)
  }

  function Amount(l: CheckoutLine): int
  {
    l.price * l.quantity
  }

  /** `cartItems.reduce((sum, item) => sum + item.price * item.quantity, 0)` */
  function OrderTotal(lines: seq<CheckoutLine>): int
  {
    SumOf(lines, Amount)
  }

  /** The `order_items` rows the loop inserts, one per line, with consecutive ids. */
  function PurchasedItems(lines: seq<CheckoutLine>, orderId: int, firstItemId: int): (items: seq<OrderItem>)
    ensures |items| == |lines|
    ensures forall i :: 0 <= i < |items| ==>
              items[i].orderId == orderId && firstItemId <= items[i].id < firstItemId + |lines|
    ensures forall i :: 0 <= i < |items| ==>
              items[i].productId == lines[i].productId && items[i].quantity == lines[i].quantity &&
              items[i].priceAtPurchase == lines[i].price
    ensures Pairwise(items, DistinctItemIds)
  {
    seq(|lines|, i requires 0 <= i < |lines| =>
      OrderItem(firstItemId + i, orderId, lines[i].productId, lines[i].quantity, lines[i].price))
  }

  /** `UPDATE products SET stock = stock - ? WHERE id = ?`, with no check on the result. */
  function Decrement(products: seq<Product>, line: CheckoutLine): (after: seq<Product>)
    ensures |after| == |products|
    ensures forall k :: 0 <= k < |after| ==>
              after[k] == products[k].(stock := after[k].stock) &&
              after[k].stock == products[k].stock - (if products[k].id == line.productId then line.quantity else 0)
  {
    seq(|products|, k requires 0 <= k < |products| =>
      if products[k].id == line.productId then products[k].(stock := products[k].stock - line.quantity)
      else products[k])
  }

  /** The stock updates of the whole loop, first line first. */
  function DecrementAll(products: seq<Product>, lines: seq<CheckoutLine>): (after: seq<Product>)
    ensures |after| == |products|
    ensures forall k :: 0 <= k < |after| ==> after[k] == products[k].(stock := after[k].stock)
    decreases |lines|
  {
    if lines == [] then products else DecrementAll(Decrement(products, lines[0]), lines[1..])
  }

  /** How many units of a product the lines buy. */
  function QtyOf(lines: seq<CheckoutLine>, productId: int): int
  {
    if lines == [] then 0
    else (if lines[0].productId == productId then lines[0].quantity else 0) + QtyOf(lines[1..], productId)
  }

  /** The database after a successful checkout: one order whose total is Σ price × quantity
      at current prices, one item per cart line with the price snapshotted, every purchased
      product's stock lowered by the quantity bought, and the caller's cart emptied. */
  function PlaceOrder(t: Tables, userId: int, shippingAddress: Value, now: int): (after: Tables)
    ensures after.users == t.users && after.categories == t.categories && after.nextUserId == t.nextUserId
    ensures after.nextCartItemId == t.nextCartItemId
    ensures |after.orders| == |t.orders| + 1 && after.orders[..|t.orders|] == t.orders
    ensures var o := after.orders[|t.orders|]; o.id == t.nextOrderId && o.userId == userId && o.createdAt == now
    ensures after.nextOrderId == t.nextOrderId + 1
    ensures |after.orderItems| >= |t.orderItems| && after.orderItems[..|t.orderItems|] == t.orderItems
    ensures |after.products| == |t.products|
  {
    var lines := CheckoutLines(t.cartItems, t.products, userId);
    t.(orders := t.orders + [Order(t.nextOrderId, userId, shippingAddress, OrderTotal(lines), now)],
       nextOrderId := t.nextOrderId + 1,
       orderItems := t.orderItems + PurchasedItems(lines, t.nextOrderId, t.nextOrderItemId),
       nextOrderItemId := t.nextOrderItemId + |lines|,
       products := DecrementAll(t.products, lines),
       cartItems := WithoutUser(t.cartItems, userId))
  }

  datatype OrderCreated = OrderCreated(orderId: int)

  /** POST /orders. A falsy address is refused before anything is read; an empty cart is
      refused before anything is written; otherwise the writes of PlaceOrder happen in the
      source's order: the order row, the per-line loop, then the cart deletion. */
  method CreateOrder(s: Store, userId: int, shippingAddress: Value, now: int) returns (r: Reply<OrderCreated>)
    requires s.Valid()
    modifies s
    ensures s.Valid()
    ensures var t := old(s.Snapshot());
            if !Truthy(shippingAddress) then r == Err(400, AddressRequired) && s.Snapshot() == t
            else if CheckoutLines(t.cartItems, t.products, userId) == [] then
              r == Err(400, CartEmpty) && s.Snapshot() == t
            else
              r == Ok(201, OrderCreated(t.nextOrderId)) && s.Snapshot() == PlaceOrder(t, userId, shippingAddress, now)
  {
    if !Truthy(shippingAddress) {
      return Err(400, AddressRequired);
    }
    var lines := CheckoutLines(s.cartItems, s.products, userId);
    if lines == [] {
      return Err(400, CartEmpty);
    }
    var orderId := WriteOrder(s, userId, shippingAddress, now, lines);
    r := Ok(201, OrderCreated(orderId));
  }

  /** The writes of a checkout whose cart is not empty: the order row, the per-line loop,
      then the cart deletion. */
  method WriteOrder(s: Store, userId: int, shippingAddress: Value, now: int, lines: seq<CheckoutLine>)
    returns (orderId: int)
    requires s.Valid() && lines == CheckoutLines(s.cartItems, s.products, userId)
    modifies s
    ensures s.Valid()
    ensures orderId == old(s.nextOrderId)
    ensures s.Snapshot() == PlaceOrder(old(s.Snapshot()), userId, shippingAddress, now)
  {
    ghost var t := s.Snapshot();
    CheckoutKeepsTablesOk(t, userId, shippingAddress, now);
    orderId := s.nextOrderId;
    var order := Order(orderId, userId, shippingAddress, OrderTotal(lines), now);
    ghost var after := t.(orders := t.orders + [order], nextOrderId := orderId + 1,
                          orderItems := t.orderItems + PurchasedItems(lines, orderId, t.nextOrderItemId),
                          nextOrderItemId := t.nextOrderItemId + |lines|,
                          products := DecrementAll(t.products, lines),
                          cartItems := WithoutUser(t.cartItems, userId));
    assert after == PlaceOrder(t, userId, shippingAddress, now);
    s.orders := s.orders + [order];
    s.nextOrderId := orderId + 1;
    RecordPurchases(s, lines, orderId);
    s.cartItems := WithoutUser(s.cartItems, userId);
    assert s.Snapshot() == after;
  }

  /** One more turn of the loop inserts one more item, for the next line, with the next id. */
  lemma PurchasedItemsSnoc(lines: seq<CheckoutLine>, i: int, orderId: int, firstItemId: int)
    requires 0 <= i < |lines|
    ensures PurchasedItems(lines[..i + 1], orderId, firstItemId)
         == PurchasedItems(lines[..i], orderId, firstItemId)
            + [OrderItem(firstItemId + i, orderId, lines[i].productId, lines[i].quantity, lines[i].price)]
  {
  }

  /** The loop of createOrder: for each line, insert its order item (price snapshotted) and
      lower its product's stock. */
  method RecordPurchases(s: Store, lines: seq<CheckoutLine>, orderId: int)
    modifies s
    ensures s.Snapshot() == old(s.Snapshot()).(
              orderItems := old(s.orderItems) + PurchasedItems(lines, orderId, old(s.nextOrderItemId)),
              nextOrderItemId := old(s.nextOrderItemId) + |lines|,
              products := DecrementAll(old(s.products), lines))
  {
    ghost var t := s.Snapshot();
    var i := 0;
    while i < |lines|
      invariant 0 <= i <= |lines|
      invariant s.Snapshot() == t.(orderItems := t.orderItems + PurchasedItems(lines[..i], orderId, t.nextOrderItemId),
                                   nextOrderItemId := t.nextOrderItemId + i,
                                   products := s.products)
      invariant DecrementAll(s.products, lines[i..]) == DecrementAll(t.products, lines)
    {
      var line := lines[i];
      PurchasedItemsSnoc(lines, i, orderId, t.nextOrderItemId);
      s.orderItems := s.orderItems + [OrderItem(s.nextOrderItemId, orderId, line.productId, line.quantity, line.price)];
      s.nextOrderItemId := s.nextOrderItemId + 1;
      assert lines[i..][1..] == lines[i + 1..];
      s.products := Decrement(s.products, line);
      i := i + 1;
    }
    assert lines[..i] == lines;
  }

  // ---- checkout properties -------------------------------------------------------------

  /** Stock after checkout: every product row is unchanged except that its stock is lowered
      by the units the lines buy; nothing stops it from going below zero. */
  lemma {:induction false} StockAfterCheckout(products: seq<Product>, lines: seq<CheckoutLine>)
    ensures |DecrementAll(products, lines)| == |products|
    ensures forall k :: 0 <= k < |products| ==>
              DecrementAll(products, lines)[k] == products[k].(stock := products[k].stock - QtyOf(lines, products[k].id))
    decreases |lines|
  {
    if lines != [] {
      var next := Decrement(products, lines[0]);
      StockAfterCheckout(next, lines[1..]);
    }
  }

  /** Checkout changes stock only: product ids, and so every lookup by id, stay as they were. */
  lemma CatalogueIdsKept(products: seq<Product>, lines: seq<CheckoutLine>)
    requires ProductsOk(products)
    ensures ProductsOk(DecrementAll(products, lines))
    ensures forall id :: FindProduct(DecrementAll(products, lines), id).Some? == FindProduct(products, id).Some?
  {
    StockAfterCheckout(products, lines);
    var after := DecrementAll(products, lines);
    forall id ensures FindProduct(after, id).Some? == FindProduct(products, id).Some? {
      if FindProduct(products, id).Some? {
        var k :| 0 <= k < |products| && products[k].id == id;
        assert after[k].id == id;
      }
    }
    forall a, b | 0 <= a < b < |after| ensures DistinctProductIds(after[a], after[b]) {
      assert DistinctProductIds(products[a], products[b]);
    }
  }

  lemma CartOkTail(cart: seq<CartItem>, products: seq<Product>, nextId: int)
    requires CartOk(cart, products, nextId) && cart != []
    ensures CartOk(cart[1..], products, nextId)
  {
    var c := cart[1..];
    forall a, b | 0 <= a < b < |c|
      ensures DistinctCartIds(c[a], c[b]) && DifferentUserOrProduct(c[a], c[b])
    {
      assert DistinctCartIds(cart[a + 1], cart[b + 1]) && DifferentUserOrProduct(cart[a + 1], cart[b + 1]);
    }
  }

  /** Because the caller has at most one row per product, checkout buys of each product
      exactly the quantity in that row, and none of a product the cart does not hold. */
  lemma {:induction false} CheckoutBuysCartQuantity(cart: seq<CartItem>, products: seq<Product>, nextId: int,
                                                    userId: int, productId: int)
    requires CartOk(cart, products, nextId)
    ensures QtyOf(CheckoutLines(cart, products, userId), productId) ==
              match FindCartRow(cart, userId, productId)
              case Some(i) => cart[i].quantity
              case None => 0
  {
    if cart != [] {
      var tail := cart[1..];
      CartOkTail(cart, products, nextId);
      CheckoutBuysCartQuantity(tail, products, nextId, userId, productId);
      var rest := CheckoutLines(tail, products, userId);
      if cart[0].userId == userId {
        assert RowsOf(cart, userId) == [cart[0]] + RowsOf(tail, userId);
        assert ([cart[0]] + RowsOf(tail, userId))[1..] == RowsOf(tail, userId);
        var p := FindProduct(products, cart[0].productId).value;
        var line := CheckoutLine(cart[0].productId, cart[0].quantity, p.price);
        assert CheckoutLines(cart, products, userId) == [line] + rest;
        assert ([line] + rest)[1..] == rest;
        if cart[0].productId == productId {
          forall j | 0 <= j < |tail| ensures !(tail[j].userId == userId && tail[j].productId == productId) {
            assert DifferentUserOrProduct(cart[0], cart[j + 1]);
          }
        }
      }
    }
  }

  /** The items of a new order add up to the total recorded on it:
      Σ quantity × price_at_purchase = total_amount. */
  lemma {:induction false} PurchasedItemsSum(lines: seq<CheckoutLine>, orderId: int, firstItemId: int)
    ensures SumOf(PurchasedItems(lines, orderId, firstItemId), ItemAmount) == OrderTotal(lines)
  {
    if lines != [] {
      var items := PurchasedItems(lines, orderId, firstItemId);
      assert items[1..] == PurchasedItems(lines[1..], orderId, firstItemId + 1);
      PurchasedItemsSum(lines[1..], orderId, firstItemId + 1);
      assert ItemAmount(items[0]) == Amount(lines[0]);
    }
  }

  /** Appending the items of a new order: that order's items sum to its total, and every
      earlier order keeps the sum it had. */
  lemma OrderItemsTotal(old_items: seq<OrderItem>, lines: seq<CheckoutLine>, orderId: int, firstItemId: int,
                        otherId: int)
    requires forall i :: 0 <= i < |old_items| ==> old_items[i].orderId < orderId
    ensures ItemsTotal(old_items + PurchasedItems(lines, orderId, firstItemId), orderId) == OrderTotal(lines)
    ensures otherId != orderId ==>
              ItemsTotal(old_items + PurchasedItems(lines, orderId, firstItemId), otherId) == ItemsTotal(old_items, otherId)
  {
    var fresh_items := PurchasedItems(lines, orderId, firstItemId);
    KeepAppend(old_items, fresh_items, InOrder(orderId));
    KeepNothing(old_items, InOrder(orderId));
    KeepEverything(fresh_items, InOrder(orderId));
    assert ItemsOf(old_items + fresh_items, orderId) == fresh_items;
    PurchasedItemsSum(lines, orderId, firstItemId);
    if otherId != orderId {
      KeepAppend(old_items, fresh_items, InOrder(otherId));
      KeepNothing(fresh_items, InOrder(otherId));
      assert ItemsOf(old_items + fresh_items, otherId) == ItemsOf(old_items, otherId);
    }
  }

  /** Checkout keeps the cart invariant: the caller's rows go, the rest stay valid against
      the updated catalogue. */
  lemma CartAfterCheckout(t: Tables, userId: int, lines: seq<CheckoutLine>)
    requires TablesOk(t)
    ensures CartOk(WithoutUser(t.cartItems, userId), DecrementAll(t.products, lines), t.nextCartItemId)
  {
    KeepCartOk(t.cartItems, t.products, t.nextCartItemId, NotOwnedBy(userId));
    CatalogueIdsKept(t.products, lines);
  }

  /** Placing one order keeps the order invariant: unique ids, items pointing at placed
      orders and existing products, and every order's total equal to the sum of its items. */
  lemma OrdersOkAfterAppend(orders: seq<Order>, items: seq<OrderItem>, products: seq<Product>,
                            products': seq<Product>, nextOrderId: int, nextItemId: int,
                            order: Order, lines: seq<CheckoutLine>)
    requires OrdersOk(orders, items, products, nextOrderId, nextItemId)
    requires forall id :: FindProduct(products', id).Some? == FindProduct(products, id).Some?
    requires forall k :: 0 <= k < |lines| ==> FindProduct(products, lines[k].productId).Some?
    requires order.id == nextOrderId && order.totalAmount == OrderTotal(lines)
    ensures OrdersOk(orders + [order], items + PurchasedItems(lines, nextOrderId, nextItemId), products',
                     nextOrderId + 1, nextItemId + |lines|)
  {
    var orders' := orders + [order];
    var items' := items + PurchasedItems(lines, nextOrderId, nextItemId);
    forall i | 0 <= i < |orders'|
      ensures 1 <= orders'[i].id < nextOrderId + 1
      ensures ItemsTotal(items', orders'[i].id) == orders'[i].totalAmount
    {
      OrderItemsTotal(items, lines, nextOrderId, nextItemId, orders'[i].id);
    }
    forall i | 0 <= i < |items'|
      ensures 1 <= items'[i].id < nextItemId + |lines|
      ensures 1 <= items'[i].orderId < nextOrderId + 1
      ensures FindProduct(products', items'[i].productId).Some?
    {
      if i >= |items| {
        assert items'[i].productId == lines[i - |items|].productId;
      }
    }
    assert Pairwise(orders', DistinctOrderIds) by {
      forall a, b | 0 <= a < b < |orders'| ensures DistinctOrderIds(orders'[a], orders'[b]) {
        if b < |orders| { assert DistinctOrderIds(orders[a], orders[b]); }
      }
    }
    assert Pairwise(items', DistinctItemIds) by {
      forall a, b | 0 <= a < b < |items'| ensures DistinctItemIds(items'[a], items'[b]) {
        if b < |items| { assert DistinctItemIds(items[a], items[b]); }
      }
    }
  }

  /** Every checkout line is for a product of the catalogue. */
  lemma CheckoutLinesKnown(t: Tables, userId: int)
    requires CartOk(t.cartItems, t.products, t.nextCartItemId)
    ensures var lines := CheckoutLines(t.cartItems, t.products, userId);
            forall k :: 0 <= k < |lines| ==> FindProduct(t.products, lines[k].productId).Some?
  {
    var rows := RowsOf(t.cartItems, userId);
    assert forall k :: 0 <= k < |rows| ==> FindProduct(t.products, rows[k].productId).Some?;
  }

  /** Checkout keeps the order invariant. */
  lemma OrdersAfterCheckout(t: Tables, userId: int, shippingAddress: Value, now: int)
    requires OrdersOk(t.orders, t.orderItems, t.products, t.nextOrderId, t.nextOrderItemId)
    requires CartOk(t.cartItems, t.products, t.nextCartItemId) && ProductsOk(t.products)
    ensures var after := PlaceOrder(t, userId, shippingAddress, now);
            OrdersOk(after.orders, after.orderItems, after.products, after.nextOrderId, after.nextOrderItemId)
  {
    var lines := CheckoutLines(t.cartItems, t.products, userId);
    var order := Order(t.nextOrderId, userId, shippingAddress, OrderTotal(lines), now);
    var products' := DecrementAll(t.products, lines);
    CatalogueIdsKept(t.products, lines);
    CheckoutLinesKnown(t, userId);
    OrdersOkAfterAppend(t.orders, t.orderItems, t.products, products',
                        t.nextOrderId, t.nextOrderItemId, order, lines);
    PlaceOrderParts(t, userId, shippingAddress, now);
  }

  /** The order tables and the catalogue after checkout, table by table. */
  lemma PlaceOrderParts(t: Tables, userId: int, shippingAddress: Value, now: int)
    ensures var lines := CheckoutLines(t.cartItems, t.products, userId);
            var after := PlaceOrder(t, userId, shippingAddress, now);
            && after.orders == t.orders + [Order(t.nextOrderId, userId, shippingAddress, OrderTotal(lines), now)]
            && after.orderItems == t.orderItems + PurchasedItems(lines, t.nextOrderId, t.nextOrderItemId)
            && after.products == DecrementAll(t.products, lines)
            && after.nextOrderId == t.nextOrderId + 1
            && after.nextOrderItemId == t.nextOrderItemId + |lines|
  {
  }

  /** Checkout keeps every table invariant. */
  lemma CheckoutKeepsTablesOk(t: Tables, userId: int, shippingAddress: Value, now: int)
    requires TablesOk(t)
    ensures TablesOk(PlaceOrder(t, userId, shippingAddress, now))
  {
    var lines := CheckoutLines(t.cartItems, t.products, userId);
    CatalogueIdsKept(t.products, lines);
    CartAfterCheckout(t, userId, lines);
    OrdersAfterCheckout(t, userId, shippingAddress, now);
  }

  /** The total the cart page shows is the total checkout charges: both join the same rows
      with the same current prices. */
  lemma {:induction false} CartTotalIsCheckoutTotal(rows: seq<CartItem>, products: seq<Product>)
    ensures SumOf(JoinProducts(rows, products), LineAmount) == OrderTotal(JoinPrices(rows, products))
  {
    if rows != [] {
      CartTotalIsCheckoutTotal(rows[1..], products);
      var a := JoinProducts(rows[1..], products);
      var b := JoinPrices(rows[1..], products);
      match FindProduct(products, rows[0].productId)
      case None =>
      case Some(p) =>
        var l := LineOf(rows[0], p);
        var c := CheckoutLine(rows[0].productId, rows[0].quantity, p.price);
        assert ([l] + a)[1..] == a;
        assert ([c] + b)[1..] == b;
    }
  }

  /** A successful checkout appends one order for the caller whose total is the total the
      cart page showed, with one item per cart row, and those items sum to that total. */
  lemma CheckoutRecordsCartTotal(t: Tables, userId: int, shippingAddress: Value, now: int)
    requires OrdersOk(t.orders, t.orderItems, t.products, t.nextOrderId, t.nextOrderItemId)
    requires CartOk(t.cartItems, t.products, t.nextCartItemId)
    ensures var after := PlaceOrder(t, userId, shippingAddress, now);
            var total := GetCartItems(t, userId).body.totalAmount;
            && after.orders == t.orders + [Order(t.nextOrderId, userId, shippingAddress, total, now)]
            && ItemsTotal(after.orderItems, t.nextOrderId) == total
            && |ItemsOf(after.orderItems, t.nextOrderId)| == |RowsOf(t.cartItems, userId)|
  {
    var lines := CheckoutLines(t.cartItems, t.products, userId);
    var rows := RowsOf(t.cartItems, userId);
    assert forall j :: 0 <= j < |rows| ==> FindProduct(t.products, rows[j].productId).Some?;
    CartTotalIsCheckoutTotal(rows, t.products);
    OrderItemsTotal(t.orderItems, lines, t.nextOrderId, t.nextOrderItemId, t.nextOrderId);
    var fresh_items := PurchasedItems(lines, t.nextOrderId, t.nextOrderItemId);
    KeepAppend(t.orderItems, fresh_items, InOrder(t.nextOrderId));
    KeepNothing(t.orderItems, InOrder(t.nextOrderId));
    KeepEverything(fresh_items, InOrder(t.nextOrderId));
  }

  /** After checkout each product's stock is lowered by exactly the quantity of the caller's
      cart row for it, and by nothing when the cart holds none of it. */
  lemma CheckoutStock(t: Tables, userId: int, shippingAddress: Value, now: int, k: int)
    requires TablesOk(t) && 0 <= k < |t.products|
    ensures var after := PlaceOrder(t, userId, shippingAddress, now).products;
            && |after| == |t.products|
            && after[k] == t.products[k].(stock := t.products[k].stock -
                 match FindCartRow(t.cartItems, userId, t.products[k].id)
                 case Some(i) => t.cartItems[i].quantity
                 case None => 0)
  {
    var lines := CheckoutLines(t.cartItems, t.products, userId);
    StockAfterCheckout(t.products, lines);
    CheckoutBuysCartQuantity(t.cartItems, t.products, t.nextCartItemId, userId, t.products[k].id);
  }

  /** Checkout empties the caller's cart and no one else's. */
  lemma CheckoutEmptiesOnlyCallersCart(t: Tables, userId: int, shippingAddress: Value, now: int, other: int)
    requires other != userId
    ensures var after := PlaceOrder(t, userId, shippingAddress, now).cartItems;
            RowsOf(after, userId) == [] && RowsOf(after, other) == RowsOf(t.cartItems, other)
  {
    ClearIsScopedToOwner(t.cartItems, userId, other);
  }

  /** Checkout does not re-check stock: a cart row that another user's checkout has made too
      large still goes through, and the stock ends below zero. */
  lemma StockCanGoNegative()
    ensures var product := Product(1, "lamp", "", 500, 0, "", None, 0);
            var t := Tables([], [], [product], [CartItem(1, 7, 1, 2)], [], [], 1, 2, 1, 1);
            var after := PlaceOrder(t, 7, Str("street"), 10).products;
            && TablesOk(t)
            && CheckoutLines(t.cartItems, t.products, 7) != []
            && |after| == 1 && after[0].stock == -2
  {
    var product := Product(1, "lamp", "", 500, 0, "", None, 0);
    var t := Tables([], [], [product], [CartItem(1, 7, 1, 2)], [], [], 1, 2, 1, 1);
    assert RowsOf(t.cartItems, 7) == t.cartItems;
    assert CheckoutLines(t.cartItems, t.products, 7) == [CheckoutLine(1, 2, 500)];
    StockAfterCheckout(t.products, [CheckoutLine(1, 2, 500)]);
  }

  // ---- getMyOrders and getAllOrders ----------------------------------------------------

  /** One row of `order_items oi JOIN products p`: product id, name, quantity, snapshotted price. */
  datatype ItemLine = ItemLine(productId: int, name: string, quantity: int, priceAtPurchase: int)

  function JoinItemProducts(items: seq<OrderItem>, products: seq<Product>): (lines: seq<ItemLine>)
    ensures |lines| <= |items|
    ensures (forall k :: 0 <= k < |items| ==> FindProduct(products, items[k].productId).Some?) ==>
              |lines| == |items| &&
              forall k :: 0 <= k < |items| ==>
                lines[k] == ItemLine(items[k].productId, FindProduct(products, items[k].productId).value.name,
                                     items[k].quantity, items[k].priceAtPurchase)
  {
    if items == [] then []
    else
      var rest := JoinItemProducts(items[1..], products);
      match FindProduct(products, items[0].productId)
      case None => rest
      case Some(p) => [ItemLine(items[0].productId, p.name, items[0].quantity, items[0].priceAtPurchase)] + rest
  }

  /** The item lines of one order: only items whose order_id is that order's. */
  function ItemLinesOf(t: Tables, orderId: int): (lines: seq<ItemLine>)
    ensures OrdersOk(t.orders, t.orderItems, t.products, t.nextOrderId, t.nextOrderItemId) ==>
              var own := ItemsOf(t.orderItems, orderId);
              |lines| == |own| &&
              forall k :: 0 <= k < |own| ==>
                own[k].orderId == orderId && lines[k].productId == own[k].productId &&
                lines[k].quantity == own[k].quantity && lines[k].priceAtPurchase == own[k].priceAtPurchase &&
                FindProduct(t.products, own[k].productId).Some? &&
                lines[k].name == FindProduct(t.products, own[k].productId).value.name
  {
    var own := ItemsOf(t.orderItems, orderId);
    KeepMembers(t.orderItems, InOrder(orderId));
    assert OrdersOk(t.orders, t.orderItems, t.products, t.nextOrderId, t.nextOrderItemId) ==>
             forall k :: 0 <= k < |own| ==> FindProduct(t.products, own[k].productId).Some?;
    JoinItemProducts(own, t.products)
  }

  function OrderCreatedAt(o: Order): int
  {
    o.createdAt
  }

  function PlacedBy(userId: int): Order -> bool
  {
    (o: Order) => o.userId == userId
  }

  /** `SELECT ... FROM orders WHERE user_id = ? ORDER BY created_at DESC` */
  function OrdersOf(orders: seq<Order>, userId: int): (r: seq<Order>)
    ensures forall i :: 0 <= i < |r| ==> r[i].userId == userId && r[i] in orders
    ensures forall o :: o in orders && o.userId == userId ==> o in r
    ensures NonIncreasing(r, OrderCreatedAt)
    ensures multiset(r) == multiset(Keep(orders, PlacedBy(userId)))
  {
    var mine := Keep(orders, PlacedBy(userId));
    KeepMembers(orders, PlacedBy(userId));
    SortDescSameElements(mine, OrderCreatedAt);
    SortDesc(mine, OrderCreatedAt)
  }

  datatype MyOrder = MyOrder(id: int, shippingAddress: Value, totalAmount: int, createdAt: int,
                             items: seq<ItemLine>)

  /** GET /orders/my: the caller's orders, newest first, each given its own item lines in
      place by the loop. */
  method GetMyOrders(t: Tables, userId: int) returns (r: Reply<seq<MyOrder>>)
    ensures r.Ok? && r.status == 200
    ensures var mine := OrdersOf(t.orders, userId);
            |r.body| == |mine| &&
            forall i :: 0 <= i < |mine| ==>
              r.body[i] == MyOrder(mine[i].id, mine[i].shippingAddress, mine[i].totalAmount,
                                   mine[i].createdAt, ItemLinesOf(t, mine[i].id))
  {
    var orders := OrdersOf(t.orders, userId);
    var views := seq(|orders|, i requires 0 <= i < |orders| =>
      MyOrder(orders[i].id, orders[i].shippingAddress, orders[i].totalAmount, orders[i].createdAt, []));
    for i := 0 to |orders|
      invariant |views| == |orders|
      invariant forall k :: 0 <= k < |orders| ==>
                  views[k] == MyOrder(orders[k].id, orders[k].shippingAddress, orders[k].totalAmount,
                                      orders[k].createdAt, if k < i then ItemLinesOf(t, orders[k].id) else [])
    {
      views := views[i := views[i].(items := ItemLinesOf(t, views[i].id))];
    }
    r := Ok(200, views);
  }

  /** An order joined with its owner's name. */
  datatype NamedOrder = NamedOrder(order: Order, userName: string)

  function NamedCreatedAt(o: NamedOrder): int
  {
    o.order.createdAt
  }

  function HasOwner(users: seq<User>): Order -> bool
  {
    (o: Order) => FindUser(users, o.userId).Some?
  }

  /** `orders o JOIN users u ON o.user_id = u.id`: an order whose user is missing is dropped. */
  function JoinUsers(orders: seq<Order>, users: seq<User>): (r: seq<NamedOrder>)
    ensures |r| == |Keep(orders, HasOwner(users))|
    ensures forall i :: 0 <= i < |r| ==> r[i].order == Keep(orders, HasOwner(users))[i]
    ensures forall i :: 0 <= i < |r| ==>
              r[i].order in orders && FindUser(users, r[i].order.userId).Some? &&
              r[i].userName == FindUser(users, r[i].order.userId).value.name
    ensures forall o :: o in orders && FindUser(users, o.userId).Some? ==>
              NamedOrder(o, FindUser(users, o.userId).value.name) in r
  {
    if orders == [] then []
    else
      var rest := JoinUsers(orders[1..], users);
      match FindUser(users, orders[0].userId)
      case None => rest
      case Some(u) => [NamedOrder(orders[0], u.name)] + rest
  }

  /** `... ORDER BY o.created_at DESC` over every order whose owner exists. */
  function AllOrders(orders: seq<Order>, users: seq<User>): (r: seq<NamedOrder>)
    ensures multiset(r) == multiset(JoinUsers(orders, users))
    ensures NonIncreasing(r, NamedCreatedAt)
  {
    SortDesc(JoinUsers(orders, users), NamedCreatedAt)
  }

  datatype AnyOrder = AnyOrder(id: int, userId: int, userName: string, shippingAddress: Value,
                               totalAmount: int, createdAt: int, items: seq<ItemLine>)

  /** GET /orders (admin): every order with its owner's name, newest first, each given its
      own item lines in place by the loop. */
  method GetAllOrders(t: Tables) returns (r: Reply<seq<AnyOrder>>)
    ensures r.Ok? && r.status == 200
    ensures var all := AllOrders(t.orders, t.users);
            |r.body| == |all| &&
            forall i :: 0 <= i < |all| ==>
              r.body[i] == AnyOrder(all[i].order.id, all[i].order.userId, all[i].userName,
                                    all[i].order.shippingAddress, all[i].order.totalAmount,
                                    all[i].order.createdAt, ItemLinesOf(t, all[i].order.id))
  {
    var orders := AllOrders(t.orders, t.users);
    var views := seq(|orders|, i requires 0 <= i < |orders| =>
      var o := orders[i].order;
      AnyOrder(o.id, o.userId, orders[i].userName, o.shippingAddress, o.totalAmount, o.createdAt, []));
    for i := 0 to |orders|
      invariant |views| == |orders|
      invariant forall k :: 0 <= k < |orders| ==>
                  var o := orders[k].order;
                  views[k] == AnyOrder(o.id, o.userId, orders[k].userName, o.shippingAddress, o.totalAmount,
                                       o.createdAt, if k < i then ItemLinesOf(t, o.id) else [])
    {
      views := views[i := views[i].(items := ItemLinesOf(t, views[i].id))];
    }
    r := Ok(200, views);
  }
}
