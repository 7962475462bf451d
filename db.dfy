/** The relational store (backend/src/config/db.js) as in-memory tables: one sequence of rows
    per table, in insertion order, and one AUTOINCREMENT counter per table that the handlers
    insert into. */
module Db {
  import opened Common
  import opened Seqs
  import Crypto

  datatype User = User(id: int, name: string, email: string, passwordHash: Crypto.Credential,
                       role: string, createdAt: int)
  datatype Category = Category(id: int, name: string)
  /** Prices are integers in minor currency units. */
  datatype Product = Product(id: int, name: string, description: string, price: int, stock: int,
                             imageUrl: string, categoryId: Option<int>, createdAt: int)
  datatype CartItem = CartItem(id: int, userId: int, productId: int, quantity: int)
  /** The shipping address is stored as the request sent it (any truthy JSON value). */
  datatype Order = Order(id: int, userId: int, shippingAddress: Value, totalAmount: int, createdAt: int)
  datatype OrderItem = OrderItem(id: int, orderId: int, productId: int, quantity: int, priceAtPurchase: int)

  /** The whole database at one instant. */
  datatype Tables = Tables(
    users: seq<User>, categories: seq<Category>, products: seq<Product>,
    cartItems: seq<CartItem>, orders: seq<Order>, orderItems: seq<OrderItem>,
    nextUserId: int, nextCartItemId: int, nextOrderId: int, nextOrderItemId: int)

  /** `SELECT ... FROM products WHERE id = ?`: the first row with that id. */
  function FindProduct(products: seq<Product>, id: int): (r: Option<Product>)
    ensures r.Some? ==> r.value in products && r.value.id == id
    ensures r.None? <==> forall k :: 0 <= k < |products| ==> products[k].id != id
  {
    if products == [] then None
    else if products[0].id == id then Some(products[0])
    else FindProduct(products[1..], id)
  }

  /** `SELECT ... FROM users WHERE id = ?`: the first row with that id. */
  function FindUser(users: seq<User>, id: int): (r: Option<User>)
    ensures r.Some? ==> r.value in users && r.value.id == id
    ensures r.None? <==> forall k :: 0 <= k < |users| ==> users[k].id != id
  {
    if users == [] then None
    else if users[0].id == id then Some(users[0])
    else FindUser(users[1..], id)
  }

  // ---- the table invariant -------------------------------------------------------------

  predicate DistinctUsers(a: User, b: User) { a.id != b.id && a.email != b.email }
  predicate DistinctProductIds(a: Product, b: Product) { a.id != b.id }
  predicate DistinctCartIds(a: CartItem, b: CartItem) { a.id != b.id }
  predicate DistinctOrderIds(a: Order, b: Order) { a.id != b.id }
  predicate DistinctItemIds(a: OrderItem, b: OrderItem) { a.id != b.id }
  /** Two cart rows never hold the same product for the same user. */
  predicate DifferentUserOrProduct(a: CartItem, b: CartItem)
  {
    a.userId != b.userId || a.productId != b.productId
  }

  /** At most one cart row per (user, product) pair: kept by the handlers' read-modify-write
      logic, there is no schema constraint for it. */
  ghost predicate OneRowPerProduct(cart: seq<CartItem>)
  {
    Pairwise(cart, DifferentUserOrProduct)
  }

  ghost predicate UsersOk(users: seq<User>, nextId: int)
  {
    && nextId >= 1
    && (forall i :: 0 <= i < |users| ==> 1 <= users[i].id < nextId)
    && Pairwise(users, DistinctUsers)
  }

  ghost predicate ProductsOk(products: seq<Product>)
  {
    Pairwise(products, DistinctProductIds)
  }

  ghost predicate CartOk(cart: seq<CartItem>, products: seq<Product>, nextId: int)
  {
    && nextId >= 1
    && (forall i :: 0 <= i < |cart| ==>
          && 1 <= cart[i].id < nextId
          && cart[i].quantity > 0
          && FindProduct(products, cart[i].productId).Some?)
    && Pairwise(cart, DistinctCartIds)
    && OneRowPerProduct(cart)
  }

  function InOrder(orderId: int): OrderItem -> bool
  {
    (it: OrderItem) => it.orderId == orderId
  }

  /** `SELECT ... FROM order_items WHERE order_id = ?` */
  function ItemsOf(items: seq<OrderItem>, orderId: int): seq<OrderItem>
  {
    Keep(items, InOrder(orderId))
  }

  function ItemAmount(it: OrderItem): int
  {
    it.quantity * it.priceAtPurchase
  }

  /** Σ quantity × price_at_purchase over the items of one order. */
  function ItemsTotal(items: seq<OrderItem>, orderId: int): int
  {
    SumOf(ItemsOf(items, orderId), ItemAmount)
  }

  /** Every order's total equals the sum of its items at their snapshotted prices, and every
      item refers to an order already placed and to a product of the catalogue. */
  ghost predicate OrdersOk(orders: seq<Order>, items: seq<OrderItem>, products: seq<Product>,
                           nextOrderId: int, nextItemId: int)
  {
    && nextOrderId >= 1
    && nextItemId >= 1
    && (forall i :: 0 <= i < |orders| ==>
          && 1 <= orders[i].id < nextOrderId
          && ItemsTotal(items, orders[i].id) == orders[i].totalAmount)
    && Pairwise(orders, DistinctOrderIds)
    && (forall i :: 0 <= i < |items| ==>
          && 1 <= items[i].id < nextItemId
          && 1 <= items[i].orderId < nextOrderId
          && FindProduct(products, items[i].productId).Some?)
    && Pairwise(items, DistinctItemIds)
  }

  ghost predicate TablesOk(t: Tables)
  {
    && UsersOk(t.users, t.nextUserId)
    && ProductsOk(t.products)
    && CartOk(t.cartItems, t.products, t.nextCartItemId)
    && OrdersOk(t.orders, t.orderItems, t.products, t.nextOrderId, t.nextOrderItemId)
  }

  /** With unique product ids, looking a product up by its id finds that very row. */
  lemma {:induction false} FindProductById(products: seq<Product>, k: int)
    requires ProductsOk(products) && 0 <= k < |products|
    ensures FindProduct(products, products[k].id) == Some(products[k])
  {
    if k > 0 {
      assert products[0].id != products[k].id by { assert DistinctProductIds(products[0], products[k]); }
      assert ProductsOk(products[1..]) by {
        forall i, j | 0 <= i < j < |products[1..]|
          ensures DistinctProductIds(products[1..][i], products[1..][j])
        {
          assert DistinctProductIds(products[i + 1], products[j + 1]);
        }
      }
      FindProductById(products[1..], k - 1);
    }
  }

  /** The database handle: one field per table, updated in place by the handlers. */
  class Store {
    var users: seq<User>
    var categories: seq<Category>
    var products: seq<Product>
    var cartItems: seq<CartItem>
    var orders: seq<Order>
    var orderItems: seq<OrderItem>
    var nextUserId: int
    var nextCartItemId: int
    var nextOrderId: int
    var nextOrderItemId: int

    function Snapshot(): Tables
      reads this
    {
      Tables(users, categories, products, cartItems, orders, orderItems,
             nextUserId, nextCartItemId, nextOrderId, nextOrderItemId)
    }

    ghost predicate Valid()
      reads this
    {
      TablesOk(Snapshot())
    }

    /** A fresh database holding only the seeded catalogue. */
    constructor (categories: seq<Category>, products: seq<Product>)
      requires ProductsOk(products)
      ensures Valid()
      ensures Snapshot() == Tables([], categories, products, [], [], [], 1, 1, 1, 1)
    {
      this.users := [];
      this.categories := categories;
      this.products := products;
      this.cartItems := [];
      this.orders := [];
      this.orderItems := [];
      this.nextUserId := 1;
      this.nextCartItemId := 1;
      this.nextOrderId := 1;
      this.nextOrderItemId := 1;
    }
  }
}
