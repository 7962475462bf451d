/** The admin router (backend/src/routes/adminRoutes.js): every route runs authenticateToken
    and authorizeRole(['admin']) first; then it lists users newest first, promotes a user to
    admin, or reports counts, revenue and the five best-selling products. */
module AdminRoutes {
  import opened Common
  import opened Http
  import opened Seqs
  import opened Db
  import opened AuthMiddleware
  import OrderController
  import CartController

  // ---- the guard -----------------------------------------------------------------------

  /** `authenticateToken, authorizeRole(['admin'])`: the request goes on exactly when the
      token authenticates and carries the role 'admin'. */
  function AdminGate(header: Option<string>, verify: string -> Option<Payload>): (o: Outcome)
    ensures o.Next? <==> Authenticate(header, verify).Ok? && Authenticate(header, verify).body.role == Str("admin")
    ensures o.Respond? ==> o.status == 401 || o.status == 403
  {
    match Authenticate(header, verify)
    case Err(status, msg) => Respond(status, msg)
    case Ok(_, user) => AuthorizeRole(["admin"], Some(user))
  }

  // ---- GET /users ----------------------------------------------------------------------

  /** `SELECT id, name, email, role, created_at FROM users`: no password hash. */
  datatype UserRow = UserRow(id: int, name: string, email: string, role: string, createdAt: int)

  function RowOf(u: User): UserRow
  {
    UserRow(u.id, u.name, u.email, u.role, u.createdAt)
  }

  function RowCreatedAt(r: UserRow): int
  {
    r.createdAt
  }

  /** `... ORDER BY created_at DESC`: every user once, newest first. */
  function UserListing(users: seq<User>): (r: seq<UserRow>)
    ensures |r| == |users|
    ensures NonIncreasing(r, RowCreatedAt)
    ensures forall k :: 0 <= k < |users| ==> RowOf(users[k]) in r
    ensures forall i :: 0 <= i < |r| ==> exists k :: 0 <= k < |users| && r[i] == RowOf(users[k])
  {
    var rows := seq(|users|, k requires 0 <= k < |users| => RowOf(users[k]));
    assert forall k :: 0 <= k < |users| ==> rows[k] == RowOf(users[k]);
    SortDescSameElements(rows, RowCreatedAt);
    SortDesc(rows, RowCreatedAt)
  }

  function ListUsers(header: Option<string>, verify: string -> Option<Payload>, users: seq<User>): (r: Reply<seq<UserRow>>)
    ensures r.Ok? <==> AdminGate(header, verify).Next?
    ensures r.Ok? ==> r.status == 200 && r.body == UserListing(users)
  {
    match AdminGate(header, verify)
    case Respond(status, msg) => Err(status, msg)
    case Next => Ok(200, UserListing(users))
  }

  // ---- POST /users/:id/make-admin ------------------------------------------------------

  /** `UPDATE users SET role = 'admin' WHERE id = ?` */
  function Promote(users: seq<User>, id: int): seq<User>
  {
    seq(|users|, k requires 0 <= k < |users| => if users[k].id == id then users[k].(role := "admin") else users[k])
  }

  /** The row with that id becomes an admin with every other field kept; every other row
      stays as it was. */
  lemma PromoteOnlyThatUser(users: seq<User>, id: int)
    ensures |Promote(users, id)| == |users|
    ensures forall k :: 0 <= k < |users| && users[k].id == id ==>
              Promote(users, id)[k].role == "admin" && Promote(users, id)[k] == users[k].(role := "admin")
    ensures forall k :: 0 <= k < |users| && users[k].id != id ==> Promote(users, id)[k] == users[k]
  {
  }

  /** Promoting twice is promoting once. */
  lemma PromoteIdempotent(users: seq<User>, id: int)
    ensures Promote(Promote(users, id), id) == Promote(users, id)
  {
    var once := Promote(users, id);
    assert forall k :: 0 <= k < |once| ==> Promote(once, id)[k] == once[k];
  }

  /** An id no user has changes nothing (and the route still answers success). */
  lemma PromoteMissingId(users: seq<User>, id: int)
    requires forall k :: 0 <= k < |users| ==> users[k].id != id
    ensures Promote(users, id) == users
  {
  }

  lemma PromoteKeepsUsersOk(users: seq<User>, nextId: int, id: int)
    requires UsersOk(users, nextId)
    ensures UsersOk(Promote(users, id), nextId)
  {
    var p := Promote(users, id);
    forall a, b | 0 <= a < b < |p| ensures DistinctUsers(p[a], p[b]) {
      assert DistinctUsers(users[a], users[b]);
    }
  }

  datatype AdminAck = MadeAdmin

  /** The make-admin route: behind the guard, updates the role in place and answers
      success whether or not a row had that id. */
  method MakeAdmin(s: Store, header: Option<string>, verify: string -> Option<Payload>, id: int)
    returns (r: Reply<AdminAck>)
    requires s.Valid()
    modifies s
    ensures s.Valid()
    ensures match AdminGate(header, verify)
            case Respond(status, msg) => r == Err(status, msg) && s.Snapshot() == old(s.Snapshot())
            case Next => r == Ok(200, MadeAdmin) && s.Snapshot() == old(s.Snapshot()).(users := Promote(old(s.users), id))
  {
    var gate := AdminGate(header, verify);
    if gate.Respond? {
      return Err(gate.status, gate.msg);
    }
    PromoteKeepsUsersOk(s.users, s.nextUserId, id);
    s.users := Promote(s.users, id);
    r := Ok(200, MadeAdmin);
  }

  // ---- GET /reports --------------------------------------------------------------------

  function OrderAmount(o: Order): int
  {
    o.totalAmount
  }

  /** `SUM(total_amount) ... || 0`: SQL answers null for no orders, read as 0. */
  function Revenue(orders: seq<Order>): (r: int)
    ensures orders == [] ==> r == 0
  {
    SumOf(orders, OrderAmount)
  }

  /** The sum over the orders table: each order adds its total_amount once. */
  lemma RevenueAppend(orders: seq<Order>, o: Order)
    ensures Revenue(orders + [o]) == Revenue(orders) + o.totalAmount
  {
    SumOfAppend(orders, [o], OrderAmount);
  }

  /** Each checkout adds exactly the caller's cart total to the revenue. */
  lemma RevenueAfterCheckout(t: Tables, userId: int, shippingAddress: Value, now: int)
    requires TablesOk(t)
    ensures Revenue(OrderController.PlaceOrder(t, userId, shippingAddress, now).orders)
            == Revenue(t.orders) + CartController.GetCartItems(t, userId).body.totalAmount
  {
    var after := OrderController.PlaceOrder(t, userId, shippingAddress, now);
    OrderController.CheckoutRecordsCartTotal(t, userId, shippingAddress, now);
    var placed := after.orders[|t.orders|];
    SumOfAppend(t.orders, [placed], OrderAmount);
  }

  /** One row of the best-sellers query. */
  datatype BestSeller = BestSeller(id: int, name: string, totalSold: int)

  function SellerId(b: BestSeller): int { b.id }
  function TotalSold(b: BestSeller): int { b.totalSold }

  function OfProduct(productId: int): OrderItem -> bool
  {
    (it: OrderItem) => it.productId == productId
  }

  function ItemQuantity(it: OrderItem): int
  {
    it.quantity
  }

  /** `SUM(oi.quantity)` over one product's group. */
  function QtySold(items: seq<OrderItem>, productId: int): int
  {
    SumOf(Keep(items, OfProduct(productId)), ItemQuantity)
  }

  /** Each group's sum splits over the rows: more order items add their quantities. */
  lemma QtySoldAppend(a: seq<OrderItem>, b: seq<OrderItem>, productId: int)
    ensures QtySold(a + b, productId) == QtySold(a, productId) + QtySold(b, productId)
  {
    KeepAppend(a, b, OfProduct(productId));
    SumOfAppend(Keep(a, OfProduct(productId)), Keep(b, OfProduct(productId)), ItemQuantity);
  }

  /** A product with no order items has sold nothing. */
  lemma QtySoldUnsold(items: seq<OrderItem>, productId: int)
    requires forall k :: 0 <= k < |items| ==> items[k].productId != productId
    ensures QtySold(items, productId) == 0
  {
    KeepNothing(items, OfProduct(productId));
  }

  /** The distinct values of `ids`: one per `GROUP BY` group. */
  function Distinct(ids: seq<int>): (r: seq<int>)
    ensures Pairwise(r, Differ)
    ensures forall x :: x in r <==> x in ids
  {
    if ids == [] then []
    else
      var rest := Distinct(ids[1..]);
      assert ids == [ids[0]] + ids[1..];
      if ids[0] in rest then rest else [ids[0]] + rest
  }

  predicate Differ(a: int, b: int) { a != b }

  function ProductIds(items: seq<OrderItem>): (r: seq<int>)
    ensures forall x :: x in r <==> exists k :: 0 <= k < |items| && items[k].productId == x
  {
    var r := seq(|items|, k requires 0 <= k < |items| => items[k].productId);
    assert forall k :: 0 <= k < |items| ==> r[k] == items[k].productId;
    r
  }

  function Known(products: seq<Product>): int -> bool
  {
    (id: int) => FindProduct(products, id).Some?
  }

  /** What the report says of one product: it exists, under its name, with its total. */
  ghost predicate Reported(b: BestSeller, items: seq<OrderItem>, products: seq<Product>)
  {
    && FindProduct(products, b.id).Some?
    && b.name == FindProduct(products, b.id).value.name
    && b.totalSold == QtySold(items, b.id)
  }

  /** `order_items oi JOIN products p ... GROUP BY oi.product_id`: one row per product that
      was sold and still exists, with its name and total quantity. */
  function Groups(ids: seq<int>, items: seq<OrderItem>, products: seq<Product>): (g: seq<BestSeller>)
    requires Pairwise(ids, Differ)
    ensures forall i :: 0 <= i < |g| ==> Reported(g[i], items, products) && g[i].id in ids
    ensures DistinctKeys(g, SellerId)
    ensures |g| == |Keep(ids, Known(products))|
    ensures forall i :: 0 <= i < |g| ==> g[i].id == Keep(ids, Known(products))[i]
  {
    var known := Keep(ids, Known(products));
    KeepPairwise(ids, Known(products), Differ);
    KeepMembers(ids, Known(products));
    var g := seq(|known|, i requires 0 <= i < |known| && Known(products)(known[i]) =>
      BestSeller(known[i], FindProduct(products, known[i]).value.name, QtySold(items, known[i])));
    assert forall i :: 0 <= i < |g| ==> g[i].id == known[i];
    g
  }

  /** Every sold id whose product still exists has its group. */
  lemma GroupsCover(ids: seq<int>, items: seq<OrderItem>, products: seq<Product>, k: int) returns (i: int)
    requires Pairwise(ids, Differ) && 0 <= k < |ids| && FindProduct(products, ids[k]).Some?
    ensures 0 <= i < |Groups(ids, items, products)| && Groups(ids, items, products)[i].id == ids[k]
  {
    var known := Keep(ids, Known(products));
    KeepMembers(ids, Known(products));
    assert Known(products)(ids[k]);
    i :| 0 <= i < |known| && known[i] == ids[k];
  }

  /** `... ORDER BY total_sold DESC LIMIT 5`. */
  function BestSellers(items: seq<OrderItem>, products: seq<Product>): (r: seq<BestSeller>)
    ensures |r| <= 5
    ensures DistinctKeys(r, SellerId)
    ensures NonIncreasing(r, TotalSold)
    ensures forall i :: 0 <= i < |r| ==> Reported(r[i], items, products)
    ensures forall i :: 0 <= i < |r| ==> r[i].id in ProductIds(items)
  {
    var groups := Groups(Distinct(ProductIds(items)), items, products);
    var sorted := SortDesc(groups, TotalSold);
    PermutationKeepsDistinctKeys(groups, sorted, SellerId);
    SortDescSameElements(groups, TotalSold);
    SortedGroupsSold(items, products);
    Take(sorted, 5)
  }

  /** GROUP BY over order_items forms groups only for products that occur in an order item,
      and sorting the groups keeps that. */
  lemma SortedGroupsSold(items: seq<OrderItem>, products: seq<Product>)
    ensures var sorted := SortDesc(Groups(Distinct(ProductIds(items)), items, products), TotalSold);
            forall i :: 0 <= i < |sorted| ==> sorted[i].id in ProductIds(items)
  {
    var ids := Distinct(ProductIds(items));
    var groups := Groups(ids, items, products);
    var sorted := SortDesc(groups, TotalSold);
    SortDescSameElements(groups, TotalSold);
    forall i | 0 <= i < |sorted| ensures sorted[i].id in ProductIds(items) {
      var j :| 0 <= j < |groups| && groups[j] == sorted[i];
      assert groups[j].id in ids;
    }
  }

  /** Every product that was sold and still exists has its group. */
  lemma SoldProductHasGroup(items: seq<OrderItem>, products: seq<Product>, k: int) returns (g: int)
    requires 0 <= k < |items| && FindProduct(products, items[k].productId).Some?
    ensures var groups := Groups(Distinct(ProductIds(items)), items, products);
            0 <= g < |groups| && groups[g].id == items[k].productId && Reported(groups[g], items, products)
  {
    var ids := Distinct(ProductIds(items));
    var groups := Groups(ids, items, products);
    assert items[k].productId in ProductIds(items);
    var n :| 0 <= n < |ids| && ids[n] == items[k].productId;
    g := GroupsCover(ids, items, products, n);
  }

  /** The five are the top five: a sold product left out of the list has sold no more than
      any product in it, and is left out only when the list is full. */
  lemma BestSellersAreTop(items: seq<OrderItem>, products: seq<Product>, k: int)
    requires 0 <= k < |items| && FindProduct(products, items[k].productId).Some?
    requires forall i :: 0 <= i < |BestSellers(items, products)| ==>
               BestSellers(items, products)[i].id != items[k].productId
    ensures |BestSellers(items, products)| == 5
    ensures forall i :: 0 <= i < 5 ==>
              QtySold(items, items[k].productId) <= BestSellers(items, products)[i].totalSold
  {
    var groups := Groups(Distinct(ProductIds(items)), items, products);
    var g := SoldProductHasGroup(items, products, k);
    var sorted := SortDesc(groups, TotalSold);
    SortDescSameElements(groups, TotalSold);
    var j :| 0 <= j < |sorted| && sorted[j] == groups[g];
    assert BestSellers(items, products) == Take(sorted, 5);
    TopOfSorted(sorted, TotalSold, 5, j);
  }

  datatype Report = Report(userCount: int, orderCount: int, totalRevenue: int, bestSellers: seq<BestSeller>)

  /** The body of GET /reports. */
  function Reports(t: Tables): (r: Report)
    ensures r.userCount == |t.users| && r.orderCount == |t.orders|
    ensures r.totalRevenue == Revenue(t.orders)
    ensures |r.bestSellers| <= 5
    ensures r.bestSellers == BestSellers(t.orderItems, t.products)
  {
    Report(|t.users|, |t.orders|, Revenue(t.orders), BestSellers(t.orderItems, t.products))
  }

  function GetReports(header: Option<string>, verify: string -> Option<Payload>, t: Tables): (r: Reply<Report>)
    ensures r.Ok? <==> AdminGate(header, verify).Next?
    ensures r.Ok? ==> r.status == 200 && r.body == Reports(t)
  {
    match AdminGate(header, verify)
    case Respond(status, msg) => Err(status, msg)
    case Next => Ok(200, Reports(t))
  }
}
