/** The cart service (backend/src/controllers/cartController.js): a per-user collection of
    (product, quantity) rows in the `cart_items` table, with stock checks. Every handler takes
    the caller's id, `req.user.id`, as set by the authentication middleware. */
module CartController {
  import opened Common
  import opened Http
  import opened Seqs
  import opened Db

  // ---- row selections ------------------------------------------------------------------

  function OwnedBy(userId: int): CartItem -> bool
  {
    (c: CartItem) => c.userId == userId
  }

  function NotOwnedBy(userId: int): CartItem -> bool
  {
    (c: CartItem) => c.userId != userId
  }

  function NotTheRow(cartItemId: int, userId: int): CartItem -> bool
  {
    (c: CartItem) => !(c.id == cartItemId && c.userId == userId)
  }

  /** `... FROM cart_items WHERE user_id = ?`, in table order. */
  function RowsOf(cart: seq<CartItem>, userId: int): (rows: seq<CartItem>)
    ensures forall k :: 0 <= k < |rows| ==> rows[k] in cart && rows[k].userId == userId
    ensures forall k :: 0 <= k < |cart| && cart[k].userId == userId ==> cart[k] in rows
  {
    KeepMembers(cart, OwnedBy(userId));
    Keep(cart, OwnedBy(userId))
  }

  /** `DELETE FROM cart_items WHERE user_id = ?`: what is left. */
  function WithoutUser(cart: seq<CartItem>, userId: int): (rest: seq<CartItem>)
    ensures forall k :: 0 <= k < |rest| ==> rest[k] in cart && rest[k].userId != userId
    ensures forall k :: 0 <= k < |cart| && cart[k].userId != userId ==> cart[k] in rest
  {
    KeepMembers(cart, NotOwnedBy(userId));
    Keep(cart, NotOwnedBy(userId))
  }

  /** The index of the caller's row for a product, if any
      (`SELECT id, quantity FROM cart_items WHERE user_id = ? AND product_id = ?`). */
  function FindCartRow(cart: seq<CartItem>, userId: int, productId: int): (r: Option<nat>)
    ensures r.Some? ==> r.value < |cart| && cart[r.value].userId == userId && cart[r.value].productId == productId
    ensures r.None? ==> forall i :: 0 <= i < |cart| ==> !(cart[i].userId == userId && cart[i].productId == productId)
  {
    if cart == [] then None
    else if cart[0].userId == userId && cart[0].productId == productId then Some(0)
    else match FindCartRow(cart[1..], userId, productId)
      case None => None
      case Some(i) => Some(i + 1)
  }

  /** The index of the row with this id owned by this user, if any
      (`... FROM cart_items WHERE id = ? AND user_id = ?`). */
  function FindOwnedRow(cart: seq<CartItem>, cartItemId: int, userId: int): (r: Option<nat>)
    ensures r.Some? ==> r.value < |cart| && cart[r.value].id == cartItemId && cart[r.value].userId == userId
    ensures r.None? ==> forall i :: 0 <= i < |cart| ==> !(cart[i].id == cartItemId && cart[i].userId == userId)
  {
    if cart == [] then None
    else if cart[0].id == cartItemId && cart[0].userId == userId then Some(0)
    else match FindOwnedRow(cart[1..], cartItemId, userId)
      case None => None
      case Some(i) => Some(i + 1)
  }

  // ---- getCartItems --------------------------------------------------------------------

  datatype CartLine = CartLine(cartItemId: int, productId: int, name: string, price: int,
                               imageUrl: string, quantity: int)
  datatype CartBody = CartBody(items: seq<CartLine>, totalAmount: int)

  function LineOf(c: CartItem, p: Product): CartLine
  {
    CartLine(c.id, p.id, p.name, p.price, p.imageUrl, c.quantity)
  }

  /** `cart_items JOIN products`: a row whose product is missing is dropped. */
  function JoinProducts(rows: seq<CartItem>, products: seq<Product>): (lines: seq<CartLine>)
    ensures |lines| <= |rows|
    ensures (forall k :: 0 <= k < |rows| ==> FindProduct(products, rows[k].productId).Some?) ==>
              |lines| == |rows| &&
              forall k :: 0 <= k < |rows| ==> lines[k] == LineOf(rows[k], FindProduct(products, rows[k].productId).value)
  {
    if rows == [] then []
    else
      var rest := JoinProducts(rows[1..], products);
      match FindProduct(products, rows[0].productId)
      case None => rest
      case Some(p) => [LineOf(rows[0], p)] + rest
  }

  function LineAmount(l: CartLine): int
  {
    l.price * l.quantity
  }

  /** GET /cart: the caller's rows joined with their product's current name, price and image,
      and Σ price × quantity over them (0 for an empty cart). */
  function GetCartItems(t: Tables, userId: int): (r: Reply<CartBody>)
    ensures r.Ok? && r.status == 200
    ensures r.body.totalAmount == SumOf(r.body.items, LineAmount)
    ensures r.body.items == [] ==> r.body.totalAmount == 0
    ensures CartOk(t.cartItems, t.products, t.nextCartItemId) ==>
              var rows := RowsOf(t.cartItems, userId);
              && |r.body.items| == |rows|
              && forall k :: 0 <= k < |rows| ==>
                   rows[k].userId == userId &&
                   r.body.items[k] == LineOf(rows[k], FindProduct(t.products, rows[k].productId).value)
  {
    var rows := RowsOf(t.cartItems, userId);
    var items := JoinProducts(rows, t.products);
    assert CartOk(t.cartItems, t.products, t.nextCartItemId) ==>
             forall k :: 0 <= k < |rows| ==> FindProduct(t.products, rows[k].productId).Some?;
    Ok(200, CartBody(items, SumOf(items, LineAmount)))
  }

  // ---- addItemToCart -------------------------------------------------------------------

  datatype AddBody = Added(cartItemId: int) | QuantityIncreased(cartItemId: int, newQuantity: int)

  /** `const { productId, quantity = 1 } = req.body`: the default applies only when the field
      is absent. */
  function RequestedQuantity(quantity: Value): (q: Value)
    ensures quantity.Undefined? ==> q == Num(1)
    ensures !quantity.Undefined? ==> q == quantity
  {
    if quantity.Undefined? then Num(1) else quantity
  }

  /** The product id a body field binds to in `WHERE id = ?`. The driver binds `true` as 1;
      a string id matches no row in this model. */
  function ProductKey(productId: Value): (key: Option<int>)
    ensures key.Some? <==> productId.Num? || productId == Bool(true)
    ensures productId.Num? ==> key == Some(productId.n)
    ensures productId == Bool(true) ==> key == Some(1)
  {
    match productId
    case Num(n) => Some(n)
    case Bool(b) => if b then Some(1) else None
    case _ => None
  }

  function LookupProduct(products: seq<Product>, productId: Value): (r: Option<Product>)
    ensures r.Some? ==> r.value in products && ProductKey(productId) == Some(r.value.id)
    ensures r.None? <==> ProductKey(productId).None? ||
                         forall k :: 0 <= k < |products| ==> products[k].id != ProductKey(productId).value
  {
    match ProductKey(productId)
    case None => None
    case Some(id) => FindProduct(products, id)
  }

  /** POST /cart. Validates the body, checks stock, then either raises the quantity of the
      caller's existing row for the product or inserts a new row; every error leaves the
      store as it was. */
  method AddItemToCart(s: Store, userId: int, productId: Value, quantity: Value) returns (r: Reply<AddBody>)
    requires s.Valid()
    modifies s
    ensures s.Valid()
    ensures r.Err? ==> s.Snapshot() == old(s.Snapshot())
    ensures !Truthy(productId) || !PositiveNumber(RequestedQuantity(quantity)) ==>
              r == Err(400, InvalidProductOrQuantity)
    ensures Truthy(productId) && PositiveNumber(RequestedQuantity(quantity)) ==>
              var t := old(s.Snapshot());
              var q := RequestedQuantity(quantity).n;
              match LookupProduct(t.products, productId)
              case None => r == Err(404, ProductNotFound)
              case Some(p) =>
                if p.stock < q then r == Err(400, StockExceeded(p.stock))
                else match FindCartRow(t.cartItems, userId, p.id)
                  case Some(i) =>
                    var newQuantity := t.cartItems[i].quantity + q;
                    if p.stock < newQuantity then r == Err(400, StockExceededWithCart(p.stock))
                    else
                      && r == Ok(200, QuantityIncreased(t.cartItems[i].id, newQuantity))
                      && s.Snapshot() == t.(cartItems := t.cartItems[i := t.cartItems[i].(quantity := newQuantity)])
                  case None =>
                    && r == Ok(201, Added(t.nextCartItemId))
                    && s.Snapshot() == t.(cartItems := t.cartItems + [CartItem(t.nextCartItemId, userId, p.id, q)],
                                          nextCartItemId := t.nextCartItemId + 1)
  {
    var q := RequestedQuantity(quantity);
    if !Truthy(productId) || !q.Num? || q.n <= 0 {
      return Err(400, InvalidProductOrQuantity);
    }
    var product := LookupProduct(s.products, productId);
    if product.None? {
      return Err(404, ProductNotFound);
    }
    var p := product.value;
    if p.stock < q.n {
      return Err(400, StockExceeded(p.stock));
    }
    var existing := FindCartRow(s.cartItems, userId, p.id);
    if existing.Some? {
      var i := existing.value;
      var newQuantity := s.cartItems[i].quantity + q.n;
      if p.stock < newQuantity {
        return Err(400, StockExceededWithCart(p.stock));
      }
      r := Ok(200, QuantityIncreased(s.cartItems[i].id, newQuantity));
      SetQuantity(s, i, newQuantity);
    } else {
      var id := InsertRow(s, userId, p.id, q.n);
      r := Ok(201, Added(id));
    }
  }

  // ---- updateCartItemQuantity ----------------------------------------------------------

  /** Success bodies that carry only a message. */
  datatype Ack = QuantityUpdated | ItemRemoved | CartCleared

  /** PUT /cart/:cartItemId. Overwrites the quantity of one of the caller's rows with exactly
      the given value, after checking it against the product's stock. */
  method UpdateCartItemQuantity(s: Store, userId: int, cartItemId: int, quantity: Value) returns (r: Reply<Ack>)
    requires s.Valid()
    modifies s
    ensures s.Valid()
    ensures r.Err? ==> s.Snapshot() == old(s.Snapshot())
    ensures !PositiveNumber(quantity) ==> r == Err(400, InvalidQuantity)
    ensures PositiveNumber(quantity) ==>
              var t := old(s.Snapshot());
              match FindOwnedRow(t.cartItems, cartItemId, userId)
              case None => r == Err(404, CartItemNotFound)
              case Some(i) =>
                match FindProduct(t.products, t.cartItems[i].productId)
                case None => r == Err(404, RelatedProductNotFound)
                case Some(p) =>
                  if p.stock < quantity.n then r == Err(400, StockExceededForUpdate(p.stock))
                  else
                    && r == Ok(200, QuantityUpdated)
                    && s.Snapshot() == t.(cartItems := t.cartItems[i := t.cartItems[i].(quantity := quantity.n)])
  {
    if !PositiveNumber(quantity) {
      return Err(400, InvalidQuantity);
    }
    var row := FindOwnedRow(s.cartItems, cartItemId, userId);
    if row.None? {
      return Err(404, CartItemNotFound);
    }
    var i := row.value;
    var product := FindProduct(s.products, s.cartItems[i].productId);
    if product.None? {
      return Err(404, RelatedProductNotFound);
    }
    if product.value.stock < quantity.n {
      return Err(400, StockExceededForUpdate(product.value.stock));
    }
    SetQuantity(s, i, quantity.n);
    r := Ok(200, QuantityUpdated);
  }

  // ---- removeCartItem ------------------------------------------------------------------

  /** What a DELETE leaves behind, and its affected-row count (`result.changes`, db.js:75). */
  datatype Deletion = Deletion(remaining: seq<CartItem>, changes: int)

  /** `DELETE FROM cart_items WHERE id = ? AND user_id = ?` */
  function DeleteOwned(cart: seq<CartItem>, cartItemId: int, userId: int): (d: Deletion)
    ensures forall k :: 0 <= k < |d.remaining| ==>
              d.remaining[k] in cart && !(d.remaining[k].id == cartItemId && d.remaining[k].userId == userId)
    ensures d.changes == |cart| - |d.remaining| >= 0
    ensures d.changes == 0 <==> d.remaining == cart
  {
    var rest := Keep(cart, NotTheRow(cartItemId, userId));
    KeepMembers(cart, NotTheRow(cartItemId, userId));
    assert |rest| == |cart| ==> rest == cart by {
      if |rest| == |cart| {
        KeepNothingRemoved(cart, NotTheRow(cartItemId, userId));
      }
    }
    Deletion(rest, |cart| - |rest|)
  }

  /** DELETE /cart/:cartItemId. Zero affected rows answers 404 whether the row is absent or
      belongs to someone else. */
  method RemoveCartItem(s: Store, userId: int, cartItemId: int) returns (r: Reply<Ack>)
    requires s.Valid()
    modifies s
    ensures s.Valid()
    ensures var t := old(s.Snapshot());
            var d := DeleteOwned(t.cartItems, cartItemId, userId);
            if d.changes == 0 then r == Err(404, CartItemNotFound) && s.Snapshot() == t
            else r == Ok(200, ItemRemoved) && s.Snapshot() == t.(cartItems := d.remaining)
  {
    var d := DeleteOwned(s.cartItems, cartItemId, userId);
    KeepCartOk(s.cartItems, s.products, s.nextCartItemId, NotTheRow(cartItemId, userId));
    if d.changes == 0 {
      KeepNothingRemoved(s.cartItems, NotTheRow(cartItemId, userId));
    }
    s.cartItems := d.remaining;
    if d.changes == 0 {
      return Err(404, CartItemNotFound);
    }
    r := Ok(200, ItemRemoved);
  }

  // ---- clearCart -----------------------------------------------------------------------

  /** DELETE /cart/clear. Deletes the caller's rows; succeeds on an empty cart too. */
  method ClearCart(s: Store, userId: int) returns (r: Reply<Ack>)
    requires s.Valid()
    modifies s
    ensures s.Valid()
    ensures r == Ok(200, CartCleared)
    ensures s.Snapshot() == old(s.Snapshot()).(cartItems := WithoutUser(old(s.cartItems), userId))
  {
    KeepCartOk(s.cartItems, s.products, s.nextCartItemId, NotOwnedBy(userId));
    s.cartItems := WithoutUser(s.cartItems, userId);
    r := Ok(200, CartCleared);
  }

  // ---- the two writes to cart_items ---------------------------------------------------

  /** `UPDATE cart_items SET quantity = ? WHERE id = ?` on row i, with a positive quantity:
      only that row's quantity changes, and the store keeps its invariant. */
  method SetQuantity(s: Store, i: nat, quantity: int)
    requires s.Valid() && i < |s.cartItems| && quantity > 0
    modifies s
    ensures s.Valid()
    ensures s.Snapshot() == old(s.Snapshot()).(cartItems := old(s.cartItems)[i := old(s.cartItems)[i].(quantity := quantity)])
  {
    CartOkAfterQuantityChange(s.cartItems, s.products, s.nextCartItemId, i, quantity);
    s.cartItems := s.cartItems[i := s.cartItems[i].(quantity := quantity)];
  }

  /** `INSERT INTO cart_items (user_id, product_id, quantity) VALUES (?, ?, ?)` for an existing
      product the user has no row for: the row gets the next id and goes at the end. */
  method InsertRow(s: Store, userId: int, productId: int, quantity: int) returns (id: int)
    requires s.Valid() && quantity > 0 && FindProduct(s.products, productId).Some?
    requires FindCartRow(s.cartItems, userId, productId).None?
    modifies s
    ensures s.Valid()
    ensures id == old(s.nextCartItemId)
    ensures s.Snapshot() == old(s.Snapshot()).(cartItems := old(s.cartItems) + [CartItem(id, userId, productId, quantity)],
                                              nextCartItemId := id + 1)
  {
    id := s.nextCartItemId;
    var row := CartItem(id, userId, productId, quantity);
    CartOkAfterInsert(s.cartItems, s.products, id, row);
    s.cartItems := s.cartItems + [row];
    s.nextCartItemId := id + 1;
  }

  // ---- properties ----------------------------------------------------------------------

  /** Deleting cart rows keeps the table invariant. */
  lemma KeepCartOk(cart: seq<CartItem>, products: seq<Product>, nextId: int, p: CartItem -> bool)
    requires CartOk(cart, products, nextId)
    ensures CartOk(Keep(cart, p), products, nextId)
  {
    KeepPairwise(cart, p, DistinctCartIds);
    KeepPairwise(cart, p, DifferentUserOrProduct);
  }

  /** Changing one row's quantity to a positive value keeps the table invariant. */
  lemma CartOkAfterQuantityChange(cart: seq<CartItem>, products: seq<Product>, nextId: int, i: nat, q: int)
    requires CartOk(cart, products, nextId) && i < |cart| && q > 0
    ensures CartOk(cart[i := cart[i].(quantity := q)], products, nextId)
  {
    var c := cart[i := cart[i].(quantity := q)];
    forall a, b | 0 <= a < b < |c|
      ensures DistinctCartIds(c[a], c[b]) && DifferentUserOrProduct(c[a], c[b])
    {
      assert DistinctCartIds(cart[a], cart[b]) && DifferentUserOrProduct(cart[a], cart[b]);
    }
  }

  /** Inserting a row with a fresh id, for a product the user has no row for, keeps the
      table invariant: in particular (user, product) stays unique. */
  lemma CartOkAfterInsert(cart: seq<CartItem>, products: seq<Product>, nextId: int, row: CartItem)
    requires CartOk(cart, products, nextId)
    requires row.id == nextId && row.quantity > 0 && FindProduct(products, row.productId).Some?
    requires forall i :: 0 <= i < |cart| ==> !(cart[i].userId == row.userId && cart[i].productId == row.productId)
    ensures CartOk(cart + [row], products, nextId + 1)
  {
    var c := cart + [row];
    forall a, b | 0 <= a < b < |c|
      ensures DistinctCartIds(c[a], c[b]) && DifferentUserOrProduct(c[a], c[b])
    {
      if b < |cart| {
        assert DistinctCartIds(cart[a], cart[b]) && DifferentUserOrProduct(cart[a], cart[b]);
      }
    }
  }

  /** clearCart and checkout delete all and only the caller's rows: afterwards the caller
      has none, and every other user's rows are exactly what they were, in the same order. */
  lemma {:induction false} ClearIsScopedToOwner(cart: seq<CartItem>, userId: int, other: int)
    requires other != userId
    ensures RowsOf(WithoutUser(cart, userId), userId) == []
    ensures RowsOf(WithoutUser(cart, userId), other) == RowsOf(cart, other)
  {
    if cart != [] {
      ClearIsScopedToOwner(cart[1..], userId, other);
      if cart[0].userId != userId {
        var rest := WithoutUser(cart[1..], userId);
        assert WithoutUser(cart, userId) == [cart[0]] + rest;
        assert ([cart[0]] + rest)[1..] == rest;
      }
    }
  }

  /** removeCartItem deletes exactly the row with that id when the caller owns it, and
      nothing otherwise; "absent" and "someone else's" both give zero affected rows. */
  lemma RemoveOnlyTheOwnedRow(cart: seq<CartItem>, cartItemId: int, userId: int)
    requires Pairwise(cart, DistinctCartIds)
    ensures var d := DeleteOwned(cart, cartItemId, userId);
            match FindOwnedRow(cart, cartItemId, userId)
            case None => d.changes == 0 && d.remaining == cart
            case Some(i) => d.changes == 1 && d.remaining == cart[..i] + cart[i + 1..]
  {
    var p := NotTheRow(cartItemId, userId);
    match FindOwnedRow(cart, cartItemId, userId)
    case None =>
      KeepEverything(cart, p);
    case Some(i) =>
      forall j | 0 <= j < |cart| && j != i ensures p(cart[j]) {
        if j < i { assert DistinctCartIds(cart[j], cart[i]); } else { assert DistinctCartIds(cart[i], cart[j]); }
      }
      KeepAllBut(cart, p, i);
  }
}
