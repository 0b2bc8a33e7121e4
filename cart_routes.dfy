/** The cart handlers of backend/routes/cart.js over an in-memory store. Each handler resolves the
    cart identity, loads the stored cart into a `Cart` (creating and saving an empty one when there
    is none), calls the cart's methods, and saves it back; the pre-save hook's recompute is part of
    `Save`. */
module CartRoutes {
  import opened Wrappers
  import opened CartModel
  import OrderModel

  /** The key a cart is stored under: the signed-in user, or else the guest session. */
  datatype Identity = UserCart(userId: string) | GuestCart(sessionId: string)

  /** `findOrCreateCart`'s query: the user id when there is one, otherwise the session id. */
  function CartIdentity(userId: Option<string>, sessionId: string): (id: Identity)
    ensures Truthy(userId) <==> id.UserCart?
    ensures id.UserCart? ==> id.userId == userId.value
    ensures id.GuestCart? ==> id.sessionId == sessionId
  {
    if Truthy(userId) then UserCart(userId.value) else GuestCart(sessionId)
  }

  /** The stored cart for `id`, or the empty cart `findOrCreateCart` would create. */
  function Stored(carts: map<Identity, CartDoc>, id: Identity): CartDoc {
    if id in carts then carts[id] else EmptyDoc
  }

  /** The add handler's coercion: a non-finite or non-positive quantity becomes 1. */
  function CoerceQuantity(q: Num<int>): (r: int)
    ensures r >= 1
    ensures q.Finite? && q.value > 0 ==> r == q.value
    ensures !(q.Finite? && q.value > 0) ==> r == 1
  {
    if q.Finite? && q.value > 0 then q.value else 1
  }

  /** The add handler's coercion: a non-finite or negative product price becomes 0. */
  function CoercePrice(p: Num<real>): (r: real)
    ensures r >= 0.0
    ensures p.Finite? && p.value >= 0.0 ==> r == p.value
    ensures !(p.Finite? && p.value >= 0.0) ==> r == 0.0
  {
    if p.Finite? && p.value >= 0.0 then p.value else 0.0
  }

  /** Checkout's `cart.items.map(...)`: one order line per cart line, price copied, total = price·quantity. */
  function OrderLinesOf(items: seq<LineItem>): (r: seq<OrderModel.OrderLine>)
    ensures |r| == |items|
    ensures forall i :: 0 <= i < |items| ==>
      r[i] == OrderModel.OrderLine(items[i].product, items[i].quantity, items[i].price, LineAmount(items[i]))
  {
    if items == [] then []
    else OrderLinesOf(items[..|items| - 1])
         + [OrderModel.OrderLine(items[|items| - 1].product, items[|items| - 1].quantity,
                                 items[|items| - 1].price, LineAmount(items[|items| - 1]))]
  }

  /** The user cart's lines after the guest's lines have been added one by one, in order. */
  function MergeItems(user: seq<LineItem>, guest: seq<LineItem>): seq<LineItem> {
    if guest == [] then user
    else
      var last := guest[|guest| - 1];
      Added(MergeItems(user, guest[..|guest| - 1]), last.product, last.quantity, last.price)
  }

  /** The merge reply: `toJSON` of the user's cart whose first `loaded` lines came with their
      products (as the user's cart is read) and whose later lines, appended from the guest cart,
      carry a bare product id and so show the fallbacks. */
  function MergeReply(d: CartDoc, loaded: nat, catalogue: map<ProductId, Product>): (r: CartJson)
    requires loaded <= |d.items|
    ensures |r.items| == |d.items|
    ensures forall i :: 0 <= i < loaded ==> r.items[i] == LineView(d.items[i], catalogue)
    ensures forall i :: loaded <= i < |d.items| ==>
      && r.items[i].productId == Some(d.items[i].product)
      && r.items[i].quantity == d.items[i].quantity && r.items[i].price == d.items[i].price
      && r.items[i].name == "Product" && r.items[i].image == DefaultLineImage && r.items[i].stock == 0
    ensures r.discount == d.discountPercent && r.subtotal == d.subtotal && r.total == d.total
  {
    var lines := seq(|d.items|, i requires 0 <= i < |d.items| =>
      if i < loaded then LineView(d.items[i], catalogue) else BareLineView(d.items[i]));
    CartJson(lines, d.discountPercent, d.subtotal, d.total)
  }

  /** When every line was loaded with its product, the merge reply is the ordinary view. */
  lemma MergeReplyAllLoaded(d: CartDoc, catalogue: map<ProductId, Product>)
    ensures MergeReply(d, |d.items|, catalogue) == DocView(d, catalogue)
  {
    var r, v := MergeReply(d, |d.items|, catalogue), DocView(d, catalogue);
    assert r.items == v.items;
  }

  class CartStore {
    var carts: map<Identity, CartDoc>
    var orders: seq<OrderModel.Order>

    /** Every stored cart passed the pre-save recompute and the schema's checks. */
    predicate Valid()
      reads this
    {
      forall id :: id in carts ==> ValidDoc(carts[id])
    }

    constructor ()
      ensures Valid() && carts == map[] && orders == []
    {
      carts := map[];
      orders := [];
    }

    /** `findOrCreateCart`: the stored cart, or a new empty one that is saved straight away. */
    method FindOrCreate(id: Identity) returns (cart: Cart)
      requires Valid()
      modifies this
      ensures Valid() && fresh(cart) && cart.Valid()
      ensures cart.Doc() == Stored(old(carts), id)
      ensures carts == old(carts)[id := Stored(old(carts), id)] && orders == old(orders)
    {
      if id in carts {
        cart := new Cart.Load(carts[id]);
      } else {
        cart := new Cart.Load(EmptyDoc);
        carts := carts[id := EmptyDoc];
      }
    }

    /** `cart.save()`: the pre-save hook recomputes the totals, then the document is stored. */
    method Save(id: Identity, cart: Cart)
      requires Valid() && cart.Valid()
      modifies this, cart
      ensures Valid() && cart.Doc() == old(cart.Doc())
      ensures carts == old(carts)[id := cart.Doc()] && orders == old(orders)
    {
      ghost var before := cart.Doc();
      cart.CalculateTotals();
      ValidDocDeterminedByContent(cart.Doc(), before);
      carts := carts[id := cart.Doc()];
    }

    /** GET /:sessionId. */
    method GetCart(userId: Option<string>, sessionId: string, catalogue: map<ProductId, Product>)
      returns (view: CartJson)
      requires Valid()
      modifies this
      ensures Valid() && orders == old(orders)
      ensures var id := CartIdentity(userId, sessionId);
        carts == old(carts)[id := Stored(old(carts), id)]
        && view == DocView(Stored(old(carts), id), catalogue)
    {
      var cart := FindOrCreate(CartIdentity(userId, sessionId));
      view := cart.ToJson(catalogue);
    }

    /** POST /:sessionId/items: a missing product id is a 400 and an unknown product a 404, both
        before any cart is touched; otherwise the quantity and price are coerced and the product
        added. */
    method AddItem(userId: Option<string>, sessionId: string, productId: Option<ProductId>,
                   quantity: Num<int>, catalogue: map<ProductId, Product>)
      returns (r: Response<CartJson>)
      requires Valid()
      modifies this
      ensures Valid() && orders == old(orders)
      ensures if !Truthy(productId) then
          r == Failure(400, "Product ID is required") && carts == old(carts)
        else if productId.value !in catalogue then
          r == Failure(404, "Product not found") && carts == old(carts)
        else
          var id := CartIdentity(userId, sessionId);
          var before := Stored(old(carts), id);
          var pid := productId.value;
          && r.Success? && id in carts && carts == old(carts)[id := carts[id]]
          && carts[id].items == Added(before.items, pid, CoerceQuantity(quantity),
                                      CoercePrice(catalogue[pid].price))
          && carts[id].discountCode == before.discountCode
          && carts[id].discountPercent == before.discountPercent
          && r.value == DocView(carts[id], catalogue)
    {
      if !Truthy(productId) {
        return Failure(400, "Product ID is required");
      }
      var pid := productId.value;
      if pid !in catalogue {
        return Failure(404, "Product not found");
      }
      var id := CartIdentity(userId, sessionId);
      var cart := AddToStored(id, pid, CoerceQuantity(quantity), CoercePrice(catalogue[pid].price));
      return Success(cart.ToJson(catalogue));
    }

    /** The merge handler's work on the user's cart: load, add every guest line, save. */
    method MergeIntoStored(id: Identity, lines: seq<LineItem>) returns (cart: Cart)
      requires Valid() && AllInBounds(lines)
      modifies this
      ensures Valid() && orders == old(orders) && fresh(cart)
      ensures id in carts && carts[id] == cart.Doc() && carts == old(carts)[id := cart.Doc()]
      ensures cart.items == MergeItems(Stored(old(carts), id).items, lines)
      ensures cart.discountCode == Stored(old(carts), id).discountCode
      ensures cart.discountPercent == Stored(old(carts), id).discountPercent
    {
      ghost var start := carts;
      cart := FindOrCreate(id);
      AddLines(cart, lines);
      Save(id, cart);
      UpdateTwice(start, id, Stored(start, id), cart.Doc());
    }

    /** `Cart.deleteOne`: the cart stored under `id` is gone. */
    method Delete(id: Identity)
      requires Valid()
      modifies this
      ensures Valid() && orders == old(orders)
      ensures carts == old(carts) - {id}
    {
      carts := carts - {id};
    }

    /** The merge handler's work when the guest cart has lines: add them into the user's cart, save
        it, and delete the guest cart. */
    method MoveInto(guestId: Identity, userKey: Identity) returns (cart: Cart)
      requires Valid() && guestId in carts && guestId != userKey
      modifies this
      ensures Valid() && orders == old(orders) && fresh(cart)
      ensures userKey in carts && guestId !in carts && carts[userKey] == cart.Doc()
      ensures carts == old(carts)[userKey := cart.Doc()] - {guestId}
      ensures cart.items == MergeItems(Stored(old(carts), userKey).items, old(carts)[guestId].items)
      ensures cart.discountCode == Stored(old(carts), userKey).discountCode
      ensures cart.discountPercent == Stored(old(carts), userKey).discountPercent
    {
      assert ValidDoc(carts[guestId]);
      cart := MergeIntoStored(userKey, carts[guestId].items);
      Delete(guestId);
    }

    /** The add handler once the product is known: load, `addItem`, save. */
    method AddToStored(id: Identity, pid: ProductId, quantity: int, price: real) returns (cart: Cart)
      requires Valid() && quantity >= 1 && price >= 0.0
      modifies this
      ensures Valid() && orders == old(orders) && fresh(cart)
      ensures id in carts && carts[id] == cart.Doc() && carts == old(carts)[id := cart.Doc()]
      ensures cart.items == Added(Stored(old(carts), id).items, pid, quantity, price)
      ensures cart.discountCode == Stored(old(carts), id).discountCode
      ensures cart.discountPercent == Stored(old(carts), id).discountPercent
    {
      ghost var start := carts;
      cart := FindOrCreate(id);
      cart.AddItem(pid, quantity, price);
      Save(id, cart);
      UpdateTwice(start, id, Stored(start, id), cart.Doc());
    }

    /** PUT /:sessionId/items/:productId: a non-finite or negative quantity is a 400 and nothing
        changes; otherwise the quantity is set, and 0 removes the line. */
    method UpdateItem(userId: Option<string>, sessionId: string, productId: ProductId,
                      quantity: Num<int>, catalogue: map<ProductId, Product>)
      returns (r: Response<CartJson>)
      requires Valid()
      modifies this
      ensures Valid() && orders == old(orders)
      ensures (quantity.NonFinite? || quantity.value < 0) ==>
        r == Failure(400, "Quantity must be a non-negative number") && carts == old(carts)
      ensures quantity.Finite? && quantity.value >= 0 ==>
        var id := CartIdentity(userId, sessionId);
        var before := Stored(old(carts), id);
        && r.Success? && id in carts && carts == old(carts)[id := carts[id]]
        && carts[id].items == QuantityUpdated(before.items, productId, quantity.value)
        && (quantity.value == 0 ==> carts[id].items == Removed(before.items, productId))
        && carts[id].discountCode == before.discountCode
        && carts[id].discountPercent == before.discountPercent
        && r.value == DocView(carts[id], catalogue)
    {
      if quantity.NonFinite? || quantity.value < 0 {
        return Failure(400, "Quantity must be a non-negative number");
      }
      var id := CartIdentity(userId, sessionId);
      ghost var start := carts;
      var cart := FindOrCreate(id);
      ghost var before := cart.items;
      cart.UpdateQuantity(productId, quantity.value);
      if quantity.value == 0 {
        UpdateToZeroIsRemove(before, productId, 0);
      }
      Save(id, cart);
      UpdateTwice(start, id, Stored(start, id), cart.Doc());
      return Success(cart.ToJson(catalogue));
    }

    /** DELETE /:sessionId/items/:productId. */
    method RemoveItem(userId: Option<string>, sessionId: string, productId: ProductId,
                      catalogue: map<ProductId, Product>)
      returns (view: CartJson)
      requires Valid()
      modifies this
      ensures Valid() && orders == old(orders)
      ensures var id := CartIdentity(userId, sessionId);
        var before := Stored(old(carts), id);
        && id in carts && carts == old(carts)[id := carts[id]]
        && carts[id].items == Removed(before.items, productId)
        && carts[id].discountCode == before.discountCode
        && carts[id].discountPercent == before.discountPercent
        && view == DocView(carts[id], catalogue)
    {
      var id := CartIdentity(userId, sessionId);
      ghost var start := carts;
      var cart := FindOrCreate(id);
      cart.RemoveItem(productId);
      Save(id, cart);
      UpdateTwice(start, id, Stored(start, id), cart.Doc());
      view := cart.ToJson(catalogue);
    }

    /** POST /:sessionId/discount: the cart is saved either way; an unknown code is a 400 and
        leaves the stored cart as it was (or as the empty cart just created). */
    method ApplyDiscount(userId: Option<string>, sessionId: string, code: Option<string>,
                         catalogue: map<ProductId, Product>)
      returns (r: Response<CartJson>)
      requires Valid()
      modifies this
      ensures Valid() && orders == old(orders)
      ensures var id := CartIdentity(userId, sessionId);
        var before := Stored(old(carts), id);
        if code.Some? && code.value in DiscountCodes then
          && r.Success? && id in carts && carts == old(carts)[id := carts[id]]
          && carts[id].items == before.items
          && carts[id].discountCode == code
          && carts[id].discountPercent == DiscountCodes[code.value]
          && r.value == DocView(carts[id], catalogue)
        else
          r == Failure(400, "Invalid discount code") && carts == old(carts)[id := before]
    {
      var id := CartIdentity(userId, sessionId);
      ghost var start := carts;
      var cart := FindOrCreate(id);
      var applied := cart.ApplyDiscount(code);
      Save(id, cart);
      UpdateTwice(start, id, Stored(start, id), cart.Doc());
      if !applied {
        return Failure(400, "Invalid discount code");
      }
      return Success(cart.ToJson(catalogue));
    }

    /** DELETE /:sessionId: the cart is emptied and its discount dropped. */
    method Clear(userId: Option<string>, sessionId: string, catalogue: map<ProductId, Product>)
      returns (view: CartJson)
      requires Valid()
      modifies this
      ensures Valid() && orders == old(orders)
      ensures carts == old(carts)[CartIdentity(userId, sessionId) := EmptyDoc]
      ensures view == CartJson([], 0, 0.0, 0.0)
    {
      var id := CartIdentity(userId, sessionId);
      ghost var start := carts;
      var cart := FindOrCreate(id);
      cart.ClearCart();
      Save(id, cart);
      UpdateTwice(start, id, Stored(start, id), cart.Doc());
      view := cart.ToJson(catalogue);
    }

    /** POST /:sessionId/checkout (signed-in users only): an empty cart is a 400 and no order is
        made; an order the schema rejects (an incomplete address) is a 500 and the cart stays;
        otherwise the order snapshots the cart's lines and total, is stored, and the cart is
        cleared. */
    method Checkout(userId: string, sessionId: string, shippingAddress: Option<OrderModel.Address>)
      returns (r: Response<OrderModel.Order>)
      requires Valid() && userId != ""
      modifies this
      ensures Valid()
      ensures var id := UserCart(userId);
        var before := Stored(old(carts), id);
        if before.items == [] then
          r == Failure(400, "Cart is empty") && orders == old(orders)
          && carts == old(carts)[id := before]
        else if !OrderModel.AddressInSchema(shippingAddress) then
          r == Failure(500, "Error during checkout") && orders == old(orders)
          && carts == old(carts)[id := before]
        else
          && r.Success? && fresh(r.value) && orders == old(orders) + [r.value]
          && r.value.user == userId
          && r.value.items == OrderLinesOf(before.items)
          && r.value.totalAmount == before.total
          && r.value.status == "Pending"
          && r.value.shippingAddress == shippingAddress
          && carts == old(carts)[id := EmptyDoc]
    {
      var id := CartIdentity(Some(userId), sessionId);
      ghost var start := carts;
      var cart := FindOrCreate(id);
      if |cart.items| == 0 {
        return Failure(400, "Cart is empty");
      }
      var orderItems := OrderLinesOf(cart.items);
      var order := new OrderModel.Order(userId, orderItems, cart.total, shippingAddress, Some("Pending"));
      CheckoutLinesInSchema(cart.items);
      if !order.InSchema() {
        return Failure(500, "Error during checkout");
      }
      orders := orders + [order];
      cart.ClearCart();
      Save(id, cart);
      UpdateTwice(start, id, Stored(start, id), cart.Doc());
      return Success(order);
    }

    /** POST /:sessionId/merge (signed-in users only): a non-empty guest cart is added into the
        user's cart line by line and then deleted; an absent or empty guest cart stays where it is
        and the user's cart is left as it was. */
    method Merge(userId: string, sessionId: string, catalogue: map<ProductId, Product>)
      returns (view: CartJson)
      requires Valid() && userId != ""
      modifies this
      ensures Valid() && orders == old(orders)
      ensures var guestId, userKey := GuestCart(sessionId), UserCart(userId);
        var before := Stored(old(carts), userKey);
        if guestId in old(carts) && old(carts)[guestId].items != [] then
          && userKey in carts && guestId !in carts
          && carts == (old(carts)[userKey := carts[userKey]]) - {guestId}
          && carts[userKey].items == MergeItems(before.items, old(carts)[guestId].items)
          && carts[userKey].discountCode == before.discountCode
          && carts[userKey].discountPercent == before.discountPercent
          && |before.items| <= |carts[userKey].items|
          && view == MergeReply(carts[userKey], |before.items|, catalogue)
        else
          carts == old(carts)[userKey := before] && view == DocView(before, catalogue)
    {
      var guestId := GuestCart(sessionId);
      var userKey := UserCart(userId);
      if guestId in carts && |carts[guestId].items| > 0 {
        var loaded := |Stored(carts, userKey).items|;
        MergeKeepsUserLines(Stored(carts, userKey).items, carts[guestId].items);
        var userCart := MoveInto(guestId, userKey);
        view := MergeReply(userCart.Doc(), loaded, catalogue);
      } else {
        var userCart := FindOrCreate(userKey);
        view := userCart.ToJson(catalogue);
      }
    }
  }

  lemma UpdateTwice<K, V>(m: map<K, V>, k: K, a: V, b: V)
    ensures m[k := a][k := b] == m[k := b]
  {
  }

  /** The merge loop: each guest line is added to `cart` in turn, with its quantity and its
      captured price. */
  method AddLines(cart: Cart, lines: seq<LineItem>)
    requires cart.Valid() && AllInBounds(lines)
    modifies cart
    ensures cart.Valid()
    ensures cart.items == MergeItems(old(cart.items), lines)
    ensures cart.discountCode == old(cart.discountCode)
    ensures cart.discountPercent == old(cart.discountPercent)
  {
    var i := 0;
    while i < |lines|
      invariant 0 <= i <= |lines|
      invariant cart.Valid()
      invariant cart.items == MergeItems(old(cart.items), lines[..i])
      invariant cart.discountCode == old(cart.discountCode)
      invariant cart.discountPercent == old(cart.discountPercent)
    {
      assert lines[..i + 1][..i] == lines[..i];
      assert LineInBounds(lines[i]);
      cart.AddItem(lines[i].product, lines[i].quantity, lines[i].price);
      i := i + 1;
    }
    assert lines[..|lines|] == lines;
  }

  // ---------------------------------------------------------------------------------------------
  // Properties of checkout and merge

  /** Checkout's order lines total the cart's subtotal, so the order's amount (the cart total) is
      that sum less the cart's discount. */
  lemma {:induction false} CheckoutLinesTotal(items: seq<LineItem>)
    ensures OrderModel.LinesTotal(OrderLinesOf(items)) == Subtotal(items)
  {
    if items != [] {
      var n := |items|;
      CheckoutLinesTotal(items[..n - 1]);
      assert OrderLinesOf(items)[..n - 1] == OrderLinesOf(items[..n - 1]);
    }
  }

  /** The amount of an order taken from a stored cart is Σ line totals less the discount. */
  lemma CheckoutAmount(d: CartDoc)
    requires ValidDoc(d)
    ensures d.total == DiscountedTotal(OrderModel.LinesTotal(OrderLinesOf(d.items)), d.discountPercent)
    ensures 0.0 <= d.total <= OrderModel.LinesTotal(OrderLinesOf(d.items))
  {
    CheckoutLinesTotal(d.items);
    TotalWithinSubtotal(d);
  }

  /** Lines taken from a stored cart meet the order-line schema. */
  lemma CheckoutLinesInSchema(items: seq<LineItem>)
    requires AllInBounds(items)
    ensures forall i :: 0 <= i < |items| ==> OrderModel.LineInSchema(OrderLinesOf(items)[i])
  {
    forall i | 0 <= i < |items| ensures OrderModel.LineInSchema(OrderLinesOf(items)[i]) {
      LineAmountNonNegative(items[i]);
    }
  }

  lemma LineAmountNonNegative(item: LineItem)
    requires LineInBounds(item)
    ensures LineAmount(item) >= 0.0
  {
    var p, q := item.price, item.quantity as real;
    assert p * q >= 0.0 * q;
  }

  /** After a merge the user holds, for every product, its own quantity plus the guest's. */
  lemma {:induction false} MergeQuantities(user: seq<LineItem>, guest: seq<LineItem>, pid: ProductId)
    ensures QuantityOf(MergeItems(user, guest), pid) == QuantityOf(user, pid) + QuantityOf(guest, pid)
  {
    if guest != [] {
      var n := |guest|;
      var last := guest[n - 1];
      MergeQuantities(user, guest[..n - 1], pid);
      AddedQuantity(MergeItems(user, guest[..n - 1]), last.product, last.quantity, last.price, pid);
    }
  }

  /** A merge only appends lines: the user's lines stay where they were, each keeping its product
      and price. */
  lemma {:induction false} MergeKeepsUserLines(user: seq<LineItem>, guest: seq<LineItem>)
    ensures |user| <= |MergeItems(user, guest)|
    ensures forall i :: 0 <= i < |user| ==>
      MergeItems(user, guest)[i].product == user[i].product
      && MergeItems(user, guest)[i].price == user[i].price
  {
    if guest != [] {
      var n := |guest|;
      var last := guest[n - 1];
      MergeKeepsUserLines(user, guest[..n - 1]);
      AddedShape(MergeItems(user, guest[..n - 1]), last.product, last.quantity, last.price);
    }
  }

  /** A product already in the user's cart keeps the user's captured price through a merge. */
  lemma {:induction false} MergeKeepsUserPrices(user: seq<LineItem>, guest: seq<LineItem>, pid: ProductId)
    requires FindLine(user, pid).Some?
    ensures FindLine(MergeItems(user, guest), pid) == FindLine(user, pid)
    ensures MergeItems(user, guest)[FindLine(user, pid).value].price == user[FindLine(user, pid).value].price
  {
    if guest != [] {
      var n := |guest|;
      var last := guest[n - 1];
      MergeKeepsUserPrices(user, guest[..n - 1], pid);
      AddedKeepsPrices(MergeItems(user, guest[..n - 1]), last.product, last.quantity, last.price, pid);
    }
  }

  /** Merging lines within bounds keeps one line per product and every line within bounds. */
  lemma {:induction false} MergeKeepsInvariants(user: seq<LineItem>, guest: seq<LineItem>)
    requires AllInBounds(user) && UniqueProducts(user) && AllInBounds(guest)
    ensures AllInBounds(MergeItems(user, guest)) && UniqueProducts(MergeItems(user, guest))
  {
    if guest != [] {
      var n := |guest|;
      var last := guest[n - 1];
      assert AllInBounds(guest[..n - 1]);
      MergeKeepsInvariants(user, guest[..n - 1]);
      assert LineInBounds(last);
      AddedKeepsInvariants(MergeItems(user, guest[..n - 1]), last.product, last.quantity, last.price);
    }
  }
}
