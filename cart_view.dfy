/** The cart page of frontend/src/components/Cart/Cart.jsx: the totals it computes from the cart
    JSON it holds, and the optimistic state updates it applies before the server answers. */
module CartView {
  import opened Wrappers
  import opened Text
  import opened CartModel

  /** One line of the page's state. Price and quantity are whatever JSON values the page holds;
      the reductions read them with `Number(x) || 0`. */
  datatype ClientLine = ClientLine(
    productId: Option<ProductId>,
    quantity: JsValue,
    price: JsValue,
    name: string,
    image: string,
    stock: int)

  /** The page's `cart` state: its lines and the discount percentage. */
  datatype ClientCart = ClientCart(items: seq<ClientLine>, discount: int)

  /** The state before the first load. */
  const InitialCart := ClientCart([], 0)

  function FromServerLine(l: LineJson): ClientLine {
    ClientLine(l.productId, Number(l.quantity as real), Number(l.price), l.name, l.image, l.stock)
  }

  /** The state `setCart(cartData)` installs from a server reply. */
  function FromServer(view: CartJson): (r: ClientCart)
    ensures |r.items| == |view.items| && r.discount == view.discount
    ensures forall i :: 0 <= i < |view.items| ==> r.items[i] == FromServerLine(view.items[i])
  {
    ClientCart(FromServerLines(view.items), view.discount)
  }

  function FromServerLines(ls: seq<LineJson>): (r: seq<ClientLine>)
    ensures |r| == |ls|
    ensures forall i :: 0 <= i < |ls| ==> r[i] == FromServerLine(ls[i])
  {
    if ls == [] then [] else [FromServerLine(ls[0])] + FromServerLines(ls[1..])
  }

  /** Every line's price and quantity read as non-negative numbers. */
  predicate NonNegativeLines(items: seq<ClientLine>) {
    forall i :: 0 <= i < |items| ==> NumberOrZero(items[i].price) >= 0.0 && NumberOrZero(items[i].quantity) >= 0.0
  }

  /** The page's subtotal: Σ price·quantity with each read by `Number(x) || 0`, from the first line
      to the last. */
  function ClientSubtotal(items: seq<ClientLine>): real {
    if items == [] then 0.0
    else
      var last := items[|items| - 1];
      ClientSubtotal(items[..|items| - 1]) + NumberOrZero(last.price) * NumberOrZero(last.quantity)
  }

  /** The page's total: the subtotal less `discount` per cent of itself. */
  function ClientTotal(c: ClientCart): real {
    var subtotal := ClientSubtotal(c.items);
    subtotal - subtotal * (c.discount as real / 100.0)
  }

  /** The item count in the header: Σ quantity, each read by `Number(x) || 0`. */
  function ItemCount(items: seq<ClientLine>): real {
    if items == [] then 0.0
    else ItemCount(items[..|items| - 1]) + NumberOrZero(items[|items| - 1].quantity)
  }

  /** The optimistic `updateQuantity`: a quantity below 1 changes nothing; otherwise every line whose
      product id equals `pid` takes the new quantity and every other line stays as it was. */
  function ClientUpdateQuantity(c: ClientCart, pid: Option<ProductId>, quantity: int): (r: ClientCart)
    ensures quantity < 1 ==> r == c
    ensures r.discount == c.discount && |r.items| == |c.items|
    ensures quantity >= 1 ==> forall i :: 0 <= i < |c.items| ==>
      r.items[i] == if c.items[i].productId == pid
                    then c.items[i].(quantity := Number(quantity as real)) else c.items[i]
  {
    if quantity < 1 then c
    else c.(items := SetQuantities(c.items, pid, quantity))
  }

  function SetQuantities(items: seq<ClientLine>, pid: Option<ProductId>, quantity: int): (r: seq<ClientLine>)
    ensures |r| == |items|
    ensures forall i :: 0 <= i < |items| ==>
      r[i] == if items[i].productId == pid then items[i].(quantity := Number(quantity as real)) else items[i]
  {
    if items == [] then []
    else
      [if items[0].productId == pid then items[0].(quantity := Number(quantity as real)) else items[0]]
      + SetQuantities(items[1..], pid, quantity)
  }

  /** The optimistic `removeItem`: the lines whose product id equals `pid` are filtered out, and
      every other line stays. */
  function ClientRemoveItem(c: ClientCart, pid: Option<ProductId>): (r: ClientCart)
    ensures r.discount == c.discount && |r.items| <= |c.items|
    ensures forall l :: l in r.items <==> l in c.items && l.productId != pid
    ensures (forall i :: 0 <= i < |c.items| ==> c.items[i].productId != pid) ==> r == c
  {
    DropProductMembers(c.items, pid);
    DropProductAbsent(c.items, pid);
    c.(items := DropProduct(c.items, pid))
  }

  function DropProduct(items: seq<ClientLine>, pid: Option<ProductId>): (r: seq<ClientLine>)
    ensures |r| <= |items|
  {
    if items == [] then []
    else (if items[0].productId == pid then [] else [items[0]]) + DropProduct(items[1..], pid)
  }

  /** `clearCart`: once the server has cleared the cart the page holds no lines and no discount;
      when the request fails the state is kept. */
  function ClientClearCart(c: ClientCart, serverCleared: bool): (r: ClientCart)
    ensures serverCleared ==> r.items == [] && r.discount == 0
    ensures !serverCleared ==> r == c
  {
    if serverCleared then ClientCart([], 0) else c
  }

  /** Where the checkout button leads. */
  datatype CheckoutStep = ToLogin | EmptyCartAlert | ToCheckout

  /** `handleCheckout`: a signed-out user is sent to log in first, an empty cart raises an alert,
      and only a signed-in user with lines reaches the checkout page. */
  function HandleCheckout(isLoggedIn: bool, c: ClientCart): (r: CheckoutStep)
    ensures r == ToCheckout <==> isLoggedIn && |c.items| > 0
    ensures r == ToLogin <==> !isLoggedIn
    ensures r == EmptyCartAlert <==> isLoggedIn && c.items == []
  {
    if !isLoggedIn then ToLogin
    else if |c.items| == 0 then EmptyCartAlert
    else ToCheckout
  }

  // ---------------------------------------------------------------------------------------------
  // Properties of the reductions

  /** The subtotal is never negative when no line reads negative. */
  lemma {:induction false} ClientSubtotalNonNegative(items: seq<ClientLine>)
    requires NonNegativeLines(items)
    ensures ClientSubtotal(items) >= 0.0
  {
    if items != [] {
      var n := |items|;
      NonNegativePrefix(items);
      ClientSubtotalNonNegative(items[..n - 1]);
      var p, q := NumberOrZero(items[n - 1].price), NumberOrZero(items[n - 1].quantity);
      assert p >= 0.0 && q >= 0.0;
      ProductNonNegative(p, q);
      assert ClientSubtotal(items) == ClientSubtotal(items[..n - 1]) + p * q;
    }
  }

  lemma NonNegativePrefix(items: seq<ClientLine>)
    requires items != [] && NonNegativeLines(items)
    ensures NonNegativeLines(items[..|items| - 1])
  {
  }

  lemma ProductNonNegative(a: real, b: real)
    requires a >= 0.0 && b >= 0.0
    ensures a * b >= 0.0
  {
    assert a * b >= 0.0 * b;
  }

  /** The item count is never negative when no line reads negative. */
  lemma {:induction false} ItemCountNonNegative(items: seq<ClientLine>)
    requires NonNegativeLines(items)
    ensures ItemCount(items) >= 0.0
  {
    if items != [] {
      var n := |items|;
      NonNegativePrefix(items);
      ItemCountNonNegative(items[..n - 1]);
    }
  }

  /** For a discount in [0, 100] the total lies between 0 and the subtotal, and without a discount
      it is the subtotal. */
  lemma ClientTotalWithinSubtotal(c: ClientCart)
    requires NonNegativeLines(c.items)
    ensures 0 <= c.discount <= 100 ==> 0.0 <= ClientTotal(c) <= ClientSubtotal(c.items)
    ensures c.discount == 0 ==> ClientTotal(c) == ClientSubtotal(c.items)
  {
    ClientSubtotalNonNegative(c.items);
    if 0 <= c.discount <= 100 {
      DiscountWithin(ClientSubtotal(c.items), c.discount as real / 100.0);
    }
  }

  /** Taking a fraction in [0, 1] off a non-negative amount leaves between 0 and the amount. */
  lemma DiscountWithin(amount: real, fraction: real)
    requires amount >= 0.0 && 0.0 <= fraction <= 1.0
    ensures 0.0 <= amount - amount * fraction <= amount
  {
    assert amount * fraction <= amount * 1.0;
  }

  // ---------------------------------------------------------------------------------------------
  // Agreement with the server

  /** Lines whose prices and quantities carry the server's numbers give the server's subtotal. */
  lemma {:induction false} ClientSubtotalOfNumbers(cl: seq<ClientLine>, items: seq<LineItem>)
    requires |cl| == |items|
    requires forall i :: 0 <= i < |items| ==>
      cl[i].price == Number(items[i].price) && cl[i].quantity == Number(items[i].quantity as real)
    ensures ClientSubtotal(cl) == Subtotal(items)
  {
    if items != [] {
      var n := |items|;
      ClientSubtotalOfNumbers(cl[..n - 1], items[..n - 1]);
    }
  }

  /** The page shows the subtotal and total the server stored: the client reductions agree with
      `calculateTotals` on every cart the server sends. */
  lemma ClientTotalsAgree(d: CartDoc, catalogue: map<ProductId, Product>)
    requires ValidDoc(d)
    ensures var c := FromServer(DocView(d, catalogue));
      ClientSubtotal(c.items) == d.subtotal && ClientTotal(c) == d.total
  {
    var c := FromServer(DocView(d, catalogue));
    ClientSubtotalOfView(d.items, catalogue, c);
    ClientTotalIsDiscounted(c);
  }

  /** The client lines built from the view of `items` add up to the server's subtotal. */
  lemma ClientSubtotalOfView(items: seq<LineItem>, catalogue: map<ProductId, Product>, c: ClientCart)
    requires c.items == FromServerLines(LinesView(items, catalogue))
    ensures ClientSubtotal(c.items) == Subtotal(items)
  {
    var lines := LinesView(items, catalogue);
    forall i | 0 <= i < |items|
      ensures c.items[i].price == Number(items[i].price)
      ensures c.items[i].quantity == Number(items[i].quantity as real)
    {
      assert lines[i] == LineView(items[i], catalogue);
      assert c.items[i] == FromServerLine(lines[i]);
    }
    ClientSubtotalOfNumbers(c.items, items);
  }

  lemma ClientTotalIsDiscounted(c: ClientCart)
    ensures ClientTotal(c) == DiscountedTotal(ClientSubtotal(c.items), c.discount)
  {
  }

  /** Lines whose quantities carry the server's numbers count Σ quantity items. */
  lemma {:induction false} ItemCountOfNumbers(cl: seq<ClientLine>, items: seq<LineItem>)
    requires |cl| == |items|
    requires forall i :: 0 <= i < |items| ==> cl[i].quantity == Number(items[i].quantity as real)
    ensures ItemCount(cl) == TotalQuantity(items) as real
  {
    if items != [] {
      var n := |items|;
      ItemCountOfNumbers(cl[..n - 1], items[..n - 1]);
    }
  }

  /** Σ quantity over cart lines. */
  function TotalQuantity(items: seq<LineItem>): int {
    if items == [] then 0 else TotalQuantity(items[..|items| - 1]) + items[|items| - 1].quantity
  }

  /** Every line holds at least one unit, so a cart holds at least as many units as lines. */
  lemma {:induction false} TotalQuantityAtLeastLines(items: seq<LineItem>)
    requires AllInBounds(items)
    ensures TotalQuantity(items) >= |items|
  {
    if items != [] {
      TotalQuantityAtLeastLines(items[..|items| - 1]);
    }
  }

  /** The header count of a server cart is its total number of units, at least one per line; so
      the count is shown (positive) exactly when the cart has lines. */
  lemma ItemCountAgrees(d: CartDoc, catalogue: map<ProductId, Product>)
    requires ValidDoc(d)
    ensures var c := FromServer(DocView(d, catalogue));
      && ItemCount(c.items) == TotalQuantity(d.items) as real
      && ItemCount(c.items) >= |d.items| as real
      && (ItemCount(c.items) > 0.0 <==> d.items != [])
  {
    var c := FromServer(DocView(d, catalogue));
    ItemCountOfNumbers(c.items, d.items);
    TotalQuantityAtLeastLines(d.items);
  }

  /** Every line of the cart refers to a product the catalogue still has, so every view line
      carries its product id. */
  predicate AllListed(items: seq<LineItem>, catalogue: map<ProductId, Product>) {
    forall i :: 0 <= i < |items| ==> items[i].product in catalogue
  }

  /** The optimistic quantity update shows the lines the server will hold after `updateQuantity`
      with the same product and quantity (the totals are recomputed by the reductions). */
  lemma ClientUpdateMatchesServer(d: CartDoc, catalogue: map<ProductId, Product>, pid: ProductId, quantity: int)
    requires ValidDoc(d) && AllListed(d.items, catalogue) && quantity >= 1
    ensures ClientUpdateQuantity(FromServer(DocView(d, catalogue)), Some(pid), quantity).items
         == FromServerLines(LinesView(QuantityUpdated(d.items, pid, quantity), catalogue))
  {
    var after := QuantityUpdated(d.items, pid, quantity);
    UpdateIsPointwise(d.items, pid, quantity);
    var before := FromServer(DocView(d, catalogue)).items;
    var lhs := ClientUpdateQuantity(FromServer(DocView(d, catalogue)), Some(pid), quantity).items;
    var rhs := FromServerLines(LinesView(after, catalogue));
    forall i | 0 <= i < |d.items| ensures lhs[i] == rhs[i] {
      assert before[i] == FromServerLine(LineView(d.items[i], catalogue));
      LineUpdateAgrees(d.items[i], catalogue, pid, quantity);
    }
  }

  /** On lines with one line per product, a positive quantity update sets the quantity of the
      lines of `pid` and keeps every other line. */
  lemma UpdateIsPointwise(items: seq<LineItem>, pid: ProductId, quantity: int)
    requires UniqueProducts(items) && quantity >= 1
    ensures var r := QuantityUpdated(items, pid, quantity);
      |r| == |items|
      && forall i :: 0 <= i < |items| ==>
        r[i] == if items[i].product == pid then items[i].(quantity := quantity) else items[i]
  {
    if FindLine(items, pid).Some? {
      UpdatePositiveSetsQuantity(items, pid, quantity);
    }
  }

  /** For one listed line, the client's quantity update agrees with the view of the updated line. */
  lemma LineUpdateAgrees(item: LineItem, catalogue: map<ProductId, Product>, pid: ProductId, quantity: int)
    requires item.product in catalogue
    ensures var l := FromServerLine(LineView(item, catalogue));
      (if l.productId == Some(pid) then l.(quantity := Number(quantity as real)) else l)
      == FromServerLine(LineView(if item.product == pid then item.(quantity := quantity) else item, catalogue))
  {
  }

  /** The optimistic removal shows the lines the server will hold after `removeItem`. */
  lemma ClientRemoveMatchesServer(d: CartDoc, catalogue: map<ProductId, Product>, pid: ProductId)
    requires AllListed(d.items, catalogue)
    ensures ClientRemoveItem(FromServer(DocView(d, catalogue)), Some(pid)).items
         == FromServerLines(LinesView(Removed(d.items, pid), catalogue))
  {
    DropMatchesRemoved(d.items, catalogue, pid);
  }

  lemma {:induction false} DropMatchesRemoved(items: seq<LineItem>, catalogue: map<ProductId, Product>, pid: ProductId)
    requires AllListed(items, catalogue)
    ensures DropProduct(FromServerLines(LinesView(items, catalogue)), Some(pid))
         == FromServerLines(LinesView(Removed(items, pid), catalogue))
  {
    if items != [] {
      var rest := items[1..];
      assert AllListed(rest, catalogue);
      DropMatchesRemoved(rest, catalogue, pid);
      var head := FromServerLine(LineView(items[0], catalogue));
      assert head.productId == Some(items[0].product);
      assert LinesView(items, catalogue)[1..] == LinesView(rest, catalogue);
      assert FromServerLines(LinesView(items, catalogue))
          == [head] + FromServerLines(LinesView(rest, catalogue));
      if items[0].product != pid {
        var r := Removed(rest, pid);
        assert ([items[0]] + r)[1..] == r;
        assert LinesView([items[0]] + r, catalogue)[1..] == LinesView(r, catalogue);
        assert FromServerLines(LinesView([items[0]] + r, catalogue))
            == [head] + FromServerLines(LinesView(r, catalogue));
      }
    }
  }

  /** A page that clears its cart shows no items and a zero total. */
  lemma ClearedCartShowsNothing(c: ClientCart)
    ensures ClientTotal(ClientClearCart(c, true)) == 0.0
    ensures ItemCount(ClientClearCart(c, true).items) == 0.0
  {
  }

  /** Filtering works line by line, so the kept lines stay in their order and each keeps its
      multiplicity: the filter of a concatenation is the concatenation of the filtered parts ... */
  lemma {:induction false} DropProductSplits(a: seq<ClientLine>, b: seq<ClientLine>, pid: Option<ProductId>)
    ensures DropProduct(a + b, pid) == DropProduct(a, pid) + DropProduct(b, pid)
  {
    if a == [] {
      assert a + b == b;
    } else {
      HeadSplit(a, b);
      DropProductCons(a[0], a[1..] + b, pid);
      DropProductCons(a[0], a[1..], pid);
      DropProductSplits(a[1..], b, pid);
      var head := if a[0].productId == pid then [] else [a[0]];
      ConcatAssoc(head, DropProduct(a[1..], pid), DropProduct(b, pid));
    }
  }

  lemma HeadSplit<T>(a: seq<T>, b: seq<T>)
    requires a != []
    ensures a + b == [a[0]] + (a[1..] + b) && a == [a[0]] + a[1..]
  {
  }

  lemma ConcatAssoc<T>(x: seq<T>, y: seq<T>, z: seq<T>)
    ensures x + (y + z) == (x + y) + z
  {
  }

  lemma DropProductCons(x: ClientLine, t: seq<ClientLine>, pid: Option<ProductId>)
    ensures DropProduct([x] + t, pid) == (if x.productId == pid then [] else [x]) + DropProduct(t, pid)
  {
    assert ([x] + t)[0] == x && ([x] + t)[1..] == t;
  }

  /** ... and a single line is dropped exactly when it is for `pid`. */
  lemma DropProductSingle(x: ClientLine, pid: Option<ProductId>)
    ensures DropProduct([x], pid) == if x.productId == pid then [] else [x]
  {
    assert [x][1..] == [];
  }

  /** Lines none of which is for `pid` are all kept. */
  lemma {:induction false} DropProductAbsent(items: seq<ClientLine>, pid: Option<ProductId>)
    ensures (forall i :: 0 <= i < |items| ==> items[i].productId != pid) ==> DropProduct(items, pid) == items
  {
    if items != [] && forall i :: 0 <= i < |items| ==> items[i].productId != pid {
      assert forall i :: 0 <= i < |items[1..]| ==> items[1..][i] == items[i + 1];
      DropProductAbsent(items[1..], pid);
    }
  }

  /** After the server clears the cart, the page holds exactly what showing the server's empty cart
      would give. */
  lemma ClearMatchesServer(c: ClientCart, catalogue: map<ProductId, Product>)
    ensures ClientClearCart(c, true) == FromServer(DocView(EmptyDoc, catalogue))
  {
    var v := DocView(EmptyDoc, catalogue);
    assert v.items == [];
  }

  /** A signed-in user reaches the checkout page from a cart shown from the server exactly when
      the server's checkout would not refuse that cart as empty. */
  lemma CheckoutGateMatchesServer(d: CartDoc, catalogue: map<ProductId, Product>)
    ensures HandleCheckout(true, FromServer(DocView(d, catalogue))) == ToCheckout <==> d.items != []
  {
  }

  lemma {:induction false} DropProductMembers(items: seq<ClientLine>, pid: Option<ProductId>)
    ensures forall l :: l in DropProduct(items, pid) <==> l in items && l.productId != pid
  {
    if items != [] {
      DropProductMembers(items[1..], pid);
      assert items == [items[0]] + items[1..];
    }
  }
}
