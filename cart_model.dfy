/** The cart document of backend/models/Cart.js: ordered line items, each with the price captured
    when its product was first added; an optional discount code with its percentage; and a subtotal
    and total that every mutating method recomputes. */
module CartModel {
  import opened Wrappers

  type ProductId = string

  /** One cart line: the product it refers to, how many, and the unit price captured at add time. */
  datatype LineItem = LineItem(product: ProductId, quantity: int, price: real)

  /** The line schema's bounds: quantity at least 1, price not negative. */
  predicate LineInBounds(item: LineItem) {
    item.quantity >= 1 && item.price >= 0.0
  }

  predicate AllInBounds(items: seq<LineItem>) {
    forall i :: 0 <= i < |items| ==> LineInBounds(items[i])
  }

  /** No product appears on two lines: repeated adds combine into one line. */
  predicate UniqueProducts(items: seq<LineItem>) {
    forall i, j :: 0 <= i < j < |items| ==> items[i].product != items[j].product
  }

  function LineAmount(item: LineItem): real {
    item.price * item.quantity as real
  }

  /** Σ price·quantity over the lines, accumulated from the first line to the last. */
  function Subtotal(items: seq<LineItem>): real {
    if items == [] then 0.0 else Subtotal(items[..|items| - 1]) + LineAmount(items[|items| - 1])
  }

  /** The subtotal less `percent` per cent of itself. */
  function DiscountedTotal(subtotal: real, percent: int): real {
    subtotal - subtotal * (percent as real / 100.0)
  }

  /** The fixed table of discount codes; codes match exactly, case included. */
  const DiscountCodes: map<string, int> := map["SAVE10" := 10, "SAVE20" := 20, "WELCOME" := 15]

  /** The product's detail as the cart view shows it after population. */
  datatype Product = Product(name: string, image: string, price: Num<real>, stock: int)

  /** `items.find(...)`: the position of the first line for `pid`, if any. */
  function FindLine(items: seq<LineItem>, pid: ProductId): (r: Option<nat>)
    ensures r.Some? ==> r.value < |items| && items[r.value].product == pid
    ensures r.Some? ==> forall j :: 0 <= j < r.value ==> items[j].product != pid
    ensures r.None? <==> forall j :: 0 <= j < |items| ==> items[j].product != pid
  {
    if items == [] then None
    else if items[0].product == pid then Some(0)
    else match FindLine(items[1..], pid)
      case Some(k) => Some(k + 1)
      case None => None
  }

  /** The lines after adding `quantity` of `pid` at `price`: an existing line for `pid` grows by
      `quantity` and keeps its price; otherwise one new line is appended. */
  function Added(items: seq<LineItem>, pid: ProductId, quantity: int, price: real): seq<LineItem> {
    match FindLine(items, pid)
    case Some(k) => items[k := items[k].(quantity := items[k].quantity + quantity)]
    case None => items + [LineItem(pid, quantity, price)]
  }

  /** `items.filter(item => item.product !== pid)`. */
  function Removed(items: seq<LineItem>, pid: ProductId): seq<LineItem> {
    if items == [] then []
    else if items[0].product == pid then Removed(items[1..], pid)
    else [items[0]] + Removed(items[1..], pid)
  }

  /** The lines after `updateQuantity(pid, quantity)`. */
  function QuantityUpdated(items: seq<LineItem>, pid: ProductId, quantity: int): seq<LineItem> {
    match FindLine(items, pid)
    case None => items
    case Some(k) =>
      if quantity <= 0 then Removed(items, pid) else items[k := items[k].(quantity := quantity)]
  }

  /** The total quantity held for `pid` over all lines. */
  function QuantityOf(items: seq<LineItem>, pid: ProductId): int {
    if items == [] then 0
    else QuantityOf(items[..|items| - 1], pid)
         + (if items[|items| - 1].product == pid then items[|items| - 1].quantity else 0)
  }

  /** A cart as stored: what `save` writes and `findOne` reads back. */
  datatype CartDoc = CartDoc(
    items: seq<LineItem>,
    discountCode: Option<string>,
    discountPercent: int,
    subtotal: real,
    total: real)

  /** What every stored cart satisfies: the schema's bounds, one line per product, and totals that
      the pre-save hook has just recomputed. */
  predicate ValidDoc(d: CartDoc) {
    && AllInBounds(d.items)
    && UniqueProducts(d.items)
    && 0 <= d.discountPercent <= 100
    && d.subtotal == Subtotal(d.items)
    && d.total == DiscountedTotal(d.subtotal, d.discountPercent)
  }

  /** A new cart: no lines, no code, everything zero. */
  const EmptyDoc := CartDoc([], None, 0, 0.0, 0.0)

  /** One line of the JSON view the routes send back. */
  datatype LineJson = LineJson(
    productId: Option<ProductId>,
    quantity: int,
    name: string,
    price: real,
    image: string,
    stock: int)

  /** The JSON view of a cart: `discountPercent` is exposed as `discount`. */
  datatype CartJson = CartJson(items: seq<LineJson>, discount: int, subtotal: real, total: real)

  /** The image shown for a line whose product has none, as the source text spells it. */
  const DefaultLineImage := "\U{00F0}\U{0178}\U{201C}\U{0161}"

  /** One line of `toJSON`: the product's detail when the catalogue still has it, else the fallbacks
      (id null, name 'Product', the default image, stock 0). */
  function LineView(item: LineItem, catalogue: map<ProductId, Product>): LineJson {
    if item.product in catalogue then
      var p := catalogue[item.product];
      LineJson(Some(item.product), item.quantity, if p.name != "" then p.name else "Product",
               item.price, if p.image != "" then p.image else DefaultLineImage, p.stock)
    else
      LineJson(None, item.quantity, "Product", item.price, DefaultLineImage, 0)
  }

  function LinesView(items: seq<LineItem>, catalogue: map<ProductId, Product>): (r: seq<LineJson>)
    ensures |r| == |items|
    ensures forall i :: 0 <= i < |items| ==> r[i] == LineView(items[i], catalogue)
  {
    if items == [] then [] else [LineView(items[0], catalogue)] + LinesView(items[1..], catalogue)
  }

  /** The `toJSON` transform: one view line per cart line, in order, carrying the line's quantity
      and captured price; the discount percentage exposed as `discount`; the totals as stored. */
  function DocView(d: CartDoc, catalogue: map<ProductId, Product>): (r: CartJson)
    ensures |r.items| == |d.items|
    ensures forall i :: 0 <= i < |d.items| ==>
      r.items[i] == LineView(d.items[i], catalogue)
      && r.items[i].quantity == d.items[i].quantity && r.items[i].price == d.items[i].price
    ensures r.discount == d.discountPercent && r.subtotal == d.subtotal && r.total == d.total
  {
    CartJson(LinesView(d.items, catalogue), d.discountPercent, d.subtotal, d.total)
  }

  /** One line of `toJSON` when the line's product was never loaded, so only its id is there:
      name 'Product', the default image and stock 0. */
  function BareLineView(item: LineItem): LineJson {
    LineJson(Some(item.product), item.quantity, "Product", item.price, DefaultLineImage, 0)
  }

  /** The in-memory cart document whose methods change it in place. */
  class Cart {
    var items: seq<LineItem>
    var discountCode: Option<string>
    var discountPercent: int
    var subtotal: real
    var total: real

    /** The document `save` would write. */
    function Doc(): CartDoc
      reads this
    {
      CartDoc(items, discountCode, discountPercent, subtotal, total)
    }

    predicate Valid()
      reads this
    {
      ValidDoc(Doc())
    }

    /** A cart read back from storage. */
    constructor Load(d: CartDoc)
      requires ValidDoc(d)
      ensures Doc() == d && Valid()
    {
      items, discountCode, discountPercent, subtotal, total :=
        d.items, d.discountCode, d.discountPercent, d.subtotal, d.total;
    }

    /** `calculateTotals`: subtotal is Σ price·quantity, total is the subtotal less the discount. */
    method CalculateTotals()
      modifies this
      ensures items == old(items) && discountCode == old(discountCode)
      ensures discountPercent == old(discountPercent)
      ensures subtotal == Subtotal(items)
      ensures total == DiscountedTotal(subtotal, discountPercent)
    {
      var sum := 0.0;
      var i := 0;
      while i < |items|
        invariant 0 <= i <= |items|
        invariant sum == Subtotal(items[..i])
      {
        assert items[..i + 1][..i] == items[..i];
        sum := sum + items[i].price * items[i].quantity as real;
        i := i + 1;
      }
      assert items[..|items|] == items;
      subtotal := sum;
      var discountAmount := subtotal * (discountPercent as real / 100.0);
      total := subtotal - discountAmount;
    }

    /** `addItem`: repeated products combine on their first line, whose price stays as captured. */
    method AddItem(pid: ProductId, quantity: int, price: real)
      requires Valid() && quantity >= 1 && price >= 0.0
      modifies this
      ensures Valid()
      ensures items == Added(old(items), pid, quantity, price)
      ensures discountCode == old(discountCode) && discountPercent == old(discountPercent)
    {
      AddedKeepsInvariants(items, pid, quantity, price);
      var existing := FindLine(items, pid);
      match existing {
        case Some(k) =>
          items := items[k := items[k].(quantity := items[k].quantity + quantity)];
        case None =>
          items := items + [LineItem(pid, quantity, price)];
      }
      CalculateTotals();
    }

    /** `removeItem`: every line for `pid` goes, the rest keep their order. */
    method RemoveItem(pid: ProductId)
      requires Valid()
      modifies this
      ensures Valid()
      ensures items == Removed(old(items), pid)
      ensures discountCode == old(discountCode) && discountPercent == old(discountPercent)
    {
      RemovedKeepsInvariants(items, pid);
      items := Removed(items, pid);
      CalculateTotals();
    }

    /** `updateQuantity`: sets the quantity outright; a quantity of 0 or less removes the line; an
        absent product changes nothing. */
    method UpdateQuantity(pid: ProductId, quantity: int)
      requires Valid()
      modifies this
      ensures Valid()
      ensures items == QuantityUpdated(old(items), pid, quantity)
      ensures discountCode == old(discountCode) && discountPercent == old(discountPercent)
      ensures FindLine(old(items), pid).None? ==> Doc() == old(Doc())
    {
      var item := FindLine(items, pid);
      if item.Some? {
        if quantity <= 0 {
          RemoveItem(pid);
        } else {
          SetQuantityKeepsInvariants(items, item.value, quantity);
          items := items[item.value := items[item.value].(quantity := quantity)];
          CalculateTotals();
        }
      }
    }

    /** `clearCart`: no lines, no code, no discount, zero totals. */
    method ClearCart()
      modifies this
      ensures Valid() && Doc() == EmptyDoc
    {
      items := [];
      discountCode := None;
      discountPercent := 0;
      CalculateTotals();
    }

    /** `applyDiscount`: a code in the table sets code and percentage and recomputes the total; any
        other code (or none) reports false and leaves the cart exactly as it was. */
    method ApplyDiscount(code: Option<string>) returns (applied: bool)
      requires Valid()
      modifies this
      ensures Valid()
      ensures applied <==> code.Some? && code.value in DiscountCodes
      ensures applied ==> items == old(items) && discountCode == code
                          && discountPercent == DiscountCodes[code.value]
      ensures !applied ==> Doc() == old(Doc())
    {
      if code.Some? && code.value in DiscountCodes {
        discountCode := code;
        discountPercent := DiscountCodes[code.value];
        CalculateTotals();
        return true;
      }
      return false;
    }

    /** The `toJSON` transform of this cart. */
    function ToJson(catalogue: map<ProductId, Product>): CartJson
      reads this
    {
      DocView(Doc(), catalogue)
    }
  }

  // ---------------------------------------------------------------------------------------------
  // Properties of the specification functions

  /** The subtotal of lines within bounds is never negative. */
  lemma {:induction false} SubtotalNonNegative(items: seq<LineItem>)
    requires AllInBounds(items)
    ensures Subtotal(items) >= 0.0
  {
    if items != [] {
      SubtotalNonNegative(items[..|items| - 1]);
    }
  }

  /** In every stored cart 0 <= total <= subtotal, and total == subtotal·(1 - percent/100). */
  lemma TotalWithinSubtotal(d: CartDoc)
    requires ValidDoc(d)
    ensures 0.0 <= d.total <= d.subtotal
    ensures d.total == d.subtotal * (1.0 - d.discountPercent as real / 100.0)
  {
    SubtotalNonNegative(d.items);
    var p := d.discountPercent as real / 100.0;
    assert 0.0 <= p <= 1.0;
    assert d.subtotal * p <= d.subtotal * 1.0;
  }

  lemma {:induction false} SubtotalAppend(items: seq<LineItem>, x: LineItem)
    ensures Subtotal(items + [x]) == Subtotal(items) + LineAmount(x)
  {
    assert (items + [x])[..|items|] == items;
  }

  /** Replacing one line changes the subtotal by the difference of the two line amounts. */
  lemma {:induction false} SubtotalUpdate(items: seq<LineItem>, k: nat, x: LineItem)
    requires k < |items|
    ensures Subtotal(items[k := x]) == Subtotal(items) - LineAmount(items[k]) + LineAmount(x)
  {
    var n := |items|;
    if k < n - 1 {
      assert items[k := x][..n - 1] == items[..n - 1][k := x];
      SubtotalUpdate(items[..n - 1], k, x);
    } else {
      assert items[k := x][..n - 1] == items[..n - 1];
    }
  }

  /** The unit price a line for `pid` will carry after an add at `price`: the captured price when
      the product is already there, else `price`. */
  function UnitPriceAfterAdd(items: seq<LineItem>, pid: ProductId, price: real): real {
    match FindLine(items, pid)
    case Some(k) => items[k].price
    case None => price
  }

  /** Adding `quantity` units raises the subtotal by `quantity` times the price the product's line
      carries: the price captured earlier when the product was already there, else `price`. */
  lemma AddedSubtotal(items: seq<LineItem>, pid: ProductId, quantity: int, price: real)
    ensures Subtotal(Added(items, pid, quantity, price))
         == Subtotal(items) + UnitPriceAfterAdd(items, pid, price) * quantity as real
  {
    var r := Added(items, pid, quantity, price);
    match FindLine(items, pid)
    case Some(k) =>
      assert r == items[k := items[k].(quantity := items[k].quantity + quantity)];
      assert UnitPriceAfterAdd(items, pid, price) == items[k].price;
      SubtotalGrowLine(items, k, quantity);
    case None =>
      assert r == items + [LineItem(pid, quantity, price)];
      assert UnitPriceAfterAdd(items, pid, price) == price;
      SubtotalAppend(items, LineItem(pid, quantity, price));
  }

  lemma SubtotalGrowLine(items: seq<LineItem>, k: nat, quantity: int)
    requires k < |items|
    ensures Subtotal(items[k := items[k].(quantity := items[k].quantity + quantity)])
         == Subtotal(items) + items[k].price * quantity as real
  {
    var x := items[k].(quantity := items[k].quantity + quantity);
    SubtotalUpdate(items, k, x);
    var p, a, b := items[k].price, items[k].quantity, quantity;
    assert (a + b) as real == a as real + b as real;
    ScaleSplit(p, a as real, b as real);
  }

  lemma ScaleSplit(p: real, a: real, b: real)
    ensures p * (a + b) - p * a == p * b
  {
  }

  /** A repeated add keeps the line count and the captured price and adds to the quantity; a first
      add appends exactly one line carrying the given price. */
  lemma AddedShape(items: seq<LineItem>, pid: ProductId, quantity: int, price: real)
    ensures var r := Added(items, pid, quantity, price);
      match FindLine(items, pid)
      case Some(k) =>
        |r| == |items| && r[k].product == pid && r[k].price == items[k].price
        && r[k].quantity == items[k].quantity + quantity
        && forall j :: 0 <= j < |items| && j != k ==> r[j] == items[j]
      case None =>
        r[..|items|] == items && |r| == |items| + 1 && r[|items|] == LineItem(pid, quantity, price)
  {
  }

  /** Adding keeps one line per product and keeps every line within the schema's bounds. */
  lemma AddedKeepsInvariants(items: seq<LineItem>, pid: ProductId, quantity: int, price: real)
    requires AllInBounds(items) && UniqueProducts(items)
    requires quantity >= 1 && price >= 0.0
    ensures AllInBounds(Added(items, pid, quantity, price))
    ensures UniqueProducts(Added(items, pid, quantity, price))
  {
  }

  /** The quantity held for each product grows by exactly what was added for it. */
  lemma {:induction false} AddedQuantity(items: seq<LineItem>, pid: ProductId, quantity: int,
                                         price: real, other: ProductId)
    ensures QuantityOf(Added(items, pid, quantity, price), other)
         == QuantityOf(items, other) + (if pid == other then quantity else 0)
  {
    match FindLine(items, pid)
    case Some(k) =>
      QuantityOfUpdate(items, k, items[k].(quantity := items[k].quantity + quantity), other);
    case None =>
      assert (items + [LineItem(pid, quantity, price)])[..|items|] == items;
  }

  lemma {:induction false} QuantityOfUpdate(items: seq<LineItem>, k: nat, x: LineItem, pid: ProductId)
    requires k < |items| && x.product == items[k].product
    ensures QuantityOf(items[k := x], pid)
         == QuantityOf(items, pid) + (if x.product == pid then x.quantity - items[k].quantity else 0)
  {
    var n := |items|;
    if k < n - 1 {
      assert items[k := x][..n - 1] == items[..n - 1][k := x];
      QuantityOfUpdate(items[..n - 1], k, x, pid);
    } else {
      assert items[k := x][..n - 1] == items[..n - 1];
    }
  }

  /** Adding never changes the price on the first line of a product already in the cart. */
  lemma AddedKeepsPrices(items: seq<LineItem>, pid: ProductId, quantity: int, price: real, other: ProductId)
    requires FindLine(items, other).Some?
    ensures var r := Added(items, pid, quantity, price);
      FindLine(r, other) == FindLine(items, other)
      && r[FindLine(r, other).value].price == items[FindLine(items, other).value].price
  {
    var r := Added(items, pid, quantity, price);
    var k := FindLine(items, other).value;
    match FindLine(items, pid)
    case Some(m) =>
      assert r == items[m := items[m].(quantity := items[m].quantity + quantity)];
      FindLineAgrees(items, r, other, k);
    case None =>
      assert r == items + [LineItem(pid, quantity, price)];
      FindLineAgrees(items, r, other, k);
  }

  /** Two line lists whose products agree up to the first line for `pid` find that same line. */
  lemma FindLineAgrees(a: seq<LineItem>, b: seq<LineItem>, pid: ProductId, k: nat)
    requires FindLine(a, pid) == Some(k) && k < |b|
    requires forall j :: 0 <= j <= k ==> a[j].product == b[j].product
    ensures FindLine(b, pid) == Some(k)
  {
  }

  /** `Removed` is the filter that drops the lines of `pid`: it maps a concatenation to the
      concatenation of its parts. */
  lemma {:induction false} RemovedDistributes(a: seq<LineItem>, b: seq<LineItem>, pid: ProductId)
    ensures Removed(a + b, pid) == Removed(a, pid) + Removed(b, pid)
  {
    if a == [] {
      assert a + b == b;
    } else {
      var ab, tail := a + b, a[1..];
      assert ab[0] == a[0] && ab[1..] == tail + b;
      RemovedDistributes(tail, b, pid);
    }
  }

  /** On a single line the filter drops it for `pid` and keeps it otherwise. */
  lemma RemovedSingle(x: LineItem, pid: ProductId)
    ensures Removed([x], pid) == if x.product == pid then [] else [x]
  {
    assert [x][1..] == [];
  }

  /** After removal no line holds `pid`, and a line for any other product is still there. */
  lemma {:induction false} RemovedMembers(items: seq<LineItem>, pid: ProductId)
    ensures forall x :: x in Removed(items, pid) <==> x in items && x.product != pid
  {
    if items != [] {
      RemovedMembers(items[1..], pid);
      assert items == [items[0]] + items[1..];
    }
  }

  /** Removing a product the cart does not hold changes nothing. */
  lemma {:induction false} RemovedAbsent(items: seq<LineItem>, pid: ProductId)
    requires FindLine(items, pid).None?
    ensures Removed(items, pid) == items
  {
    if items != [] {
      RemovedAbsent(items[1..], pid);
      assert items == [items[0]] + items[1..];
    }
  }

  /** Removing keeps one line per product and every line within bounds. */
  lemma RemovedKeepsInvariants(items: seq<LineItem>, pid: ProductId)
    requires AllInBounds(items) && UniqueProducts(items)
    ensures AllInBounds(Removed(items, pid)) && UniqueProducts(Removed(items, pid))
  {
    RemovedSubsequence(items, pid);
  }

  /** `Removed(items, pid)` of a cart with one line per product within bounds is again such a cart,
      and every line it keeps is a line of `items` (the order of those lines follows from
      `RemovedDistributes` and `RemovedSingle`). */
  lemma {:induction false} RemovedSubsequence(items: seq<LineItem>, pid: ProductId)
    requires UniqueProducts(items) && AllInBounds(items)
    ensures UniqueProducts(Removed(items, pid)) && AllInBounds(Removed(items, pid))
    ensures forall x :: x in Removed(items, pid) ==> x in items
  {
    if items != [] {
      var rest := items[1..];
      RemovedSubsequence(rest, pid);
      RemovedMembers(rest, pid);
      if items[0].product != pid {
        var r := [items[0]] + Removed(rest, pid);
        forall i, j | 0 <= i < j < |r| ensures r[i].product != r[j].product {
          if i == 0 {
            assert r[j] in rest;
            var m :| 0 <= m < |rest| && rest[m] == r[j];
            assert items[m + 1] == r[j];
          }
        }
      }
    }
  }

  /** Setting a line's quantity to a positive value keeps the invariants. */
  lemma SetQuantityKeepsInvariants(items: seq<LineItem>, k: nat, quantity: int)
    requires k < |items| && AllInBounds(items) && UniqueProducts(items) && quantity >= 1
    ensures AllInBounds(items[k := items[k].(quantity := quantity)])
    ensures UniqueProducts(items[k := items[k].(quantity := quantity)])
  {
  }

  /** `updateQuantity(pid, 0)` and `removeItem(pid)` leave the same lines. */
  lemma UpdateToZeroIsRemove(items: seq<LineItem>, pid: ProductId, quantity: int)
    requires quantity <= 0
    ensures QuantityUpdated(items, pid, quantity) == Removed(items, pid)
  {
    if FindLine(items, pid).None? {
      RemovedAbsent(items, pid);
    }
  }

  /** A positive update sets that product's line to exactly the new quantity and leaves every other
      line, and the line count, as they were. */
  lemma UpdatePositiveSetsQuantity(items: seq<LineItem>, pid: ProductId, quantity: int)
    requires quantity > 0 && FindLine(items, pid).Some?
    ensures var r := QuantityUpdated(items, pid, quantity);
      var k := FindLine(items, pid).value;
      |r| == |items| && r[k] == LineItem(pid, quantity, items[k].price)
      && forall j :: 0 <= j < |items| && j != k ==> r[j] == items[j]
  {
  }

  /** Two valid documents that agree on lines and discount are the same document: the totals are
      determined by the rest. */
  lemma ValidDocDeterminedByContent(d1: CartDoc, d2: CartDoc)
    requires ValidDoc(d1) && ValidDoc(d2)
    requires d1.items == d2.items && d1.discountCode == d2.discountCode
    requires d1.discountPercent == d2.discountPercent
    ensures d1 == d2
  {
  }
}
