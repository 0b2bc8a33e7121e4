/** The order document of backend/models/Order.js: order lines with per-line totals, a shipping
    address, status and payment enums with their defaults, and the two methods that change an order
    in place. */
module OrderModel {
  import opened Wrappers
  import opened Text

  /** One order line; `total` is price·quantity as checkout computes it. */
  datatype OrderLine = OrderLine(product: string, quantity: int, price: real, total: real)

  /** The order-line schema's bounds. */
  predicate LineInSchema(line: OrderLine) {
    line.quantity >= 1 && line.price >= 0.0 && line.total >= 0.0
  }

  /** A delivery address as the request supplies it; an absent field is None. */
  datatype Address = Address(
    street: Option<string>,
    city: Option<string>,
    state: Option<string>,
    zipCode: Option<string>,
    country: Option<string>)

  /** A required, trimmed string field: present and not empty once trimmed. */
  predicate RequiredText(s: Option<string>) {
    s.Some? && Trim(s.value) != ""
  }

  /** The address schema: street, city, state and zip code are required; country defaults to
      'India' when absent but may not be blank when given. */
  predicate AddressInSchema(a: Option<Address>) {
    && a.Some?
    && RequiredText(a.value.street) && RequiredText(a.value.city)
    && RequiredText(a.value.state) && RequiredText(a.value.zipCode)
    && (a.value.country.None? || RequiredText(a.value.country))
  }

  const OrderStatuses: seq<string> := ["Pending", "Shipped", "Delivered", "Cancelled"]
  const PaymentStatuses: seq<string> := ["pending", "paid", "failed", "refunded"]
  const PaymentMethods: seq<string> := ["cod", "online", "card"]

  /** Σ line totals, accumulated from the first line to the last. */
  function LinesTotal(lines: seq<OrderLine>): real {
    if lines == [] then 0.0 else LinesTotal(lines[..|lines| - 1]) + lines[|lines| - 1].total
  }

  /** `subtotal - discountAmount + deliveryCharge` as the method evaluates it; an operand that is
      undefined makes the whole expression NaN, written None here. */
  function TotalAsWritten(subtotal: real, discountAmount: Option<real>, deliveryCharge: Option<real>): Option<real> {
    if discountAmount.Some? && deliveryCharge.Some? then
      Some(subtotal - discountAmount.value + deliveryCharge.value)
    else None
  }

  /** The total the method evidently means: an absent discount or delivery charge counts as 0. */
  function TotalCorrected(subtotal: real, discountAmount: Option<real>, deliveryCharge: Option<real>): real {
    subtotal - discountAmount.GetOr(0.0) + deliveryCharge.GetOr(0.0)
  }

  /** The condition under which `updateStatus` stamps `deliveredAt`, as written. */
  predicate SetsDeliveredAt(newStatus: string) {
    newStatus == "delivered"
  }

  /** The condition it evidently means: the enum's own spelling. */
  predicate SetsDeliveredAtCorrected(newStatus: string) {
    newStatus == "Delivered"
  }

  class Order {
    var user: string
    var items: seq<OrderLine>
    var totalAmount: real
    var shippingAddress: Option<Address>
    var status: string
    var paymentStatus: string
    var paymentMethod: string
    var deliveredAt: Option<int>
    // Plain properties that `calculateTotals` reads and writes; the schema declares none of them,
    // so on a stored order they start out undefined.
    var subtotal: Option<real>
    var total: Option<real>
    var discountAmount: Option<real>
    var deliveryCharge: Option<real>

    /** What `save` validates: line bounds, a complete address and the three enums. */
    predicate InSchema()
      reads this
    {
      && user != ""
      && (forall i :: 0 <= i < |items| ==> LineInSchema(items[i]))
      && AddressInSchema(shippingAddress)
      && status in OrderStatuses
      && paymentStatus in PaymentStatuses
      && paymentMethod in PaymentMethods
    }

    /** `new Order({...})`: status defaults to 'Pending', payment status to 'pending', payment
        method to 'cod'; nothing is delivered yet. */
    constructor (user: string, items: seq<OrderLine>, totalAmount: real,
                 shippingAddress: Option<Address>, status: Option<string>)
      ensures this.user == user && this.items == items && this.totalAmount == totalAmount
      ensures this.shippingAddress == shippingAddress
      ensures this.status == status.GetOr("Pending")
      ensures paymentStatus == "pending" && paymentMethod == "cod" && deliveredAt == None
      ensures subtotal == None && total == None && discountAmount == None && deliveryCharge == None
    {
      this.user := user;
      this.items := items;
      this.totalAmount := totalAmount;
      this.shippingAddress := shippingAddress;
      this.status := status.GetOr("Pending");
      paymentStatus := "pending";
      paymentMethod := "cod";
      deliveredAt := None;
      subtotal, total, discountAmount, deliveryCharge := None, None, None, None;
    }

    /** `calculateTotals` as written: subtotal is Σ line totals and total is
        subtotal - discountAmount + deliveryCharge, which is NaN while either operand is undefined. */
    method CalculateTotals()
      modifies this
      ensures subtotal == Some(LinesTotal(items))
      ensures total == TotalAsWritten(LinesTotal(items), discountAmount, deliveryCharge)
      ensures items == old(items) && totalAmount == old(totalAmount) && status == old(status)
      ensures discountAmount == old(discountAmount) && deliveryCharge == old(deliveryCharge)
      ensures deliveredAt == old(deliveredAt) && shippingAddress == old(shippingAddress)
      ensures paymentStatus == old(paymentStatus) && paymentMethod == old(paymentMethod)
      ensures user == old(user)
    {
      var sum := 0.0;
      var i := 0;
      while i < |items|
        invariant 0 <= i <= |items|
        invariant sum == LinesTotal(items[..i])
      {
        assert items[..i + 1][..i] == items[..i];
        sum := sum + items[i].total;
        i := i + 1;
      }
      assert items[..|items|] == items;
      subtotal := Some(sum);
      total := TotalAsWritten(sum, discountAmount, deliveryCharge);
    }

    /** `calculateTotals` with absent operands read as 0. */
    method CalculateTotalsCorrected()
      modifies this
      ensures subtotal == Some(LinesTotal(items))
      ensures total == Some(TotalCorrected(LinesTotal(items), discountAmount, deliveryCharge))
      ensures items == old(items) && totalAmount == old(totalAmount) && status == old(status)
      ensures discountAmount == old(discountAmount) && deliveryCharge == old(deliveryCharge)
      ensures deliveredAt == old(deliveredAt) && shippingAddress == old(shippingAddress)
      ensures paymentStatus == old(paymentStatus) && paymentMethod == old(paymentMethod)
      ensures user == old(user)
    {
      var sum := 0.0;
      var i := 0;
      while i < |items|
        invariant 0 <= i <= |items|
        invariant sum == LinesTotal(items[..i])
      {
        assert items[..i + 1][..i] == items[..i];
        sum := sum + items[i].total;
        i := i + 1;
      }
      assert items[..|items|] == items;
      subtotal := Some(sum);
      total := Some(TotalCorrected(sum, discountAmount, deliveryCharge));
    }

    /** `updateStatus` as written: sets the status to whatever it is given; stamps `deliveredAt`
        with the clock reading `now` only for the lower-case string 'delivered'. */
    method UpdateStatus(newStatus: string, now: int)
      modifies this
      ensures status == newStatus
      ensures deliveredAt == if SetsDeliveredAt(newStatus) then Some(now) else old(deliveredAt)
      ensures items == old(items) && totalAmount == old(totalAmount) && user == old(user)
      ensures shippingAddress == old(shippingAddress) && paymentStatus == old(paymentStatus)
      ensures paymentMethod == old(paymentMethod) && subtotal == old(subtotal) && total == old(total)
      ensures discountAmount == old(discountAmount) && deliveryCharge == old(deliveryCharge)
    {
      status := newStatus;
      if newStatus == "delivered" {
        deliveredAt := Some(now);
      }
    }

    /** `updateStatus` comparing with the enum's 'Delivered'. */
    method UpdateStatusCorrected(newStatus: string, now: int)
      modifies this
      ensures status == newStatus
      ensures deliveredAt == if SetsDeliveredAtCorrected(newStatus) then Some(now) else old(deliveredAt)
      ensures items == old(items) && totalAmount == old(totalAmount) && user == old(user)
      ensures shippingAddress == old(shippingAddress) && paymentStatus == old(paymentStatus)
      ensures paymentMethod == old(paymentMethod) && subtotal == old(subtotal) && total == old(total)
      ensures discountAmount == old(discountAmount) && deliveryCharge == old(deliveryCharge)
    {
      status := newStatus;
      if newStatus == "Delivered" {
        deliveredAt := Some(now);
      }
    }
  }

  /** As written, no status the enum admits stamps `deliveredAt`, and the one string that does is
      rejected by the enum when the order is saved. */
  lemma DeliveredAtNeverSetByEnum(newStatus: string)
    ensures newStatus in OrderStatuses ==> !SetsDeliveredAt(newStatus)
    ensures SetsDeliveredAt(newStatus) ==> newStatus !in OrderStatuses
  {
  }

  /** Corrected, exactly one enum value stamps `deliveredAt`: 'Delivered'. */
  lemma CorrectedStampsOnDelivered(newStatus: string)
    ensures SetsDeliveredAtCorrected(newStatus) <==> newStatus == OrderStatuses[2]
    ensures SetsDeliveredAtCorrected(newStatus) ==> newStatus in OrderStatuses
  {
  }

  /** As written, an order with no discount amount (no schema path holds one, so every stored
      order) gets a NaN total. */
  lemma TotalAsWrittenIsNaN(subtotal: real, deliveryCharge: Option<real>)
    ensures TotalAsWritten(subtotal, None, deliveryCharge) == None
  {
  }

  /** Line totals within the schema's bounds sum to a non-negative subtotal. */
  lemma {:induction false} LinesTotalNonNegative(lines: seq<OrderLine>)
    requires forall i :: 0 <= i < |lines| ==> LineInSchema(lines[i])
    ensures LinesTotal(lines) >= 0.0
  {
    if lines != [] {
      LinesTotalNonNegative(lines[..|lines| - 1]);
    }
  }

  /** Corrected, an order without discount or delivery charge totals its lines, never less than 0;
      a delivery charge is added and a discount subtracted. */
  lemma CorrectedTotalOfPlainOrder(lines: seq<OrderLine>, discountAmount: real, deliveryCharge: real)
    requires forall i :: 0 <= i < |lines| ==> LineInSchema(lines[i])
    ensures TotalCorrected(LinesTotal(lines), None, None) == LinesTotal(lines) >= 0.0
    ensures TotalCorrected(LinesTotal(lines), Some(discountAmount), Some(deliveryCharge))
         == LinesTotal(lines) - discountAmount + deliveryCharge
  {
    LinesTotalNonNegative(lines);
  }
}
