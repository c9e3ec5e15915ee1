/** The order shapes and the two numeric enums shared by the customer and
    operator order views. A TypeScript numeric enum numbers its members from
    0 in declaration order and maps names to numbers and numbers back to
    names; both directions are modelled here. */
module OrderTypes {
  import opened Common

  datatype OrderStatus = Pending | Confirmed | Processing | Shipped | Delivered | Cancelled | Returned

  /** The members in declaration order: a member's ordinal is its position here. */
  const OrderStatusMembers: seq<OrderStatus> :=
    [Pending, Confirmed, Processing, Shipped, Delivered, Cancelled, Returned]

  /** The numeric value the enum gives a member. */
  function OrderStatusOrdinal(s: OrderStatus): (n: nat)
    ensures n < |OrderStatusMembers| && OrderStatusMembers[n] == s
  {
    match s
    case Pending => 0
    case Confirmed => 1
    case Processing => 2
    case Shipped => 3
    case Delivered => 4
    case Cancelled => 5
    case Returned => 6
  }

  /** `OrderStatus[n]` read as a member: defined exactly on the seven ordinals. */
  function OrderStatusFromOrdinal(n: int): (r: Option<OrderStatus>)
    ensures r.Some? <==> 0 <= n < 7
    ensures r.Some? ==> OrderStatusOrdinal(r.value) == n
  {
    if 0 <= n < 7 then Some(OrderStatusMembers[n]) else None
  }

  /** The member's name, as the reverse mapping `OrderStatus[s]` returns it. */
  function OrderStatusName(s: OrderStatus): string
  {
    match s
    case Pending => "Pending"
    case Confirmed => "Confirmed"
    case Processing => "Processing"
    case Shipped => "Shipped"
    case Delivered => "Delivered"
    case Cancelled => "Cancelled"
    case Returned => "Returned"
  }

  /** `OrderStatus[name]`: the member with that name, if any. */
  function OrderStatusFromName(name: string): (r: Option<OrderStatus>)
    ensures r.Some? ==> OrderStatusName(r.value) == name
    ensures forall s :: OrderStatusName(s) == name ==> r == Some(s)
  {
    if name == "Pending" then Some(Pending)
    else if name == "Confirmed" then Some(Confirmed)
    else if name == "Processing" then Some(Processing)
    else if name == "Shipped" then Some(Shipped)
    else if name == "Delivered" then Some(Delivered)
    else if name == "Cancelled" then Some(Cancelled)
    else if name == "Returned" then Some(Returned)
    else None
  }

  /** Names and ordinals are in bijection with the members. */
  lemma OrderStatusBijection(s: OrderStatus, t: OrderStatus)
    ensures OrderStatusFromName(OrderStatusName(s)) == Some(s)
    ensures OrderStatusFromOrdinal(OrderStatusOrdinal(s)) == Some(s)
    ensures OrderStatusName(s) == OrderStatusName(t) ==> s == t
    ensures OrderStatusOrdinal(s) == OrderStatusOrdinal(t) ==> s == t
  {
  }

  datatype PaymentStatus = Unpaid | Paid | Failed | Refunded

  const PaymentStatusMembers: seq<PaymentStatus> := [Unpaid, Paid, Failed, Refunded]

  function PaymentStatusOrdinal(p: PaymentStatus): (n: nat)
    ensures n < |PaymentStatusMembers| && PaymentStatusMembers[n] == p
  {
    match p
    case Unpaid => 0
    case Paid => 1
    case Failed => 2
    case Refunded => 3
  }

  function PaymentStatusFromOrdinal(n: int): (r: Option<PaymentStatus>)
    ensures r.Some? <==> 0 <= n < 4
    ensures r.Some? ==> PaymentStatusOrdinal(r.value) == n
  {
    if 0 <= n < 4 then Some(PaymentStatusMembers[n]) else None
  }

  function PaymentStatusName(p: PaymentStatus): string
  {
    match p
    case Unpaid => "Unpaid"
    case Paid => "Paid"
    case Failed => "Failed"
    case Refunded => "Refunded"
  }

  function PaymentStatusFromName(name: string): (r: Option<PaymentStatus>)
    ensures r.Some? ==> PaymentStatusName(r.value) == name
    ensures forall p :: PaymentStatusName(p) == name ==> r == Some(p)
  {
    if name == "Unpaid" then Some(Unpaid)
    else if name == "Paid" then Some(Paid)
    else if name == "Failed" then Some(Failed)
    else if name == "Refunded" then Some(Refunded)
    else None
  }

  lemma PaymentStatusBijection(p: PaymentStatus, q: PaymentStatus)
    ensures PaymentStatusFromName(PaymentStatusName(p)) == Some(p)
    ensures PaymentStatusFromOrdinal(PaymentStatusOrdinal(p)) == Some(p)
    ensures PaymentStatusName(p) == PaymentStatusName(q) ==> p == q
    ensures PaymentStatusOrdinal(p) == PaymentStatusOrdinal(q) ==> p == q
  {
  }

  /** One order line, with the product data copied into it when the order was placed. */
  datatype OrderItem = OrderItem(
    id: string,
    orderId: string,
    productVariantId: string,
    quantity: int,
    unitPrice: int,
    productSnapshotName: string,
    productVariantSnapshotColor: string,
    productVariantSnapshotSize: string,
    productVariantSnapshotImageUrl: string)

  /** An order; its fulfilment status and its payment status are independent fields. */
  datatype Order = Order(
    id: string,
    userId: string,
    orderDate: string,
    totalPrice: int,
    shippingAddress: string,
    phoneNumber: string,
    fullName: string,
    status: OrderStatus,
    paymentStatus: PaymentStatus,
    items: seq<OrderItem>)

  /** The body of an order-creation request. */
  datatype CreateOrderRequest = CreateOrderRequest(
    shippingAddress: string,
    phoneNumber: string,
    customerNotes: string)
}
