/** The customer's order detail page: it loads one order, shows its lines and
    statuses, and for an unpaid order offers a pay-now button that asks the
    server for a payment-gateway URL and redirects there. */
module OrderDetailPage {
  import opened Common
  import opened OrderTypes

  const PaymentRequestFailedAlert: string := "Không thể tạo yêu cầu thanh toán. Vui lòng thử lại."

  datatype BadgeColor = GreenBadge | YellowBadge

  /** The fetch effect runs only when the route carries an order id. */
  predicate FetchIsIssued(orderId: Option<string>)
    ensures FetchIsIssued(orderId) <==> orderId.Some? && |orderId.value| > 0
  {
    Truthy(orderId)
  }

  /** The pay section is rendered only for an unpaid order. */
  predicate ShowsPaySection(order: Order)
    ensures ShowsPaySection(order) ==> PaymentBadge(order.paymentStatus) == YellowBadge
    ensures order.paymentStatus != Unpaid ==> !ShowsPaySection(order)
  {
    order.paymentStatus == Unpaid
  }

  /** The payment badge. */
  function PaymentBadge(p: PaymentStatus): (r: BadgeColor)
    ensures r == GreenBadge <==> p == Paid
    ensures r == YellowBadge <==> p.Unpaid? || p.Failed? || p.Refunded?
  {
    if p == Paid then GreenBadge else YellowBadge
  }

  /** The amount shown on each line: unit price times quantity. */
  function LineTotals(order: Order): (r: seq<int>)
    ensures |r| == |order.items|
    ensures forall i :: 0 <= i < |r| ==> r[i] == order.items[i].unitPrice * order.items[i].quantity
  {
    seq(|order.items|, i requires 0 <= i < |order.items| => order.items[i].unitPrice * order.items[i].quantity)
  }

  class OrderDetailView {
    var order: Option<Order>
    var isLoading: bool
    var isPaying: bool

    constructor ()
      ensures order.None? && isLoading && !isPaying
    {
      order := None;
      isLoading := true;
      isPaying := false;
    }

    /** The fetch effect after its await: loading ends whatever the outcome. */
    method CompleteFetch(result: ApiResult<Order>)
      modifies this`order, this`isLoading
      ensures !isLoading
      ensures order == if result.Ok? then Some(result.value) else old(order)
    {
      if result.Ok? {
        order := Some(result.value);
      }
      isLoading := false;
    }

    /** `handlePayNow` up to its await. Only a missing order or a payment
        already in progress stops it; the payment status is not looked at. */
    method BeginPayNow() returns (request: Option<Order>)
      modifies this`isPaying
      ensures request.Some? <==> old(order).Some? && !old(isPaying)
      ensures request.Some? ==> request.value == order.value && isPaying
      ensures request.None? ==> isPaying == old(isPaying)
    {
      if order.None? || isPaying {
        return None;
      }
      isPaying := true;
      request := Some(order.value);
    }

    /** `handlePayNow` after its await: a non-empty URL is followed and the
        button stays disabled; a failure raises an alert and re-enables it. */
    method CompletePayNow(result: ApiResult<Option<string>>) returns (redirectTo: Option<string>, alert: Option<string>)
      modifies this`isPaying
      ensures result.Ok? ==> isPaying == old(isPaying) && alert.None?
      ensures result.Ok? ==> (redirectTo.Some? <==> Truthy(result.value))
      ensures result.Ok? && Truthy(result.value) ==> redirectTo == result.value
      ensures result.Err? ==> !isPaying && redirectTo.None? && alert == Some(PaymentRequestFailedAlert)
    {
      redirectTo := None;
      alert := None;
      match result {
        case Ok(url) =>
          if Truthy(url) {
            redirectTo := url;
          }
        case Err(_) =>
          alert := Some(PaymentRequestFailedAlert);
          isPaying := false;
      }
    }
  }

  /** Scenario: for a paid order the pay section is not shown, but the
      handler itself would still ask for a payment URL: the guard lives in
      the rendering, not in `handlePayNow`. A second click while the first is
      pending is dropped. */
  method PaidOrderScenario(o: Order) returns (shown: bool, first: Option<Order>, second: Option<Order>)
    requires o.paymentStatus == Paid
    ensures !shown
    ensures first == Some(o)
    ensures second.None?
  {
    var page := new OrderDetailView();
    page.CompleteFetch(Ok(o));
    shown := ShowsPaySection(page.order.value);
    first := page.BeginPayNow();
    second := page.BeginPayNow();
  }
}
