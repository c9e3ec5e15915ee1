/** The customer's order history: one status badge per order, and an empty
    state instead of the list when there are no orders. */
module OrderHistoryPage {
  import opened Common
  import opened OrderTypes

  /** The badge colour `getStatusBadge` picks. */
  datatype HistoryBadge = YellowBadge | GreenBadge | RedBadge | BlueBadge

  /** `getStatusBadge`: three statuses have their own colour, every other
      status falls to the blue default. */
  function StatusBadge(s: OrderStatus): (r: HistoryBadge)
    ensures r == YellowBadge <==> s == Pending
    ensures r == GreenBadge <==> s == Delivered
    ensures r == RedBadge <==> s == Cancelled
    ensures r == BlueBadge <==> s.Confirmed? || s.Processing? || s.Shipped? || s.Returned?
  {
    match s
    case Pending => YellowBadge
    case Delivered => GreenBadge
    case Cancelled => RedBadge
    case _ => BlueBadge
  }

  /** What the page renders. */
  datatype HistoryView = Spinner | OrderList(orders: seq<Order>) | EmptyState

  /** The spinner while loading; then the list when it has an order, and the
      empty state otherwise. */
  function Render(isLoading: bool, orders: seq<Order>): (v: HistoryView)
    ensures v.Spinner? <==> isLoading
    ensures v.EmptyState? <==> !isLoading && |orders| == 0
    ensures v.OrderList? ==> v.orders == orders && |orders| > 0
  {
    if isLoading then Spinner
    else if |orders| > 0 then OrderList(orders)
    else EmptyState
  }

  /** The fetch effect: the server's list replaces the initial empty one; a
      failure is only logged, so the page then shows the empty state. */
  function OrdersAfterFetch(result: ApiResult<seq<Order>>): (orders: seq<Order>)
    ensures result.Ok? ==> orders == result.value
    ensures result.Err? ==> orders == []
  {
    if result.Ok? then result.value else []
  }

  lemma FailedFetchShowsEmptyState(message: Option<string>)
    ensures Render(false, OrdersAfterFetch(Err(message))) == EmptyState
  {
  }

  const OrderLinkPrefix: string := "/profile/orders/"

  /** Each entry links to the order's own detail page. */
  function OrderLink(o: Order): (path: string)
    ensures |path| == |OrderLinkPrefix| + |o.id|
    ensures path[..|OrderLinkPrefix|] == OrderLinkPrefix && path[|OrderLinkPrefix|..] == o.id
  {
    OrderLinkPrefix + o.id
  }
}
