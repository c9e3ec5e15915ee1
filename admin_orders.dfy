/** The operator's order list: two display tables keyed by enum member name,
    each with a neutral fallback for a name it does not know, the list of
    status names offered in the status picker, and the view-details /
    update-status / close flow of the detail dialog. */
module AdminOrders {
  import opened Common
  import opened OrderTypes

  const OrdersLoadError: string := "Không thể tải danh sách đơn hàng."
  const DetailsLoadError: string := "Không thể tải chi tiết đơn hàng."
  const UpdateStatusError: string := "Cập nhật trạng thái thất bại."

  /** The colour names a badge can take; `Stone` is the fallback. */
  datatype Color = Yellow | Blue | Indigo | Cyan | Green | Red | Gray | Stone

  /** A badge: its label and its colour. */
  datatype Style = Style(text: string, color: Color)

  const OrderStatusStyles: map<string, Style> := map[
    "Pending" := Style("Chờ xác nhận", Yellow),
    "Confirmed" := Style("Đã xác nhận", Blue),
    "Processing" := Style("Đang xử lý", Indigo),
    "Shipped" := Style("Đang giao", Cyan),
    "Delivered" := Style("Đã giao", Green),
    "Cancelled" := Style("Đã hủy", Red),
    "Returned" := Style("Đã hoàn", Gray)
  ]

  const PaymentStatusStyles: map<string, Style> := map[
    "Unpaid" := Style("Chưa thanh toán", Yellow),
    "Paid" := Style("Đã thanh toán", Green),
    "Failed" := Style("Thất bại", Red),
    "Refunded" := Style("Đã hoàn tiền", Blue)
  ]

  /** The names offered by the status picker. */
  const OrderStatusesList: seq<string> :=
    ["Pending", "Confirmed", "Processing", "Shipped", "Delivered", "Cancelled", "Returned"]

  /** `TABLE[name] || { text: name, color: "stone" }`: the table entry, or a
      stone badge labelled with the name itself. */
  function StyleFor(table: map<string, Style>, name: string): (r: Style)
    ensures name in table ==> r == table[name]
    ensures name !in table ==> r == Style(name, Stone)
  {
    if name in table then table[name] else Style(name, Stone)
  }

  /** `getOrderStatusStyle`. */
  function OrderStatusStyle(s: OrderStatus): (r: Style)
    ensures OrderStatusName(s) in OrderStatusStyles && r == OrderStatusStyles[OrderStatusName(s)]
  {
    StyleFor(OrderStatusStyles, OrderStatusName(s))
  }

  /** `getPaymentStatusStyle`. */
  function PaymentStatusStyle(p: PaymentStatus): (r: Style)
    ensures PaymentStatusName(p) in PaymentStatusStyles && r == PaymentStatusStyles[PaymentStatusName(p)]
  {
    StyleFor(PaymentStatusStyles, PaymentStatusName(p))
  }

  /** The order table covers every member: no member ever gets the fallback. */
  lemma OrderStatusStylesAreTotal(s: OrderStatus)
    ensures OrderStatusName(s) in OrderStatusStyles
    ensures OrderStatusStyle(s).color != Stone
  {
  }

  /** No two statuses share a label. */
  lemma OrderStatusTextsAreDistinct(s: OrderStatus, t: OrderStatus)
    ensures s != t ==> OrderStatusStyle(s).text != OrderStatusStyle(t).text
  {
  }

  /** The table has an entry for the members' names and nothing else. */
  lemma OrderStatusStylesKeys()
    ensures OrderStatusStyles.Keys == set m | m in OrderStatusMembers :: OrderStatusName(m)
  {
    var names := set m | m in OrderStatusMembers :: OrderStatusName(m);
    assert OrderStatusStyles.Keys == {"Pending", "Confirmed", "Processing", "Shipped", "Delivered", "Cancelled", "Returned"};
    assert OrderStatusName(Pending) in names && OrderStatusName(Confirmed) in names;
    assert OrderStatusName(Processing) in names && OrderStatusName(Shipped) in names;
    assert OrderStatusName(Delivered) in names && OrderStatusName(Cancelled) in names;
    assert OrderStatusName(Returned) in names;
  }

  /** The payment table covers every member in the same way. */
  lemma PaymentStatusStylesAreTotal(p: PaymentStatus, q: PaymentStatus)
    ensures PaymentStatusName(p) in PaymentStatusStyles
    ensures PaymentStatusStyle(p).color != Stone
    ensures p != q ==> PaymentStatusStyle(p).text != PaymentStatusStyle(q).text
  {
  }

  /** The picker lists every member's name exactly once, in ordinal order. */
  lemma OrderStatusesListIsEnumOrder()
    ensures |OrderStatusesList| == |OrderStatusMembers|
    ensures forall i :: 0 <= i < |OrderStatusesList| ==> OrderStatusesList[i] == OrderStatusName(OrderStatusMembers[i])
    ensures NoDuplicates(OrderStatusesList)
  {
  }

  /** A name is in the picker exactly when it names a member, and then its
      position in the picker is that member's ordinal. */
  lemma OrderStatusesListIndexIsOrdinal(name: string)
    ensures name in OrderStatusesList <==> OrderStatusFromName(name).Some?
    ensures name in OrderStatusesList ==> FirstIndex(OrderStatusesList, name) == OrderStatusOrdinal(OrderStatusFromName(name).value)
  {
    OrderStatusesListIsEnumOrder();
    if name in OrderStatusesList {
      var i := FirstIndex(OrderStatusesList, name);
      assert OrderStatusFromName(name) == Some(OrderStatusMembers[i]);
    }
  }

  /** `truncate(str, max)`: unchanged when it fits, otherwise the first `max`
      characters followed by "...". */
  function Truncate(s: string, max: nat): (r: string)
    ensures |s| <= max ==> r == s
    ensures |s| > max ==> |r| == max + 3 && r[..max] == s[..max] && r[max..] == "..."
    ensures s[..if |s| <= max then |s| else max] <= r
  {
    if |s| > max then s[..max] + "..." else s
  }

  const DefaultTruncateLength: nat := 20

  /** The update button: disabled while loading, or when the picked name is
      the order's current status. */
  predicate UpdateButtonDisabled(isLoading: bool, newStatus: string, current: OrderStatus)
    ensures UpdateButtonDisabled(isLoading, newStatus, current) <==> isLoading || OrderStatusFromName(newStatus) == Some(current)
  {
    isLoading || newStatus == OrderStatusName(current)
  }

  /** An enabled button never submits the status the order already has. */
  lemma EnabledUpdateChangesStatus(isLoading: bool, newStatus: string, current: OrderStatus)
    requires !UpdateButtonDisabled(isLoading, newStatus, current)
    requires OrderStatusFromName(newStatus).Some?
    ensures OrderStatusFromName(newStatus).value != current
  {
  }

  /** The body of the status update request: the order id and the ordinal of
      the picked name. */
  datatype UpdateOrderStatusRequest = UpdateOrderStatusRequest(orderId: string, newStatus: OrderStatus)

  class AdminOrdersView {
    var orders: seq<Order>
    var selectedOrder: Option<Order>
    var isLoading: bool
    var error: Option<string>
    var newStatus: string

    /** The picked status is empty (dialog closed) or one of the picker's names. */
    predicate Valid()
      reads this
    {
      newStatus == "" || newStatus in OrderStatusesList
    }

    constructor ()
      ensures Valid()
      ensures orders == [] && selectedOrder.None? && !isLoading && error.None? && newStatus == ""
    {
      orders := [];
      selectedOrder := None;
      isLoading := false;
      error := None;
      newStatus := "";
    }

    /** `fetchOrders` up to its await. */
    method BeginFetchOrders()
      modifies this`isLoading, this`error
      ensures isLoading && error.None?
    {
      isLoading := true;
      error := None;
    }

    /** `fetchOrders` after its await: a failure keeps the old list. */
    method CompleteFetchOrders(result: ApiResult<seq<Order>>)
      modifies this`orders, this`isLoading, this`error
      ensures !isLoading
      ensures result.Ok? ==> orders == result.value && error == old(error)
      ensures result.Err? ==> orders == old(orders) && error == Some(OrdersLoadError)
    {
      match result {
        case Ok(data) => orders := data;
        case Err(_) => error := Some(OrdersLoadError);
      }
      isLoading := false;
    }

    /** `handleViewDetails(orderId)` up to its await: the id is requested as given. */
    method BeginViewDetails(orderId: string) returns (request: string)
      modifies this`isLoading
      ensures isLoading && request == orderId
    {
      isLoading := true;
      request := orderId;
    }

    /** `handleViewDetails` after its await: the dialog opens on the fetched
        order with the picker on its current status. */
    method CompleteViewDetails(result: ApiResult<Order>)
      requires Valid()
      modifies this`selectedOrder, this`newStatus, this`isLoading, this`error
      ensures Valid() && !isLoading
      ensures result.Ok? ==> selectedOrder == Some(result.value) && newStatus == OrderStatusName(result.value.status) && error == old(error)
      ensures result.Err? ==> selectedOrder == old(selectedOrder) && newStatus == old(newStatus) && error == Some(DetailsLoadError)
    {
      match result {
        case Ok(o) =>
          OrderStatusesListIsEnumOrder();
          assert OrderStatusName(o.status) == OrderStatusesList[OrderStatusOrdinal(o.status)];
          selectedOrder := Some(o);
          newStatus := OrderStatusName(o.status);
        case Err(_) =>
          error := Some(DetailsLoadError);
      }
      isLoading := false;
    }

    /** The picker's `onChange`: the value is one of its options. */
    method SelectNewStatus(value: string)
      requires value in OrderStatusesList
      modifies this`newStatus
      ensures Valid() && newStatus == value
    {
      newStatus := value;
    }

    /** `handleCloseModal`. */
    method CloseModal()
      modifies this`selectedOrder, this`newStatus
      ensures Valid() && selectedOrder.None? && newStatus == ""
    {
      selectedOrder := None;
      newStatus := "";
    }

    /** `handleUpdateStatus` up to its first await: nothing without an open
        order or a picked name; otherwise the payload carries the member the
        picked name denotes. */
    method BeginUpdateStatus() returns (payload: Option<UpdateOrderStatusRequest>)
      requires Valid()
      modifies this`isLoading
      ensures payload.Some? <==> old(selectedOrder).Some? && old(newStatus) != ""
      ensures payload.Some? ==> isLoading && payload.value.orderId == selectedOrder.value.id
      ensures payload.Some? ==> OrderStatusName(payload.value.newStatus) == newStatus
      ensures payload.Some? ==> OrderStatusOrdinal(payload.value.newStatus) == FirstIndex(OrderStatusesList, newStatus)
      ensures payload.None? ==> isLoading == old(isLoading)
    {
      if selectedOrder.None? || newStatus == "" {
        return None;
      }
      isLoading := true;
      OrderStatusesListIndexIsOrdinal(newStatus);
      var status := OrderStatusFromName(newStatus).value;
      payload := Some(UpdateOrderStatusRequest(selectedOrder.value.id, status));
    }

    /** `handleUpdateStatus` after its awaits. When the update succeeds the
        list is fetched again (whose own failure is caught inside
        `fetchOrders`) and the dialog closes; when it fails the dialog stays
        open with an error and `reload` is not used. */
    method CompleteUpdateStatus(update: ApiResult<()>, reload: ApiResult<seq<Order>>)
      requires Valid()
      modifies this
      ensures Valid() && !isLoading
      ensures update.Ok? ==> selectedOrder.None? && newStatus == ""
      ensures update.Ok? && reload.Ok? ==> orders == reload.value && error.None?
      ensures update.Ok? && reload.Err? ==> orders == old(orders) && error == Some(OrdersLoadError)
      ensures update.Err? ==> orders == old(orders) && selectedOrder == old(selectedOrder) && newStatus == old(newStatus)
      ensures update.Err? ==> error == Some(UpdateStatusError)
    {
      if update.Ok? {
        BeginFetchOrders();
        CompleteFetchOrders(reload);
        CloseModal();
      } else {
        error := Some(UpdateStatusError);
      }
      isLoading := false;
    }
  }

  /** Scenario: opening a pending order puts the picker on "Pending", where
      the button is disabled; picking "Shipped" enables it and sends ordinal
      3; a successful update closes the dialog and shows the new list. */
  method UpdateStatusScenario(o: Order, reloaded: seq<Order>)
    returns (disabledAtFirst: bool, payload: Option<UpdateOrderStatusRequest>, closed: bool, shown: seq<Order>)
    requires o.status == Pending
    ensures disabledAtFirst
    ensures payload == Some(UpdateOrderStatusRequest(o.id, Shipped))
    ensures payload.Some? ==> OrderStatusOrdinal(payload.value.newStatus) == 3
    ensures closed && shown == reloaded
  {
    var page := new AdminOrdersView();
    var id := page.BeginViewDetails(o.id);
    page.CompleteViewDetails(Ok(o));
    disabledAtFirst := UpdateButtonDisabled(page.isLoading, page.newStatus, o.status);
    page.SelectNewStatus("Shipped");
    payload := page.BeginUpdateStatus();
    page.CompleteUpdateStatus(Ok(()), Ok(reloaded));
    closed := page.selectedOrder.None?;
    shown := page.orders;
  }
}
