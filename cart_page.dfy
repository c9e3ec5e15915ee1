/** The cart page. Every quantity update and every removal is sent to the
    server, and the cart the server returns replaces the local one; nothing is
    changed locally before the response. A single busy slot, `updatingItemId`,
    marks the item whose mutation is in flight: it holds one id or none, a new
    mutation overwrites it, and every completion clears it. */
module CartPage {
  import opened Common
  import opened CartTypes

  const UpdateFailedAlert: string := "Không thể cập nhật số lượng, vui lòng thử lại."
  const RemoveFailedAlert: string := "Không thể xóa sản phẩm, vui lòng thử lại."

  /** The guard of `handleUpdateQuantity`: a request is sent unless the new
      quantity is below 1 or this very item is the busy one. */
  predicate UpdateIsSent(busy: Option<string>, itemId: string, newQuantity: int)
    // no quantity below 1 is ever sent
    ensures UpdateIsSent(busy, itemId, newQuantity) ==> newQuantity >= 1
    // the busy item is never sent, any other item is
    ensures busy == Some(itemId) ==> !UpdateIsSent(busy, itemId, newQuantity)
    ensures newQuantity >= 1 && (busy.None? || busy.value != itemId) ==> UpdateIsSent(busy, itemId, newQuantity)
  {
    newQuantity >= 1 && busy != Some(itemId)
  }

  /** The minus button is off at quantity 1 and on the busy item; on any
      other item above 1 it is on. */
  predicate MinusDisabled(busy: Option<string>, item: CartItem)
    ensures item.quantity <= 1 ==> MinusDisabled(busy, item)
    ensures busy == Some(item.id) ==> MinusDisabled(busy, item)
    ensures item.quantity >= 2 && (busy.None? || busy.value != item.id) ==> !MinusDisabled(busy, item)
  {
    busy == Some(item.id) || item.quantity <= 1
  }

  /** The plus button is off exactly on the busy item, whatever the quantity. */
  predicate PlusDisabled(busy: Option<string>, item: CartItem)
    ensures PlusDisabled(busy, item) <==> busy.Some? && busy.value == item.id
  {
    busy == Some(item.id)
  }

  /** The remove button is off exactly when the plus button is. */
  predicate RemoveDisabled(busy: Option<string>, item: CartItem)
    ensures RemoveDisabled(busy, item) <==> PlusDisabled(busy, item)
  {
    busy == Some(item.id)
  }

  /** The page shows the empty view instead of the items, and the checkout link only outside it. */
  predicate ShowsEmptyView(cart: Option<Cart>)
    ensures ShowsEmptyView(cart) <==> cart.None? || cart.value.items == []
  {
    CartIsEmpty(cart)
  }

  predicate ShowsCheckoutLink(cart: Option<Cart>)
    ensures ShowsCheckoutLink(cart) <==> !ShowsEmptyView(cart)
    ensures ShowsCheckoutLink(cart) ==> cart.Some? && |cart.value.items| > 0
  {
    !CartIsEmpty(cart)
  }

  /** The buttons agree with the handler: an enabled minus or plus button
      always leads to a request, and a disabled one marks a click the
      handler would drop or one that would go below 1. */
  lemma ButtonsAgreeWithGuard(busy: Option<string>, item: CartItem)
    requires item.quantity >= 1
    ensures !MinusDisabled(busy, item) <==> UpdateIsSent(busy, item.id, item.quantity - 1)
    ensures !PlusDisabled(busy, item) <==> UpdateIsSent(busy, item.id, item.quantity + 1)
  {
  }

  class CartView {
    var cart: Option<Cart>
    var isLoading: bool
    var updatingItemId: Option<string>

    constructor ()
      ensures cart.None? && isLoading && updatingItemId.None?
    {
      cart := None;
      isLoading := true;
      updatingItemId := None;
    }

    /** `fetchCart` after its await. A failed load keeps the cart as it was. */
    method CompleteFetchCart(result: ApiResult<Option<Cart>>)
      modifies this
      ensures !isLoading && updatingItemId == old(updatingItemId)
      ensures cart == if result.Ok? then result.value else old(cart)
    {
      if result.Ok? {
        cart := result.value;
      }
      isLoading := false;
    }

    /** `handleUpdateQuantity(item, newQuantity)` up to its await. */
    method BeginUpdateQuantity(item: CartItem, newQuantity: int) returns (request: Option<UpdateCartItemRequest>)
      modifies this`updatingItemId
      ensures request.Some? <==> UpdateIsSent(old(updatingItemId), item.id, newQuantity)
      ensures request.Some? ==> request.value == UpdateCartItemRequest(item.id, newQuantity)
      ensures updatingItemId == if request.Some? then Some(item.id) else old(updatingItemId)
    {
      if newQuantity < 1 || updatingItemId == Some(item.id) {
        return None;
      }
      updatingItemId := Some(item.id);
      request := Some(UpdateCartItemRequest(item.id, newQuantity));
    }

    /** `handleUpdateQuantity` after its await: the server's cart replaces the
        local one, a failure leaves it untouched and raises an alert, and the
        busy slot is cleared either way. */
    method CompleteUpdateQuantity(result: ApiResult<Cart>) returns (alert: Option<string>)
      modifies this`cart, this`updatingItemId
      ensures updatingItemId.None?
      ensures result.Ok? ==> cart == Some(result.value) && alert.None?
      ensures result.Err? ==> cart == old(cart) && alert == Some(UpdateFailedAlert)
    {
      alert := None;
      match result {
        case Ok(updated) => cart := Some(updated);
        case Err(_) => alert := Some(UpdateFailedAlert);
      }
      updatingItemId := None;
    }

    /** `handleRemoveItem(cartItemId)` up to its await. It asks for
        confirmation, and it does not look at the busy slot before taking it. */
    method BeginRemoveItem(cartItemId: string, confirmed: bool) returns (request: Option<string>)
      modifies this`updatingItemId
      ensures request.Some? <==> confirmed
      ensures request.Some? ==> request.value == cartItemId
      ensures updatingItemId == if confirmed then Some(cartItemId) else old(updatingItemId)
    {
      if !confirmed {
        return None;
      }
      updatingItemId := Some(cartItemId);
      request := Some(cartItemId);
    }

    /** `handleRemoveItem` after its await. */
    method CompleteRemoveItem(result: ApiResult<Cart>) returns (alert: Option<string>)
      modifies this`cart, this`updatingItemId
      ensures updatingItemId.None?
      ensures result.Ok? ==> cart == Some(result.value) && alert.None?
      ensures result.Err? ==> cart == old(cart) && alert == Some(RemoveFailedAlert)
    {
      alert := None;
      match result {
        case Ok(updated) => cart := Some(updated);
        case Err(_) => alert := Some(RemoveFailedAlert);
      }
      updatingItemId := None;
    }
  }

  /** Scenario showing that the busy marker is one slot, not a set of ids:
      a second update of A while A is busy is dropped; removing B takes the
      slot from A; A can then be updated again although its first request is
      still unanswered; and one completion frees the slot for everybody. */
  method SingleSlotScenario(a: CartItem, b: CartItem)
    returns (afterA: Option<string>, repeatSent: bool, afterB: Option<string>, againSent: bool, afterDone: Option<string>)
    requires a.id != b.id && a.quantity >= 1
    ensures afterA == Some(a.id)
    ensures !repeatSent
    ensures afterB == Some(b.id)
    ensures againSent
    ensures afterDone.None?
  {
    var page := new CartView();
    var r1 := page.BeginUpdateQuantity(a, a.quantity + 1);
    afterA := page.updatingItemId;
    var r2 := page.BeginUpdateQuantity(a, a.quantity + 1);
    repeatSent := r2.Some?;
    var r3 := page.BeginRemoveItem(b.id, true);
    afterB := page.updatingItemId;
    var r4 := page.BeginUpdateQuantity(a, a.quantity + 1);
    againSent := r4.Some?;
    var alert := page.CompleteRemoveItem(Err(None));
    afterDone := page.updatingItemId;
  }

  /** Scenario: removing the only item of a cart whose server total was
      200000 yields the server's empty cart, total 0, and the empty view. */
  method RemoveLastItemScenario() returns (total: int, empty: bool)
    ensures total == 0 && empty
  {
    var page := new CartView();
    var item := CartItem("i1", "c1", "v1", 2, "Shirt", "Black", "M", 100000, "");
    page.CompleteFetchCart(Ok(Some(Cart("c1", "u1", [item], 200000))));
    var request := page.BeginRemoveItem("i1", true);
    var alert := page.CompleteRemoveItem(Ok(Cart("c1", "u1", [], 0)));
    total := page.cart.value.totalCartPrice;
    empty := ShowsEmptyView(page.cart);
  }
}
