/** The checkout page: it loads the cart once, sends the user back to the
    cart when there is nothing to buy, checks the two required shipping
    fields, and creates the order. */
module CheckoutPage {
  import opened Common
  import opened CartTypes
  import opened OrderTypes

  const CartLoadError: string := "Không thể tải thông tin giỏ hàng của bạn."
  const ValidationError: string := "Vui lòng điền đầy đủ số điện thoại và địa chỉ."
  const SubmitFallbackError: string := "Đã có lỗi xảy ra. Vui lòng thử lại."
  const CartPath: string := "/cart"
  const OrderSuccessPathPrefix: string := "/order-success/"

  datatype Field = PhoneNumber | ShippingAddress | CustomerNotes

  /** The validation of `handleSubmit`: phone number and address must not be
      blank after trimming; the notes are optional. */
  predicate ShippingIsValid(form: CreateOrderRequest)
    ensures ShippingIsValid(form) ==> form.phoneNumber != "" && form.shippingAddress != ""
  {
    Trim(form.phoneNumber) != "" && Trim(form.shippingAddress) != ""
  }

  /** A field passes exactly when it holds some character that is not whitespace. */
  lemma ShippingIsValidIffNotBlank(form: CreateOrderRequest)
    ensures ShippingIsValid(form) <==> !AllWhitespace(form.phoneNumber) && !AllWhitespace(form.shippingAddress)
  {
    TrimIsEmptyIffBlank(form.phoneNumber);
    TrimIsEmptyIffBlank(form.shippingAddress);
  }

  /** `err.response?.data?.message || fallback`. */
  function SubmitErrorText(message: Option<string>): (r: string)
    ensures r != ""
    ensures Truthy(message) ==> r == message.value
    ensures !Truthy(message) ==> r == SubmitFallbackError
  {
    if Truthy(message) then message.value else SubmitFallbackError
  }

  class CheckoutView {
    var formData: CreateOrderRequest
    var cart: Option<Cart>
    var isCartLoading: bool
    var isSubmitting: bool
    var error: Option<string>

    constructor ()
      ensures formData == CreateOrderRequest("", "", "")
      ensures cart.None? && isCartLoading && !isSubmitting && error.None?
    {
      formData := CreateOrderRequest("", "", "");
      cart := None;
      isCartLoading := true;
      isSubmitting := false;
      error := None;
    }

    /** Both submit buttons are disabled while an order is being created. */
    predicate SubmitButtonsDisabled()
      reads this
      ensures SubmitButtonsDisabled() <==> isSubmitting
    {
      isSubmitting
    }

    /** The cart-load effect after its await: an empty or missing cart
        redirects to the cart page; a failed load shows an error and stays. */
    method CompleteCartLoad(result: ApiResult<Option<Cart>>) returns (navigateTo: Option<string>)
      modifies this`cart, this`isCartLoading, this`error
      ensures !isCartLoading
      ensures result.Ok? ==> cart == result.value && error == old(error)
      ensures result.Ok? ==> (navigateTo == Some(CartPath) <==> CartIsEmpty(result.value))
      ensures result.Ok? && !CartIsEmpty(result.value) ==> navigateTo.None?
      ensures result.Err? ==> cart == old(cart) && error == Some(CartLoadError) && navigateTo.None?
    {
      navigateTo := None;
      match result {
        case Ok(data) =>
          cart := data;
          if CartIsEmpty(data) {
            navigateTo := Some(CartPath);
          }
        case Err(_) =>
          error := Some(CartLoadError);
      }
      isCartLoading := false;
    }

    /** `handleInputChange` for one field. */
    method InputChange(field: Field, value: string)
      modifies this`formData
      ensures formData == match field
        case PhoneNumber => old(formData).(phoneNumber := value)
        case ShippingAddress => old(formData).(shippingAddress := value)
        case CustomerNotes => old(formData).(customerNotes := value)
    {
      match field {
        case PhoneNumber => formData := formData.(phoneNumber := value);
        case ShippingAddress => formData := formData.(shippingAddress := value);
        case CustomerNotes => formData := formData.(customerNotes := value);
      }
    }

    /** What the browser demands before it fires the form's submit event:
        the phone and address inputs are `required`, so neither may be
        empty, and the submit buttons must be enabled. */
    predicate BrowserSubmits()
      reads this
      ensures BrowserSubmits() ==> !SubmitButtonsDisabled()
      ensures BrowserSubmits() ==> formData.phoneNumber != "" && formData.shippingAddress != ""
    {
      formData.phoneNumber != "" && formData.shippingAddress != "" && !isSubmitting
    }

    /** `handleSubmit` up to its await, as the browser calls it. It does not
        itself look at `isSubmitting`; only the disabled buttons keep a second
        submit out. A whitespace-only field passes the browser and is refused
        here. */
    method BeginSubmit() returns (request: Option<CreateOrderRequest>)
      requires BrowserSubmits()
      modifies this`isSubmitting, this`error
      ensures request.Some? <==> ShippingIsValid(formData)
      ensures request.Some? ==> request.value == formData && isSubmitting && error.None?
      ensures request.None? ==> error == Some(ValidationError) && isSubmitting == old(isSubmitting)
    {
      if Trim(formData.phoneNumber) == "" || Trim(formData.shippingAddress) == "" {
        error := Some(ValidationError);
        return None;
      }
      isSubmitting := true;
      error := None;
      request := Some(formData);
    }

    /** `handleSubmit` after its await: success navigates to the new order's
        page and leaves the buttons disabled; failure shows the reason and
        re-enables them. */
    method CompleteSubmit(result: ApiResult<string>) returns (navigateTo: Option<string>)
      modifies this`isSubmitting, this`error
      ensures result.Ok? ==> navigateTo == Some(OrderSuccessPathPrefix + result.value)
      ensures result.Ok? ==> isSubmitting == old(isSubmitting) && error == old(error)
      ensures result.Err? ==> navigateTo.None? && !isSubmitting && error == Some(SubmitErrorText(result.message))
    {
      match result {
        case Ok(orderId) =>
          navigateTo := Some(OrderSuccessPathPrefix + orderId);
        case Err(message) =>
          navigateTo := None;
          error := Some(SubmitErrorText(message));
          isSubmitting := false;
      }
    }
  }

  /** Scenario: an address of spaces only gets past the browser's `required`
      check and is refused by the handler before any request, whatever the
      other fields say. */
  method BlankAddressScenario(phone: string, address: string, notes: string) returns (sent: Option<CreateOrderRequest>, shown: Option<string>)
    requires phone != "" && address != "" && AllWhitespace(address)
    ensures sent.None? && shown == Some(ValidationError)
  {
    var page := new CheckoutView();
    page.InputChange(PhoneNumber, phone);
    page.InputChange(ShippingAddress, address);
    page.InputChange(CustomerNotes, notes);
    ShippingIsValidIffNotBlank(page.formData);
    sent := page.BeginSubmit();
    shown := page.error;
  }

  /** Scenario: once address and phone hold a visible character the order
      request is sent with the fields as typed, untrimmed, and the buttons
      are disabled. */
  method FilledFormScenario(phone: string, address: string, notes: string) returns (sent: Option<CreateOrderRequest>, disabled: bool)
    requires !AllWhitespace(phone) && !AllWhitespace(address)
    ensures sent == Some(CreateOrderRequest(address, phone, notes))
    ensures disabled
  {
    ShippingIsValidIffNotBlank(CreateOrderRequest(address, phone, notes));
    var page := new CheckoutView();
    page.InputChange(PhoneNumber, phone);
    page.InputChange(ShippingAddress, address);
    page.InputChange(CustomerNotes, notes);
    assert page.formData == CreateOrderRequest(address, phone, notes);
    assert page.BrowserSubmits();
    sent := page.BeginSubmit();
    disabled := page.SubmitButtonsDisabled();
  }
}
