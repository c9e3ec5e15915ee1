# FYP2025 storefront: a verified model of its client-side decisions

This project models the decision logic of the FYP2025 storefront's React
front end in Dafny. That logic covers:

- what the customer pages do with their state and with the answers of the
  server: product detail, cart, checkout, order detail, payment return,
  order history and the product listing;
- what the operator pages compute: order status styles and updates, and the
  product and category forms;
- the sign-up form's password rules;
- the navigation bar's category menu;
- the shared HTTP client's token and 401 handling.

Every page's handlers are split at their `await`. A `Begin…` method does the
work before the request and returns the request it would send, if any. A
`Complete…` method takes the outcome as an `ApiResult` (a value, or a
failure with an optional server message) and updates the state. Navigation
targets, alerts and toasts are returned values. A `confirm` dialog is a
boolean input.

Components that keep state are classes, with their `useState` values as
fields. Pure expressions are functions. Loops are methods with invariants,
proved against a specification function. Each of these is covered:

- the `forEach` grouping of products and of categories;
- the multipart encoder of the product form.

The properties the pages rely on are lemmas. Among them:

- the decimal index round trip inside form keys;
- no key sent twice;
- the groups partitioning the product list;
- the bijection between enum names and ordinals;
- the option list holding exactly the named enum members.

Behaviour of the code a reader might not expect, which the model keeps as
written:

- **Cart busy marker.** The cart keeps a single busy slot (`updatingItemId`),
  not a set of busy items. Removing an item does not check it.
- **Colour change.** It falls back to the first variant of the new colour,
  whatever that variant's stock. It does not look for an in-stock size.
- **Payment return.** The reconciliation effect re-runs whenever the response
  code or the order id changes. It has no once-per-load guard.
- **Pay button.** The handler checks only that an order is loaded and no
  payment request is pending. The payment status is only checked when the
  page decides whether to render the pay section.
- **Checkout submit.** The handler does not check `isSubmitting`. Only the
  disabled buttons keep a second submit out.
- **Missing response code.** A return without `vnp_ResponseCode` shows the
  failure banner.

## Model

| member | source | states |
|---|---|---|
| Common.Dedupe | src/pages/customer/CustomerDetailProduct.tsx:42-43 | `[...new Set(xs)]` holds exactly the values of `xs`, each once |
| Common.DedupeKeepsFirstOccurrenceOrder | src/pages/customer/CustomerDetailProduct.tsx:42-43 | the deduplicated values keep the order of their first occurrence |
| Common.TrimIsEmptyIffBlank | src/pages/customer/CheckoutPage.tsx:45 | `s.trim()` is empty exactly when every character of `s` is whitespace |
| Common.Includes | src/lib/axios.ts:27 | `s.includes(sub)` holds exactly when `sub` occurs at some position of `s` |
| Common.NatToStringRoundTrip | src/components/shared/CategoryForm.tsx:55-56 | `Number(String(n)) == n` for every non-negative integer |
| Common.NatToStringInjective | src/components/shared/ProductForm.tsx:134-142 | distinct indices are written as distinct numerals |
| OrderTypes.OrderStatusFromOrdinal | src/types/order.ts:3-11 | exactly the numbers 0 to 6 name an order status, each the member at that position |
| OrderTypes.OrderStatusFromName | src/types/order.ts:3-11 | a name maps to the unique member with that name |
| OrderTypes.OrderStatusBijection | src/types/order.ts:3-11 | names and ordinals are each in bijection with the seven members |
| OrderTypes.PaymentStatusFromOrdinal | src/types/order.ts:13-18 | exactly the numbers 0 to 3 name a payment status |
| OrderTypes.PaymentStatusFromName | src/types/order.ts:13-18 | a name maps to the unique payment status with that name |
| OrderTypes.PaymentStatusBijection | src/types/order.ts:13-18 | names and ordinals are each in bijection with the four payment statuses |
| CategoryTypes.MainCategoryValue | src/types/categories.ts:1-10 | each main category's number is its position in the declaration, 0 to 7 |
| CustomerDetailProduct.FirstWithColorAndSize | src/pages/customer/CustomerDetailProduct.tsx:48 | the first variant with the colour and the current size, or none when no variant has both |
| CustomerDetailProduct.FirstWithColor | src/pages/customer/CustomerDetailProduct.tsx:51 | the first variant with the colour, or none when the colour is absent |
| CustomerDetailProduct.ColorChoice | src/pages/customer/CustomerDetailProduct.tsx:45-57 | a colour change keeps the current size when some variant offers it in the new colour, taking the first such variant; otherwise it takes the first variant of that colour; nothing when the colour is absent |
| CustomerDetailProduct.SizeIsAvailable | src/pages/customer/CustomerDetailProduct.tsx:156 | a size button is available exactly when the `find` over the selected colour and that size succeeds |
| CustomerDetailProduct.SizeChoice | src/pages/customer/CustomerDetailProduct.tsx:59-66 | a size change moves only within the selected colour, to the first variant of that colour and size, and succeeds exactly when the size button is available |
| CustomerDetailProduct.QuantityAfterStep | src/pages/customer/CustomerDetailProduct.tsx:68-74 | a step is taken only when the result stays within 1 and the stock; a quantity in range stays in range |
| CustomerDetailProduct.StepsStopAtBounds | src/pages/customer/CustomerDetailProduct.tsx:71 | plus at the stock and minus at 1 do nothing |
| CustomerDetailProduct.UniqueColors | src/pages/customer/CustomerDetailProduct.tsx:42 | each colour of the product once; none without a product |
| CustomerDetailProduct.UniqueSizes | src/pages/customer/CustomerDetailProduct.tsx:43 | each size of the product once; none without a product |
| CustomerDetailProduct.UniqueColorsOrder | src/pages/customer/CustomerDetailProduct.tsx:42 | the colours are listed in the order of their first variant |
| CustomerDetailProduct.UniqueSizesOrder | src/pages/customer/CustomerDetailProduct.tsx:43 | the sizes are listed in the order of their first variant |
| CustomerDetailProduct.CanAddToCart | src/pages/customer/CustomerDetailProduct.tsx:191 | the add-to-cart button is enabled only for a selected variant with stock |
| CustomerDetailProduct.DetailPage.constructor | src/pages/customer/CustomerDetailProduct.tsx:10-14 | no product, no selection, quantity 1, loading |
| CustomerDetailProduct.DetailPage.BeginLoad | src/pages/customer/CustomerDetailProduct.tsx:17-22 | a fetch starts exactly when the route id is non-empty, clearing the error |
| CustomerDetailProduct.DetailPage.CompleteLoad | src/pages/customer/CustomerDetailProduct.tsx:23-35 | the product is stored and its first variant selected; a failure keeps the product and shows the error; loading ends |
| CustomerDetailProduct.DetailPage.ColorChange | src/pages/customer/CustomerDetailProduct.tsx:45-57 | the selection becomes the colour choice and the quantity resets to 1; nothing changes when there is no choice |
| CustomerDetailProduct.DetailPage.SizeChange | src/pages/customer/CustomerDetailProduct.tsx:59-66 | the selection becomes the size choice and keeps its colour; the quantity resets to 1 |
| CustomerDetailProduct.DetailPage.SelectThumbnail | src/pages/customer/CustomerDetailProduct.tsx:119 | clicking a thumbnail selects that variant |
| CustomerDetailProduct.DetailPage.QuantityChange | src/pages/customer/CustomerDetailProduct.tsx:68-74 | without a selection nothing changes; otherwise the quantity follows the bounded step |
| CustomerDetailProduct.ColorFallbackScenario | src/pages/customer/CustomerDetailProduct.tsx:45-57 | a colour without the current size falls back to its first variant |
| CartPage.UpdateIsSent | src/pages/customer/CartPage.tsx:29-31 | no quantity below 1 is sent; the busy item is never sent, any other item is |
| CartPage.MinusDisabled | src/pages/customer/CartPage.tsx:96 | the minus button is off at quantity 1 and on the busy item, and on for any other item above 1 |
| CartPage.PlusDisabled | src/pages/customer/CartPage.tsx:100 | the plus button is off exactly on the busy item |
| CartPage.RemoveDisabled | src/pages/customer/CartPage.tsx:104 | the remove button is off exactly when the plus button is |
| CartPage.ShowsEmptyView | src/pages/customer/CartPage.tsx:67 | the empty view exactly for a missing cart or one without items |
| CartPage.ShowsCheckoutLink | src/pages/customer/CartPage.tsx:128-133 | the checkout link exactly outside the empty view, so only with items in the cart |
| CartPage.ButtonsAgreeWithGuard | src/pages/customer/CartPage.tsx:96-104 | an enabled minus or plus button is exactly a click the update handler acts on |
| CartPage.CartView.constructor | src/pages/customer/CartPage.tsx:7-9 | no cart, loading, no busy item |
| CartPage.CartView.CompleteFetchCart | src/pages/customer/CartPage.tsx:12-23 | the fetched cart replaces the old one; a failure keeps it; loading ends |
| CartPage.CartView.BeginUpdateQuantity | src/pages/customer/CartPage.tsx:29-33 | a request is sent unless the quantity is below 1 or the same item is busy, and it marks that item busy |
| CartPage.CartView.CompleteUpdateQuantity | src/pages/customer/CartPage.tsx:34-46 | the server's cart replaces the old one, or an alert is shown; the busy slot is cleared |
| CartPage.CartView.BeginRemoveItem | src/pages/customer/CartPage.tsx:48-51 | a removal is sent exactly when confirmed, and marks the item busy |
| CartPage.CartView.CompleteRemoveItem | src/pages/customer/CartPage.tsx:52-61 | the server's cart replaces the old one, or an alert is shown; the busy slot is cleared |
| CartPage.SingleSlotScenario | src/pages/customer/CartPage.tsx:10 | a second item's update takes over the one busy slot, so the first item can be updated again |
| CartPage.RemoveLastItemScenario | src/pages/customer/CartPage.tsx:67 | removing the last item shows the empty view with a zero total |
| CheckoutPage.ShippingIsValid | src/pages/customer/CheckoutPage.tsx:45 | a form passes only with a non-empty phone number and address |
| CheckoutPage.ShippingIsValidIffNotBlank | src/pages/customer/CheckoutPage.tsx:45 | phone and address pass exactly when each has a non-whitespace character |
| CheckoutPage.SubmitErrorText | src/pages/customer/CheckoutPage.tsx:57 | the server's message when non-empty, else the fallback |
| CheckoutPage.CheckoutView.constructor | src/pages/customer/CheckoutPage.tsx:10-18 | empty form, no cart, loading, not submitting |
| CheckoutPage.CheckoutView.SubmitButtonsDisabled | src/pages/customer/CheckoutPage.tsx:136 | both submit buttons are disabled exactly while an order is being created |
| CheckoutPage.CheckoutView.CompleteCartLoad | src/pages/customer/CheckoutPage.tsx:20-36 | an empty or missing cart redirects to the cart page; a failure shows an error and stays; loading ends |
| CheckoutPage.CheckoutView.InputChange | src/pages/customer/CheckoutPage.tsx:38-41 | an input sets exactly its own field |
| CheckoutPage.CheckoutView.BrowserSubmits | src/pages/customer/CheckoutPage.tsx:84-136 | the browser fires the submit only with a non-empty phone and address and enabled buttons |
| CheckoutPage.CheckoutView.BeginSubmit | src/pages/customer/CheckoutPage.tsx:43-52 | once the browser lets it through, the form is sent as typed exactly when it is valid; otherwise the validation error is shown |
| CheckoutPage.CheckoutView.CompleteSubmit | src/pages/customer/CheckoutPage.tsx:53-60 | success navigates to the order-success page of the new id; failure shows the reason and re-enables the buttons |
| CheckoutPage.BlankAddressScenario | src/pages/customer/CheckoutPage.tsx:45-47 | an address of spaces only passes the browser and is refused with the validation error |
| CheckoutPage.FilledFormScenario | src/pages/customer/CheckoutPage.tsx:136 | a filled form is sent untrimmed and disables the buttons |
| OrderDetailPage.FetchIsIssued | src/pages/customer/OrderDetailPage.tsx:15 | the order is fetched exactly when the route carries a non-empty id |
| OrderDetailPage.ShowsPaySection | src/pages/customer/OrderDetailPage.tsx:175 | the pay section appears only for an unpaid order, which has the yellow badge |
| OrderDetailPage.PaymentBadge | src/pages/customer/OrderDetailPage.tsx:119-123 | green exactly for a paid order, yellow for every other payment status |
| OrderDetailPage.LineTotals | src/pages/customer/OrderDetailPage.tsx:163 | each line shows unit price times quantity |
| OrderDetailPage.OrderDetailView.constructor | src/pages/customer/OrderDetailPage.tsx:10-12 | no order, loading, not paying |
| OrderDetailPage.OrderDetailView.CompleteFetch | src/pages/customer/OrderDetailPage.tsx:17-26 | the fetched order is stored, a failure keeps the old one; loading ends |
| OrderDetailPage.OrderDetailView.BeginPayNow | src/pages/customer/OrderDetailPage.tsx:31-34 | a payment request starts exactly when an order is loaded and none is pending |
| OrderDetailPage.OrderDetailView.CompletePayNow | src/pages/customer/OrderDetailPage.tsx:35-44 | a non-empty payment URL is followed; a failure alerts and re-enables the button |
| OrderDetailPage.PaidOrderScenario | src/pages/customer/OrderDetailPage.tsx:175 | a paid order hides the pay section, but the handler still sends a request |
| OrderSuccessPage.QueryGet | src/pages/customer/OrderSuccessPage.tsx:8-10 | `searchParams.get` gives the value of the first pair with that name, or nothing |
| OrderSuccessPage.ParseReturn | src/pages/customer/OrderSuccessPage.tsx:8-10 | the response code, merchant code and order id are read from their own query keys |
| OrderSuccessPage.ReconcileRequestFor | src/pages/customer/OrderSuccessPage.tsx:12-21 | a reconciliation is sent exactly when code and order id are non-empty, carrying those two |
| OrderSuccessPage.MerchantCodeIsNotForwarded | src/pages/customer/OrderSuccessPage.tsx:16 | the merchant code has no effect on the request |
| OrderSuccessPage.BannerFor | src/pages/customer/OrderSuccessPage.tsx:27 | success exactly when the response code is "00"; a missing code shows failure |
| OrderSuccessPage.EffectReruns | src/pages/customer/OrderSuccessPage.tsx:23-25 | the effect re-runs only when the response code or order id changes; a change it skips leaves the banner as it was |
| OrderSuccessPage.SkippedRerunSendsSameRequest | src/pages/customer/OrderSuccessPage.tsx:12-25 | a query change the effect skips would not have produced a different request |
| OrderSuccessPage.ReturnScenario | src/pages/customer/OrderSuccessPage.tsx:12-21 | a full return query sends one request; a query without order id sends none |
| AdminOrders.StyleFor | src/pages/manage/admin/AdminOrders.tsx:34-42 | the table entry for a known name, and a stone badge labelled with the name otherwise |
| AdminOrders.OrderStatusStyle | src/pages/manage/admin/AdminOrders.tsx:39-42 | every order status finds its own entry of the style table |
| AdminOrders.PaymentStatusStyle | src/pages/manage/admin/AdminOrders.tsx:34-37 | every payment status finds its own entry of the style table |
| AdminOrders.OrderStatusStylesAreTotal | src/pages/manage/admin/AdminOrders.tsx:7-15 | every order status has its own entry, so the stone fallback is never used |
| AdminOrders.OrderStatusTextsAreDistinct | src/pages/manage/admin/AdminOrders.tsx:7-15 | no two order statuses share a label |
| AdminOrders.OrderStatusStylesKeys | src/pages/manage/admin/AdminOrders.tsx:7-15 | the table's keys are exactly the members' names |
| AdminOrders.PaymentStatusStylesAreTotal | src/pages/manage/admin/AdminOrders.tsx:27-32 | every payment status has its own entry and label |
| AdminOrders.OrderStatusesListIsEnumOrder | src/pages/manage/admin/AdminOrders.tsx:17-25 | the picker lists each member's name once, in ordinal order |
| AdminOrders.OrderStatusesListIndexIsOrdinal | src/pages/manage/admin/AdminOrders.tsx:92-96 | a name is in the picker exactly when it names a member, at that member's ordinal |
| AdminOrders.Truncate | src/pages/manage/admin/AdminOrders.tsx:112 | a string that fits is kept; a longer one keeps its first `max` characters followed by "..." |
| AdminOrders.UpdateButtonDisabled | src/pages/manage/admin/AdminOrders.tsx:211-213 | the update button is disabled exactly while loading or when the picked name is the order's current status |
| AdminOrders.EnabledUpdateChangesStatus | src/pages/manage/admin/AdminOrders.tsx:211-213 | an enabled update button never submits the order's current status |
| AdminOrders.AdminOrdersView.constructor | src/pages/manage/admin/AdminOrders.tsx:45-50 | no orders, no dialog, not loading, no picked status |
| AdminOrders.AdminOrdersView.BeginFetchOrders | src/pages/manage/admin/AdminOrders.tsx:51-54 | loading starts and the error clears |
| AdminOrders.AdminOrdersView.CompleteFetchOrders | src/pages/manage/admin/AdminOrders.tsx:55-63 | the fetched list replaces the old one; a failure keeps it and shows an error; loading ends |
| AdminOrders.AdminOrdersView.BeginViewDetails | src/pages/manage/admin/AdminOrders.tsx:69-71 | the given id is requested |
| AdminOrders.AdminOrdersView.CompleteViewDetails | src/pages/manage/admin/AdminOrders.tsx:72-80 | the dialog opens on the order with its own status picked; a failure shows an error |
| AdminOrders.AdminOrdersView.SelectNewStatus | src/pages/manage/admin/AdminOrders.tsx:201-209 | the picked option becomes the new status |
| AdminOrders.AdminOrdersView.CloseModal | src/pages/manage/admin/AdminOrders.tsx:82-85 | the dialog closes and the pick clears |
| AdminOrders.AdminOrdersView.BeginUpdateStatus | src/pages/manage/admin/AdminOrders.tsx:87-96 | an update is sent exactly when a dialog is open with a pick, carrying the order id and the pick's picker position |
| AdminOrders.AdminOrdersView.CompleteUpdateStatus | src/pages/manage/admin/AdminOrders.tsx:97-106 | success reloads the list and closes the dialog; failure keeps everything and shows an error; loading ends |
| AdminOrders.UpdateStatusScenario | src/pages/manage/admin/AdminOrders.tsx:87-106 | picking "Shipped" for a pending order sends ordinal 3 and shows the reloaded list |
| OrderHistoryPage.StatusBadge | src/pages/customer/OrderHistoryPage.tsx:8-19 | yellow, green and red exactly for pending, delivered and cancelled; blue for the rest |
| OrderHistoryPage.Render | src/pages/customer/OrderHistoryPage.tsx:39-51 | the spinner while loading, then the list when there is an order, else the empty state |
| OrderHistoryPage.OrdersAfterFetch | src/pages/customer/OrderHistoryPage.tsx:25-37 | the fetched list, or none after a failure |
| OrderHistoryPage.FailedFetchShowsEmptyState | src/pages/customer/OrderHistoryPage.tsx:25-51 | a failed fetch ends on the empty state |
| OrderHistoryPage.OrderLink | src/pages/customer/OrderHistoryPage.tsx:55 | each entry links to `/profile/orders/` followed by its id |
| ProductForm.FromVariant | src/components/shared/ProductForm.tsx:35 | a received variant keeps its fields and has no picked file |
| ProductForm.KeyTextInjective | src/components/shared/ProductForm.tsx:123-142 | distinct keys are written as distinct strings, through the decimal index |
| ProductForm.IndexedKeySplit | src/components/shared/ProductForm.tsx:134-142 | a written variant key determines its index and its field |
| ProductForm.VariantEntriesKeys | src/components/shared/ProductForm.tsx:133-143 | one variant's entries carry its own index and the fields it sends |
| ProductForm.PresentFieldsDistinct | src/components/shared/ProductForm.tsx:133-143 | a variant never sends a field twice |
| ProductForm.RequiredFieldsSent | src/components/shared/ProductForm.tsx:135-138 | colour, size, price and stock are always sent, with price and stock as numerals |
| ProductForm.OptionalFieldsSent | src/components/shared/ProductForm.tsx:134-142 | the id is sent exactly when non-empty; the file when picked, the URL only otherwise; never both |
| ProductForm.VariantListKeysBelong | src/components/shared/ProductForm.tsx:133-143 | every key the variant loop sends belongs to one of the list's positions |
| ProductForm.VariantListKeysUnique | src/components/shared/ProductForm.tsx:133-143 | the variant loop never sends a key twice |
| ProductForm.VariantListEntriesContain | src/components/shared/ProductForm.tsx:133-143 | each variant's entries are all in the body |
| ProductForm.OnlyOwnBlockHasKey | src/components/shared/ProductForm.tsx:133-143 | a key of variant `i` is sent only by variant `i` |
| ProductForm.FindCategory | src/components/shared/ProductForm.tsx:128 | `categories.find` gives the first category with the id, or nothing |
| ProductForm.HeaderKeys | src/components/shared/ProductForm.tsx:123-131 | name, description and category id lead; the category name and image follow when present |
| ProductForm.HeaderEntriesContent | src/components/shared/ProductForm.tsx:123-131 | the body leads with the three product fields; the category name is sent exactly when the id is found, the image exactly when picked |
| ProductForm.ProductEntriesKeysUnique | src/components/shared/ProductForm.tsx:117-146 | no key of the whole body is sent twice, as keys or as written strings; every variant's colour and size are in it |
| ProductForm.ProductEntriesVariantOptionals | src/components/shared/ProductForm.tsx:134-142 | in the whole body each variant's id is sent exactly when non-empty and never both image fields |
| ProductForm.ProductFormView.constructor | src/components/shared/ProductForm.tsx:30-48 | the form starts from the edited product's fields and variants, or empty; no row is being edited |
| ProductForm.ProductFormView.EditProduct | src/components/shared/ProductForm.tsx:156-198 | the product inputs set their fields and nothing else |
| ProductForm.ProductFormView.EditVariantForm | src/components/shared/ProductForm.tsx:213-268 | the variant inputs set the variant form |
| ProductForm.ProductFormView.SelectVariant | src/components/shared/ProductForm.tsx:52-63 | a clicked row is loaded into the form without its picked file and becomes the row being edited |
| ProductForm.ProductFormView.AddOrUpdateVariant | src/components/shared/ProductForm.tsx:66-99 | without colour or size only an alert; otherwise the edited row is replaced in place or a new row appended, and the form is blanked |
| ProductForm.ProductFormView.ResetVariantForm | src/components/shared/ProductForm.tsx:102-114 | the form is blanked and no row is being edited |
| ProductForm.ProductFormView.Submit | src/components/shared/ProductForm.tsx:117-146 | without name or category only an alert; otherwise the body is the full encoding |
| ProductForm.EncodeProductForm | src/components/shared/ProductForm.tsx:122-143 | the appending loop builds exactly the specified body |
| ProductForm.EncodeHeader | src/components/shared/ProductForm.tsx:123-131 | the product-level appends build exactly the header entries |
| ProductForm.AppendVariant | src/components/shared/ProductForm.tsx:133-143 | one loop step appends exactly that variant's entries |
| ProductForm.EditThenAppendScenario | src/components/shared/ProductForm.tsx:66-99 | editing row 0 overwrites it in place, an incomplete form is refused, and a new row is appended |
| RegisterForm.ValidatePassword | src/pages/auth/RegisterForm.tsx:18-24 | no errors exactly when all three rules hold; each message is present exactly when its rule fails, once, in rule order |
| RegisterForm.ValidatePasswordExamples | src/pages/auth/RegisterForm.tsx:12-24 | "password" fails all three rules; "Passw0rd!" passes |
| RegisterForm.RejectionText | src/pages/auth/RegisterForm.tsx:64 | the first server error when non-empty, else the rejection fallback |
| RegisterForm.FailureText | src/pages/auth/RegisterForm.tsx:68 | the server's message when non-empty, else the generic fallback |
| RegisterForm.RegisterView.constructor | src/pages/auth/RegisterForm.tsx:28-37 | an empty form, no errors, not loading |
| RegisterForm.RegisterView.EditDetails | src/pages/auth/RegisterForm.tsx:88-156 | the other inputs set their fields |
| RegisterForm.RegisterView.SetPassword | src/pages/auth/RegisterForm.tsx:134-137 | typing a password clears the strength errors |
| RegisterForm.RegisterView.BrowserSubmits | src/pages/auth/RegisterForm.tsx:81-177 | the browser fires the submit only with all five inputs non-empty and the button enabled |
| RegisterForm.RegisterView.BeginSubmit | src/pages/auth/RegisterForm.tsx:41-56 | a weak password lists its failures and stops; a mismatch is reported only for a strong one; otherwise the form is sent |
| RegisterForm.RegisterView.CompleteSubmit | src/pages/auth/RegisterForm.tsx:57-72 | success stores the session and goes home; a rejection or failure shows its text; loading ends |
| RegisterForm.ValidationOrderScenario | src/pages/auth/RegisterForm.tsx:43-47 | a weak password with a wrong confirmation shows the strength errors and no mismatch, and retyping clears them |
| RegisterForm.MismatchScenario | src/pages/auth/RegisterForm.tsx:48-51 | a strong password with a wrong confirmation shows only the mismatch and sends nothing |
| CustomerProducts.RequestFor | src/pages/customer/CustomerProducts.tsx:17-24 | the filtered endpoint is used exactly when a filter is truthy, with the filters as given |
| CustomerProducts.FalsyFiltersFetchEverything | src/pages/customer/CustomerProducts.tsx:17 | an empty name, a zero price and an empty category id count as no filter |
| CustomerProducts.CategoryListIsDedupe | src/pages/customer/CustomerProducts.tsx:31-37 | the category list is the products' category ids with repeats removed |
| CustomerProducts.CategoryListOrder | src/pages/customer/CustomerProducts.tsx:31-37 | no category is listed twice, and the list follows first occurrence |
| CustomerProducts.CategoryListNames | src/pages/customer/CustomerProducts.tsx:33-36 | a listed category is named after its first product |
| CustomerProducts.GroupContents | src/pages/customer/CustomerProducts.tsx:38-39 | a group holds only input products of its category, and is non-empty exactly when the category occurs |
| CustomerProducts.GroupSizesSumToInput | src/pages/customer/CustomerProducts.tsx:30-40 | the listed categories' groups hold every product exactly once |
| CustomerProducts.GroupProducts | src/pages/customer/CustomerProducts.tsx:26-40 | the loop builds the specified category list and one group per listed id, in input order |
| CustomerProducts.ProductsPage.constructor | src/pages/customer/CustomerProducts.tsx:8-51 | no groups, no categories, no filters, so the fetch made on mount asks for every product |
| CustomerProducts.ProductsPage.SetFilters | src/pages/customer/CustomerProducts.tsx:49-51 | a filter change re-runs the fetch with the request the filters choose; setting the same filters again fetches nothing |
| CustomerProducts.ProductsPage.CompleteFetch | src/pages/customer/CustomerProducts.tsx:42-46 | groups and categories are rebuilt from the answer; a failure leaves both as they were |
| Navbar.LabelMapIsInjective | src/components/shared/Navbar.tsx:18-27 | no two labels share a main category or a name |
| Navbar.FindLabel | src/components/shared/Navbar.tsx:85-87 | the first label whose main category has the number, or none when no label has it |
| Navbar.LabelFor | src/components/shared/Navbar.tsx:85-87 | a category's number has a label exactly when some entry of the map has that number, and the label is that entry's |
| Navbar.LabelForIsDefinedOnEnumValues | src/components/shared/Navbar.tsx:85-88 | exactly the numbers 0 to 7 have a label |
| Navbar.LabelForIsInverse | src/components/shared/Navbar.tsx:18-27 | a member's number finds that member's own label |
| Navbar.CategoriesUnderMembership | src/components/shared/Navbar.tsx:84-94 | a category is shown under a label exactly when its number maps to that label; unlabelled ones nowhere |
| Navbar.GroupCategories | src/components/shared/Navbar.tsx:82-96 | the loop builds one group per label that has categories, holding them in input order |
| Navbar.Toggle | src/components/shared/Navbar.tsx:98-104 | the open item closes; any other opens in its place |
| Navbar.ToggleProperties | src/components/shared/Navbar.tsx:98-100 | toggling twice closes; toggling a second label replaces the first |
| Navbar.NavbarState.constructor | src/components/shared/Navbar.tsx:29-38 | nothing open, signed out, zero count, no categories |
| Navbar.NavbarState.CompleteCategoriesFetch | src/components/shared/Navbar.tsx:41-51 | the fetched categories are stored; a failure keeps the old ones |
| Navbar.NavbarState.GroupedCategories | src/components/shared/Navbar.tsx:82-96 | the memoised grouping of the current categories |
| Navbar.NavbarState.DesktopNavToggle | src/components/shared/Navbar.tsx:98-100 | the desktop dropdown toggles |
| Navbar.NavbarState.MobileNavToggle | src/components/shared/Navbar.tsx:102-104 | the mobile submenu toggles |
| Navbar.NavbarState.OutsideClick | src/components/shared/Navbar.tsx:54-58 | a click outside closes the dropdown |
| Navbar.NavbarState.AuthChanged | src/components/shared/Navbar.tsx:65-115 | the login flag follows the auth state; signed out means a zero count and no request |
| Navbar.NavbarState.CompleteCartCount | src/components/shared/Navbar.tsx:71-77 | the fetched count, or 0 after a failure |
| Navbar.CartCountScenario | src/components/shared/Navbar.tsx:65-80 | signed out and failed counts both show 0 |
| ProductCard.MinPrice | src/components/shared/ProductCard.tsx:11 | the minimum is one of the prices and at most every price |
| ProductCard.MaxPrice | src/components/shared/ProductCard.tsx:12 | the maximum is one of the prices and at least every price |
| ProductCard.PriceLabelOf | src/components/shared/ProductCard.tsx:6-17 | "contact" exactly without variants; one price exactly when all prices agree; otherwise the range from the lowest to the highest price, both attained |
| ProductCard.PriceText | src/components/shared/ProductCard.tsx:8-16 | the "Liên hệ" text exactly for the contact label; one formatted price followed by "đ", or the two formatted ends joined by " - " |
| ProductCard.PriceLabelDependsOnPriceSet | src/pages/customer/HomePage.tsx:13-25 | the label, in the card and in the home page's copy, depends only on the set of prices |
| ProductCard.ProductLink | src/components/shared/ProductCard.tsx:20 | the card links to `/product/` followed by the id |
| HomePage.Reversed | src/pages/customer/HomePage.tsx:166 | `reverse()` puts element `k` at position `n - 1 - k` |
| HomePage.NewArrivals | src/pages/customer/HomePage.tsx:166 | at most four products, the first four of the list in reverse order |
| HomePage.NewArrivalsAreTheFirstFour | src/pages/customer/HomePage.tsx:166 | reversing the new arrivals gives back the head of the list |
| HomePage.FeaturedCards | src/pages/customer/HomePage.tsx:147-149 | one card per product in fetch order, each with the card's price label |
| HomePage.HomePageState.CompleteFetch | src/pages/customer/HomePage.tsx:128-138 | the fetched products are stored; a failure keeps the old list |
| HomePage.FetchScenario | src/pages/customer/HomePage.tsx:128-166 | after a failure both grids are empty; five products give the fourth to the first as new arrivals |
| CategoryForm.OptionsAreTheMembers | src/components/shared/CategoryForm.tsx:63-68 | filtering out the numeric keys leaves exactly one option per member, in declaration order |
| CategoryForm.NamesAreNotNumeric | src/components/shared/CategoryForm.tsx:64 | no member's name passes as a number |
| CategoryForm.OptionForMember | src/components/shared/CategoryForm.tsx:55-68 | each member has exactly one option, and choosing it stores the member's number |
| CategoryForm.CategoryFormState.constructor | src/components/shared/CategoryForm.tsx:27-30 | the edited category's name when non-empty and its main category even when 0; a new one starts on AoNam |
| CategoryForm.CategoryFormState.EditName | src/components/shared/CategoryForm.tsx:47 | the name input sets the name |
| CategoryForm.CategoryFormState.SelectMainCategory | src/components/shared/CategoryForm.tsx:55-56 | the select stores the number its option value spells |
| CategoryForm.CategoryFormState.Submit | src/components/shared/CategoryForm.tsx:32-39 | an empty name alerts and sends nothing; otherwise exactly the name and main category are passed on |
| CategoryForm.EditScenario | src/components/shared/CategoryForm.tsx:27-56 | editing a category with main category 0 keeps 0, and picking UuDai submits 7 |
| Axios.BearerHeaderRoundTrip | src/lib/axios.ts:15 | the header gives back exactly the token it was made from |
| Axios.TokenOf | src/lib/axios.ts:13 | `auth?.token`: nothing when signed out |
| Axios.AuthStore.LogOut | src/lib/axios.ts:30-31 | signing out clears the auth state |
| Axios.InterceptRequest | src/lib/axios.ts:11-18 | a non-empty token sets the bearer header in place, otherwise the configuration is unchanged; the same object is returned |
| Axios.RejectRequestError | src/lib/axios.ts:19 | a request error is rejected as it is |
| Axios.PassResponse | src/lib/axios.ts:23 | a successful response passes through unchanged |
| Axios.ShouldLogOut | src/lib/axios.ts:26-28 | a 401 to a request that is not the login call, or whose URL is unknown, signs out |
| Axios.LoginFailureKeepsSession | src/lib/axios.ts:27-28 | a 401 from the login call does not sign out |
| Axios.OnlyUnauthorizedLogsOut | src/lib/axios.ts:26 | only a 401 signs out; a request without a response never does |
| Axios.HandleResponseError | src/lib/axios.ts:24-35 | any other 401 signs out and redirects to /login; every error is rejected unchanged |
| Axios.ExpiredSessionScenario | src/lib/axios.ts:11-35 | after a 401 on an order request the next request carries no token |

## Left out

- Network calls are not modelled. Each becomes an `ApiResult` input. The HTTP layer, `baseURL` and headers other than `Authorization` are not part of this model.
- JSX, styling, icons and images are not modelled. Only the choice a page makes is kept: which badge colour, which view, which label, which link.
- `toLocaleString` and `Intl.NumberFormat` are not modelled, and neither is date display. Prices are integers, and `ProductCard.PriceText` takes the number formatter as a parameter.
- `Number(...)` parsing is modelled only on digit strings: `DigitsValue`, and the option values of the category select. A price filter input is modelled as an optional integer, so a `NaN` filter value is not represented.
- Async interleaving is not modelled: two requests in flight, effects firing in a different order, StrictMode double runs. Each handler is one step before its await and one after.
- `window.location`, `navigate`, `alert`, `confirm`, `toast` and `console` become returned values or boolean inputs. Logging is dropped.
- The add-to-cart handler only logs in the source, so it has no model beyond `CanAddToCart`.
- Search submission in the navigation bar only logs and closes the mobile menu, so it is not modelled.
- `CustomerProducts.GroupProducts`: the record is modelled as a map. JavaScript's prototype keys (a category id such as `constructor`) are not modelled.
- `Axios.HandleResponseError`: a request configuration is assumed to carry a URL string. A configuration whose `url` is undefined would throw inside the handler; that case is not modelled.
- `Navbar.NavbarState.AuthChanged`: the count request it starts is completed by `CompleteCartCount`. A count answer arriving after sign-out is not modelled.
- Product, auth and API helper type files (`types/product.ts`, `types/auth.ts`, `pages/customer/api.ts`) are not part of this model. Their shapes appear as the datatypes the pages use.
- Order DTO fields read only by markup are not modelled, such as the customer name and email in the admin table; `AdminOrders.Truncate` models the truncation applied to the email there.
- AdminOrders.Truncate: lengths and cuts count Unicode characters, while JavaScript's `length` and `slice` count UTF-16 code units. A string with characters outside the Basic Multilingual Plane is cut at a different place, and JavaScript may split a surrogate pair there.
- RegisterForm.RegisterView.BeginSubmit: the browser's `type="email"` format check is not modelled; `BrowserSubmits` requires only a non-empty email.
- ProductForm.ProductFormView.Submit: the submit button's `disabled={isLoading}` is not modelled. `isLoading` is a prop owned by the admin product page, which is not part of this model.
- CategoryForm.CategoryFormState.Submit: the submit button's `disabled={isLoading}` is not modelled. `isLoading` is a prop owned by the admin category page, which is not part of this model.
- Enum numbers outside the declared members are not modelled for order and payment statuses. The category's main category is kept as an integer, so that an unlabelled number can reach the navigation bar.
