# UserVite storefront core, in Dafny

This project models the logic under the UI of the UserVite food-delivery storefront, a React
client for customers, restaurateurs and couriers. It covers four groups:

- **The cart.** This is the line store behind `useCart`, where a line is identified by its menu
  item id together with its optional special instructions. Around it sit:
  - the add-to-cart quantity stepper;
  - the totals of the cart sheet, the checkout page and the order hook;
  - the place-order handler;
  - the conversion of cart lines into order lines priced in cents, and back.
- **The order-status lifecycle.** This covers:
  - the unified status enumeration and the free-text `statut` of stored orders;
  - the labels, badge variants and colours of each view;
  - the transitions a restaurateur is offered, the service's cancel rule and its dispatch of a
    target status to an endpoint;
  - the five-step progress bar;
  - the dashboard's bookkeeping of the orders being updated.
- **The address book.** This covers adding, editing and deleting addresses, re-selecting the
  first remaining address when the selected one is deleted, and the add and edit forms of the
  address modal.
- **Validators, filters and mappers.** This covers:
  - the login form's validation;
  - the home page's restaurant filter and the filter bar's toggles;
  - the keyword inference of the product-service mappers;
  - the demonstration-data lookups;
  - the role → default-route rule and the role guard;
  - the URL, header and error-message helpers;
  - the formatting of cents as prices.

Modelling conventions:
- Statuses:
  - Stored statuses are strings.
  - `Types.Parse` reads any string as a `Status`: one of the eight enumeration members, the
    `PickedUp` value the views use, or `Other(raw)`.
  - The views are total over all strings.
- Numbers:
  - Euro amounts are exact `real`s.
  - Cents are `int`.
  - `Math.round(x * 100)` is `floor(x * 100 + 1/2)`.
- Text:
  - `toLowerCase` is ASCII case folding.
  - `includes` is substring search.
  - `parseInt` reads decimal and hexadecimal prefixes with JavaScript's white-space rules.
- Inputs treated as parameters:
  - every reply of the ordering, product, delivery and authentication services;
  - the clock reading;
  - the decoded token payload;
  - what `localStorage` held at start-up.
- State:
  - React state that handlers replace becomes the fields of a class.
  - Each handler becomes one method, treated as one atomic step.

Modules:
- `Wrappers`, `Text` and `Seqs` are helpers.
- `Types` and `Badges` hold the data model.
- Every other module models one source file.

## Model

| member | source | states |
|---|---|---|
| Types.Wire | src/types/index.ts:12-30 | each named status is stored as its enumeration spelling, and free text as itself |
| Types.Parse | src/types/index.ts:366 | every stored string reads as some status, including strings outside the enumeration |
| Types.WireParse | src/types/index.ts:366 | reading a stored status and writing it back gives the same string |
| Types.ParseWire | src/types/index.ts:12-30 | writing a status in normal form and reading it back gives the same status |
| Types.WireInjective | src/types/index.ts:12-30 | distinct statuses in normal form are stored as distinct strings |
| Types.EnumValuesDistinct | src/types/index.ts:12-30 | the enumeration lists eight pairwise-distinct strings |
| Text.IntToString | src/hooks/useMenuItems.ts:26 | `n.toString()` is a minus sign for negative values, then the decimal digits |
| Text.IntToStringInjective | src/hooks/useRestaurants.ts:22 | distinct numeric ids give distinct string ids |
| Text.ParseIntDecimalPrefix | src/routes/index.tsx:32 | `parseInt` of a digit run followed by a non-digit gives the value of the digits |
| CartProvider.SubtotalAppend | src/providers/CartProvider.tsx:109-111 | the total Σ price×quantity splits over concatenated carts |
| CartProvider.ItemCountAppend | src/providers/CartProvider.tsx:113-115 | the count Σ quantity splits over concatenated carts |
| CartProvider.SumsAtHead | src/providers/CartProvider.tsx:109-115 | both reductions are the first line's contribution plus the rest's |
| CartProvider.MapMatching | src/providers/CartProvider.tsx:70-76 | the map keeps the length, changes only lines with the key, and changes only their quantity |
| CartProvider.AddExisting | src/providers/CartProvider.tsx:65-76 | for an existing key, the matching lines gain exactly `quantity`; the length and all other lines are unchanged |
| CartProvider.AddNew | src/providers/CartProvider.tsx:78 | for a new key, one line is appended at the end and every earlier line is unchanged |
| CartProvider.AddKeepsUnique | src/providers/CartProvider.tsx:63-80 | adding to a cart with unique keys keeps the keys unique |
| CartProvider.UniqueKeyAt | src/providers/CartProvider.tsx:65-68 | in a cart with unique keys, the line found by key is the only one with that key |
| CartProvider.SumsOfSingleton | src/providers/CartProvider.tsx:109-115 | the sums of a one-line cart are that line's total and quantity |
| CartProvider.SumsAround | src/providers/CartProvider.tsx:109-115 | the sums split around any one line |
| CartProvider.LineDelta | src/providers/CartProvider.tsx:73 | adding d units to a line adds d times its price to its total |
| CartProvider.SumsAfterChangeAt | src/providers/CartProvider.tsx:70-76 | changing one line's quantity by d changes the count by d and the total by that line's change |
| CartProvider.AddSums | src/providers/CartProvider.tsx:63-80 | on a cart with unique keys, `addToCart` raises the item count by exactly `quantity` and the total by its price |
| CartProvider.AddedShape | src/providers/CartProvider.tsx:70-76 | with unique keys, the added cart differs from the old one only at the matching line |
| CartProvider.AddAt | src/providers/CartProvider.tsx:70-76 | with an existing key, the count rises by `quantity` and the total by `quantity` × price |
| CartProvider.ChangeAt | src/providers/CartProvider.tsx:96-102 | changing one line by d moves the count by d and the total by d units of its price |
| CartProvider.RemoveExactly | src/providers/CartProvider.tsx:82-88 | removal drops exactly the lines with the key, keeps all others, and is order-preserving (it distributes over concatenation) |
| CartProvider.RemoveUnknown | src/providers/CartProvider.tsx:82-88 | removing an unknown key leaves the cart unchanged |
| CartProvider.RemoveKeepsUnique | src/providers/CartProvider.tsx:82-88 | removal keeps keys unique, and removes one line exactly when the key was present |
| CartProvider.UpdatePositive | src/providers/CartProvider.tsx:96-102 | a positive quantity sets only the matching lines' quantity; length and other lines are unchanged |
| CartProvider.UpdateKeepsUnique | src/providers/CartProvider.tsx:90-103 | `updateQuantity` keeps the keys unique |
| CartProvider.CartStore.constructor | src/providers/CartProvider.tsx:37-48 | the store starts with the saved cart and the panel closed |
| CartProvider.CartStore.AddToCart | src/providers/CartProvider.tsx:63-80 | the new cart is `Added` of the old one; the panel flag is unchanged; unique keys are kept and the count rises by `quantity` |
| CartProvider.CartStore.RemoveFromCart | src/providers/CartProvider.tsx:82-88 | the new cart is the old one without the key's lines; no line carries the key afterwards |
| CartProvider.CartStore.UpdateQuantity | src/providers/CartProvider.tsx:90-103 | a quantity ≤ 0 is exactly `removeFromCart`; otherwise the key's lines get the new quantity; keys stay unique |
| CartProvider.CartStore.ClearCart | src/providers/CartProvider.tsx:105-107 | the cart is empty, with total 0 and count 0 |
| CartProvider.CartStore.OpenCart | src/providers/CartProvider.tsx:117-119 | the panel is open and the cart is unchanged |
| CartProvider.CartStore.CloseCart | src/providers/CartProvider.tsx:121-123 | the panel is closed and the cart is unchanged |
| CartProvider.CartStore.ToggleCart | src/providers/CartProvider.tsx:125-127 | the flag is negated, so two toggles restore it |
| AddToCartDialog.StepDown | src/components/AddToCartDialog.tsx:85 | minus gives one less, never below 1 |
| AddToCartDialog.StepUp | src/components/AddToCartDialog.tsx:98 | plus gives one more |
| AddToCartDialog.StepUpThenDown | src/components/AddToCartDialog.tsx:85-98 | for q ≥ 1, plus then minus restores q |
| AddToCartDialog.InstructionsToPass | src/components/AddToCartDialog.tsx:29 | empty instructions are passed as absent, never as "" |
| AddToCartDialog.Dialog.constructor | src/components/AddToCartDialog.tsx:18-19 | the dialog starts at quantity 1 with empty instructions |
| AddToCartDialog.Dialog.DisplayedPrice | src/components/AddToCartDialog.tsx:132 | the button shows price × quantity, at least the unit price |
| AddToCartDialog.Dialog.Minus | src/components/AddToCartDialog.tsx:85 | the quantity becomes `StepDown` of it and stays ≥ 1 |
| AddToCartDialog.Dialog.Plus | src/components/AddToCartDialog.tsx:98 | the quantity becomes `StepUp` of it |
| AddToCartDialog.Dialog.EditInstructions | src/components/AddToCartDialog.tsx:113 | only the instructions change |
| AddToCartDialog.Dialog.Close | src/components/AddToCartDialog.tsx:21-25 | the state is reset to quantity 1 and empty instructions |
| AddToCartDialog.Dialog.Add | src/components/AddToCartDialog.tsx:27-32 | without a menu item nothing happens; otherwise the request carries the quantity (≥ 1) and the instructions (never ""), and the state is reset |
| CartSheet.Summarize | src/components/CartSheet.tsx:26-29 | subtotal = Σ price×quantity, count = Σ quantity, and total = subtotal + fee + 10% of the subtotal |
| CartSheet.Badge | src/components/CartSheet.tsx:38-42 | the badge is shown iff the count > 0, and its label is plural iff the count > 1 |
| CartSheet.DeliveryLine | src/components/CartSheet.tsx:128 | the delivery line reads "Gratuit" iff the fee is 0, else shows the fee |
| CartSheet.MinusRequest | src/components/CartSheet.tsx:87 | minus requests quantity − 1 for the line's own key |
| CartSheet.PlusRequest | src/components/CartSheet.tsx:100 | plus requests quantity + 1 for the line's own key |
| CartSheet.MinusOnOneRemoves | src/components/CartSheet.tsx:87 | minus on a quantity-1 line removes exactly the lines with its key |
| CartSheet.StepperSums | src/components/CartSheet.tsx:87-100 | with unique keys, plus raises the count by 1 and the subtotal by one unit price; minus on a line above 1 does the reverse |
| Checkout.Total | src/routes/checkout/index.tsx:37-40 | total = subtotal × 1.1 + 3.90 |
| Checkout.TotalsAgree | src/routes/checkout/index.tsx:37-40 | the page's total equals both the hook's default `calculateTotal` and the cart sheet's total with fee 3.90 |
| Checkout.ExampleTotal | src/routes/checkout/index.tsx:37-40 | one line of two at 14.00 gives 34.70 |
| Checkout.OrderToSubmit | src/routes/checkout/index.tsx:52-62 | the submitted order has status pending, the displayed total, the cart lines and the selected address |
| Checkout.PlaceOrderDisabled | src/routes/checkout/index.tsx:308 | disabled iff processing, loading or without an address: enabled exactly when an address is selected and nothing is pending |
| Checkout.CheckoutPage.constructor | src/routes/checkout/index.tsx:34-35 | the page starts idle, paying by card |
| Checkout.CheckoutPage.PlaceOrder | src/routes/checkout/index.tsx:42-85 | without an address nothing happens; otherwise the cart is cleared iff an order comes back; processing ends false; the order sent is `OrderToSubmit` |
| UseOrder.CalculateTotal | src/hooks/useOrder.ts:44-54 | subtotal + fee + subtotal × taxRate, with defaults 3.90 and 0.1 |
| UseOrder.ToCents | src/hooks/useOrder.ts:61 | the result is the integer nearest to x × 100 (halves up) |
| UseOrder.ToCentsExact | src/hooks/useOrder.ts:61 | for prices with at most two decimals the rounding is exact |
| UseOrder.CentsRoundTrip | src/hooks/useOrder.ts:68 | cents → euros → cents gives the same cents |
| UseOrder.ToLigne | src/hooks/useOrder.ts:58-63 | an order line copies id and quantity and prices the unit in cents |
| UseOrder.ConvertLines | src/hooks/useOrder.ts:57-64 | one order line per cart line, same length and order |
| UseOrder.LineCents | src/hooks/useOrder.ts:61 | a line's cents × quantity equals its euro total × 100 |
| UseOrder.LinesMatchSubtotal | src/hooks/useOrder.ts:57-64 | when prices have two decimals, the order lines add up to exactly the cart subtotal in cents |
| UseOrder.FormatOrderForApi | src/hooks/useOrder.ts:66-77 | copies client, restaurant and status, converts the lines, and sends the total in cents |
| UseOrder.ParseOrderFromApi | src/hooks/useOrder.ts:80-94 | keeps the stored order and returns no parsed cart lines; euros × 100 = stored cents |
| UseOrder.TotalRoundTrip | src/hooks/useOrder.ts:66-94 | a two-decimal total sent and read back is the same euro total |
| UseOrder.CentsSurviveParse | src/hooks/useOrder.ts:87 | the parsed euro total converts back to the stored cents |
| UseOrder.OrderHook.constructor | src/hooks/useOrder.ts:33-37 | not loading, no error, no current order |
| UseOrder.OrderHook.ClearError | src/hooks/useOrder.ts:39-41 | only the error is cleared |
| UseOrder.OrderHook.CreateOrder | src/hooks/useOrder.ts:97-126 | without a user: error "Utilisateur non connecté", nothing sent; otherwise the request carries the user's id as client and the error reflects the reply |
| UseOrder.OrderHook.GetOrderById | src/hooks/useOrder.ts:129-145 | a successful reply becomes the parsed current order; a failure sets the error and returns nothing |
| UseOrder.OrderHook.UpdateOrderStatus | src/hooks/useOrder.ts:148-168 | returns success iff the service succeeded; the current order's status changes only if its id matches |
| Prices.Magnitude | src/routes/restaurant/dashboard.tsx:115-117 | the absolute value of the cents |
| Prices.FormatPrice | src/routes/restaurant/dashboard.tsx:115-117 | the text ends in " €", has a '.' before two decimals, and starts with '-' iff negative |
| Prices.ParseFormatPrice | src/components/restaurant/OrderDetails.tsx:10-12 | every printed price reads back as the cents it came from |
| Prices.FormatPriceInjective | src/routes/restaurant/dashboard.tsx:115-117 | different amounts print differently |
| Prices.FormatPriceExamples | src/routes/restaurant/dashboard.tsx:115-117 | 1250 prints "12.50 €" and 5 prints "0.05 €" |
| OrderService.HttpError | src/services/orderService.ts:21 | "Erreur HTTP: " followed by the decimal status |
| OrderService.StatusError | src/services/orderService.ts:39-44 | 404 on a single-order endpoint gives "Commande non trouvée", 400 on create gives "Données de commande invalides", and anything else gives the HTTP error |
| OrderService.Call | src/services/orderService.ts:13-29 | succeeds iff the response is ok, with its body; failures carry the endpoint's prefix and the status error or the caught message |
| OrderService.NotFoundExactlyOn404 | src/services/orderService.ts:39-43 | on a single-order endpoint, the not-found error happens exactly on 404 |
| OrderService.InvalidDataOnlyOnCreate | src/services/orderService.ts:69-74 | the invalid-data error happens exactly on a 400 from create |
| OrderService.GetCommandesByClientId | src/services/orderService.ts:125-132 | all and only the client's orders, or the prefixed error |
| OrderService.GetCommandesByRestaurantId | src/services/orderService.ts:135-142 | all and only the restaurant's orders, or the prefixed error |
| OrderService.QueriesKeepOrder | src/services/orderService.ts:125-142 | both queries distribute over concatenation, so they keep the original order |
| OrderService.DefaultStatut | src/services/orderService.ts:60 | a non-empty status is kept; a missing or empty one becomes pending |
| OrderService.NewCommandeBody | src/services/orderService.ts:57-61 | the body copies the request, adds the creation date and the defaulted status |
| OrderService.CreatedStatut | src/services/orderService.ts:57-61 | an order is created pending iff its status was absent, empty or "pending" |
| OrderService.CreateCommande | src/services/orderService.ts:54-81 | a 400 reply reads as invalid data |
| OrderService.StatusUpdate | src/services/orderService.ts:147 | the update body holds the status and no other field |
| OrderService.UpdateCommandeStatus | src/services/orderService.ts:145-151 | succeeds iff the update is ok; a failure carries the status-update prefix |
| OrderService.CanCancelCommande | src/services/orderService.ts:154-161 | true exactly for pending, confirmed and preparing |
| OrderService.CancellableStatuses | src/services/orderService.ts:154-161 | cancellable iff the parsed status is one of the first three; no free text qualifies |
| OrderService.CancelCommande | src/services/orderService.ts:164-176 | a fetched, cancellable order always sends the update to cancelled, and no other run sends one; an uncancellable order fails with the refusal message; a failed fetch or a failed update fails with its own message after the cancel prefix; success iff fetch and update both succeed |
| OrderService.ActionFor | src/services/orderService.ts:243-258 | exactly confirmed, preparing, ready and cancelled map to an action, which sets that status; any other status gives "Statut non supporté" |
| OrderService.ActionForTargetOf | src/services/orderService.ts:243-256 | each action is the dispatch of exactly one status |
| OrderService.UpdateRestaurantOrderStatus | src/services/orderService.ts:241-262 | an unsupported status calls no endpoint; otherwise exactly its action is called; failures carry the status-change prefix |
| ApiConfig.BaseUrl | src/config/api.ts:4 | the environment value if non-empty, else the local default |
| ApiConfig.BuildApiUrl | src/config/api.ts:31-33 | the base URL is a prefix and the endpoint is the rest |
| ApiConfig.BuildApiUrlInjective | src/config/api.ts:31-33 | different endpoints give different URLs |
| ApiConfig.GetAuthHeaders | src/config/api.ts:36-44 | with no or an empty token, exactly the defaults; otherwise the defaults plus `Authorization: Bearer <token>` |
| ApiConfig.AuthHeadersShape | src/config/api.ts:36-44 | the content type is always kept, and the authorization entry is present iff the token is non-empty |
| ApiConfig.HandleApiError | src/config/api.ts:47-62 | precedence: response message, then message field, then a thrown string, then the fallback |
| ApiConfig.ErrorWith | src/config/api.ts:54-57 | an `Error` is an object with a message and no response |
| ApiConfig.ErrorMessageReadBack | src/config/api.ts:54-57 | an `Error`'s message reads back unchanged |
| StatusProgress.StepIndex | src/components/restaurant/OrderStatusProgress.tsx:63 | the index of the status in the table, or −1 exactly when no step has it |
| StatusProgress.SafeIndex | src/components/restaurant/OrderStatusProgress.tsx:83 | the step index, or 0 for a status with no step |
| StatusProgress.StepIndices | src/components/restaurant/OrderStatusProgress.tsx:24-60 | pending … picked_up take steps 0–4 in order |
| StatusProgress.OthersAtFirstStep | src/components/restaurant/OrderStatusProgress.tsx:82-83 | any other status has no step and is shown at step 0 |
| StatusProgress.Render | src/components/restaurant/OrderStatusProgress.tsx:66-83 | the cancellation card iff cancelled; otherwise the bar at the safe index |
| StatusProgress.OneCurrentStep | src/components/restaurant/OrderStatusProgress.tsx:85-89 | exactly one step is current; earlier steps are done and later ones upcoming |
| StatusProgress.ProgressPercent | src/components/restaurant/OrderStatusProgress.tsx:91-93 | between 0 and 100; 0 at the first step and 100 at the last |
| StatusProgress.ProgressSteps | src/components/restaurant/OrderStatusProgress.tsx:91-93 | the width is 25 × index, one of 0/25/50/75/100, and grows with the index |
| StatusProgress.CurrentLabel | src/components/restaurant/OrderStatusProgress.tsx:101 | the label of the step at the safe index, never empty |
| StatusProgress.SafeIndexAsWritten | src/components/restaurant/OrderStatusProgress.tsx:54-83 | the safe index over the keys as evaluated, where the fifth key is undefined |
| StatusProgress.PickedUpStepUnreachable | src/components/restaurant/OrderStatusProgress.tsx:54-83 | as written no status reaches the last step, and picked_up is shown at step 0 |
| OrderActions.ButtonFor | src/components/restaurant/OrderActions.tsx:24-38 | a button requests its target, is disabled iff updating, and shows the busy caption iff updating |
| OrderActions.RenderActions | src/components/restaurant/OrderActions.tsx:20-88 | intended panel: buttons exactly for pending/confirmed/preparing; a badge for ready/picked_up/cancelled; nothing otherwise; all disabled while updating |
| OrderActions.RenderActionsAsWritten | src/components/restaurant/OrderActions.tsx:20-88 | as evaluated, with the undefined `PICKED_UP` case: the same panel for every other status, and a badge only for ready and cancelled |
| OrderActions.PickedUpPanelAsWritten | src/components/restaurant/OrderActions.tsx:71-86 | as written, a picked-up order falls to the default and shows an empty panel; the intended panel shows the "récupérée" badge |
| OrderActions.TransitionTable | src/components/restaurant/OrderActions.tsx:20-88 | pending → {confirmed, cancelled}, confirmed → {preparing}, preparing → {ready}, and no other status offers any |
| OrderActions.ForwardOnly | src/components/restaurant/OrderActions.tsx:22-62 | every offered move goes one progress step forward, or to cancelled |
| OrderActions.OfferedMovesAreServiced | src/components/restaurant/OrderActions.tsx:33-38 | cancellation is offered only from pending, which the service can cancel; every offered target has a service action |
| OrderActions.BusyDisablesAll | src/components/restaurant/OrderActions.tsx:27-57 | while updating, every button is disabled |
| OrderActions.EstimatedTimeShown | src/components/restaurant/OrderActions.tsx:102 | shown iff the estimate is positive and the status is neither picked_up nor cancelled |
| OrderActions.EstimatedTimeShownAsWritten | src/components/restaurant/OrderActions.tsx:102 | as evaluated: shown iff the estimate is positive and the status is not cancelled |
| OrderActions.PickedUpStillShowsTime | src/components/restaurant/OrderActions.tsx:102 | as written a picked-up order still shows the estimate; the intended condition hides it |
| OrderActions.CancelledNoticeShown | src/components/restaurant/OrderActions.tsx:107 | the notice is shown exactly for cancelled orders |
| CustomerInfo.StatusLabel | src/components/restaurant/CustomerInfo.tsx:13-30 | the label is the status itself, for every string |
| CustomerInfo.StatusVariant | src/components/restaurant/CustomerInfo.tsx:32-48 | pending and cancelled are destructive, confirmed secondary, preparing default, ready and picked_up outline, and anything else secondary |
| CustomerInfo.StatusVariantAsWritten | src/components/restaurant/CustomerInfo.tsx:32-48 | as evaluated, it agrees with the intended map except on picked_up |
| CustomerInfo.PickedUpVariantAsWritten | src/components/restaurant/CustomerInfo.tsx:42-47 | as written picked_up falls to secondary; the intended map gives outline |
| CustomerInfo.VariantsSeparateActiveStates | src/components/restaurant/CustomerInfo.tsx:32-45 | preparing and ready are badged differently; pending and cancelled alike |
| CustomerInfo.Banners | src/components/restaurant/CustomerInfo.tsx:126-150 | at most one banner: the preparing banner iff preparing, the ready banner iff ready |
| RestaurantDashboard.StatusBadgeVariant | src/routes/restaurant/dashboard.tsx:77-90 | pending destructive, preparing default, ready outline, and anything else secondary |
| RestaurantDashboard.StatusLabel | src/routes/restaurant/dashboard.tsx:92-109 | an unlabelled status is returned unchanged |
| RestaurantDashboard.StatusLabelReadBack | src/routes/restaurant/dashboard.tsx:94-105 | each of the six labels reads back as its status, and no label spells a status |
| RestaurantDashboard.StatusLabelsDistinct | src/routes/restaurant/dashboard.tsx:94-105 | the six labels are pairwise distinct |
| RestaurantDashboard.StatusLabelAsWritten | src/routes/restaurant/dashboard.tsx:92-109 | as evaluated, it agrees with the intended labels except on picked_up |
| RestaurantDashboard.PickedUpLabelAsWritten | src/routes/restaurant/dashboard.tsx:102-107 | as written picked_up shows its raw status, not "Récupérée" |
| RestaurantDashboard.FilterOrders | src/routes/restaurant/dashboard.tsx:111-113 | "all" returns the orders unchanged; any other value returns exactly the orders with that statut |
| RestaurantDashboard.CountWithStatus | src/routes/restaurant/dashboard.tsx:208-229 | a count never exceeds the number of orders |
| RestaurantDashboard.CountsMatchFilter | src/routes/restaurant/dashboard.tsx:201-229 | each button's count is the length of the list it selects |
| RestaurantDashboard.CountsWithinTotal | src/routes/restaurant/dashboard.tsx:201-229 | the four status counts add up to at most the "Toutes" count |
| RestaurantDashboard.EmptyMessage | src/routes/restaurant/dashboard.tsx:236-241 | the generic message for "all"; otherwise the lower-cased label of the selection |
| RestaurantDashboard.EmptyMessageShape | src/routes/restaurant/dashboard.tsx:236-241 | the length of each worded message and its first character after "Aucune commande " |
| RestaurantDashboard.EmptyMessageReadBack | src/routes/restaurant/dashboard.tsx:236-241 | the message for "all" or for a labelled status reads back as that selection |
| RestaurantDashboard.EmptyMessagesDistinct | src/routes/restaurant/dashboard.tsx:236-241 | different selections among "all" and the labelled statuses show different empty-list messages |
| RestaurantDashboard.ProductName | src/routes/restaurant/dashboard.tsx:127-138 | the table's name for a known id, else "Produit <id>" |
| RestaurantDashboard.OrderButtons | src/routes/restaurant/dashboard.tsx:284-320 | the buttons offer exactly the panel's transitions, each disabled iff the order is being updated |
| RestaurantDashboard.Dashboard.constructor | src/routes/restaurant/dashboard.tsx:21-27 | no orders, loading, no error, "all" selected, nothing updating |
| RestaurantDashboard.Dashboard.SelectStatus | src/routes/restaurant/dashboard.tsx:199-227 | only the selection changes |
| RestaurantDashboard.Dashboard.DismissError | src/routes/restaurant/dashboard.tsx:183 | only the error is cleared |
| RestaurantDashboard.Dashboard.LoadOrders | src/routes/restaurant/dashboard.tsx:34-52 | nothing without a user id and token; otherwise the list is replaced on success, the error is set on failure, and loading ends |
| RestaurantDashboard.Dashboard.BeginUpdate | src/routes/restaurant/dashboard.tsx:56 | the order joins the updating set; nothing else changes |
| RestaurantDashboard.Dashboard.EndUpdate | src/routes/restaurant/dashboard.tsx:69-73 | only that order leaves the updating set |
| RestaurantDashboard.Dashboard.UpdateOrderStatus | src/routes/restaurant/dashboard.tsx:54-75 | the service run is `UpdateRestaurantOrderStatus`; afterwards the id is out of the updating set, other ids untouched; a failure shows the service's message with the list kept; a success runs the reload, whose guard, list, error and loading flag follow `LoadOrders` |
| OrderDetailsView.ToRow | src/components/restaurant/OrderDetails.tsx:26-35 | a row shows the quantity and product, and a total of unit cents × quantity that reads back as those cents |
| OrderDetailsView.Rows | src/components/restaurant/OrderDetails.tsx:26-35 | exactly one row per order line, in order |
| OrderDetailsView.ConversionKeepsItemCount | src/components/restaurant/OrderDetails.tsx:53 | the restaurant counts as many items as the customer's cart held |
| OrderDetailsView.AveragePrice | src/components/restaurant/OrderDetails.tsx:59-61 | defined iff the item count is non-zero, and then average × count = total |
| OrderDetailsView.TotalText | src/components/restaurant/OrderDetails.tsx:43 | the total line reads back as the stored cents |
| DeliveryDashboard.StatusText | src/routes/delivery/dashboard.tsx:97-108 | French texts for seven statuses; anything else, including absent, unchanged |
| DeliveryDashboard.StatusTextReadBack | src/routes/delivery/dashboard.tsx:99-105 | each of the seven texts reads back as its status |
| DeliveryDashboard.StatusTextsDistinct | src/routes/delivery/dashboard.tsx:99-105 | the seven texts are pairwise distinct |
| DeliveryDashboard.SharedTextsAgree | src/routes/delivery/dashboard.tsx:99-105 | for the five statuses the two dashboards share, courier and restaurateur see the same words |
| DeliveryDashboard.StatusColor | src/routes/delivery/dashboard.tsx:84-95 | the colour of each status, and grey for pending, absent or unknown statuses |
| DeliveryDashboard.DeliveredCount | src/routes/delivery/dashboard.tsx:225 | the number of the courier's deliveries with status delivered |
| DeliveryDashboard.TenthsSumIsTenth | src/routes/delivery/dashboard.tsx:239-241 | adding tenths is a tenth of the sum |
| DeliveryDashboard.EarningsAreTenPercent | src/routes/delivery/dashboard.tsx:239-242 | the estimate is 10% of the delivered amounts |
| DeliveryDashboard.FiguresAfterOneMore | src/routes/delivery/dashboard.tsx:225-242 | one more delivery raises both figures exactly when it is delivered |
| DeliveryDashboard.Dashboard.constructor | src/routes/delivery/dashboard.tsx:35-40 | unavailable, empty lists, loading, no error |
| DeliveryDashboard.Dashboard.ToggleAvailability | src/routes/delivery/dashboard.tsx:72-76 | only the flag flips, so two toggles restore it |
| DeliveryDashboard.Dashboard.LoadDashboardData | src/routes/delivery/dashboard.tsx:49-70 | nothing without a user id and token; otherwise both lists are set on success, the error is set and the lists are kept on failure, and loading ends |
| DialogProvider.WithId | src/providers/DialogProvider.tsx:79-82 | the new address has the form's fields and the given id |
| DialogProvider.Appended | src/providers/DialogProvider.tsx:78-84 | exactly one address is appended; the others are unchanged; a fresh id keeps ids unique |
| DialogProvider.Edited | src/providers/DialogProvider.tsx:86-92 | same length; entries with the id are replaced and all others kept |
| DialogProvider.Without | src/providers/DialogProvider.tsx:96 | exactly the addresses with other ids remain |
| DialogProvider.Reselected | src/providers/DialogProvider.tsx:99-101 | deleting the selected address selects the first remaining one, or nothing; otherwise the selection is unchanged |
| DialogProvider.AutoSelected | src/providers/DialogProvider.tsx:108-112 | with nothing selected and a non-empty list, the first address is selected |
| DialogProvider.EditUnknownIsNoop | src/providers/DialogProvider.tsx:86-92 | editing an unknown id changes nothing |
| DialogProvider.EditIdempotent | src/providers/DialogProvider.tsx:86-92 | saving the same edit twice is saving it once |
| DialogProvider.EditKeepsIds | src/providers/DialogProvider.tsx:86-92 | ids stay in place, unique ids stay unique, and a listed selection stays listed |
| DialogProvider.DeleteUnknownIsNoop | src/providers/DialogProvider.tsx:95-96 | deleting an unknown id changes nothing |
| DialogProvider.DeleteUndoesAdd | src/providers/DialogProvider.tsx:78-96 | deleting a freshly added id restores the list |
| DialogProvider.DeleteKeepsUnique | src/providers/DialogProvider.tsx:95-96 | deletion keeps unique ids unique |
| DialogProvider.DeleteKeepsSelectionListed | src/providers/DialogProvider.tsx:94-105 | after deletion and re-selection, the selection is still one of the addresses |
| DialogProvider.InitialBookValid | src/providers/DialogProvider.tsx:37-60 | the three starting ids are distinct and nothing is selected |
| DialogProvider.AddressBook.constructor | src/providers/DialogProvider.tsx:35-60 | no dialog item, modal closed, nothing selected, the three starting addresses |
| DialogProvider.AddressBook.OpenAddToCartDialog | src/providers/DialogProvider.tsx:62-64 | only the dialog item is set |
| DialogProvider.AddressBook.CloseAddToCartDialog | src/providers/DialogProvider.tsx:66-68 | only the dialog item is cleared |
| DialogProvider.AddressBook.OpenAddressModal | src/providers/DialogProvider.tsx:70-72 | only the modal flag is set |
| DialogProvider.AddressBook.CloseAddressModal | src/providers/DialogProvider.tsx:74-76 | only the modal flag is cleared |
| DialogProvider.AddressBook.SetSelectedAddress | src/providers/DialogProvider.tsx:37 | only the selection changes |
| DialogProvider.AddressBook.AddAddress | src/providers/DialogProvider.tsx:78-84 | the list becomes `Appended` with the clock's decimal text as id; the selection is unchanged |
| DialogProvider.AddressBook.EditAddress | src/providers/DialogProvider.tsx:86-92 | the list becomes `Edited`; the selection is never changed; unique ids are kept |
| DialogProvider.AddressBook.DeleteAddress | src/providers/DialogProvider.tsx:94-105 | the list becomes `Without` and the selection `Reselected`; uniqueness and a listed selection are kept |
| DialogProvider.AddressBook.AutoSelect | src/providers/DialogProvider.tsx:108-112 | afterwards the selection is set whenever the list is non-empty |
| AddressModal.FromSuggestion | src/components/AddressSelectionModal.tsx:62-71 | name → street, city → city, postcode → postal code, country "France" |
| AddressModal.Submitted | src/components/AddressSelectionModal.tsx:74-76 | the form is handed over iff street, city and postal code are non-empty |
| AddressModal.SubmissionIgnoresCountry | src/components/AddressSelectionModal.tsx:75 | the empty form is refused and the country never decides |
| AddressModal.SuggestionSubmittable | src/components/AddressSelectionModal.tsx:62-76 | a chosen suggestion can be added iff it has a name, city and postcode, and it is added in France |
| AddressModal.OnlyLastHighlighted | src/components/AddressSelectionModal.tsx:132 | with unique ids, when the last card is highlighted no earlier card is |
| AddressModal.HighlightedCards | src/components/AddressSelectionModal.tsx:132-145 | with unique ids, at most one card is highlighted, and exactly one when the selection is listed |
| AddressModal.AddressForm.constructor | src/components/AddressSelectionModal.tsx:32-45 | not adding, not editing, empty query, no suggestion, the empty form |
| AddressModal.AddressForm.StartAdding | src/components/AddressSelectionModal.tsx:193 | only adding mode turns on |
| AddressModal.AddressForm.EditForm | src/components/AddressSelectionModal.tsx:216-287 | only the form and the query change |
| AddressModal.AddressForm.SelectSuggestion | src/components/AddressSelectionModal.tsx:62-71 | the suggestion is chosen, the query becomes its label, the form is filled from it |
| AddressModal.AddressForm.AddAddress | src/components/AddressSelectionModal.tsx:74-87 | hands over `Submitted(form)`; success resets the form, failure changes nothing |
| AddressModal.AddressForm.CancelAdd | src/components/AddressSelectionModal.tsx:101-112 | the same reset as a successful add |
| AddressModal.AddressForm.SetEditing | src/components/AddressSelectionModal.tsx:163 | only the address being edited changes |
| AddressModal.AddressForm.EditAddress | src/components/AddressSelectionModal.tsx:89-94 | a complete edit is handed over and the edit state cleared; otherwise nothing changes |
| LoginForm.ShapeMatches | src/components/LoginForm.tsx:29 | a local `x@y.z` shape anywhere makes the pattern match |
| LoginForm.MatchHasShape | src/components/LoginForm.tsx:29 | a match exhibits such a shape |
| LoginForm.EmailMatchesIffShape | src/components/LoginForm.tsx:29 | the unanchored test holds iff the shape occurs somewhere |
| LoginForm.MatchSurvivesPadding | src/components/LoginForm.tsx:29 | text around a matching address does not matter |
| LoginForm.NoAtNoMatch | src/components/LoginForm.tsx:29 | text without '@' never matches |
| LoginForm.Utf16Length | src/components/LoginForm.tsx:35 | `length` counts code units: between one and two per character |
| LoginForm.Utf16LengthBasicPlane | src/components/LoginForm.tsx:35 | within the basic plane it equals the character count |
| LoginForm.EmailError | src/components/LoginForm.tsx:27-31 | empty → "requis"; non-matching → "pas valide"; no error iff non-empty and matching |
| LoginForm.PasswordError | src/components/LoginForm.tsx:33-37 | empty → "requis"; under 6 → the length error; no error iff at least 6 |
| LoginForm.Validate | src/components/LoginForm.tsx:24-41 | no error recorded iff the email is present and matches and the password has at least 6 units |
| LoginForm.TestUserValid | src/components/LoginForm.tsx:79-83 | the test credentials pass |
| LoginForm.Form.constructor | src/components/LoginForm.tsx:16-21 | empty fields, no errors |
| LoginForm.Form.HandleSubmit | src/components/LoginForm.tsx:44-58 | the errors are `Validate`'s; login is called iff there are none; a login failure's message is shown |
| LoginForm.Form.HandleChange | src/components/LoginForm.tsx:61-76 | only the edited field changes, and only its error is cleared |
| LoginForm.Form.FillTestUser | src/components/LoginForm.tsx:79-86 | fixed credentials that pass validation, and no errors |
| AuthProvider.DefaultRouteForUser | src/providers/AuthProvider.tsx:20-32 | delivery → "/delivery/dashboard", restaurant → "/restaurant/dashboard", everything else and null → "/" |
| AuthProvider.RoutesSeparateRoles | src/providers/AuthProvider.tsx:20-32 | each dashboard route is reached by exactly its role |
| AuthProvider.UserIdFor | src/providers/AuthProvider.tsx:94-98 | the token's subject when non-empty, else the response's id |
| AuthProvider.IsTokenExpired | src/providers/AuthProvider.tsx:43-54 | an unreadable token is expired; otherwise expired iff now ≥ exp·1000 |
| AuthProvider.Restored | src/providers/AuthProvider.tsx:58-81 | resumes iff token and user are stored and the token is live; otherwise the storage is cleared |
| AuthProvider.ResumeNeedsLiveToken | src/providers/AuthProvider.tsx:63 | a resumed session has a readable, non-empty, unexpired token |
| AuthProvider.LoginSurvivesReload | src/providers/AuthProvider.tsx:63-70 | what a login stores is resumed on reload while the token is live |
| AuthProvider.Auth.constructor | src/providers/AuthProvider.tsx:35-40 | loading, signed out, with the stored values |
| AuthProvider.Auth.LoadStoredAuth | src/providers/AuthProvider.tsx:57-84 | loading ends; resume, clearing or a parse failure exactly as `Restored` decides |
| AuthProvider.Auth.Login | src/providers/AuthProvider.tsx:87-115 | success signs in with the token, stores both and ends loading; failure ends loading, rethrows and keeps user and token |
| AuthProvider.Auth.Register | src/providers/AuthProvider.tsx:138-166 | the same transitions as login, with the registration reply |
| AuthProvider.Auth.Logout | src/providers/AuthProvider.tsx:118-135 | whatever the service answers, signed out and both storage keys removed |
| AuthProvider.Auth.UpdateProfile | src/providers/AuthProvider.tsx:169-192 | refused without a user and token; otherwise the returned profile replaces the user |
| RoleGuard.EffectiveRole | src/components/RoleGuard.tsx:29 | a missing or empty role counts as "user" |
| RoleGuard.Guard | src/components/RoleGuard.tsx:20-57 | loader iff loading; children iff authenticated with an allowed role; login redirect when signed out; fallback redirect on a wrong role |
| RoleGuard.NoRedirectWhileLoadingOrShown | src/components/RoleGuard.tsx:20-35 | no redirect while loading or when the page is shown |
| RoleGuard.RolelessIsCustomer | src/components/RoleGuard.tsx:29-52 | a role-less user passes iff "user" is allowed |
| RoleGuard.MissingUserStaysBlank | src/components/RoleGuard.tsx:47-49 | signed in without a user object: nothing shown and no redirect |
| RestaurantSearch.SecondSegment | src/routes/index.tsx:32 | absent iff the text has no '-'; otherwise a piece with no '-' |
| RestaurantSearch.FilteredRestaurants | src/routes/index.tsx:15-35 | exactly the restaurants passing all four tests |
| RestaurantSearch.NothingSetShowsAll | src/routes/index.tsx:17-31 | no query and no filter shows every restaurant, in order |
| RestaurantSearch.VegetarianIgnored | src/routes/index.tsx:15-35 | the vegetarian flag does not affect the result |
| RestaurantSearch.SearchIgnoresCase | src/routes/index.tsx:17-20 | the search is blind to the case of the query |
| RestaurantSearch.StricterShowsSubsequence | src/routes/index.tsx:34 | a stricter query or filter set yields a filtered subsequence of the looser result |
| RestaurantSearch.SecondSegmentOf | src/routes/index.tsx:32 | splitting "a-b" gives b |
| RestaurantSearch.SegmentOfExample | src/routes/index.tsx:32 | "25-35 min" splits to "35 min" |
| RestaurantSearch.ParseOfExample | src/routes/index.tsx:32 | `parseInt("35 min")` is 35 |
| RestaurantSearch.DeliveryTimeExample | src/routes/index.tsx:31-32 | "25-35 min" passes a 40-minute maximum and fails a 30-minute one |
| RestaurantSearch.NoDashDropped | src/routes/index.tsx:31-32 | a time without '-' is excluded by any active maximum |
| FilterBar.ToggleRating | src/components/FilterBar.tsx:66-69 | clears a set minimum, else sets 4; other fields unchanged |
| FilterBar.ToggleDeliveryTime | src/components/FilterBar.tsx:79-82 | clears a set maximum, else sets 30; other fields unchanged |
| FilterBar.ToggleVegetarian | src/components/FilterBar.tsx:94-97 | clears a true flag, else sets it; other fields unchanged |
| FilterBar.QuickTogglesInvolutive | src/components/FilterBar.tsx:66-97 | between absent and the quick value, each toggle undoes itself |
| FilterBar.ActiveCount | src/components/FilterBar.tsx:41-43 | at most 4, and 0 iff no field is set |
| FilterBar.ClearFilters | src/components/FilterBar.tsx:37-39 | the cleared filters have count 0 |
| FilterBar.TogglesMoveCountByOne | src/components/FilterBar.tsx:41-97 | each quick toggle moves the count by exactly one |
| FilterBar.ActiveBadge | src/components/FilterBar.tsx:48-51 | the badge is shown iff the count > 0, and its label is plural iff the count > 1 |
| FilterBar.ToggleCuisineAsWritten | src/components/FilterBar.tsx:25-35 | as written, with a single or absent cuisine the result is always the clicked one; other fields unchanged |
| FilterBar.RemoveAll | src/components/FilterBar.tsx:28 | removes exactly the occurrences of the value |
| FilterBar.CuisineNeverClearsAsWritten | src/components/FilterBar.tsx:25-35 | as written, a second click keeps the cuisine selected |
| FilterBar.CuisineHighlighted | src/components/FilterBar.tsx:110 | highlighted when the filter is that cuisine, and not when absent |
| FilterBar.ToggleCuisine | src/components/FilterBar.tsx:25-35 | intended: clicking the selected cuisine clears it, clicking another selects it; other fields unchanged |
| FilterBar.ToggleCuisineInvolutive | src/components/FilterBar.tsx:25-35 | the intended toggle undoes itself and flips the highlight |
| UseMenuItems.OrDefault | src/hooks/useMenuItems.ts:28-31 | a present non-empty value is kept; otherwise the default |
| UseMenuItems.MapProduit | src/hooks/useMenuItems.ts:6-37 | decimal id and copied fields; defaults; no allergens; vegan iff a vegan keyword occurs; vegetarian iff any vegan or vegetarian keyword; vegan ⇒ vegetarian |
| UseMenuItems.ContainsAnyAppend | src/hooks/useMenuItems.ts:13-14 | a word of a + b occurs iff a word of a or of b does |
| UseMenuItems.PopularityFromNameOnly | src/hooks/useMenuItems.ts:19-21 | popularity depends only on the name |
| UseMenuItems.VeganKeywordMakesVegan | src/hooks/useMenuItems.ts:8-13 | a vegan keyword in the name or the description makes the dish vegan and vegetarian |
| UseMenuItems.BlankProductHasNoFlags | src/hooks/useMenuItems.ts:8-21 | a product with no name and no description has no flag |
| UseMenuItems.MenuItemsHook.constructor | src/hooks/useMenuItems.ts:40-42 | empty menu, loading, no error |
| UseMenuItems.MenuItemsHook.FetchMenuItems | src/hooks/useMenuItems.ts:44-64 | an empty id empties the menu without a request; otherwise the mapped products in order, or the error; loading ends |
| UseMenuItems.SingleProductHook.constructor | src/hooks/useMenuItems.ts:79-81 | no product, loading, no error |
| UseMenuItems.SingleProductHook.FetchProduct | src/hooks/useMenuItems.ts:83-103 | an empty id clears the product without a request; otherwise the mapped product, or the error; loading ends |
| UseRestaurants.CuisineFromName | src/hooks/useRestaurants.ts:8-19 | the inferred cuisine list is a singleton |
| UseRestaurants.ContainsAnyOne | src/hooks/useRestaurants.ts:12 | a one-word group matches iff the word occurs |
| UseRestaurants.ContainsAnyTwo | src/hooks/useRestaurants.ts:10-17 | a two-word group matches iff either word occurs |
| UseRestaurants.CuisineFromNameIsFirstRule | src/hooks/useRestaurants.ts:8-19 | the if-chain agrees with the rule table: the first group in order that matches wins |
| UseRestaurants.NoRuleFrom | src/hooks/useRestaurants.ts:18 | when no later group matches, the result is the fallback |
| UseRestaurants.NoKeywordFallback | src/hooks/useRestaurants.ts:18 | a name with no keyword gives ["restaurant"] |
| UseRestaurants.SushiBeforePizza | src/hooks/useRestaurants.ts:10-11 | "Sushi Pizza" is Japanese |
| UseRestaurants.MapRestaurant | src/hooks/useRestaurants.ts:6-33 | decimal id, description and image fall back to defaults, constant rating/time/fee, no promo, the table's cuisine, and isOpen the API value (false included) or true |
| UseRestaurants.MappedRestaurantFilters | src/hooks/useRestaurants.ts:26-27 | every mapped restaurant passes a delivery maximum m iff m = 0 or m ≥ 35, and any minimum rating up to 4.5 |
| UseRestaurants.RestaurantsHook.constructor | src/hooks/useRestaurants.ts:36-38 | no restaurants, loading, no error |
| UseRestaurants.RestaurantsHook.FetchRestaurants | src/hooks/useRestaurants.ts:40-53 | the mapped restaurants in order, or the error with the list kept; loading ends |
| MockData.RestaurantById | src/data/index.ts:23-25 | the first restaurant with the id, whose id is the one asked; nothing iff none has it |
| MockData.MenuItemsByRestaurantId | src/data/index.ts:28-30 | the stored menu, or [] for an unknown restaurant |
| MockData.UserById | src/data/index.ts:33-35 | the first user with the id, or nothing iff none has it |
| MockData.AddressById | src/data/index.ts:38-40 | the first address with the id, or nothing iff none has it |
| MockData.OrdersByUserId | src/data/index.ts:43-45 | all and only that user's orders |
| MockData.OrderById | src/data/index.ts:48-50 | the first order with the id, or nothing iff none has it |
| MockData.DeliveryByOrderId | src/data/index.ts:53-55 | the first delivery whose order id matches, or nothing iff none matches |
| MockData.DeliveryPersonById | src/data/index.ts:58-60 | the first courier with the id, or nothing iff none has it |
| MockData.FoundOrderIsUsersOrder | src/data/index.ts:43-50 | an order found by id is among its user's orders |
| MockData.OrderFoundByOwnId | src/data/index.ts:48-50 | with unique ids, each order is found by its own id |
| MockData.DeliveryLookupIgnoresOwnId | src/data/index.ts:53-55 | the lookup matches the order id, not the delivery's own id |

## Left out

- Rendering:
  - JSX, styling, icons, routing glue, and the pages that only wire components together (the
    login and register routes, the layout, the header, the menu and restaurant cards).
- Network I/O:
  - Each `fetch` is a parameter: a response with a status and a body, or a rejection.
  - The services that only wrap `fetch` (authentication, delivery, product, and the address
    search of `useAddressSearch`) are not modelled beyond the reply they give.
  - The 300 ms debounce of the address search is not modelled.
- Token decoding:
  - `atob`/`JSON.parse` of the token is not modelled; the decoded subject and expiry are
    inputs.
  - `JSON.parse` of the stored user is an input that either parses or throws.
- Clock:
  - `Date.now()` ids and `new Date().toISOString()` creation dates are parameters.
  - Elapsed-time and date formatting are not modelled.
- Floating point:
  - Euro amounts are exact reals. IEEE rounding, `toFixed(2)` on euro floats and the float
    text of the progress width are not modelled.
  - `formatPrice` on integer cents is modelled.
- Persistence:
  - `localStorage` is modelled only as the slots the handlers read and write.
  - The cart's JSON persistence effect is not modelled.
- Concurrency:
  - `Promise.all`, React effect scheduling and stale closures are not modelled; each handler
    is one atomic step.
  - In particular, `deleteAddress` calling `setSelectedAddress` inside the list updater is
    treated as one step.
- Mock fixtures:
  - The demonstration tables are parameters of the lookups.
  - `getMenuItemsByRestaurantId` is modelled on a map, so prototype keys of a JavaScript
    object are not modelled.
- Case folding:
  - `toLowerCase` is ASCII case folding.
  - Accented keywords such as "végan" are matched only in the case they are written in.
- UseMenuItems.MenuItemsHook.FetchMenuItems:
  - The id is a string, so a numeric id 0 (also falsy) is not modelled.
  - The `parseInt` of the id before the request is part of the service call.
- UseMenuItems.SingleProductHook.FetchProduct: the same simplification for its id.
- AuthProvider.Auth.Register: the registration request itself belongs to the authentication
  service; only the provider's state transitions are modelled.
- Checkout.CheckoutPage.PlaceOrder: the navigation after success and the alert on failure are
  not modelled.
- StatusProgress: `UnifiedOrderStatus.PICKED_UP` is not defined, so the model gives picked-up
  orders the spelling "picked_up".
- Endpoint configuration:
  - `API_CONFIG` (src/config/api.ts:2-28) has no `COMMANDES` group.
  - As written, the field initializer at src/services/orderService.ts:10 reads
    `API_CONFIG.COMMANDES.BASE`, which throws a TypeError when the exported service instance is
    built. So loading the order service module fails.
  - The paths read at lines 183, 203 and 223 would also be undefined.
  - The model abstracts the endpoint configuration: every endpoint is reachable and answers with
    its reply parameter. It does not model the module failing to load.

## Findings

| source | as written | input that shows it | evidently intended | confidence | as-written member | corrected member |
|---|---|---|---|---|---|---|
| src/components/restaurant/OrderStatusProgress.tsx:54 | the fifth step's key is `UnifiedOrderStatus.PICKED_UP`, which the enumeration at src/types/index.ts:12-30 does not define, so that key is undefined | status "picked_up" | a picked-up order is shown at the last step "Récupérée" | not executed | StatusProgress.PickedUpStepUnreachable | StatusProgress.SafeIndex |
| src/components/restaurant/OrderActions.tsx:102 | the estimated time compares against the undefined `PICKED_UP` | estimatedTime 10, status "picked_up" | no remaining time is shown for a picked-up order | not executed | OrderActions.PickedUpStillShowsTime | OrderActions.EstimatedTimeShown |
| src/components/restaurant/OrderActions.tsx:71 | the `PICKED_UP` case never matches, so a picked-up order falls to `default` and the panel shows nothing | status "picked_up" | the badge "Commande récupérée par le livreur" | not executed | OrderActions.PickedUpPanelAsWritten | OrderActions.RenderActions |
| src/components/restaurant/CustomerInfo.tsx:42-43 | the `PICKED_UP` case never matches | status "picked_up" | outline, like ready | not executed | CustomerInfo.PickedUpVariantAsWritten | CustomerInfo.StatusVariant |
| src/routes/restaurant/dashboard.tsx:102-103 | the `PICKED_UP` case never matches | status "picked_up" | the label "Récupérée" | not executed | RestaurantDashboard.PickedUpLabelAsWritten | RestaurantDashboard.StatusLabel |
| src/components/FilterBar.tsx:26-33 | a single `cuisineType` is read as the empty list, so every click sets the clicked cuisine | cuisineType "italian", click "italian" | the second click clears the cuisine filter | not executed | FilterBar.CuisineNeverClearsAsWritten | FilterBar.ToggleCuisine |
