# grundy-app storefront: payment and delivery core in Dafny

This project models the core of the grundy-app storefront, a Next.js shop that takes Paystack payments and hands orders to delivery drivers. It covers:

- **Redemption codes.** Eight characters over `[A-Z0-9]`. The generator redraws a code on collision, against an existence check, with a cap of ten redraws.
- **The order store.** The Firestore `orders` collection, with create, point read, partial-merge update and equality query.
- **The two checkout routes.**
  - Pay now: the order is stored first, then a Paystack transaction is opened and its reference is written back.
  - Pay on delivery: a Paystack payment request is made first, then the order is stored with its offline reference.
- **The Paystack webhook.** Two signature guards. A `charge.success` event marks one order paid; it is found by its stored reference, else by the metadata order id.
- **The driver's delivery gate.**
  - Which confirmation an order needs before it may be marked delivered.
  - The POS and transfer confirmations that record one.
  - The deliver request.
- **The driver's order list.** The page's visibility filter, the derived status, and the dashboard search.
- **The shopping cart.** Add, remove, set quantity and the totals. The product page's quantity picker calls "add" once per unit.
- **The idempotent catalogue seed.**

How the model is built:

- **Pure decisions** are functions: validation guards, `canDeliver`, `determineVerification`, the cart updaters, the filters and the status derivation.
- **Code that changes state step by step** is imperative:
  - the order store and the cart are classes whose methods reassign `map`/`seq` fields;
  - the route handlers are methods over the store;
  - the code generator and the seed are loops.
- **Randomness, the payment gateway, the Paystack popup, the signature check and the two order endpoints the driver screen calls** are inputs. Each is given as a parameter describing its outcome.
- **Randomness** in particular is a stream of indices into the 36-character alphabet. Candidate `k` of one call of the generator uses draws `8k .. 8k+7`.

Behaviour of the code that a reader of its types or names might not expect, and which the model follows:

- **Retry cap.** The loop condition at lib/utils/redemptionCode.ts:17 calls `checkExists` before it compares `attempts` with `maxAttempts = 10` (line 15). So after ten collisions an eleventh candidate is checked and then discarded, and line 22 throws even if that candidate is free. That means up to 11 existence checks.
- **Delivery status at checkout.** types/index.ts:31 declares `deliveryStatus: "pending" | "delivered"` as a required field, but neither `createOrder` call (app/api/paystack/create-transaction/route.ts:38-46, app/api/paystack/create-invoice/route.ts:56-66) writes it. So a fresh order has none, modelled as `Option`. The dashboard treats a missing status as not delivered.
- **Payment status can revert.** `updateOrderPaymentStatus` (lib/firebase/orders.ts:30-44) writes the status without reading the order. It can set a paid, delivered order back to `pending`. The only "already paid" refusal is in the `/api/orders/{id}/payment-status` route, which is not part of this model.
- **Transfer failures.** The driver's transfer confirmation shows any failure whose message is exactly `cancelled` as a cancellation notice rather than an error. That includes a server error payload that says `cancelled`.
- **Pay-now delivery code.** The deliver request for a pay-now order carries the stored redemption code, not what the driver typed. Only the enabled state of the button depends on the input.

## Model

| member | source | states |
|---|---|---|
| RedemptionCode.AlphabetIsCodeChars | lib/utils/redemptionCode.ts:2 | the 36-character alphabet consists of exactly the characters `A-Z` and `0-9` |
| RedemptionCode.CodeFrom | lib/utils/redemptionCode.ts:1-8 | a code built from eight draws has length 8, every character in `[A-Z0-9]`, and character `i` is the alphabet entry of draw `i` |
| RedemptionCode.GenerateRedemptionCode | lib/utils/redemptionCode.ts:1-8 | the loop appending one drawn character per round yields an 8-character `[A-Z0-9]` code, the one spelled by the draws |
| RedemptionCode.FirstFree | lib/utils/redemptionCode.ts:17-20 | the index of the first candidate the existence check rejects, or the cap of 10; all earlier candidates exist |
| RedemptionCode.FirstFreeIs | lib/utils/redemptionCode.ts:17-20 | any index below the cap with all earlier candidates taken and itself free (or the cap with all taken) is the first free one |
| RedemptionCode.GenerateUniqueRedemptionCode | lib/utils/redemptionCode.ts:10-27 | the result is the first candidate among the first ten that `checkExists` rejects, else the exhaustion error; a returned code is well formed and not taken; `checkExists` is called once more than the number of redraws, at most 11 times; a free first candidate is returned after exactly one check |
| RedemptionCode.TenCollisionsThrow | lib/utils/redemptionCode.ts:17-24 | ten collisions in a row make the call throw "Failed to generate unique redemption code" whatever the eleventh candidate is |
| RedemptionCode.GeneratedIffSomeCandidateFree | lib/utils/redemptionCode.ts:13-26 | a code is returned exactly when one of the first ten candidates is free, and it is the first free one |
| Orders.Merge | lib/firebase/firestore.ts:72-87 | a partial update overwrites exactly the named fields and keeps every other field of the document |
| Orders.PaymentStatusUpdate | lib/firebase/orders.ts:30-39 | `updateOrderPaymentStatus` sets the status, writes the reference only when it is non-empty, leaves delivery status, code, items, method, amount and delivery codes untouched, does not depend on the current status, and is idempotent |
| Orders.MatchingIds | lib/firebase/firestore.ts:90-110 | an equality query returns the ids, in enumeration order, of exactly the stored documents whose field equals the value |
| Orders.MatchingIdsDependsOnlyOnMatches | lib/firebase/firestore.ts:90-110 | two stores that agree on which enumerated ids match give the same query answer |
| Orders.AddKeepsCodesUnique | lib/firebase/orders.ts:4-10 | storing an order whose code no stored order carries keeps redemption codes pairwise distinct |
| Orders.MergeKeepsCodesUnique | lib/firebase/orders.ts:36-39 | a partial update keeps redemption codes pairwise distinct |
| Orders.OrderStore.CreateOrder | lib/firebase/orders.ts:4-15 | the given fields plus `createdAt` are stored under a fresh id, which is returned; every other order is unchanged; the new id joins the store's enumeration order (last, in this model); the store stays well formed |
| Orders.OrderStore.GetOrderById | lib/firebase/orders.ts:17-28 | the stored order for a known id, and null for an unknown one |
| Orders.OrderStore.UpdateDocument | lib/firebase/firestore.ts:72-87 | an update of an existing document merges the patch into it; an update of a missing document fails and changes nothing |
| Orders.OrderStore.UpdateOrderPaymentStatus | lib/firebase/orders.ts:30-44 | the order becomes the merge of the status (and non-empty reference) into it; a missing order fails |
| Orders.OrderStore.QueryDocuments | lib/firebase/firestore.ts:90-110 | the loop over the enumerated documents returns the query answer `MatchingIds` |
| Webhook.HandleWebhook | app/api/paystack/webhook/route.ts:6-63 | a missing signature or a failed check gives 401 and no store change; a parsed event leaves the store as the event semantics prescribes and answers `received`, or 500 when the targeted order does not exist |
| Webhook.EventOnlyMarksPaid | app/api/paystack/webhook/route.ts:30-51 | an event adds or removes no order, changes no order other than its target, never un-pays an order, keeps delivery status and redemption codes, leaves its target paid, and keeps codes unique |
| Webhook.ChargeTargetChoice | app/api/paystack/webhook/route.ts:34-50 | when orders carry the event's reference the target is one of them (the first); when none does, the target is the metadata order id if non-empty, else there is none |
| Webhook.OnlyUpdatedOrderCanMatch | app/api/paystack/webhook/route.ts:41-48 | when no order carried a reference, after one order is updated only that order can match it |
| Webhook.ReplayIsIdempotent | app/api/paystack/webhook/route.ts:41-53 | handling the same event a second time leaves the store as the first delivery left it and gives the same response |
| CheckoutRequest.RedemptionCodeExistsIffInUse | app/api/paystack/create-transaction/route.ts:27-35 | the existence callback the checkout routes pass answers exactly whether some stored order carries the code |
| CheckoutRequest.ThrownMessage | lib/paystack.ts:61-85 | the message a thrown Paystack call carries: the missing-secret message, else the gateway's non-empty error message, else the client's fallback |
| CreateTransaction.ValidateBody | app/api/paystack/create-transaction/route.ts:12-24 | the body passes exactly when items is a non-empty array and name, email and total amount are truthy; missing items is reported first |
| CreateTransaction.HandleCreateTransaction | app/api/paystack/create-transaction/route.ts:7-84 | an invalid body gives 400 and no code, write or gateway call; otherwise a fresh unused code is drawn, the pending pay-now order is stored before the gateway call; a gateway answer without data gives 500 "Failed to create Paystack transaction", and a thrown gateway call gives 500 with its message (the missing-secret message, the gateway's error message, or "Failed to create transaction"); both leave that order without a reference; success writes the reference and returns the stored id and code; codes stay unique |
| CreateTransaction.StoreThenOpenTransaction | app/api/paystack/create-transaction/route.ts:37-74 | the order is stored, the transaction request carries its id and code; a failed or thrown gateway call answers 500 with its message; only a successful gateway answer writes `paystackRef` |
| CreateInvoice.ValidateBody | app/api/paystack/create-invoice/route.ts:12-24 | the body passes exactly when items is a non-empty array and name, email, address and total amount are truthy |
| CreateInvoice.HandleCreateInvoice | app/api/paystack/create-invoice/route.ts:7-83 | an invalid body gives 400 and no write; the payment request is made before any write, so a gateway answer without data (500 "Failed to create Paystack invoice") or a thrown gateway call (500 with its message, the missing-secret message, the gateway's error message, or "Failed to create invoice") leaves the store unchanged; success stores a pending pay-on-delivery order with the offline reference and code and returns the same id, code and reference; codes stay unique |
| CreateInvoice.StoredInvoiceOrder | app/api/paystack/create-invoice/route.ts:56-66 | the stored order is pay-on-delivery, pending, not delivered, carries the offline reference, address and code, and neither a POS nor a transfer delivery code |
| Cart.WithAdded | context/CartContext.tsx:49-61 | adding a product in the cart raises every line for it by one, keeping name and price, and leaves other lines; a new product is appended with quantity 1 |
| Cart.WithRemoved | context/CartContext.tsx:63-65 | after removal no line is for the product, every other line is kept as many times as it occurred, and the kept lines keep their order |
| Cart.WithQuantity | context/CartContext.tsx:67-77 | a quantity of 0 or less removes the product; otherwise its lines get that quantity, the others are unchanged, and a cart without it is unchanged |
| Cart.TotalsBoundLines | context/CartContext.tsx:86-92 | `totalItems` and `totalPrice` are sums over the lines: with non-negative quantities (and prices) each is non-negative and at least any single line's quantity (or line total) |
| Cart.TotalsOfConcat | context/CartContext.tsx:86-92 | both totals of two carts side by side are the sums of their totals |
| Cart.TotalsAfterReplace | context/CartContext.tsx:86-92 | replacing one line moves both totals by that line's difference |
| Cart.AddKeepsUnique | context/CartContext.tsx:49-61 | `addToCart` keeps product ids unique |
| Cart.AddToCartTotals | context/CartContext.tsx:49-92 | on a cart without duplicates `addToCart` adds exactly 1 to the item total and the stored (or, for a new product, the given) price to the price total |
| Cart.AddExistingTotals | context/CartContext.tsx:52-57 | incrementing the unique line of a product adds 1 item and its stored price |
| Cart.UpdateQuantityTotals | context/CartContext.tsx:72-92 | setting a positive quantity keeps ids unique and moves the item total by the line's difference |
| Cart.NonPositiveUpdateIsRemove | context/CartContext.tsx:68-71 | `updateQuantity` with 0 or less is `removeFromCart` |
| Cart.RemoveIsIdentityIffAbsent | context/CartContext.tsx:63-65 | removal leaves the cart unchanged exactly when it holds no line for the product |
| Cart.RemoveUndoesAddOfNew | context/CartContext.tsx:49-65 | removing a product just added to a cart without it gives the cart back |
| Cart.AddKeepsWellFormed | context/CartContext.tsx:49-61 | adding keeps ids unique and quantities positive |
| Cart.QuantityKeepsWellFormed | context/CartContext.tsx:67-77 | setting a quantity keeps ids unique and quantities positive |
| Cart.RemovedKeepsWellFormed | context/CartContext.tsx:63-65 | removing keeps ids unique and quantities positive |
| Cart.CartProvider.AddToCart | context/CartContext.tsx:49-61 | the cart state becomes the `addToCart` update of the old state and stays well formed |
| Cart.CartProvider.RemoveFromCart | context/CartContext.tsx:63-65 | the cart state becomes the removal update of the old state and stays well formed |
| Cart.CartProvider.UpdateQuantity | context/CartContext.tsx:67-77 | the cart state becomes the quantity update of the old state and stays well formed |
| Cart.CartProvider.ClearCart | context/CartContext.tsx:79-92 | the cart is empty and both totals are 0 |
| ProductDetail.ClampInput | components/ProductDetail.tsx:75 | the typed quantity is at least 1: a parsed value of 1 or more is kept, NaN, 0 and negatives become 1 |
| ProductDetail.AddTimesEffect | components/ProductDetail.tsx:16-25 | adding a product `q >= 1` times raises its line(s) by `q`, or appends it with quantity `q`, and leaves other lines unchanged |
| ProductDetail.AddTimesTotalItems | components/ProductDetail.tsx:16-25 | on a cart without duplicates the item total rises by exactly `q` and ids stay unique |
| ProductDetail.ProductView.constructor | components/ProductDetail.tsx:14 | the selected quantity starts at 1 |
| ProductDetail.ProductView.Decrement | components/ProductDetail.tsx:65 | decrement lowers the quantity by one but never below 1 |
| ProductDetail.ProductView.Increment | components/ProductDetail.tsx:79 | increment raises the quantity by exactly 1 |
| ProductDetail.ProductView.SetFromInput | components/ProductDetail.tsx:75 | the quantity becomes the clamped typed value |
| ProductDetail.ProductView.HandleAddToCart | components/ProductDetail.tsx:16-25 | the loop calls `addToCart` once per unit, leaving the cart as `q` successive additions |
| Seqs.Filter | app/driver/page.tsx:11-15 | a filter keeps exactly the elements that pass, in their order, each as many times as it occurs in the input, and no element that fails |
| DriverPage.DriverOrders | app/driver/page.tsx:11-15 | every listed order is pay-on-delivery or paid, every pay-on-delivery and every paid order is listed as many times as it was fetched, and the fetched order is kept |
| DriverPage.ListedIff | app/driver/page.tsx:11-15 | an order is listed exactly when it is pay-on-delivery or paid; no pending pay-now order is listed |
| DriverDashboard.StatusOf | components/driver/DriverDashboard.tsx:23-28 | delivered if the delivery status is delivered, else paid if the payment status is paid, else pending, each in both directions |
| DriverDashboard.LabelsAgree | components/driver/DriverDashboard.tsx:79-84 | the badge word is the search word capitalised, and distinct statuses have distinct words |
| DriverDashboard.FilterOrders | components/driver/DriverDashboard.tsx:16-36 | a blank trimmed query returns the list unchanged; otherwise exactly the orders whose lower-cased id, lower-cased name or status word contains the term, each as many times as it occurs, in order |
| DriverDashboard.KeptIffMatches | components/driver/DriverDashboard.tsx:22-35 | for a non-blank query an order is kept exactly when it matches the term |
| DriverDashboard.BlankQueryKeepsAll | components/driver/DriverDashboard.tsx:17-20 | a query of only white space keeps every order |
| DriverDashboard.StatusWordFindsStatus | components/driver/DriverDashboard.tsx:23-33 | searching for a status word finds every order in that status |
| DriverDashboard.SearchStaysWithinDriverOrders | components/driver/DriverDashboard.tsx:16-36 | searching the driver page's list never shows a pending pay-now order |
| Strings.TrimIsCore | components/driver/DriverOrderActions.tsx:67 | `trim` returns the contiguous slice of the input between leading and trailing white space, with no white space at either end |
| Strings.TrimKeepsUnpadded | components/driver/DriverDashboard.tsx:17 | `trim` leaves a string without white space at either end unchanged |
| Strings.UpperCaseEqualityIsCaseInsensitive | components/driver/DriverOrderActions.tsx:45 | two upper-cased strings are equal exactly when the strings agree character by character up to letter case |
| Strings.IncludesAt | components/driver/DriverDashboard.tsx:31-33 | `includes` holds whenever the term is the slice of the string at some offset |
| Seed.SeedNamesDistinct | app/api/seed/route.ts:12-103 | the ten built-in products have pairwise distinct names |
| Seed.SeedOnlyAppends | app/api/seed/route.ts:119-125 | the seed only appends: existing documents are an unchanged prefix and each added document is a seed product |
| Seed.SeedStoresEveryName | app/api/seed/route.ts:110-126 | after the loop every seed product's name is stored |
| Seed.SeedOfStoredNamesIsNoOp | app/api/seed/route.ts:111-122 | products whose names are all stored are all skipped |
| Seed.SeedIsIdempotent | app/api/seed/route.ts:105-128 | running the seed twice is running it once |
| Seed.FreshNamesAreAllCreated | app/api/seed/route.ts:110-126 | distinctly named products none of which is stored are all created, in order |
| Seed.SeedCounts | app/api/seed/route.ts:107-128 | on a store without the seed names the first run creates 10 and a second run creates 0 |
| Seed.ProductCatalog.AddDocument | app/api/seed/route.ts:124 | the product is appended to the collection |
| Seed.RunSeed | app/api/seed/route.ts:105-135 | without a store error the collection becomes the seed run and `created + skipped` is 10 with `created` the number added; a store error at iteration `i` gives 500 with its message (or the default) and keeps the products added before `i` |
| DriverOrderActions.ExpectedPosCode | components/driver/DriverOrderActions.tsx:35 | the POS code expected is the stored POS code when present, else the offline reference, else none |
| DriverOrderActions.ExpectedTransferCode | components/driver/DriverOrderActions.tsx:36 | the transfer code expected is the stored transfer code exactly when one is stored, and it never falls back to the offline reference |
| DriverOrderActions.CanDeliver | components/driver/DriverOrderActions.tsx:38-52 | never for a delivered order; for pay-now exactly when the trimmed upper-cased input equals the upper-cased code and the order is paid; for pay-on-delivery exactly when POS or transfer is confirmed and the order is paid |
| DriverOrderActions.DeliverableIsPaidAndUndelivered | components/driver/DriverOrderActions.tsx:38-52 | whatever the input and flags, only a paid, undelivered order can be delivered |
| DriverOrderActions.PayNowGateForGeneratedCode | components/driver/DriverOrderActions.tsx:43-47 | for a generated code the pay-now gate accepts exactly the inputs that spell the code in any letter case, with surrounding white space |
| DriverOrderActions.DetermineVerification | components/driver/DriverOrderActions.tsx:174-206 | pay-now sends the stored redemption code without marking paid; pay-on-delivery prefers a confirmed transfer over a confirmed POS payment, both marking paid; nothing exactly when neither is confirmed with a non-empty code |
| DriverOrderActions.DeliverableHasVerification | components/driver/DriverOrderActions.tsx:208-215 | whenever the deliver button is enabled and the flags are backed by codes, `markAsDelivered` has a confirmation to send |
| DriverOrderActions.InvoiceOrderCodes | components/driver/DriverOrderActions.tsx:35-36 | for an order stored by the invoice checkout the expected POS code is the offline reference and a transfer confirmation can never be recorded |
| DriverOrderActions.FailureMessage | components/driver/DriverOrderActions.tsx:90-100 | a failed request is reported with the payload's non-empty `error`, else the fallback, and a thrown request with its own message |
| DriverOrderActions.TransferFailure | components/driver/DriverOrderActions.tsx:119-168 | after both guards a transfer confirmation fails with "cancelled" for a cancelled popup, with the popup's message when it fails, and with the request's failure when a completed popup's request is refused; it succeeds exactly when the popup completes and its reference is empty or the request is accepted |
| DriverOrderActions.OrderActions.constructor | components/driver/DriverOrderActions.tsx:17-33 | the inputs start empty, the modals closed, nothing confirmed, no reference, error or notice |
| DriverOrderActions.OrderActions.SetRedemptionInput | components/driver/DriverOrderActions.tsx:271 | the redemption input stores the upper-cased typed text |
| DriverOrderActions.OrderActions.SetPosInput | components/driver/DriverOrderActions.tsx:371 | the POS input stores the typed text as typed, and nothing else changes |
| DriverOrderActions.OrderActions.SetTransferInput | components/driver/DriverOrderActions.tsx:396 | the transfer input stores the typed text as typed, and nothing else changes |
| DriverOrderActions.OrderActions.OpenPosModal | components/driver/DriverOrderActions.tsx:324-327 | opening the POS modal clears error and notice |
| DriverOrderActions.OrderActions.OpenTransferModal | components/driver/DriverOrderActions.tsx:337-340 | opening the transfer modal clears error and notice |
| DriverOrderActions.OrderActions.HandlePosConfirm | components/driver/DriverOrderActions.tsx:59-104 | no non-empty expected code, or a trimmed input that differs exactly, sets the error and sends nothing; otherwise the payment-status request carries the expected code, and only an ok reply sets `posVerified`, shows the notice and closes the modal, while a failed one leaves `posVerified` and shows the failure |
| DriverOrderActions.OrderActions.PayByPos | components/driver/DriverOrderActions.tsx:79-103 | once the guards pass, the request carries the expected POS code; an ok reply confirms POS, shows the notice and closes the modal; any other reply shows its failure message and confirms nothing |
| DriverOrderActions.OrderActions.HandleTransferConfirm | components/driver/DriverOrderActions.tsx:106-172 | the same guards for the transfer code; a completed popup records its reference and, when non-empty, sends it; the transfer is confirmed unless that request fails; failures show their message, except "cancelled", which shows the cancellation notice |
| DriverOrderActions.OrderActions.PayByTransfer | components/driver/DriverOrderActions.tsx:119-171 | once the guards pass, the popup's outcome and the request's reply decide, through `TransferFailure`, between confirming the transfer, the cancellation notice and the error; a completed popup's reference is recorded, and sent when non-empty |
| DriverOrderActions.OrderActions.MarkAsDelivered | components/driver/DriverOrderActions.tsx:208-245 | the deliver request carries `determineVerification`'s answer; with none the error is set and nothing is sent; the reply decides between the delivered notice and the error |

## Left out

- Rendering: all JSX and the UI-only components and pages. `router.refresh`, the 2.25 s `setTimeout` before the POS request, and local storage persistence of the cart. The cart therefore starts empty.
- `posProcessing`, `transferProcessing`, `isDelivering`: these flags are true only while a request is in flight. Each handler is modelled as one atomic step, so they are always false between events.
- DriverOrderActions.OrderActions: `order` is the component's fixed prop. The re-render with an updated order after `router.refresh` is not modelled, so the gate is evaluated for the order given.
- The server routes behind `/api/orders/{id}/payment-status` and `/api/orders/{id}/deliver` are not part of this model. The driver screen's handlers take their outcome (ok, refused with a payload, or unreachable) as a parameter.
- lib/paystack.ts, the Paystack HTTP client: its HTTP call is not modelled. Its outcome is a parameter: an answer with or without data, or a throw, whose message (lib/paystack.ts:61-62, 82-85 and 113-116) is modelled. A throw from `response.json()` itself is not modelled. The amount in kobo (`Math.round(totalAmount * 100)`) and the `ORDER_<id>_<time>` transaction reference are not modelled.
- The HMAC-SHA512 signature check in lib/paystack/verifyWebhook.ts is not modelled. The webhook takes its outcome (match, mismatch, or secret not configured) as a parameter.
- The Paystack popup is an outcome parameter: success with a reference, cancel, or failure with a message.
- Floating point: prices, amounts and quantities are integers, and `toLocaleString` formatting is display only.
- Letter case: `toUpperCase` and `toLowerCase` are modelled on ASCII letters only. Other Unicode case mappings are not modelled.
- `parseInt` text parsing: ProductDetail.ClampInput takes the parse result, with NaN as absent.
- Firestore:
  - document ids are a parameter, with the precondition that the id is fresh;
  - query results come in the store's enumeration order, given by the `ids` sequence. Firestore orders them by document id; the model lets the order be any sequence of the stored ids and appends each new id, which is its own choice;
  - the `createdAt` Timestamp-to-Date conversion in `getOrderById` and the products' `createdAt` are not modelled;
  - store unavailability is not modelled, other than a failed update of a missing order and the seed's store error.
- Request bodies that `request.json()` rejects in the two checkout routes are not modelled; the body is a parameter holding the parsed fields. Those routes would answer 500 with the parse error. A webhook body that `JSON.parse` rejects is modelled, as a 500. A `charge.success` event without `data` is not modelled.
- The checkout routes' 500 for a store write that throws is not modelled. `createOrder` always succeeds given a fresh id.
- Concurrency: concurrent webhook deliveries and drivers are out of scope. Every request is one atomic step.
- Fetching the order list for the driver page (`getAllOrders`) is I/O; the list is an input. The webhook's `GET` endpoint only returns a fixed message.
- Cart.AddToCartTotals: states the totals only for carts without duplicate product ids. Cart.WithAdded states the general effect, where every duplicate line is incremented.
