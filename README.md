# Print-shop order administration — a Dafny model of its client-side logic

The application keeps clients, products and orders for a print shop. Its
logic sits in React components and in the shared database schema. This
project extracts that logic into Dafny and proves what each piece does:

* **The order form.** While the operator types "total" or "amount paid", the
  form recomputes the remaining amount (`total − amountPaid`, written with two
  decimals). Editing the amount paid also reclassifies the payment status:
  `Pendente`, then `Pago 100%`, then `Pagamento Parcial`, first match wins.
  The form also fills its default values, previews the total, validates, and
  chooses between creating and updating on submit.
* **Validation rules and closed lists.** The order and payment status lists,
  `orderSchema`, `userSchema`, the column defaults applied on insert, the
  numeric(10,2) money columns, and the client and product form rules.
* **List queries.** The case-insensitive search filters over orders and
  clients, the five newest orders on the dashboard, the dashboard counts and
  sales sum, and the id→name lookups with their fallbacks.
* **Badges.** Payment status and order status mapped to colour classes and
  text.
* **The add/edit state of the orders, clients and products pages**
  (`editMode`, plus the entity being edited).

Money is kept in integer cents. A JavaScript number is `Numbers.Num`: either
`Finite(cents)` or `NaN`. NaN matters here: `parseFloat` yields it for text
that does not parse, it spreads through `-` and `+`, every comparison with it
is false, and `toFixed(2)` writes it as "NaN". `Numbers.ParseFloat` is a
concrete decimal reader: an optional sign, digits, and an optional point with
at most two digits after it. `Numbers.ToFixed2` is `toFixed(2)`, and parseFloat
reads back what toFixed(2) writes (`Numbers.ParseToFixed2`). Timestamps are integers. The clock
(`new Date()`, `defaultNow()`) is a parameter `now`.

Shape of the model:

* The order form is a class, `OrderForm.OrderFormState`. Its fields are the
  form values and the previewed total, and its methods are the two `onChange`
  handlers and `updateTotalDisplay`. The classification, the subtraction and
  the two parse fallbacks are pure functions, and the handlers call them.
* The three pages share one class, `Pages.EditorPage<T>`. It models
  `pages/orders.tsx`. `pages/clients.tsx` and `pages/products.tsx` are the
  same component with Client and Product in place of Order, so they are the
  aliases `Pages.ClientsPage` and `Pages.ProductsPage`. Every handler
  establishes `Valid()`: an entity is only edited while the form is open.
  The scenario `Pages.OrdersPageSession` runs add, cancel and edit on the
  orders page and checks, after each step, whether the form is rendered and
  what it receives.
* Everything else is pure: datatypes and functions, with lemmas.

Three behaviours of the code are worth stating plainly:

* Submitting does not re-derive `remainingAmount` or `paymentStatus`. The
  form sends its values as they are (`OrderForm.Submit`), and the payment
  status is an ordinary selectable field. Editing the total leaves the status
  unchanged, so the status can disagree with the amounts. The scenario
  `OrderForm.TotalEditKeepsStaleStatus` shows this with 50.00 paid of a total
  lowered from 100.00 to 40.00.
* No rule requires `quantity ≥ 1`. Beyond the field types (numbers for the
  ids and the quantity, a valid date, text for the amounts), `orderSchema`
  checks only the two status lists.
* The statuses are the Portuguese strings of the schema (`Em Produção`,
  `Pendente`, ...), modelled as those strings.

## Model

| member | source | states |
|---|---|---|
| `Numbers.Add` | client/src/components/dashboard/DashboardCards.tsx:21 | a sum is finite exactly when both addends are, and then it is their sum |
| `Numbers.Sub` | client/src/components/orders/OrderForm.tsx:375 | a difference is finite exactly when both operands are, and then it is their difference |
| `Numbers.OrZero` | client/src/components/orders/OrderForm.tsx:374 | `n \|\| 0` is n when n is a number and 0 when n is NaN |
| `Numbers.ParseFloat` | client/src/components/orders/OrderForm.tsx:56 | parseFloat of the empty string is NaN |
| `Numbers.ParseDecimalLiteral` | client/src/components/orders/OrderForm.tsx:373-374 | parseFloat of an optional sign, whole digits, and optionally a point with at most two digits (at least one digit in all) is the signed value in cents: whole digits × 100, one fraction digit as tenths, two as hundredths |
| `Numbers.FractionCentsValue` | client/src/components/orders/OrderForm.tsx:373-374 | one digit after the point counts tenths and two count hundredths |
| `Numbers.WholeLiteralExample` | client/src/components/orders/OrderForm.tsx:373-374 | parseFloat("100") is 100.00 |
| `Numbers.TenthsLiteralExample` | client/src/components/orders/OrderForm.tsx:373-374 | parseFloat("45.5") is 45.50 |
| `Numbers.LeadingPointExample` | client/src/components/orders/OrderForm.tsx:373-374 | parseFloat(".5") is 0.50 |
| `Numbers.TrailingPointExample` | client/src/components/orders/OrderForm.tsx:373-374 | parseFloat("5.") is 5.00 |
| `Numbers.NegativeLiteralExample` | client/src/components/orders/OrderForm.tsx:373-374 | parseFloat("-2.5") is −2.50 |
| `Numbers.ToNumber` | client/src/components/products/ProductForm.tsx:22 | Number("") is 0, and on any other text Number agrees with parseFloat |
| `Numbers.ToFixed2` | client/src/components/orders/OrderForm.tsx:377 | toFixed(2) of NaN is "NaN" |
| `Numbers.ParseToFixed2` | client/src/components/orders/OrderForm.tsx:375-377 | reading back a toFixed(2) text with parseFloat gives back the same amount, NaN included |
| `Numbers.ToFixed2Shape` | shared/schema.ts:45 | an amount that fits numeric(10,2) is written with at most eight whole digits and exactly two after the point |
| `Text.ToLower` | client/src/components/orders/OrderList.tsx:77 | lowering keeps the length and lowers each character on its own |
| `Text.IncludesAt` | client/src/components/orders/OrderList.tsx:86-88 | `s.includes(q)` holds exactly when q occurs in s at some index |
| `Schema.EditableFields` | shared/schema.ts:52-62 | an order's editable part is exactly its client id, product id, quantity, order date, two statuses and three amounts |
| `Schema.ValidateOrder` | shared/schema.ts:67-71 | orderSchema rejects exactly a status outside the order status list or a payment status outside the payment status list, naming each failing field and nothing else, status before paymentStatus |
| `Schema.StatusListsAreClosed` | shared/schema.ts:64-65 | the order statuses are exactly Em Produção, Finalizado and Cancelado; the payment statuses are exactly Pendente, Pagamento Parcial and Pago 100%; no string is in both lists |
| `Schema.InsertRow` | shared/schema.ts:38-50 | an omitted column takes its default (now, Em Produção, Pendente, "0", "0"); a given column is passed to the insert as given; id and createdAt are assigned |
| `Schema.InsertKeepsEditableFields` | shared/schema.ts:52-62 | inserting the nine editable fields stores exactly those nine fields |
| `Schema.MinimalInsertDefaults` | shared/schema.ts:43-48 | an insert with only the required columns passes a pending order with "0" paid and "0" remaining, dated now, to the insert |
| `Schema.ValidateUser` | shared/schema.ts:104-109 | a user is accepted exactly when username ≥ 3, password ≥ 6 and name ≥ 2 characters; a failure carries exactly one message per short field, in field order; isAdmin is false unless given as true |
| `Forms.OrText` | client/src/components/orders/OrderForm.tsx:44-48 | `s \|\| d` on text is s unless s is empty |
| `Forms.OrInt` | client/src/components/orders/OrderForm.tsx:40-42 | `n \|\| d` on numbers is n unless n is 0 |
| `Forms.Choose` | client/src/components/orders/OrderForm.tsx:130-134 | the update path is taken exactly when editMode holds and an entity is being edited, with that entity's id; the data is passed on unchanged |
| `OrderForm.TypedAmount` | client/src/components/orders/OrderForm.tsx:374 | the text just typed counts as its parsed amount, or 0 when it does not parse |
| `OrderForm.StoredAmount` | client/src/components/orders/OrderForm.tsx:373 | the other field counts as 0 only when it is empty; any other text is parsed and may be NaN |
| `OrderForm.Remaining` | client/src/components/orders/OrderForm.tsx:375-377 | the remaining-amount text reads back as total − paid (NaN if either is NaN) |
| `OrderForm.Classify` | client/src/components/orders/OrderForm.tsx:379-386 | the result is a payment status; Pendente exactly when paid ≤ 0; Pago 100% exactly when paid > 0 and paid ≥ a finite total; Pagamento Parcial otherwise, including against a NaN total |
| `OrderForm.PreviewTotal` | client/src/components/orders/OrderForm.tsx:53-65 | the preview equals the parsed total, or 0 when the field is empty or does not parse |
| `OrderForm.DefaultValues` | client/src/components/orders/OrderForm.tsx:39-49 | a new order opens with quantity 1, Em Produção, Pendente, "0" for the three amounts and today's date; an edited order keeps its client id, product id and date, and each other field keeps the order's value when it is truthy and otherwise takes the new-order default (quantity 0 reopens as 1, an empty amount paid as "0"); quantity, statuses and total are never left falsy |
| `OrderForm.Submit` | client/src/components/orders/OrderForm.tsx:128-135 | values failing orderSchema are not sent; valid values are sent verbatim, as an update of the edited order's id exactly when editMode holds with an order, otherwise as a create |
| `OrderForm.OrderFormState.constructor` | client/src/components/orders/OrderForm.tsx:27-82 | the form starts from defaultValues with a zero preview; an edited order's total is previewed at once |
| `OrderForm.OrderFormState.UpdateTotalDisplay` | client/src/components/orders/OrderForm.tsx:53-65 | sets the preview to the parsed total or 0 and returns it |
| `OrderForm.OrderFormState.OnTotalChange` | client/src/components/orders/OrderForm.tsx:338-346 | the total takes the typed text; the remaining amount becomes typed total − stored paid; the payment status and the other fields are unchanged; the preview follows the total |
| `OrderForm.OrderFormState.OnAmountPaidChange` | client/src/components/orders/OrderForm.tsx:369-387 | amount paid takes the typed text; the remaining amount becomes stored total − typed paid and the payment status is reclassified from the same two amounts; the total and the preview are unchanged |
| `OrderForm.AmountPaidEditIsConsistent` | client/src/components/orders/OrderForm.tsx:372-386 | after an amount-paid edit, the remaining text reads back as total − paid, and with a finite total and a positive payment the status is Pago 100% exactly when nothing remains |
| `OrderForm.Overpayment` | client/src/components/orders/OrderForm.tsx:375-383 | paying more than the total gives Pago 100% and a negative remaining amount; nothing is clamped |
| `OrderForm.ZeroTotalIsPending` | client/src/components/orders/OrderForm.tsx:380-383 | a zero total with nothing paid is Pendente, not Pago 100%, and nothing remains |
| `OrderForm.ParseFallbacksDiffer` | client/src/components/orders/OrderForm.tsx:373-374 | empty text is 0 under both fallbacks; unparsable typed text is 0, but unparsable stored text is NaN |
| `OrderForm.UnparsableTotal` | client/src/components/orders/OrderForm.tsx:373-386 | with a non-empty total that does not parse, any positive payment is Pagamento Parcial and the remaining amount is "NaN" |
| `OrderForm.NewOrderDefaultsConsistent` | client/src/components/orders/OrderForm.tsx:39-49 | the new-order defaults already agree with the derivation (Pendente, nothing remaining) and pass orderSchema |
| `OrderForm.EditDefaultsCopyOrder` | client/src/components/orders/OrderForm.tsx:39-49 | an order whose fields are all truthy opens the form with exactly its own editable values |
| `OrderForm.PreviewFallsBackToZero` | client/src/components/orders/OrderForm.tsx:53-65 | the preview is 0 for an empty or unparsable total and the parsed amount otherwise |
| `Lookup.IndexOfId` | client/src/components/orders/OrderList.tsx:66 | `find` returns the index of the first element with the id, or nothing when no element has it |
| `Lookup.NameOr` | client/src/components/orders/OrderList.tsx:65-73 | the name of the first element with the id, or the fallback when none has it |
| `OrderList.ClientName` | client/src/components/orders/OrderList.tsx:65-68 | the name of the first client with the id, else "Cliente Desconhecido" |
| `OrderList.ProductName` | client/src/components/orders/OrderList.tsx:70-73 | the name of the first product with the id, else "Produto Desconhecido" |
| `OrderList.FilterOrders` | client/src/components/orders/OrderList.tsx:76-90 | the result is an order-preserving subsequence of the orders; an order is in it exactly when it matches (empty query, or the lowered query in the lowered client name, product name or status); every matching order is kept as many times as it occurs, and no other; an empty query keeps every order |
| `OrderList.MatchesNarrows` | client/src/components/orders/OrderList.tsx:81-89 | an order that matches a longer query matches every query it extends |
| `OrderList.FilterOrdersNarrows` | client/src/components/orders/OrderList.tsx:76-90 | appending characters to the query gives a subsequence of the previous result |
| `ClientList.FilterClients` | client/src/components/clients/ClientList.tsx:51-59 | the result is an order-preserving subsequence of the clients; a client is in it exactly when it matches (empty query, lowered query in lowered name, in the phone as stored, or in lowered address); every matching client is kept as many times as it occurs, and no other; an empty query keeps every client |
| `ClientList.MatchesNarrows` | client/src/components/clients/ClientList.tsx:53-58 | a client that matches a longer query matches every query it extends |
| `ClientList.FilterClientsNarrows` | client/src/components/clients/ClientList.tsx:51-59 | appending characters to the query gives a subsequence of the previous result |
| `ClientList.QueryCaseIgnored` | client/src/components/clients/ClientList.tsx:52-57 | two queries that lower to the same text select the same clients |
| `ClientList.LoweredQuerySelectsSame` | client/src/components/clients/ClientList.tsx:52 | typing the query in capitals selects exactly what typing it in lower case does |
| `ClientList.PhoneIsMatchedAsStored` | client/src/components/clients/ClientList.tsx:56 | the phone is not lowered: "FLOR" does not find a client whose phone reads "0800-FLOR" |
| `ClientList.NameIsMatchedInAnyCase` | client/src/components/clients/ClientList.tsx:55 | the name is lowered: "FLOR" finds a client named "Flor" |
| `ClientForm.ValidateClient` | client/src/components/clients/ClientForm.tsx:19-23 | a client is accepted exactly when name ≥ 2, phone ≥ 8 and address ≥ 5 characters; a failure lists exactly one message per failing field, in field order |
| `ClientForm.DefaultValues` | client/src/components/clients/ClientForm.tsx:32-36 | the form copies the edited client's fields, or starts with three empty fields |
| `ClientForm.FreshFormIsInvalid` | client/src/components/clients/ClientForm.tsx:32-36 | a fresh client form fails all three length rules |
| `ClientForm.EditFormValidIffClientValid` | client/src/components/clients/ClientForm.tsx:19-36 | an edit form opens valid exactly when the edited client satisfies the three length rules |
| `ClientForm.Submit` | client/src/components/clients/ClientForm.tsx:83-89 | invalid values are not sent and the failure carries the validation messages; valid values are sent verbatim, as an update of the edited client exactly when editMode holds with a client |
| `ProductForm.PriceRule` | client/src/components/products/ProductForm.tsx:22-24 | a price is accepted exactly when it parses to a positive amount; "" is rejected because Number reads it as 0 |
| `ProductForm.PriceExamples` | client/src/components/products/ProductForm.tsx:22-24 | "", "abc" and the toFixed(2) texts of 0 and −5 ("0.00", "-5.00") are rejected; the toFixed(2) text of 12.50 ("12.50") is accepted |
| `ProductForm.ValidateProduct` | client/src/components/products/ProductForm.tsx:20-25 | a product is accepted exactly when its name has ≥ 2 characters and its price is accepted; a failure lists exactly one message per failing field, name first |
| `ProductForm.DefaultValues` | client/src/components/products/ProductForm.tsx:34-37 | the form copies the edited product's name and price text, or starts with two empty fields |
| `ProductForm.FreshFormIsInvalid` | client/src/components/products/ProductForm.tsx:34-37 | a fresh product form fails both the name rule and the price rule |
| `ProductForm.Submit` | client/src/components/products/ProductForm.tsx:84-90 | invalid values are not sent and the failure carries the validation messages; valid values are sent verbatim, as an update of the edited product exactly when editMode holds with a product |
| `RecentOrders.ClientName` | client/src/components/dashboard/RecentOrders.tsx:23-26 | the name of the first client with the id, else "Unknown Client" |
| `RecentOrders.ProductName` | client/src/components/dashboard/RecentOrders.tsx:28-31 | the name of the first product with the id, else "Unknown Product" |
| `RecentOrders.ClientNamesAgreeWithOrderList` | client/src/components/dashboard/RecentOrders.tsx:23-26 | a client id that exists gets the same name on the dashboard as in the order list; an unknown id shows "Unknown Client" on the dashboard and "Cliente Desconhecido" in the list |
| `RecentOrders.InsertByDate` | client/src/components/dashboard/RecentOrders.tsx:35-39 | inserting adds exactly the one order (as a multiset) |
| `RecentOrders.InsertByDateSorted` | client/src/components/dashboard/RecentOrders.tsx:35-39 | inserting into a newest-first list keeps it newest first |
| `RecentOrders.SortNewestFirst` | client/src/components/dashboard/RecentOrders.tsx:34-39 | the sorted copy is newest first and a permutation of the orders |
| `RecentOrders.Recent` | client/src/components/dashboard/RecentOrders.tsx:34-40 | at most five orders, all of them when there are five or fewer; newest first; drawn from the input; no omitted order, and no omitted copy of a shown order, is newer than a shown one |
| `DashboardCards.TotalSales` | client/src/components/dashboard/DashboardCards.tsx:17-22 | the empty list sums to 0; the sum is a number exactly when every order's total parses |
| `DashboardCards.Summary` | client/src/components/dashboard/DashboardCards.tsx:15-22 | the cards show the number of clients, the number of orders and the sales sum |
| `DashboardCards.TotalSalesConcat` | client/src/components/dashboard/DashboardCards.tsx:17-22 | the sales of two joined lists are the sum of their sales |
| `DashboardCards.TotalSalesSingle` | client/src/components/dashboard/DashboardCards.tsx:17-22 | one order's sales figure is its parsed total |
| `Pages.EditorPage.constructor` | client/src/pages/orders.tsx:8-9 | the page starts with editMode false and nothing being edited |
| `Pages.EditorPage.HandleEdit` | client/src/pages/orders.tsx:11-14 | the page edits the given entity with the form open, and stays in a reachable state |
| `Pages.EditorPage.HandleCancel` | client/src/pages/orders.tsx:16-19 | the form closes and nothing is being edited |
| `Pages.EditorPage.HandleAddNew` | client/src/pages/orders.tsx:21-24 | the form opens with nothing being edited |
| `Pages.EditorPage.RenderedForm` | client/src/pages/orders.tsx:43-49 | the form is rendered exactly while editMode holds, and always receives editMode true and the entity being edited |
| `Badges.PaymentBadge` | client/src/components/ui/payment-badge.tsx:7-32 | the base class is a prefix and exactly one colour suffix follows; red, yellow and green exactly for Pendente, Pagamento Parcial and Pago 100%; the amounts appear only when given (both for the first two, amount paid alone for Pago 100%); otherwise the text is the status; any other status is gray and shows the status itself |
| `Badges.StatusBadge` | client/src/components/ui/status-badge.tsx:5-22 | the text is the status unchanged; the base class is a prefix and exactly one colour suffix follows; yellow, green and red exactly for the English or Portuguese in-production, finished and cancelled labels |
| `Badges.SchemaStatusesAreColoured` | client/src/components/ui/status-badge.tsx:9-20 | every status of the schema's two lists gets a colour, never gray |

## Left out

- `parseFloat` is modelled only on the literals money fields hold. The model does not read a leading numeric prefix ("12abc" is NaN here, 12 in JavaScript). It also does not read exponents, `Infinity`, surrounding whitespace, or more than two digits after the point. The number inputs (`type="number"`, `step="0.01"`) normally hand over such literals or "".
- `Number()` is modelled as `parseFloat` with "" read as 0. Whitespace trimming, hexadecimal and exponent forms are not modelled.
- Floating point is not modelled. Amounts are exact cents, so the binary rounding of `parseFloat`, `-`, `+` and `toFixed` does not arise. Neither does the exponent notation `toFixed` uses at 10^21 and above.
- A null `amountPaid` or `remainingAmount` is represented by "". Every use in this logic is a truthiness test (`|| "0"`, `amountPaid && …`), so the two behave alike there.
- DashboardCards.TotalSales: the `Number(order.total)` branch for a non-string total is not modelled. The order type declares `total` as text, so the model always takes the `parseFloat` branch.
- Dates are integer timestamps. Date parsing, `format`, time zones and `z.coerce.date()` are not modelled.
- `parseInt` on the quantity and on the client and product selections is not modelled, so a NaN quantity cannot arise. These fields are integers in the model. orderSchema's type checks are therefore not modelled either: it rejects a cleared quantity field (`parseInt("")` is NaN, which zod's number type refuses) and an invalid date (`z.coerce.date()`), and either blocks the submit.
- `toLowerCase` is modelled for ASCII and the Latin-1 capitals only. zod's `min` counts UTF-16 code units, while the model counts characters, so they differ only for characters outside the Basic Multilingual Plane.
- RecentOrders.SortNewestFirst: the sort inserts stably, so orders with equal dates keep their input order, but that stability is not proved.
- The `form.watch` subscription calls `updateTotalDisplay` again after each change of the total. That second call recomputes the same preview, so `OnTotalChange` performs it once.
- The delete handlers and their dialog state, fetching, mutations, cache invalidation, toasts and all rendering are not modelled. Neither are the server's storage layer (SQL, password hashing, its `|| "Pendente"` and `|| false` fallbacks) and the navigation components (layout, sidebar, mobile menu, dashboard page).
- Schema.InsertRow: the numeric(10,2) money columns are taken as free text. PostgreSQL refuses text that is not a number, so an insert with a total of "" (which orderSchema lets through) fails there, while the model stores it. It also rounds to two decimals, rejects overflow and returns the amounts at scale 2 ("0" reads back as "0.00", "45.5" as "45.50"). None of this is modelled. The model states which amounts fit (`Numbers.FitsNumeric10x2`) and how such amounts are written.
- The sessions table and the users table's uniqueness constraint are not modelled.
