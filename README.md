# ShasthoMeds pharmacy shop — a Dafny model of its core rules

ShasthoMeds is an online medicine shop. It has a Django back end and a React/Redux front end. This project restates the rules the shop's code applies and proves what those rules guarantee:

- **Catalog.** How a product derives its sale price, package quantity, display strings and slug. How brands and categories get their slugs.
- **Accounts.** Registration with a six-digit e-mail code, the verification and resend views, and the login check.
- **Prescriptions.** The approve/reject workflow, which merges the prescribed items into the user's single active cart.
- **Carts and orders.** Cart totals, the price snapshot taken when an order is created, and the three payment-gateway callbacks.
- **Reports.** The monthly and yearly sales reports, recomputed when a paid order is saved.
- **Doctor slots.** The 20-minute slot generator for doctors, and the admin appointment column and save rule.
- **Client pages.** Checkout's phone rule and order payload, the OTP boxes, the category slug maker and lists, the dashboard top five, the sales-report CSV, the orders-report address, the appointment booking buttons and the doctor form.
- **Redux slices.** Every slice the client keeps.

Where the source changes state step by step, the model does too:

- a Django model or table becomes a `class` with `modifies` clauses;
- a Redux slice becomes a class whose fields are the slice state;
- loops become `while`/`for` loops with invariants.

Each such method is proved equal to a specification function, and the properties are proved about that function. Pure expressions are functions with named results.

Conventions used throughout:

- **JavaScript values.** Client code is written over a small JavaScript value type, `Js.Val`.
  - A property read on `null` or `undefined` throws.
  - So does a list method on a value that is not an array.
  - Either way the reducer's draft is discarded, so the model returns `None`, or `ok == false` with the state unchanged.
- **Inputs passed in.** The following are parameters: clocks (`now`, today's date), random draws (OTP codes, slug suffixes), the media service's answer and the result of sending a mail.
- **Numbers.** Money is an exact `real`. Times of day are minutes after midnight. Dates are day numbers or `(year, month, day)` triples.

The modules:

- `wrappers.dfy`, `js.dfy`, `text.dfy` and `listops.dfy` are shared helpers: Option/Result, JavaScript values, strings, and list callbacks.
- `catalog.dfy`, `accounts.dfy`, `prescriptions.dfy`, `orders.dfy`, `payments.dfy`, `reports.dfy`, `slots.dfy` and `appointment_admin.dfy` model the server.
- `slices_lists.dfy` and `slices_flags.dfy` model the Redux slices.
- One file models each client page: `checkout.dfy`, `verifyotp.dfy`, `allcategories.dfy`, `dashboard.dfy`, `allreports.dfy`, `ordersreport.dfy`, `doctorsappointment.dfy` and `alldoctors.dfy`.

## Model

| member | source | states |
|---|---|---|
| `Catalog.DerivePrices` | server/users/models.py:214-219 | new price + discount = list price. With a positive offer the discount is price·offer/100; otherwise new = price and discount = 0. For an offer in [0,100] the new price lies in [0, price]. An offer above 100 gives a negative new price. |
| `Catalog.PackageQuantity` | server/users/models.py:221-227 | "strip" exactly for tablet/capsule, "box" exactly for bottle, and None for every other unit. |
| `Catalog.UnitLabel` | server/users/models.py:127-132 | `get_unit_display`: the label of the matching unit choice, or the stored value when it is not a choice. |
| `Catalog.WeightDisplay` | server/users/models.py:229-233 | Present exactly when the weight value is non-zero and the unit is non-empty. It is then "value unit". |
| `Catalog.DisplayUnit` | server/users/models.py:247-251 | Ends with the unit label. With a unit value it is that value, a space, then the label; otherwise just the label. |
| `Catalog.UnitDisplay` | server/users/models.py:235-240 | None exactly when the unit is empty; otherwise the display-unit text. |
| `Catalog.FreeSuffixed` | server/users/models.py:209-210 | The collision loop ends on a suffixed slug that is not taken and comes from one of the draws. |
| `Catalog.ChosenSlug` | server/users/models.py:206-211 | The chosen slug is not taken. It is the base slug when the base is free, else base-suffix for some draw. |
| `Catalog.SlugFor` | server/users/models.py:205-211 | A non-blank slug is kept. A blank one becomes a slug nobody holds, and is non-empty when the base is. |
| `Catalog.SuffixedSlugShape` | server/users/models.py:210 | A collision produces base + "-" + six lower-case hex digits. |
| `Catalog.PickSlug` | server/users/models.py:206-211 | The `while … exists()` loop computes `ChosenSlug`. |
| `Catalog.BrandSlugAsWritten` | server/users/models.py:92-98 | `Brand.save` as written: a blank slug whose base is free stays blank; only a collision assigns a slug. |
| `Catalog.BrandBlankSlugWitness` | server/users/models.py:93-98 | Brand "acme" with no brands stored: the code as written keeps "" and the intended rule gives "acme". |
| `Catalog.CategorySlug` | server/users/models.py:117-119 | A blank category slug becomes the base slug; a non-blank one is kept. |
| `Catalog.IsExpired` | server/users/models.py:49-50 | Expired exactly when more than five minutes, counted in microseconds, have passed since creation; never expired at or before the creation instant. |
| `Catalog.ExpiryBoundary` | server/users/models.py:49-50 | A code is valid at exactly five minutes and expired one microsecond later. Once expired it stays expired. |
| `Catalog.ValidateImageSizeAsWritten` | server/users/models.py:57-79 | The validator as written always returns normally, because its own ValidationError is caught by the generic handler. |
| `Catalog.ValidateImageSize` | server/users/models.py:62-71 | Refuses exactly an image known to exceed 2·1024·1024 bytes, with the source's message. |
| `Catalog.OversizedImageAccepted` | server/users/models.py:69-79 | A 3 MB image passes the validator as written and is refused by the intended one. |
| `Catalog.Product.constructor` | server/users/models.py:147-196 | A new product holds its inputs, and the derived columns hold their defaults. |
| `Catalog.Product.Save` | server/users/models.py:201-245 | After save: the slug is `SlugFor` the old slug; prices are `DerivePrices`; package and display fields follow their rules; the inputs are unchanged. |
| `Catalog.Product.SaveModel` | server/users/admin.py:63-72 | The admin save sets the same package quantity as `Product.save` and then saves, so the outcome is the same. |
| `Catalog.Product.ApplyPackage` | server/users/models.py:221-227 | The package block assigns `PackageQuantity(unit)`. |
| `Catalog.Product.ApplyDisplays` | server/users/models.py:229-240 | The display block assigns `WeightDisplay` and `UnitDisplay`. |
| `Catalog.Product.ApplyOffer` | server/users/models.py:213-219 | The price block assigns `DerivePrices(price, offer)`. |
| `Catalog.Brand.constructor` | server/users/models.py:82-88 | A new brand holds its name and slug. |
| `Catalog.Brand.Save` | server/users/models.py:92-99 | Corrected `Brand.save`: the slug is `SlugFor` the old slug, so it is never left blank. |
| `Catalog.Category.constructor` | server/users/models.py:105-115 | A new category holds its name, slug and parent. |
| `Catalog.Category.Save` | server/users/models.py:117-120 | The slug becomes `CategorySlug(old slug, slugify(name))`. |
| `Accounts.ValidatePhone` | server/users/serializers.py:30-35 | Accepts exactly the non-empty strings of ASCII digits with length ≤ 11, and returns them unchanged. The digit message wins over the length message. |
| `Accounts.ValidatePasswords` | server/users/serializers.py:37-40 | Accepted exactly when both passwords are equal. |
| `Accounts.NewUser` | server/users/serializers.py:42-63 | The stored user is neither verified nor active. It keeps the submitted e-mail, name and phone, and its role defaults to "user". |
| `Accounts.OtpCodeShape` | server/users/serializers.py:47 | A draw in 100000..999999 renders as six digits that read back as the draw. |
| `Accounts.LoginCheck` | server/users/serializers.py:82-87 | Login succeeds exactly for the right password of an active, verified user. A wrong password or an inactive account gets "No active account found". An active, unverified user gets the "verify your email" error. |
| `Accounts.NewUserCannotLogIn` | server/users/serializers.py:82-87 | A freshly registered account is inactive, so it is refused even with the right password. |
| `Accounts.VerifyDecision` | server/users/views.py:40-55 | The guard chain in order: unknown user, then no code, then a wrong code, then an expired code, then verified, each characterised exactly. |
| `Accounts.MismatchBeforeExpiry` | server/users/views.py:50-55 | A wrong code is reported as invalid even when the stored code has expired. |
| `Accounts.VerifyResponse` | server/users/views.py:40-63 | 200 exactly for a verified code. 404 exactly for an unknown user or a missing code. 400 otherwise. |
| `Accounts.ResendDecision` | server/users/views.py:72-79 | Resend guards in order: missing e-mail, then unknown user, then already verified; otherwise a resend. |
| `Accounts.ResendGuardResponse` | server/users/views.py:72-101 | The guard replies: 404 exactly for an unknown user and 400 for the others. |
| `Accounts.Lookup` | server/users/views.py:41 | A lookup by e-mail finds a record exactly when the address was given and is stored. |
| `Accounts.AuthStore.constructor` | server/users/models.py:44-47 | An empty store of users and codes satisfies the store invariant. |
| `Accounts.AuthStore.Register` | server/users/serializers.py:42-78 | Stores the new user and a code created now. Succeeds exactly when the mail goes out, and keeps the invariant. |
| `Accounts.AuthStore.VerifyOtp` | server/users/views.py:36-63 | The reply and the new state follow `VerifyDecision`. Only an expired matching code is deleted without verifying. A live matching code verifies and activates the user and is deleted. Nothing else changes. |
| `Accounts.AuthStore.ResendOtpAsWritten` | server/users/views.py:67-101 | As written: the guards reply as `ResendGuardResponse`, and a user who passes them gets a server error. No state changes on any path. |
| `Accounts.AuthStore.ResendOtp` | server/users/views.py:67-101 | As intended: past the guards, the user's code record is replaced by a fresh one created now, and the reply is 200 when the mail goes out. Users are unchanged. |
| `Accounts.ResentCodeVerifies` | server/users/views.py:82-88 | A freshly resent code verifies the user for five minutes from its creation. |
| `Prescriptions.UnitPrice` | server/users/models.py:349 | A new line's price is the selling price when that is positive, else the list price. |
| `Prescriptions.ActiveCartFrom` | server/users/models.py:292-297 | Finds an active cart of the user from an index on, or proves there is none. |
| `Prescriptions.ActiveCart` | server/users/models.py:292-297 | The user's active cart, or a proof that the user has none. |
| `Prescriptions.FindLine` | server/users/models.py:350-352 | The line for (cart, product), or a proof that there is none. |
| `Prescriptions.MergeLine` | server/users/models.py:349-362 | Keeps lines unique per (cart, product). A missing line is appended with the item's quantity and price. An existing line gains the quantity and the back-reference but keeps its unit price. |
| `Prescriptions.MergeAllKeepsUnique` | server/users/models.py:347-362 | Merging every item of a request keeps cart lines unique per (cart, product). |
| `Prescriptions.MergeAllOtherCarts` | server/users/models.py:347-362 | Merging never touches lines of other carts. |
| `Prescriptions.ApprovedRecord` | server/users/models.py:336-342 | Approved, stamped now. The reviewer and notes change only when given; the other fields are kept. |
| `Prescriptions.RejectedRecord` | server/users/models.py:382-388 | Rejected from any state; the approval time is untouched. The reviewer and notes change only when given. |
| `Prescriptions.LockFields` | server/users/serializers.py:264-271 | For a non-staff, non-admin requester, status and admin comment are dropped; otherwise the changes pass through. |
| `Prescriptions.ApplyChanges` | server/users/serializers.py:333 | The generic update writes exactly the submitted fields and nothing else. |
| `Prescriptions.PendingOf` | server/users/admin.py:129 | A request is kept exactly when it is selected and still pending. Every kept id is a request. No repeats when the selection has none. The order is stated by `PendingOfAppend`. |
| `Prescriptions.PendingOfAppend` | server/users/admin.py:129 | Filtering a concatenation is filtering each part, so the queryset order is kept. |
| `Prescriptions.PendingOfOne` | server/users/admin.py:129 | A single request is kept exactly when it is pending. |
| `Prescriptions.ApproveTables` | server/users/models.py:332-362 | On the three tables: an approved request leaves them unchanged. Otherwise only that request changes, to its approved record, and every request keeps its items. The carts stay, or gain exactly one active cart for a user who had none. Without auto-add, carts and lines stay unchanged. |
| `Prescriptions.MergeAllCarts` | server/users/models.py:347-362 | Merging a whole request into an existing cart keeps every line pointing at an existing cart. |
| `Prescriptions.ApproveTablesValid` | server/users/models.py:332-362 | `approve` keeps the constraints: one active cart per user, one line per (cart, product), every line in an existing cart. |
| `Prescriptions.ApproveAll` | server/users/admin.py:127-131 | Approving a list of requests in turn keeps the set of request ids and every request's items. |
| `Prescriptions.ApproveAllValid` | server/users/admin.py:127-131 | Approving any list of requests keeps the constraints. |
| `Prescriptions.ApproveAllRecords` | server/users/admin.py:127-131 | Approving distinct pending requests leaves each with its approved record, with no reviewer or notes given. Every other request is unchanged. |
| `Prescriptions.ApproveSelectedRecords` | server/users/admin.py:127-131 | `approve_selected` on the tables: each selected request that was pending carries its approved record. Every other request is as it was. |
| `Prescriptions.ApproveAllStep` | server/users/admin.py:129-131 | Approving the first k+1 ids is approving one more id after the first k. |
| `Prescriptions.RecordStep` | server/users/admin.py:133-136 | Handling one more request keeps the rule: handled requests carry their new record and all others their first one. |
| `Prescriptions.Db.constructor` | server/users/models.py:268-286 | An empty database satisfies its constraints. |
| `Prescriptions.Db.GetOrCreateActive` | server/users/models.py:291-297 | Returns the user's active cart, creating one only when there is none, and keeps one active cart per user. |
| `Prescriptions.Db.Approve` | server/users/models.py:332-362 | A repeat approve changes nothing. Otherwise only the request changes, to `ApprovedRecord`. With auto-add, the items are merged into the active cart; the carts either stay or gain one active cart for a user who had none. Without auto-add, no cart or line changes. The tables after it equal `ApproveTables` of the tables before. |
| `Prescriptions.Db.AddItems` | server/users/models.py:347-362 | The item loop leaves the lines equal to `MergeAll` of the items. |
| `Prescriptions.Db.MergeItem` | server/users/models.py:350-362 | One `get_or_create` round: a missing (cart, product) line is appended with the item quantity; an existing one gains the quantity and the request link and keeps its price. |
| `Prescriptions.MergeAllStep` | server/users/models.py:347-362 | Merging k+1 items is merging k items, then the next one at its unit price. |
| `Prescriptions.MergeLineCarts` | server/users/models.py:350-362 | A merge into an existing cart leaves every line pointing at an existing cart. |
| `Prescriptions.Db.Reject` | server/users/models.py:382-388 | The request becomes `RejectedRecord`, and no cart changes. |
| `Prescriptions.Db.Update` | server/users/serializers.py:315-333 | Only the updated request changes. A changed status stamps `reviewed_at`. A change to approved runs approve on the stamped request (the tables equal `ApproveTables`), and a change to rejected runs reject; neither applies the other fields. Any other submission is a plain field update and touches no cart. |
| `Prescriptions.Db.ApproveSelected` | server/users/admin.py:127-131 | Each selected request that was pending carries its approved record, and every other request is unchanged. The carts and lines equal `ApproveAll` over the pending selection in queryset order. |
| `Prescriptions.Db.RejectSelected` | server/users/admin.py:133-136 | Each selected request that was pending carries its rejected record, and every other request is unchanged. No cart or line changes. |
| `Prescriptions.ActiveCartUnique` | server/users/models.py:281-285 | With one active cart per user, the active cart found is the user's only active cart. |
| `Orders.TotalQuantity` | server/users/serializers.py:233-235 | The sum of quantities. It is zero exactly when every line has quantity 0, and at least the line count when every quantity is ≥ 1. |
| `Orders.SerializerTotalPrice` | server/users/serializers.py:237-243 | The accumulator loop computes the list-price total, which equals the list price times quantity over all lines. |
| `Orders.AdminTotalPrice` | server/users/admin.py:94-101 | The accumulator loop computes the admin total. For saved products this is the selling-price total. |
| `Orders.SkippedLinesAddNothing` | server/users/serializers.py:240-241 | Skipping zero-price lines does not change the list total. |
| `Orders.AdminTotalIsSellingTotal` | server/users/admin.py:97-100 | For saved products, offer or not, the admin total is the sum of selling price × quantity. |
| `Orders.AdminTotalAtMostSerializerTotal` | server/users/admin.py:94-101 | With non-negative prices and offers of at most 100, the admin total never exceeds the serializer's. |
| `Orders.AdminTermAtMostBase` | server/users/admin.py:94-101 | On one line, with an offer between 0 and 100, the selling-price term is at most the list-price term. |
| `Orders.TotalsDiffer` | server/users/admin.py:97-98 | One line on a 10 % offer: the serializer says 100 and the admin screen says 90. |
| `Orders.SellingPrice` | server/users/serializers.py:360 | The selling price when it is non-zero, else the list price. |
| `Orders.SnapshotOfSavedProduct` | server/users/serializers.py:360 | For a saved product with a positive price and an offer below 100, the recorded price is the new price, in (0, price]. |
| `Orders.Snapshot` | server/users/serializers.py:362-370 | The stored line copies quantity, subtotal and name from the request and takes its prices from the product. |
| `Orders.SnapshotsAt` | server/users/serializers.py:356-370 | One stored line per submitted item, in order, each its `Snapshot`. |
| `Orders.KnownPrefix` | server/users/serializers.py:356-357 | The loop gets as far as the first item whose product is unknown. |
| `Orders.OrderBook.constructor` | server/users/serializers.py:345-350 | An empty order book over the given products. |
| `Orders.OrderBook.Create` | server/users/serializers.py:352-371 | The order row is written, then one snapshot per item up to the first unknown product. Success comes exactly when every product is known. |
| `Orders.SnapshotsStep` | server/users/serializers.py:356-370 | One more known item adds exactly its own snapshot after the earlier ones. |
| `Orders.KnownPrefixAt` | server/users/serializers.py:356-357 | The first unknown product is where the run of known products ends. |
| `Payments.SessionBody` | server/users/SSLCOMMERZ.py:26-58 | Amount, transaction id, the three URLs and the customer and product fields pass through unchanged. Currency is "BDT", item count 1, EMI 0, the address is fixed to Dhaka, Bangladesh (first line "Dhaka"), the card name is empty and the product profile is "general". |
| `Payments.PaymentStatusAfter` | server/users/SSLCOMMERZ.py:74-136 | The payment status each callback writes: paid, failed or pending. |
| `Payments.MatchCount` | server/users/SSLCOMMERZ.py:73 | The number of orders carrying the transaction id; zero exactly when none does. |
| `Payments.FirstMatch` | server/users/SSLCOMMERZ.py:73 | The index of an order carrying the id. |
| `Payments.SingleMatch` | server/users/SSLCOMMERZ.py:73 | With exactly one match, every order carrying the id is the first match. |
| `Payments.TwoMatches` | server/users/SSLCOMMERZ.py:73 | Two matching positions make the count at least two, so `get` raises. |
| `Payments.TargetOf` | server/users/SSLCOMMERZ.py:67-73 | Missing id, then unknown id, then the single order carrying it, each characterised exactly. |
| `Payments.AfterCallback` | server/users/SSLCOMMERZ.py:72-76 | Only the targeted order changes. It gets the callback's payment status and status "pending"; the table length is kept. |
| `Payments.SameTarget` | server/users/SSLCOMMERZ.py:73-76 | A callback never changes transaction ids, so the same id finds the same order again. |
| `Payments.ReplayIdempotent` | server/users/SSLCOMMERZ.py:72-76 | Replaying a callback leaves the table as the first call left it. |
| `Payments.LastCallbackWins` | server/users/SSLCOMMERZ.py:104-136 | With no guard on the prior status, the second callback decides, for example a cancel after a success. |
| `Payments.FoundResponse` | server/users/SSLCOMMERZ.py:81-88 | A failed mail is a server error after the save. Success redirects to the success page with the transaction id. Fail and cancel reply with JSON, and "cancelled" exactly for a cancel. |
| `Payments.PaymentDesk.constructor` | server/users/SSLCOMMERZ.py:65-67 | The desk holds the given orders. |
| `Payments.PaymentDesk.Handle` | server/users/SSLCOMMERZ.py:65-148 | The new table is `AfterCallback`. A missing or unknown id replies "failed" with no change, and a found order replies with `FoundResponse`. |
| `Reports.PaidCount` | server/users/signals.py:21-30 | The number of paid orders in the period, with or without lines; zero exactly when there are none. |
| `Reports.PeriodItems` | server/users/signals.py:26 | An item is kept exactly when it belongs to a paid order of the period, and the list never grows. The order is stated by `PeriodItemsAppend`. |
| `Reports.PeriodItemsAppend` | server/users/signals.py:26 | Filtering a concatenation is filtering each part, so the table order is kept. |
| `Reports.PeriodItemsOne` | server/users/signals.py:26 | A single item is kept exactly when it was sold in the period. |
| `Reports.AddTo` | server/users/signals.py:44-51 | Grouping by product name: a line joins its name's group, or opens one at the end. |
| `Reports.AddToSums` | server/users/signals.py:46-50 | Adding a line adds its quantity, subtotal and cost to the group sums and keeps the names distinct. |
| `Reports.NamesIndex` | server/users/signals.py:45 | A name is among the group names exactly when some group carries it. |
| `Reports.GroupsCoverItems` | server/users/signals.py:43-59 | One group per distinct product name. The group quantities, incomes and costs sum to the period totals. |
| `Reports.GroupsNames` | server/users/signals.py:43-59 | A product name has a group exactly when some sold line carries it. |
| `Reports.GroupsEmpty` | server/users/signals.py:44-51 | There are no groups exactly when there are no lines. |
| `Reports.MaxQty` | server/users/signals.py:36-37 | The largest summed quantity among the groups. |
| `Reports.Top` | server/users/signals.py:34-40 | None exactly when there are no lines; otherwise the name of a group with maximal summed quantity. |
| `Reports.FirstWithQty` | server/users/signals.py:37-38 | A group that reaches the given quantity. |
| `Reports.DetailsOf` | server/users/signals.py:52-59 | One breakdown entry per group, in order. |
| `Reports.BuildDetails` | server/users/signals.py:43-59 | The append loop builds `DetailsOf` the groups. |
| `Reports.DetailSums` | server/users/signals.py:52-59 | The breakdown quantities and incomes sum to the group sums. The profits sum to income less cost. |
| `Reports.ReportFor` | server/users/signals.py:21-66 | The report of a period recomputed from its paid orders; its top product, when there is one, is a breakdown entry with the largest quantity. |
| `Reports.ReportConsistent` | server/users/signals.py:28-66 | Breakdown quantities sum to `total_products_sold` and incomes to `total_income`. The top product is None exactly without lines. An empty period gives zeros. |
| `Reports.ProfitIsIncomeLessCost` | server/users/signals.py:29 | When every subtotal is price × quantity, Σ(price − actual)·qty equals income less cost. |
| `Reports.BreakdownProfitMatchesTotal` | server/users/signals.py:29-53 | Under the same condition, the per-product profits sum to `total_profit`. |
| `Reports.ProfitsCanDisagree` | server/users/signals.py:29-53 | A line whose subtotal is not price × quantity makes the total and the per-product profit disagree. |
| `Reports.ReportStore.constructor` | server/users/signals.py:19 | No reports are stored at first. |
| `Reports.ReportStore.UpdateReports` | server/users/signals.py:10-114 | An unpaid save changes no report. A paid save sets its month's and year's reports to `ReportFor` those periods and leaves the others alone. |
| `Reports.ComputeReport` | server/users/signals.py:21-66 | The aggregates, then the append loop, compute `ReportFor` the period. |
| `Reports.OtherLinesIgnored` | server/users/signals.py:21-26 | A line of an order outside the paid orders of the period does not change its report. |
| `Slots.ParseTime` | server/users/helpers.py:18-19 | `strptime("%H:%M")`: a parsed time is below 24·60 minutes. |
| `Slots.FormatTime` | server/users/helpers.py:22 | `strftime("%H:%M")` gives five characters with ":" in the middle. |
| `Slots.FormatParseRoundTrip` | server/users/helpers.py:18-22 | Formatting a time of day and parsing it back gives the time. |
| `Slots.ParseRange` | server/users/helpers.py:17-19 | Succeeds exactly when the range splits at "-" into two parts that both parse. It then gives those two times. |
| `Slots.OnGridStep` | server/users/helpers.py:20-25 | A grid point of a range is its start or a grid point after the first step. |
| `Slots.RangeSlots` | server/users/helpers.py:20-25 | The free slots of one range: none of them is booked, and a range that does not start before its end gives none. Exact membership is `RangeSlotsMembers`. |
| `Slots.RangeSlotsMembers` | server/users/helpers.py:20-25 | A range yields exactly the unbooked times start + 20k that are below its end. |
| `Slots.RangeSlotsUnfold` | server/users/helpers.py:20-25 | Inside the range, the first candidate is offered unless booked, followed by the slots 20 minutes on. |
| `Slots.HeadOrRest` | server/users/helpers.py:20-25 | An offered slot is the free first candidate or is offered later in the range. |
| `Slots.RangeSlotWitness` | server/users/helpers.py:20-25 | Every offered slot is free and is the rendering of some 20-minute step of the range. |
| `Slots.RangeSlotListed` | server/users/helpers.py:20-25 | Every free 20-minute step of the range is offered. |
| `Slots.EmptyRange` | server/users/helpers.py:21 | A range whose end is not after its start contributes nothing. |
| `Slots.SlotsOf` | server/users/helpers.py:16-25 | The loop over the doctor's ranges: an error exactly when some range fails to parse, otherwise a list of unbooked slots. Soundness, completeness and the first error are the lemmas below. |
| `Slots.SlotsOfSound` | server/users/helpers.py:16-25 | Every offered slot is unbooked and lies in [start, end) of one of the doctor's ranges. |
| `Slots.SlotsOfComplete` | server/users/helpers.py:16-25 | Every unbooked step of the 20-minute grid of every range is offered. With `SlotsOfSound`, the offered slots are exactly these. |
| `Slots.SlotsOfStep` | server/users/helpers.py:16-25 | The next range either raises its parse error, or appends its own slots after those of the earlier ranges. |
| `Slots.SlotWitness` | server/users/helpers.py:16-25 | An offered slot is free and comes from a time inside some well-formed range of the doctor. |
| `Slots.SlotsOfErrorStays` | server/users/helpers.py:16-19 | Once a range fails to parse, the ranges after it do not matter. |
| `Slots.BookedSlots` | server/users/helpers.py:9-13 | Exactly the slots of the doctor's pending or confirmed appointments on that date. |
| `Slots.AppendRangeSlots` | server/users/helpers.py:20-25 | The inner `while current < end` loop appends that range's free slots in order. |
| `Slots.AppendStep` | server/users/helpers.py:21-25 | One round of the loop moves the first candidate to the output. |
| `Slots.GetAvailableTimeSlots` | server/users/helpers.py:5-27 | The whole function computes `SlotsOf` the doctor's ranges against the booked slots, or the error of the first malformed range. |
| `AppointmentAdmin.AvailableSlotsToday` | server/users/admin.py:246-251 | "-" for a past date. From today on: the generator's error, "No slots available" for no slots, or the slots joined by ", ". |
| `AppointmentAdmin.SlotShape` | server/users/helpers.py:22-24 | Every offered slot is an `HH:MM` string. |
| `AppointmentAdmin.ColumnTellsCasesApart` | server/users/admin.py:249-251 | A list of slots has ":" as its third character, so it can never read as "No slots available" or "-". |
| `AppointmentAdmin.SaveModel` | server/users/admin.py:255-272 | Saved exactly when validation and the write succeed, otherwise "Cannot save appointment: reason". The confirmation mail goes to the patient exactly for a saved "confirmed" appointment. |
| `ListOps.KeyValue` | client/src/redux/AllUserSlice.js:99 | The compared key: a direct value, or a property of the payload read only when the payload is readable. |
| `ListOps.Test` | client/src/redux/cartSlice.js:83 | One callback run: throws on an unreadable record or key, else `===` on the property. |
| `ListOps.FindIndex` | client/src/redux/cartSlice.js:82-84 | The first accepted index, with all earlier records rejected; absent exactly when every record is rejected; or a throw. |
| `ListOps.ReplaceOrAppend` | client/src/redux/cartSlice.js:82-89 | Throws exactly when the search throws. Otherwise it replaces the first match, or appends when there is none. |
| `ListOps.ReplaceOrAppendShape` | client/src/redux/cartSlice.js:82-89 | The list grows by exactly one exactly when no record matched. Every other record stays in place. |
| `ListOps.StrictEqTransitive` | client/src/redux/cartSlice.js:83 | `===` is transitive on the model's values. |
| `ListOps.ReplaceOrAppendKeepsUnique` | client/src/redux/cartSlice.js:82-89 | Keys unique before an add are unique after it. |
| `ListOps.Remove` | client/src/redux/cartSlice.js:117-119 | The filter throws exactly when some callback throws, and never lengthens the list. |
| `ListOps.RemoveKeeps` | client/src/redux/cartSlice.js:117-119 | The filter keeps exactly the records that do not match. |
| `ListOps.RemoveIdempotent` | client/src/redux/cartSlice.js:115-120 | Removing twice is removing once. |
| `ListOps.RemoveAppend` | client/src/redux/cartSlice.js:117-119 | Filtering a concatenation concatenates the filtered parts, so order is kept. |
| `ListOps.RemoveNothing` | client/src/redux/cartSlice.js:117-119 | Nothing is removed exactly when no record matches. |
| `ListOps.Substitute` | client/src/redux/prescriptionSlice.js:63-65 | The map keeps the length. Each matching record becomes the payload and the others stay. |
| `ListOps.SubstituteFacts` | client/src/redux/prescriptionSlice.js:63-65 | No match leaves the list unchanged, and substituting twice is substituting once. |
| `CartSlice.Cart.constructor` | client/src/redux/cartSlice.js:64-69 | Empty items, not loading, no error. |
| `CartSlice.Cart.Pending` | client/src/redux/cartSlice.js:75-78 | Loading, error cleared, items unchanged. |
| `CartSlice.Cart.Rejected` | client/src/redux/cartSlice.js:91-94 | Not loading, the error is the payload, items unchanged. |
| `CartSlice.Cart.AddFulfilled` | client/src/redux/cartSlice.js:79-90 | The items become `ReplaceOrAppend` by `productId`. A throw leaves the whole state as it was. |
| `CartSlice.Cart.FetchFulfilled` | client/src/redux/cartSlice.js:101-104 | The items are replaced wholesale by the payload. |
| `CartSlice.Cart.RemoveFulfilled` | client/src/redux/cartSlice.js:115-120 | The items become those with a different `productId`, in order; a throw leaves the state unchanged. |
| `CartSlice.CartKeys` | client/src/redux/cartSlice.js:82-119 | Adds keep `productId`s unique. After a remove, no line matches the removed id, and removing it again changes nothing. |
| `ProductSlice.NormaliseResponse` | client/src/redux/productSlice.js:17-23 | An array is returned as is. Otherwise a truthy `results` is returned, else []. Reading `results` of null or undefined throws V8's TypeError. |
| `ProductSlice.NormaliseGivesArray` | client/src/redux/productSlice.js:17-23 | When `results` is absent or an array, the result is an array and normalising again changes nothing. |
| `ProductSlice.NormaliseNotAlwaysArray` | client/src/redux/productSlice.js:19-20 | A truthy non-array `results` passes through, so the "array guaranteed" comment does not hold. |
| `ProductSlice.NormaliseIntended` | client/src/redux/productSlice.js:16-22 | As intended (see Findings row productSlice.js:59): an error exactly when the response cannot be read, and otherwise always an array. It agrees with the code whenever the code already gives an array. |
| `ProductSlice.Products.constructor` | client/src/redux/productSlice.js:34-38 | Empty products, not loading, no error. |
| `ProductSlice.Products.Pending` | client/src/redux/productSlice.js:53-56 | Loading, error cleared, products unchanged. |
| `ProductSlice.Products.Rejected` | client/src/redux/productSlice.js:61-64 | Not loading, the error is the payload, products unchanged. |
| `ProductSlice.Products.FetchFulfilled` | client/src/redux/productSlice.js:57-60 | The products are replaced by the payload. |
| `ProductSlice.Products.AddProduct` | client/src/redux/productSlice.js:40-42 | Appends the payload to an array state; otherwise nothing changes. |
| `ProductSlice.Products.UpdateProduct` | client/src/redux/productSlice.js:43-46 | The first product with the same id has the payload merged over it. No match or a throw changes nothing. The length is kept. |
| `ProductSlice.Products.RemoveProduct` | client/src/redux/productSlice.js:47-49 | Every product with that id goes; the others keep their order. |
| `CatalogSlice.CatalogList.constructor` | client/src/redux/categorySlice.js:56-61 | Empty items, not loading, no error; the same state serves the brand slice. |
| `CatalogSlice.CatalogList.Pending` | client/src/redux/categorySlice.js:67-70 | Loading, error cleared, items unchanged, as at brandSlice.js:62-65. |
| `CatalogSlice.CatalogList.Rejected` | client/src/redux/categorySlice.js:76-79 | Not loading, the error is the payload, items unchanged, as at brandSlice.js:70-73. |
| `CatalogSlice.CatalogList.FetchFulfilled` | client/src/redux/categorySlice.js:71-74 | Stores an array payload, and [] for anything else, as at brandSlice.js:66-69. |
| `CatalogSlice.CatalogList.AddFulfilled` | client/src/redux/categorySlice.js:86-91 | Appends to an array. A non-array state is first reset to [], so it becomes [payload], as at brandSlice.js:80-84. |
| `CatalogSlice.CatalogList.RemoveFulfilled` | client/src/redux/categorySlice.js:103-106 | Exactly the items with another id stay, in order, as at brandSlice.js:95-98. |
| `Js.StringToNumber` | client/src/pages/VerifyOTP.jsx:25 | `Number(s)` as `isNaN` and `-` use it: a number or NaN; a number exactly when the trimmed string is a run of digits; 0 for a blank string; the digits' value for a digit string. |
| `Js.InvalidDateText` | client/src/components/Admin/AllDoctors.jsx:139-141 | dayjs's "Invalid Date" is twelve characters, with no ":" and no "-". |
| `Js.PlusOne` | client/src/redux/doctorSlice.js:99 | `count += 1`: a number is incremented, a string gets "1" appended, undefined and NaN give NaN. |
| `Js.MinusOne` | client/src/redux/doctorSlice.js:146 | `count -= 1`: a number is decremented, a digit string is converted and decremented, any other string, undefined and NaN give NaN. |
| `DoctorSlice.Doctors.constructor` | client/src/redux/doctorSlice.js:67-71 | Empty doctors, not loading, no error. |
| `DoctorSlice.Doctors.Pending` | client/src/redux/doctorSlice.js:76-79 | Loading, error cleared, doctors unchanged. |
| `DoctorSlice.Doctors.Rejected` | client/src/redux/doctorSlice.js:84-87 | Not loading, the error is the payload, doctors unchanged. |
| `DoctorSlice.Doctors.FetchFulfilled` | client/src/redux/doctorSlice.js:80-83 | The doctors are replaced by the payload. |
| `DoctorSlice.Doctors.AddFulfilled` | client/src/redux/doctorSlice.js:94-107 | A page gets the payload pushed into `results` and `count` + 1. An array gets it pushed. Anything else becomes [payload]. |
| `DoctorSlice.Doctors.UpdateFulfilled` | client/src/redux/doctorSlice.js:118-129 | In either shape, every doctor with the payload's id is replaced and the length and order are kept. Any other shape is unchanged. |
| `DoctorSlice.Doctors.DeleteFulfilled` | client/src/redux/doctorSlice.js:140-152 | The id is filtered out of either shape. A page's `count` drops by one even when nothing was removed. |
| `DoctorSlice.DeleteMissingStillCounts` | client/src/redux/doctorSlice.js:142-146 | Deleting an id that is not on the page still lowers the count. |
| `AllUserSlice.AllUsers.constructor` | client/src/redux/AllUserSlice.js:67-71 | Empty users, not loading, no error. |
| `AllUserSlice.AllUsers.Reset` | client/src/redux/AllUserSlice.js:73-77 | Users [], not loading, no error. |
| `AllUserSlice.AllUsers.Pending` | client/src/redux/AllUserSlice.js:82-85 | Loading, error cleared, users unchanged. |
| `AllUserSlice.AllUsers.Rejected` | client/src/redux/AllUserSlice.js:91-94 | Not loading, the error is the payload, users unchanged. |
| `AllUserSlice.AllUsers.FetchFulfilled` | client/src/redux/AllUserSlice.js:86-89 | Users become `payload.results`; a null payload throws and nothing changes. |
| `AllUserSlice.AllUsers.UpdateFulfilled` | client/src/redux/AllUserSlice.js:97-102 | With the intended match (see Findings row AllUserSlice.js:99), only the first matching user is replaced. No match leaves the users unchanged. |
| `AllUserSlice.AllUsers.DeleteFulfilled` | client/src/redux/AllUserSlice.js:105-109 | Exactly the users whose `id` and `_id` both differ from the key stay, in order. |
| `AllUserSlice.UpdateHitsFirstUserWithoutUnderscoreId` | client/src/redux/AllUserSlice.js:98-101 | As written, a payload and a user that both lack `_id` match, so the first such user is replaced whatever its id. |
| `AllUserSlice.UpdateKnownUserHitsFirst` | client/src/redux/AllUserSlice.js:98-101 | As written, a payload for the second of two users without `_id` matches the first user; the intended match finds the second. |
| `AllUserSlice.UpdateIntendedSharesKey` | client/src/redux/AllUserSlice.js:98-101 | With the intended match, the user an update replaces shares with the payload an `id` or `_id` that the payload carries. |
| `AllUserSlice.UpdateIntendedMissesUnknownUser` | client/src/redux/AllUserSlice.js:98-101 | On the same users, the intended match finds nobody for a payload whose id no user has. |
| `PrescriptionSlice.Prescriptions.constructor` | client/src/redux/prescriptionSlice.js:40 | Empty items, not loading, no error. |
| `PrescriptionSlice.Prescriptions.Pending` | client/src/redux/prescriptionSlice.js:44-47 | Loading, error cleared, items unchanged. |
| `PrescriptionSlice.Prescriptions.Rejected` | client/src/redux/prescriptionSlice.js:52-55 | Not loading, the error is the payload, items unchanged. |
| `PrescriptionSlice.Prescriptions.FetchFulfilled` | client/src/redux/prescriptionSlice.js:48-51 | The items are replaced by the payload. |
| `PrescriptionSlice.Prescriptions.UpdateFulfilled` | client/src/redux/prescriptionSlice.js:60-66 | Every item with the payload's id is replaced; the length and order are kept. |
| `AppointmentSlice.Appointments.constructor` | client/src/redux/appoinmentSlice.js:42-46 | Empty appointments, not loading, no error. |
| `AppointmentSlice.Appointments.Reset` | client/src/redux/appoinmentSlice.js:48-52 | Appointments [], no error, not loading. |
| `AppointmentSlice.Appointments.Pending` | client/src/redux/appoinmentSlice.js:57-60 | Loading, error cleared, appointments unchanged. |
| `AppointmentSlice.Appointments.Rejected` | client/src/redux/appoinmentSlice.js:65-68 | Not loading, the error is the payload, appointments unchanged. |
| `AppointmentSlice.Appointments.FetchFulfilled` | client/src/redux/appoinmentSlice.js:61-64 | The appointments are replaced by the payload. |
| `AppointmentSlice.Appointments.BookFulfilled` | client/src/redux/appoinmentSlice.js:75-82 | Pushes into `results` when it is truthy, otherwise onto the array. Any other shape throws and nothing changes. |
| `OrderSlice.OrderState.constructor` | client/src/redux/orderSlice.js:37-42 | No order, not loading, no error, not successful. |
| `OrderSlice.OrderState.Reset` | client/src/redux/orderSlice.js:44-49 | All four fields return to their initial values. |
| `OrderSlice.OrderState.Pending` | client/src/redux/orderSlice.js:54-58 | Loading, error cleared, not successful. |
| `OrderSlice.OrderState.Fulfilled` | client/src/redux/orderSlice.js:59-63 | Not loading, the order is the payload, successful. |
| `OrderSlice.OrderState.Rejected` | client/src/redux/orderSlice.js:64-68 | Not loading, not successful. The error is the payload, or "Failed to place order" when the payload is falsy, so it is always truthy. |
| `PaymentSlice.PaymentState.constructor` | client/src/redux/paymentSlice.js:35-39 | Not loading, no error, no gateway URL. |
| `PaymentSlice.PaymentState.Reset` | client/src/redux/paymentSlice.js:41-45 | Back to the initial state. |
| `PaymentSlice.PaymentState.Pending` | client/src/redux/paymentSlice.js:49-53 | Loading; error and gateway URL cleared. |
| `PaymentSlice.PaymentState.Fulfilled` | client/src/redux/paymentSlice.js:54-57 | The gateway URL is the payload's `GatewayPageURL`, or null; it is null or truthy. A null payload throws and nothing changes. |
| `PaymentSlice.PaymentState.Rejected` | client/src/redux/paymentSlice.js:58-61 | Not loading. The error is the payload, or the default message. The gateway URL is unchanged. |
| `UserSlice.Stored` | client/src/redux/userSlice.js:4-6 | A stored entry, with a missing or falsy one read as null. |
| `UserSlice.UserState.constructor` | client/src/redux/userSlice.js:3-12 | The user and tokens are read back from storage; users [], not loading, no error. |
| `UserSlice.UserState.SetUserData` | client/src/redux/userSlice.js:19-28 | User and tokens come from the payload and the same three go to storage. Users, loading and error are untouched. |
| `UserSlice.UserState.UpdateUser` | client/src/redux/userSlice.js:30-33 | `payload.user` is merged over the user and stored; tokens, users, loading and error are untouched. |
| `UserSlice.UserState.LogoutUser` | client/src/redux/userSlice.js:35-43 | User and tokens become null, the three storage keys are removed, and nothing else changes. |
| `UserSlice.ReloadAfterSignIn` | client/src/redux/userSlice.js:3-28 | After a sign-in with truthy values, a reload reads back the same user and tokens. |
| `UserSlice.ReloadAfterSignOut` | client/src/redux/userSlice.js:3-43 | After a sign-out, a reload reads no user and no tokens. |
| `Checkout.DigitsOf` | client/src/pages/Checkout.jsx:69 | `replace(/\D/g, "")`: only digits remain, the string never grows, and an all-digit string is kept. |
| `Checkout.NormalisePhone` | client/src/pages/Checkout.jsx:68-72 | Digits only, length ≤ 11, and starts with "0" when non-empty. Empty exactly when the input has no digit. |
| `Checkout.NormalPhoneIdempotent` | client/src/pages/Checkout.jsx:69-71 | Normalising a normalised phone changes nothing. |
| `Checkout.ChangeField` | client/src/pages/Checkout.jsx:74 | The named field gets the value and every other field keeps its value. |
| `Checkout.LineAsWritten` | client/src/pages/Checkout.jsx:96-102 | Each line as sent: `product_id`, `productName`, quantity, price and subtotal = quantity × price. |
| `Checkout.LineAsWrittenMissesProductName` | client/src/pages/Checkout.jsx:98 | The lines as sent never carry the `product_name` key that the order-line serializer requires. |
| `Checkout.Line` | server/users/serializers.py:337-343 | The corrected line carries every key the serializer requires. The subtotal is quantity × price. |
| `Checkout.Lines` | client/src/pages/Checkout.jsx:96-102 | One line per cart item, in order, each the corrected line (see Findings row Checkout.jsx:98). |
| `Checkout.ConfirmPayload` | client/src/pages/Checkout.jsx:77-107 | No request exactly when the postal code is missing or blank. Otherwise customer fields and totals are copied, both statuses are "pending", and each line's subtotal is quantity × price. The lines are the corrected ones (see Findings row Checkout.jsx:98). |
| `Checkout.AfterOrder` | client/src/pages/Checkout.jsx:115-127 | As intended, with `clearCart` exported: "cod" clears the cart and opens the modal. "card" redirects exactly when a gateway URL is present, else it alerts. Any other method does nothing. |
| `Checkout.AfterOrderAsWritten` | client/src/pages/Checkout.jsx:115-131 | As written: "cod" opens the modal, then the call of the unexported `clearCart` throws and the failure alert follows. Every other method behaves as intended. |
| `Checkout.CodAsWrittenKeepsCart` | client/src/pages/Checkout.jsx:18 | The cart slice does not export `clearCart`. An accepted cash-on-delivery order clears the cart as intended, but not as written. |
| `Checkout.HandleConfirm` | client/src/pages/Checkout.jsx:77-132 | As intended: a missing or blank postal code gives the postal-code alert. Otherwise a failed request gives the failure alert, and a reply is handled by `AfterOrder`. |
| `Checkout.HandleConfirmAsWritten` | client/src/pages/Checkout.jsx:109-131 | As written, `axios` is never imported: past the postal-code check, every confirmation ends in the failure alert. |
| `Checkout.ConfirmAsWrittenNeverOrders` | client/src/pages/Checkout.jsx:110 | An accepted cash-on-delivery order clears the cart on the intended page; on the page as written it only alerts. |
| `OtpForm.Accepted` | client/src/pages/VerifyOTP.jsx:25 | `!isNaN(value) && value.length <= 1`, read through `Number`: accepted exactly when the value is empty, or one character that is an ASCII digit or JavaScript white space. |
| `OtpForm.ChangeBox` | client/src/pages/VerifyOTP.jsx:24-29 | An accepted value replaces only its box; a rejected one changes nothing. The six-box form is kept. |
| `OtpForm.EmptyIsForm` | client/src/pages/VerifyOTP.jsx:11 | The initial six empty boxes form a valid form. |
| `OtpForm.JoinedLength` | client/src/pages/VerifyOTP.jsx:38 | The joined code's length is the number of filled boxes. |
| `OtpForm.FilledAll` | client/src/pages/VerifyOTP.jsx:38-40 | All six boxes are filled exactly when the joined code has length 6. |
| `OtpForm.JoinedChars` | client/src/pages/VerifyOTP.jsx:38 | Every character of the joined code came from an accepted box. |
| `OtpForm.VerifyCode` | client/src/pages/VerifyOTP.jsx:37-43 | A code is submitted exactly when the joined length is 6. |
| `OtpForm.VerifyNeedsEveryBox` | client/src/pages/VerifyOTP.jsx:37-43 | On a form reached by box changes, submission happens exactly when no box is empty. Its characters are digits or spaces. |
| `OtpForm.SpacesPass` | client/src/pages/VerifyOTP.jsx:25-40 | Six spaces pass the box filter and are submitted as a code. |
| `OrdersReport.FormatDay` | client/src/components/Admin/OrdersReport.jsx:29 | `YYYY-MM-DD`: ten characters with dashes at 4 and 7. |
| `OrdersReport.FormatParseDay` | client/src/components/Admin/OrdersReport.jsx:29 | A formatted valid day parses back to the same day. |
| `OrdersReport.DayText` | client/src/components/Admin/OrdersReport.jsx:29 | A day renders as `FormatDay` gives it; an invalid date renders as the twelve characters "Invalid Date", which do not read back as a day. |
| `OrdersReport.DateParams` | client/src/components/Admin/OrdersReport.jsx:28-30 | Empty exactly unless the filter is "custom" and both pickers are set (an invalid date counts as set). |
| `OrdersReport.ReportAddress` | client/src/components/Admin/OrdersReport.jsx:25-44 | The address is the base, `?filter=` and the filter, 11 more characters for `&export=csv`, and the 22 characters of the two parameter names plus 10 per day (12 per invalid date) exactly when a custom range has both pickers set. |
| `OrdersReport.FetchReportUrl` | client/src/components/Admin/OrdersReport.jsx:25-33 | The `+=` steps build `ReportAddress` without the export flag. |
| `OrdersReport.DownloadCsvUrl` | client/src/components/Admin/OrdersReport.jsx:38-44 | The `+=` steps build `ReportAddress` with the export flag. |
| `OrdersReport.AddressStartsWithFilter` | client/src/components/Admin/OrdersReport.jsx:27 | Every address starts with the base path, "?filter=" and the filter. |
| `OrdersReport.CsvAddressAddsExport` | client/src/components/Admin/OrdersReport.jsx:39-42 | The CSV address is the report address with "&export=csv" placed before the date parameters. |
| `OrdersReport.OtherFiltersIgnoreDates` | client/src/components/Admin/OrdersReport.jsx:28 | For a filter other than "custom", the chosen dates do not change the address. |
| `OrdersReport.CustomRangeCarriesDates` | client/src/components/Admin/OrdersReport.jsx:28-30 | A custom range ends the address with both dates, which parse back to the chosen days. |
| `OrdersReport.InvalidStartSentAsText` | client/src/components/Admin/OrdersReport.jsx:28-29 | A start picker holding an invalid date passes the guard, and the address carries `start_date=Invalid Date`, which is not a day. |
| `CategoryPage.Collapse` | client/src/components/Admin/AllCategories.jsx:50-52 | Lower-cases ASCII and turns every run of other characters into one "-". The output is in [a-z0-9-] with no "--". |
| `CategoryPage.StripDashes` | client/src/components/Admin/AllCategories.jsx:53 | Removes the leading and trailing dashes. |
| `CategoryPage.MakeSlug` | client/src/components/Admin/AllCategories.jsx:49-53 | The output is a slug: only [a-z0-9-], no leading or trailing "-", and never "--". |
| `CategoryPage.CollapseFixes` | client/src/components/Admin/AllCategories.jsx:50-52 | Collapsing a slug gives it back. |
| `CategoryPage.MakeSlugOfSlug` | client/src/components/Admin/AllCategories.jsx:49-53 | A slug maps to itself. |
| `CategoryPage.MakeSlugIdempotent` | client/src/components/Admin/AllCategories.jsx:49-53 | makeSlug(makeSlug(s)) = makeSlug(s). |
| `CategoryPage.CollapseNoAlnum` | client/src/components/Admin/AllCategories.jsx:52 | Input without ASCII letters or digits collapses to dashes only. |
| `CategoryPage.MakeSlugNoAlnum` | client/src/components/Admin/AllCategories.jsx:49-53 | A name with no ASCII letter or digit gives "". |
| `CategoryPage.AlnumOf` | client/src/components/Admin/AllCategories.jsx:51 | The lower-cased letters and digits of a string, in order. |
| `CategoryPage.CollapseKeepsAlnum` | client/src/components/Admin/AllCategories.jsx:50-52 | Collapsing keeps every letter and digit, lower-cased, in order. |
| `CategoryPage.AlnumAppend` | client/src/components/Admin/AllCategories.jsx:51 | The letters and digits of a concatenation are those of the parts. |
| `CategoryPage.StripKeepsAlnum` | client/src/components/Admin/AllCategories.jsx:53 | Stripping dashes keeps every letter and digit. |
| `CategoryPage.MakeSlugKeepsAlnum` | client/src/components/Admin/AllCategories.jsx:49-53 | The slug keeps exactly the input's letters and digits, lower-cased and in order. |
| `CategoryPage.Submit` | client/src/components/Admin/AllCategories.jsx:94-120 | An empty name, then an empty slug, then a missing token is refused, in that order. Otherwise the request carries the name, the slug, the parent and the image when given. |
| `CategoryPage.SubmitDispatch` | client/src/components/Admin/AllCategories.jsx:107-140 | As intended: in edit mode, with the edited category at hand, the update thunk is dispatched for its id; otherwise the add thunk, with the same request. |
| `CategoryPage.SubmitDispatchAsWritten` | client/src/components/Admin/AllCategories.jsx:24-29 | As written: every edit ends in the "Something went wrong" alert, because `updateCategory` is not exported; adding is unaffected. |
| `CategoryPage.EditAsWrittenNeverUpdates` | client/src/components/Admin/AllCategories.jsx:28 | The category slice does not export `updateCategory`. The intended page updates the edited category; the page as written alerts instead. |
| `CategoryPage.AutoSlugRefusesSymbolsOnly` | client/src/components/Admin/AllCategories.jsx:96-97 | A name of symbols only, submitted with an auto slug, is refused for an empty slug. |
| `CategoryPage.MainCategories` | client/src/components/Admin/AllCategories.jsx:166-168 | A category is kept exactly when it has a falsy parent, and the list never grows. The order is stated by `MainCategoriesAppend`. |
| `CategoryPage.MainCategoriesAppend` | client/src/components/Admin/AllCategories.jsx:166-168 | Filtering a concatenation is filtering each part, so the list order is kept. |
| `CategoryPage.MainCategoriesOne` | client/src/components/Admin/AllCategories.jsx:166-168 | A single category is kept exactly when it has a falsy parent. |
| `CategoryPage.AllSubcategories` | client/src/components/Admin/AllCategories.jsx:170-173 | A category is kept exactly when it has a truthy parent, and the list never grows. The order is stated by `AllSubcategoriesAppend`. |
| `CategoryPage.AllSubcategoriesAppend` | client/src/components/Admin/AllCategories.jsx:170-173 | Filtering a concatenation is filtering each part, so the list order is kept. |
| `CategoryPage.AllSubcategoriesOne` | client/src/components/Admin/AllCategories.jsx:170-173 | A single category is kept exactly when it has a truthy parent. |
| `CategoryPage.Subcategories` | client/src/components/Admin/AllCategories.jsx:236 | A category is kept exactly when it has a parent `===` the id, and the list never grows. The order is stated by `SubcategoriesAppend`. |
| `CategoryPage.SubcategoriesAppend` | client/src/components/Admin/AllCategories.jsx:236 | Filtering a concatenation is filtering each part, so the list order is kept. |
| `CategoryPage.SubcategoriesOne` | client/src/components/Admin/AllCategories.jsx:236 | A single category is kept exactly when it has a parent `===` the id. |
| `CategoryPage.MainAndSubPartition` | client/src/components/Admin/AllCategories.jsx:166-173 | Main categories and subcategories partition the list: every category is in exactly one, and the lengths add up. |
| `CategoryPage.ChildrenAreSubcategories` | client/src/components/Admin/AllCategories.jsx:170-236 | The children of a truthy id are among the subcategories. |
| `CategoryPage.OptionOf` | client/src/components/Admin/AllCategories.jsx:68-69 | An option's value is the id and its label the name. |
| `CategoryPage.CreateCategoryList` | client/src/components/Admin/AllCategories.jsx:66-71 | The `for…of` loop yields one option per category, in order. |
| `CategoryPage.ListAsWritten` | client/src/components/Admin/AllCategories.jsx:34-36 | As written, the list is read from `items.results`. |
| `CategoryPage.ListAsWrittenIsEmpty` | client/src/components/Admin/AllCategories.jsx:34-36 | Every state the category slice can hold (always an array) shows an empty list. |
| `CategoryPage.List` | client/src/components/Admin/AllCategories.jsx:34-36 | Corrected: an array state is shown as it is, a page shows its `results`, and anything else shows []. |
| `CategoryPage.ListShowsFetched` | client/src/redux/categorySlice.js:71-74 | After any fetch, the corrected page shows exactly what the slice stored. |
| `Dashboard.TotalOrders` | client/src/components/Admin/Main.jsx:30-33 | Σ `total_orders`, with missing counts as 0. |
| `Dashboard.TotalOrdersAppend` | client/src/components/Admin/Main.jsx:30-33 | The total over a concatenation is the sum of the totals. |
| `Dashboard.AllEntriesMembers` | client/src/components/Admin/Main.jsx:39-44 | An entry is collected exactly when some report with a details list holds it. |
| `Dashboard.CollectProducts` | client/src/components/Admin/Main.jsx:39-44 | The `forEach`/`push` loop collects `AllEntries`. |
| `Dashboard.Names` | client/src/components/Admin/Main.jsx:46-55 | The distinct trimmed names, in order of first appearance. |
| `Dashboard.NamesMembers` | client/src/components/Admin/Main.jsx:46-55 | A name is a key exactly when some entry trims to it. |
| `Dashboard.NameWitness` | client/src/components/Admin/Main.jsx:46-55 | Every key comes from some entry whose trimmed name it is. |
| `Dashboard.NameListed` | client/src/components/Admin/Main.jsx:46-55 | The trimmed name of every entry is a key. |
| `Dashboard.Aggregate` | client/src/components/Admin/Main.jsx:46-55 | The `reduce` gives one key per trimmed name, each holding the summed quantity of that name. |
| `Dashboard.AggregateStep` | client/src/components/Admin/Main.jsx:48-53 | One step adds an entry's quantity to its name's total. |
| `Dashboard.TotalAbsent` | client/src/components/Admin/Main.jsx:46-55 | A name that no entry trims to totals 0. |
| `Dashboard.TrimmedNamesMerge` | client/src/components/Admin/Main.jsx:48-49 | Names that differ only by surrounding whitespace are summed together. |
| `Dashboard.Insert` | client/src/components/Admin/Main.jsx:57-58 | Insertion into a list in non-increasing order keeps it sorted, with the same members. |
| `Dashboard.InsertPermutes` | client/src/components/Admin/Main.jsx:57-58 | Insertion is a permutation of the list plus the new pair. |
| `Dashboard.SortDesc` | client/src/components/Admin/Main.jsx:57-58 | The sort by quantity, largest first, is non-increasing. |
| `Dashboard.SortDescPermutes` | client/src/components/Admin/Main.jsx:57-58 | The sort is a permutation of its input. |
| `Dashboard.TopFive` | client/src/components/Admin/Main.jsx:57-59 | At most five entries, exactly five when there are five products, in non-increasing quantity order. |
| `Dashboard.TopFiveIsTop` | client/src/components/Admin/Main.jsx:57-59 | Every product left out has no more than each product shown. |
| `Dashboard.SumQtyAppend` | client/src/components/Admin/Main.jsx:61-64 | Sum over a concatenation is the sum of the sums. |
| `Dashboard.SumQtyInsert` | client/src/components/Admin/Main.jsx:57-64 | Insertion does not change the sum. |
| `Dashboard.SumQtySort` | client/src/components/Admin/Main.jsx:57-64 | Sorting does not change the sum. |
| `Dashboard.TotalProductsSoldBound` | client/src/components/Admin/Main.jsx:57-64 | The dashboard total never exceeds the sum over all products, and equals it with five or fewer products. |
| `Dashboard.PrefixSum` | client/src/components/Admin/Main.jsx:59-64 | A leading slice of the products sums to at most the whole, and to the whole when nothing is cut off. |
| `Dashboard.SixthProductNotCounted` | client/src/components/Admin/Main.jsx:61-64 | Six products of one unit each show a total of 5, not 6. |
| `SalesCsv.DoubleQuotes` | client/src/components/Admin/AllReports.jsx:64 | Doubling quotes never shortens the name. |
| `SalesCsv.Quote` | client/src/components/Admin/AllReports.jsx:64 | The field starts and ends with a double quote. |
| `SalesCsv.UndoubleDouble` | client/src/components/Admin/AllReports.jsx:64 | Reading back the doubled quotes gives the original text. |
| `SalesCsv.QuoteRoundTrip` | client/src/components/Admin/AllReports.jsx:64 | A quoted product name reads back unchanged, whatever quotes or commas it holds (RFC 4180, section 2). |
| `SalesCsv.HeaderRow` | client/src/components/Admin/AllReports.jsx:35-44 | The header row splits at "," back into the six column names and holds no line break. |
| `SalesCsv.MonthCell` | client/src/components/Admin/AllReports.jsx:48-51 | The month label between quotes: for a label without quotes this is the RFC 4180 quoting and reads back as the label. |
| `SalesCsv.SummaryRow` | client/src/components/Admin/AllReports.jsx:47-55 | For comma-free label and profit the row splits into six fields: the month cell, digits reading back as the order count, the profit and three empty fields. |
| `SalesCsv.ProductRow` | client/src/components/Admin/AllReports.jsx:57-76 | For comma-free fields the row splits into six: the report's three cells, the product name that unquotes to itself (quotes included), digits reading back as the units, and the profit. |
| `SalesCsv.RowsOf` | client/src/components/Admin/AllReports.jsx:47-78 | One row for a report without lines, else one row per product line. |
| `SalesCsv.ProductRows` | client/src/components/Admin/AllReports.jsx:57-78 | Row k is the product row of line k. |
| `SalesCsv.DataRowsCount` | client/src/components/Admin/AllReports.jsx:46-78 | The data rows number Σ max(1, \|details\|). |
| `SalesCsv.DataRowsStep` | client/src/components/Admin/AllReports.jsx:46-47 | A report adds its rows after those of the reports before it. |
| `SalesCsv.ProductRowsStep` | client/src/components/Admin/AllReports.jsx:58-66 | A product line adds its row after those of the lines before it. |
| `SalesCsv.CsvRows` | client/src/components/Admin/AllReports.jsx:34-78 | The rows start with the header row, followed by each report's rows in order. |
| `SalesCsv.PushReports` | client/src/components/Admin/AllReports.jsx:46-78 | The outer `forEach` appends every report's rows, report after report, after the rows already there. |
| `SalesCsv.PushReportRows` | client/src/components/Admin/AllReports.jsx:47-78 | The outer callback pushes the report's summary row, or its product rows. |
| `SalesCsv.PushProductRows` | client/src/components/Admin/AllReports.jsx:57-78 | The inner loop pushes one row per product line, in order. |
| `SalesCsv.CsvText` | client/src/components/Admin/AllReports.jsx:80 | `csvRows.join("\n")`: when no data row holds a line break, splitting at line breaks gives the header row and the data rows back. |
| `SalesCsv.CsvShape` | client/src/components/Admin/AllReports.jsx:35-80 | The first row splits at "," into exactly the six headers. There are 1 + Σ max(1, \|details\|) rows. |
| `SalesCsv.SummaryRowEndsEmpty` | client/src/components/Admin/AllReports.jsx:47-56 | A report without lines gives one row, which ends in three empty fields. |
| `SalesCsv.Search` | client/src/components/Admin/AllReports.jsx:22-32 | Keeps exactly the reports whose lower-cased month contains the lower-cased query, in table order (`MatchingAppend`), and clears the selection. |
| `SalesCsv.Matching` | client/src/components/Admin/AllReports.jsx:24-29 | A report is kept exactly when its lower-cased month contains the query, and the list never grows. The order is stated by `MatchingAppend`. |
| `SalesCsv.MatchingAppend` | client/src/components/Admin/AllReports.jsx:24-29 | Filtering a concatenation is filtering each part, so the table order is kept. |
| `SalesCsv.MatchingOne` | client/src/components/Admin/AllReports.jsx:24-29 | A single report is kept exactly when its lower-cased month contains the query. |
| `SalesCsv.EmptySearchKeepsAll` | client/src/components/Admin/AllReports.jsx:22-32 | An empty query keeps every report, in order. |
| `SalesCsv.HandleDownload` | client/src/components/Admin/AllReports.jsx:161-172 | Refused exactly when nothing is listed, with the menu left as it was. Otherwise "csv" gives `CsvText` and the menu closes. |
| `AppointmentPage.UserId` | client/src/pages/DoctorsAppoinment.jsx:100 | `user.id` is read exactly when a user is signed in; otherwise it throws. |
| `AppointmentPage.FirstBooking` | client/src/pages/DoctorsAppoinment.jsx:88-90 | The first appointment on that date and slot, with none before it; or none at all. |
| `AppointmentPage.SlotStyle` | client/src/pages/DoctorsAppoinment.jsx:87-110 | The pulsing clock shows exactly on a pressable slot, the plain clock exactly with the "secondary" colour, and the "warning" colour with a check mark on a disabled slot. |
| `AppointmentPage.GetSlotStyle` | client/src/pages/DoctorsAppoinment.jsx:87-110 | The step-by-step reassignment computes `SlotStyle`. |
| `AppointmentPage.SlotStyleMeaning` | client/src/pages/DoctorsAppoinment.jsx:87-110 | Bookable exactly when no appointment holds the slot or the first one is cancelled, and then "success". A disabled slot shows "error" exactly when someone else holds it. |
| `AppointmentPage.OwnAndOthers` | client/src/pages/DoctorsAppoinment.jsx:98-107 | Own pending appointment: "secondary", disabled, clock. Another patient's: "error", disabled. |
| `AppointmentPage.CancelledFirstHidesLater` | client/src/pages/DoctorsAppoinment.jsx:88-97 | A cancelled appointment ahead of a confirmed one on the same slot leaves the slot bookable. |
| `AppointmentPage.Mine` | client/src/pages/DoctorsAppoinment.jsx:125-127 | Exactly the appointments whose patient is `user.id`, in list order (`OwnedByAppend`). Throws exactly when there are appointments and no user. |
| `AppointmentPage.OwnedBy` | client/src/pages/DoctorsAppoinment.jsx:125-127 | An appointment is kept exactly when its patient is `===` the id, and the list never grows. The order is stated by `OwnedByAppend`. |
| `AppointmentPage.OwnedByAppend` | client/src/pages/DoctorsAppoinment.jsx:125-127 | Filtering a concatenation is filtering each part, so the list order is kept. |
| `AppointmentPage.OwnedByOne` | client/src/pages/DoctorsAppoinment.jsx:125-127 | A single appointment is kept exactly when its patient is the id. |
| `DoctorForm.SlotString` | client/src/components/Admin/AllDoctors.jsx:139-141 | "HH:mm-HH:mm": eleven characters with "-" at position 5. |
| `DoctorForm.NoDashInTime` | client/src/components/Admin/AllDoctors.jsx:139-140 | A rendered time contains no "-". |
| `DoctorForm.SlotStringParses` | client/src/components/Admin/AllDoctors.jsx:139-141 | The server's slot generator reads the range back as the same two times. |
| `DoctorForm.Spread` | client/src/components/Admin/AllDoctors.jsx:142 | Spreading an array gives its elements, and spreading a string gives its characters. |
| `DoctorForm.TimeText` | client/src/components/Admin/AllDoctors.jsx:139-141 | A time renders as `HH:mm`; an invalid date renders as "Invalid Date", which `strptime` cannot read. Neither contains "-". |
| `DoctorForm.InvalidDateIsNoTime` | client/src/components/Admin/AllDoctors.jsx:139-141 | "Invalid Date" has no "-" and does not parse as a time. |
| `DoctorForm.RangeText` | client/src/components/Admin/AllDoctors.jsx:139-141 | Two time pickers give the same string as `SlotString`. |
| `DoctorForm.InvalidPickerRangeRejected` | client/src/components/Admin/AllDoctors.jsx:139-141 | A range built while either picker holds an invalid date is rejected by the server's slot generator. |
| `DoctorForm.AddTimeSlot` | client/src/components/Admin/AllDoctors.jsx:137-148 | With both pickers set (`null` is the only falsy value; an invalid date counts as set), the range is appended and both pickers are cleared; otherwise nothing changes. |
| `DoctorForm.AddWithInvalidPickerStoresUnreadableRange` | client/src/components/Admin/AllDoctors.jsx:138-144 | A picker holding an invalid date passes the guard, and the list grows by one range that the server's slot generator rejects. |
| `DoctorForm.AddTimeSlotKeepsPickersValid` | client/src/components/Admin/AllDoctors.jsx:146-147 | After adding, the pickers are in a valid state. |
| `DoctorForm.RemoveTimeSlot` | client/src/components/Admin/AllDoctors.jsx:151-156 | Only the element at the index goes, and the others keep their order. A non-array throws. |
| `DoctorForm.AddThenRemove` | client/src/components/Admin/AllDoctors.jsx:137-156 | Adding a range and removing it again restores the list. |
| `DoctorForm.DaysChange` | client/src/components/Admin/AllDoctors.jsx:69-75 | A string value is split at ","; any other value is kept as it is. |
| `DoctorForm.DaysFromJoinedString` | client/src/components/Admin/AllDoctors.jsx:69-75 | Comma-joined day names are read back as the same list. |
| `DoctorForm.Edit` | client/src/components/Admin/AllDoctors.jsx:112-124 | Loads the doctor's fields, defaults falsy days and times to [], and enters edit mode for the doctor's id. |
| `DoctorForm.EditThenAdd` | client/src/components/Admin/AllDoctors.jsx:112-148 | A doctor loaded without ranges takes a new range as the only element. |

## Left out

- Floating point and formatting:
  - `float(...)` and `round(…, 2)` in the cart totals;
  - `float()` in the report breakdown;
  - `toFixed`;
  - the locale month labels of the sales report, which are taken as given strings.
- Sending mail. Each `send_mail` is a boolean input: delivered or raised.
- The payment gateway's `createSession` call.
- Every axios/fetch call of the thunks.
- `window.location`, blob downloads, `focus()`, alerts and toasts.
- `localStorage`, which is modelled as a map. `JSON.stringify`/`JSON.parse` of the stored user are left out.
- Randomness and clocks are inputs:
  - the OTP draw;
  - the six hex characters of a slug suffix;
  - `timezone.now()`, `date.today()` and `new Date()`.
- Django `slugify`. Its result is an input `base`.
- The Django ORM and database:
  - transactions and `select_for_update`;
  - races between requests;
  - `F()` expressions, which are modelled as `+=`;
  - `get_or_create`, which is modelled only by its logical effect.
- `Order`, `OrderItem`, `MonthlyReport`, `YearlyReport`, `Doctor` and `Appointment` are not defined in models.py. They are records holding only the fields the code reads.
- The model validation `Appointment.clean()` and the database write of `AppointmentAdmin.save_model` are inputs: each either succeeds or fails with a reason.
- The cached Cloudinary lookup in `validate_image_size` is an input that can be absent, report a size, or fail.
- `Catalog.UnitLabel`: `get_unit_display` is modelled only for the four unit choices. Other choice fields are left out.
- `Checkout.ConfirmPayload`: only the payload is modelled. The request and its reply are the `answer` parameter of `Checkout.HandleConfirm`.
- `Checkout.AfterOrder`: models the page as intended, with `clearCart` exported by the cart slice. The page as written is `Checkout.AfterOrderAsWritten` (see Findings).
- `Checkout.HandleConfirm`: models the page with `axios` imported. The page as written is `Checkout.HandleConfirmAsWritten` (see Findings).
- `CategoryPage.Submit`: covers the form checks and the request fields. The thunk it dispatches is `CategoryPage.SubmitDispatch`, and the page as written is `CategoryPage.SubmitDispatchAsWritten` (see Findings). The thunks' requests are not modelled.
- `Accounts.ValidatePhone`: Python's `str.isdigit` also accepts non-ASCII digits, such as Bengali digits and superscripts. The model accepts ASCII digits only.
- `Slots.ParseTime`: `strptime`'s `%H` and `%M` also accept non-ASCII decimal digits. The model reads ASCII digits only.
- `Slots.ParseRange`: the same ASCII-only restriction, through `Slots.ParseTime`.
- `Prescriptions.LockFields`: `admin_comment` is modelled as a request field because the serializer reads it. `PrescriptionRequest` (server/users/models.py:301-324) has no such field, nor `reviewed_at` or `product`. Django would refuse the serializer's field list (server/users/serializers.py:259-262). The model follows the serializer.
- `Prescriptions.ApplyChanges`: the same missing `admin_comment` field. The model writes it as the serializer means to.
- `Prescriptions.Db.Update`: `reviewed_at` is not a model field, so the stamp at server/users/serializers.py:324 would never be stored. The model keeps the stamp.
- `Orders.Snapshot`: the order serializer reads `product.actual_price` (server/users/serializers.py:367), but `Product` has no such field. The model carries it as a product field.
- `Catalog.DerivePrices`: `new_price` and `discount_price` are decimal columns with two places. The model keeps exact reals and does not round on save.
- `Js.PlusOne`: an array or object operand, which JavaScript turns into a string, gives NaN in the model.
- `Js.MinusOne`: a string is converted by `Js.StringToNumber`, so the limits of that function apply. Array and object operands give NaN in the model.
- `Js.StringToNumber`: reads only a trimmed run of decimal digits. Signs, fractions, exponents, hex, "Infinity" and numeric separators give NaN in the model. The single characters the OTP filter sees are converted exactly.
- JavaScript details the model does not capture:
  - `toLowerCase` is modelled for ASCII letters only; Unicode case mappings such as U+0130 or U+212A are not;
  - `trim` uses the whitespace set of the model's `IsJsSpace`, not every Unicode space separator.
- `Dashboard.Aggregate`: the key order of a JavaScript object is insertion order, except that integer-like names come first. The model keeps first-appearance order. Keys inherited from `Object.prototype` (for example "constructor") are not modelled.
- `SalesCsv.MonthCell`: the month label is quoted without doubling inner quotes, as in the source. The contract covers labels without quotes, which is what `toLocaleString` gives for a month and a year.
- `SalesCsv.SummaryRow`: the contract reads the row back with a plain split at commas, so it assumes the label and the profit hold no comma. `toFixed(2)` never writes one.
- `SalesCsv.ProductRow`: the same plain split, so the contract also assumes a comma-free product name. An RFC 4180 reader would take a quoted comma as well, but the model has none.
- `Array.prototype.join` renders `undefined`/`null` elements as "". The OTP boxes only ever hold strings, so this is not modelled.
- The generic `handleChange` of the doctor form, which spreads the event's name and value, is not modelled beyond `DaysChange`.
- The PDF export of the sales report is a marker value only.
- `CategoryPage.CreateCategoryList`: only the default empty `options` accumulator is modelled.
- `OrdersReport.FormatDay`: years are assumed below 10000 (four digits).
- The `null` elements that a Python list of records could hold are not modelled; records are never null.
- Pages that only render (product pages, cart page, headers, layouts, route guards, notification buttons) are not part of this model. Neither are configuration and wiring: settings, URLs, the store and the axios instance.

## Findings

| source | as written | input that shows it | evidently intended | confidence | as-written member | corrected member |
|---|---|---|---|---|---|---|
| server/users/models.py:69-79 | The `ValidationError` raised for a large image is caught by the generic `except Exception` handler, so the validator never refuses anything. | An image the media service reports as 3·1024·1024 bytes. | Refuse images larger than 2 MB. | high (not executed) | `Catalog.OversizedImageAccepted` | `Catalog.ValidateImageSize` |
| server/users/models.py:93-98 | `self.slug = slug` sits inside the `while` loop, so a brand whose base slug is free keeps a blank slug. | A first brand named "acme" with no other brands stored. | Assign the slug after the loop, as `Product.save` does. | high (not executed) | `Catalog.BrandBlankSlugWitness` | `Catalog.Brand.Save` |
| server/users/views.py:85-88 | The resend path writes the key "otp", but the model field is `otp_code`. It also calls `now()` on the standard library's `timezone` class. Every user who passes the guards gets a server error. | Any registered, unverified user. | Store a fresh `otp_code` created now, then mail it. | high (not executed) | `Accounts.AuthStore.ResendOtpAsWritten` | `Accounts.AuthStore.ResendOtp` |
| client/src/components/Admin/AllCategories.jsx:34-36 | The page reads `items.results`, but the category slice only ever stores an array, so the list is always empty. | A fetch returning `[{"id": 1, "name": "Pain"}]`. | Use the stored array, or the page's `results` when it is a page. | high (not executed) | `CategoryPage.ListAsWrittenIsEmpty` | `CategoryPage.ListShowsFetched` |
| client/src/pages/Checkout.jsx:98 | Order lines carry `productName`, but the order-line serializer requires `product_name` (server/users/serializers.py:339). | Any cart with one item. | Send `product_name`. | medium (not executed; the order view is not part of this model) | `Checkout.LineAsWrittenMissesProductName` | `Checkout.Line` |
| client/src/pages/Checkout.jsx:18 | `clearCart` is imported from the cart slice, which does not export it (its exports are at client/src/redux/cartSlice.js:8, 27, 45 and 128). Vite refuses to build the page. Where the binding is left undefined instead, `dispatch(clearCart())` throws after the modal opens, the failure alert follows, and the cart stays full. | A cash-on-delivery order that the server accepts. | Export a `clearCart` action from the cart slice and clear the cart. | high (not executed) | `Checkout.CodAsWrittenKeepsCart` | `Checkout.AfterOrder` |
| client/src/pages/Checkout.jsx:110 | `axios` is used but never imported, so the post throws a ReferenceError and every confirmation ends in the failure alert. | Any confirmation with a postal code. | Import the axios instance and post the order. | high (not executed) | `Checkout.ConfirmAsWrittenNeverOrders` | `Checkout.HandleConfirm` |
| client/src/components/Admin/AllCategories.jsx:28 | `updateCategory` is imported from the category slice, which does not export it (its exports are at client/src/redux/categorySlice.js:9, 24, 40 and 114). Vite refuses to build the page. Where the binding is left undefined instead, every edit throws and ends in the "Something went wrong" alert. | Editing any category. | Export an `updateCategory` thunk and dispatch it. | high (not executed) | `CategoryPage.EditAsWrittenNeverUpdates` | `CategoryPage.SubmitDispatch` |
| client/src/redux/AllUserSlice.js:99 | `u._id === action.payload._id` compares `undefined` with `undefined` whenever neither the payload nor a user has `_id`. Every update then matches the first user without `_id`, so updating a known user at any later position overwrites the first user. | Users `[{id: 1}, {id: 2}]` and a payload `{id: 2}`. | Compare `_id` only when the payload carries one. | high (not executed; the server's user records carry `id` and never `_id`) | `AllUserSlice.UpdateKnownUserHitsFirst` | `AllUserSlice.UpdateIntendedSharesKey` |
| client/src/redux/productSlice.js:59 | The reducer stores the thunk's value as the product list, commented "array guaranteed", but the thunk returns any truthy `results`, array or not. | A response `{results: "x"}`. | Store `results` only when it is an array, else an empty list. | low (not executed; the server's product list sends an array) | `ProductSlice.NormaliseNotAlwaysArray` | `ProductSlice.NormaliseIntended` |
