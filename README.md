# cashier-paystack, modelled in Dafny

This project models the core of the cashier-paystack Laravel package. The package adds Paystack
billing to an Eloquent "billable" model. The model covers:

- the subscription entity: its lifecycle predicates and its cancel, resume and swap transitions;
- the subscription builder, which creates a remote subscription and persists the local row;
- the billable's traits: creating the Paystack customer, one-off charges and refunds,
  invoices, and the subscription queries;
- the webhook endpoint and the signature middleware in front of it;
- the currency configuration and amount formatting of `Cashier`;
- the random reference generator.

The Paystack HTTP API is an oracle. `Gateway.Env` carries a function from each request to the
reply it gets or the exception it raises. It also carries the current time, date parsing and
formatting, and JSON decoding and encoding. Every operation that talks to Paystack returns the
requests it issued, in order. The two tables live in `Store.Database`, which the operations
update in place: the customers table (`paystack_customers`, read through a Customer model that
is not part of this model) and the subscriptions table. The subscriptions table is the one the
Subscription model names, `bunce_subscription_plans` (src/Subscription.php:21), through which
the builder's save, the webhook's lookups and the `subscriptions` relation all go.

Files:

| file | module | models |
|---|---|---|
| wrappers.dfy | Wrappers | Option, Result and the errors the package raises |
| values.dfy | Values | decoded JSON and PHP arrays, truthiness, `array_merge`, ASCII case mapping |
| gateway.dfy | Gateway | the Paystack requests and the gateway oracle |
| subscription.dfy | Subscriptions | `src/Subscription.php` |
| store.dfy | Store | the two tables and the relations read through them |
| customer.dfy | ManagesCustomer | `src/Concerns/ManagesCustomer.php` |
| payments.dfy | ManagesPayments | `src/Concerns/ManagesPayments.php` |
| invoices.dfy | ManagesInvoices | `src/Concerns/ManagesInvoices.php` |
| builder.dfy | Builder | `src/SubscriptionBuilder.php` |
| queries.dfy | ManagesSubscriptions | `src/Concerns/ManagesSubscriptions.php` |
| signature.dfy | VerifyWebhookSignature | `src/Http/Middleware/VerifyWebhookSignature.php` |
| webhook.dfy | WebhookController | `src/Http/Controllers/WebhookController.php` |
| cashier.dfy | CashierConfig | `src/Cashier.php` |
| reference.dfy | ReferenceGenerator | `src/ReferenceGenerator.php` |

The lifecycle predicates follow the code: they read the `end_date` and `status` attributes of
a row, not the `trial_ends_at` and `ends_at` columns that the builder writes. The package's own
migration likewise creates a `paystack_subscriptions` table that the code never reads; the model
follows the model class's `bunce_subscription_plans`.

## Model

| member | source | states |
|---|---|---|
| Values.Merge | src/SubscriptionBuilder.php:185-189 | array_merge on string keys: every key of both arrays, and the overriding value wins where both have the key |
| Values.Truthy | src/Subscription.php:361 | a value is falsy exactly when it is null, false, 0, "", "0", or an empty array or object |
| Values.Path | src/Http/Controllers/WebhookController.php:126 | a nested `?? null` read yields a non-null value or nothing; one step is Index with a null value read as missing |
| Values.Index | src/Subscription.php:259-262 | reading `$x[$key]` with a non-numeric key succeeds exactly when `$x` is an array holding the key, and yields that value; on a string it throws a TypeError (an `Error`, not an `Exception`); otherwise it raises the undefined-key warning |
| Values.Lower | src/Cashier.php:62 | strtolower keeps the length and maps each character by the ASCII lower-case map |
| Values.Upper | src/Cashier.php:120 | strtoupper keeps the length and maps each character by the ASCII upper-case map |
| Values.LowerAppend | src/Cashier.php:62 | lower-casing distributes over concatenation |
| Values.NatText | src/SubscriptionBuilder.php:127-135 | the decimal text of a natural number is non-empty and made only of digits |
| Values.NatTextInjective | src/SubscriptionBuilder.php:132 | distinct positions have distinct decimal texts, so list keys never collide |
| Gateway.Call | src/Subscription.php:358-359 | one Paystack call succeeds exactly when the oracle returns a reply, and yields that reply; otherwise it yields the exception raised |
| Gateway.ParseText | src/Subscription.php:270-272 | a text parses exactly when Carbon's parser accepts it, to the instant it gives |
| Gateway.ParseDate | src/Subscription.php:270-272 | Carbon::parse reads an integer as a Unix timestamp; null, false, "", "0" and an empty array as now; true as the text "1"; any other string through the parser, failing exactly when the parser does; a non-empty array fails |
| Subscriptions.OnTrial | src/Subscription.php:167-170 | defined as: the end date is set and lies after now |
| Subscriptions.OnGracePeriod | src/Subscription.php:200-203 | defined as: the end date is set and lies after now, the same test as OnTrial |
| Subscriptions.Active | src/Subscription.php:67-70 | defined as: no end date, or on grace period |
| Subscriptions.Valid | src/Subscription.php:57-60 | defined as: active, on trial or on grace period |
| Subscriptions.Cancelled | src/Subscription.php:114-117 | defined as: the status is "inactive" |
| Subscriptions.Ended | src/Subscription.php:146-149 | defined as: cancelled and not on grace period |
| Subscriptions.Recurring | src/Subscription.php:93-96 | defined as: neither on trial nor cancelled |
| Subscriptions.HasPlan | src/Subscription.php:245-248 | defined as: the stored plan is exactly the given string (strict `===`, so a non-string plan never matches) |
| Subscriptions.PredicateRelations | src/Subscription.php:57-203 | at any instant: on trial iff on grace period iff the end date is in the future; active iff no end date or a future one; valid iff active; cancelled iff status is inactive; ended iff cancelled and not on grace period; recurring iff neither on trial nor cancelled |
| Subscriptions.ActiveAndEndedWithoutEndDate | src/Subscription.php:67-149 | a cancelled row with no end date is active, valid and ended at once, and not recurring |
| Subscriptions.EndedIsStable | src/Subscription.php:146-149 | an ended row with an end date stays ended, and neither active nor valid, at every later instant |
| Subscriptions.MarkedAsCancelled | src/Subscription.php:299-302 | only end_date and status change; the row is cancelled and, from now on, ended, not active, not valid and not on grace period |
| Subscriptions.Resumed | src/Subscription.php:326 | only end_date and status change; the row is not cancelled, and at every instant it is active, valid, recurring and not ended |
| Subscriptions.TrialSkipped | src/Subscription.php:234-239 | only end_date changes; the row is then active and never on trial, and it is ended exactly when it was cancelled |
| Subscriptions.CancelledUntil | src/Subscription.php:267-274 | on trial nothing changes; otherwise only end_date and status change, the row is cancelled, on grace period until the next payment date, and ended from that date on |
| Subscriptions.AsPaystackSubscription | src/Subscription.php:356-366 | fetches by subscription_code; succeeds exactly when the call returns truthy data, and yields that data |
| Subscriptions.TokenAndCode | src/Subscription.php:259-262 | the enable/disable body holds exactly token and code, taken from email_token and subscription_code; it exists exactly when the snapshot has both keys |
| Subscriptions.CancelEffect | src/Subscription.php:255-279 | the first request is the fetch; a failed fetch issues nothing else and changes nothing; on success exactly one disable request follows, the row is unchanged on trial and otherwise becomes CancelledUntil the snapshot's next payment date; any error leaves the row as it was |
| Subscriptions.ResumeEffect | src/Subscription.php:311-329 | the first request is the fetch; on success exactly one enable request follows and the row becomes Resumed; any error leaves the row as it was |
| Subscriptions.SwapPayload | src/Subscription.php:342-346 | the create body has customer, plan and start_date plus the caller's keys; the plan argument applies unless the caller gives one; start_date defaults to the snapshot's next payment date |
| Subscriptions.SwapAfterFetch | src/Subscription.php:338-346 | an uncancelled row is first cancelled exactly as CancelEffect says (its requests come first, its row is kept, its failure stops the swap); an already cancelled row is left as it was and its only request is the create of SwapPayload, or none when that payload cannot be built; after a successful cancel and a valid SwapPayload the last request creates that payload, and the swap succeeds exactly when that call does; the stored plan never changes |
| Subscriptions.SwapEffect | src/Subscription.php:334-349 | the first request is the fetch; a failed fetch issues nothing else and changes nothing; otherwise the outcome, row and remaining requests are those of SwapAfterFetch on the fetched snapshot |
| Subscriptions.Subscription.constructor | src/Subscription.php:12 | an entity holds the row it was loaded from |
| Subscriptions.Subscription.SkipTrial | src/Subscription.php:234-239 | the attributes become TrialSkipped of the old ones |
| Subscriptions.Subscription.MarkAsCancelled | src/Subscription.php:299-302 | the attributes become MarkedAsCancelled of the old ones at the given time |
| Subscriptions.Subscription.Cancel | src/Subscription.php:255-279 | outcome, requests and new attributes are exactly those of CancelEffect on the old attributes |
| Subscriptions.Subscription.CancelNow | src/Subscription.php:286-292 | runs cancel, then on success marks the row as cancelled now; on failure the attributes are what cancel left |
| Subscriptions.Subscription.Resume | src/Subscription.php:311-329 | outcome, requests and new attributes are exactly those of ResumeEffect on the old attributes |
| Subscriptions.Subscription.Swap | src/Subscription.php:334-349 | outcome, requests and new attributes are exactly those of SwapEffect on the old attributes |
| Subscriptions.CancelNowEnds | src/Subscription.php:286-292 | after a successful cancelNow the row is cancelled, and ended and not active from that instant on |
| Store.FirstCustomerOf | src/Concerns/ManagesCustomer.php:64-67 | the customer relation finds the first row of the owner, or none when no row belongs to it |
| Store.CustomerOf | src/Concerns/ManagesCustomer.php:64-67 | the customer relation yields a row of the owner, and nothing exactly when the owner has no row |
| Store.FindCustomerByCode | src/Http/Controllers/WebhookController.php:130-132 | the first customer row with the given paystack_code, or none when no row has it |
| Store.FindSubscription | src/Http/Controllers/WebhookController.php:113-117 | the first subscription row with the given paystack_code, or none when no row has it |
| Store.FindSubscriptionAt | src/Http/Controllers/WebhookController.php:113-117 | a row that has the code, with no earlier row having it, is the one found |
| Store.SubscriptionsOf | src/Concerns/ManagesSubscriptions.php:18-21 | the subscriptions relation holds exactly the owner's rows |
| Store.SubscriptionsOfNewestFirst | src/Concerns/ManagesSubscriptions.php:20 | the relation is the owner's rows in table order, reversed: newest first |
| Store.InsertIsNewest | src/Concerns/ManagesSubscriptions.php:18-21 | a row just inserted for an owner becomes the first (newest) element of that owner's relation, ahead of all older ones |
| Store.Database.constructor | database/migrations/2023_11_04_000001_create_paystack_customers_table.php:11-26 | the database holds the given tables |
| Store.Database.InsertCustomer | database/migrations/2023_11_04_000001_create_paystack_customers_table.php:25 | an insert succeeds exactly when the owner has no customer row yet, appends exactly that row, and keeps one row per owner |
| Store.Database.InsertSubscription | src/SubscriptionBuilder.php:107-115 | appends the row to the subscriptions table and changes nothing else |
| Store.Database.UpdateSubscription | src/Subscription.php:301 | replaces only the saved row and changes nothing else |
| ManagesCustomer.CustomerRequestBody | src/Concerns/ManagesCustomer.php:22-24 | the body always has an email: the caller's own when given, otherwise the billable's |
| ManagesCustomer.NewCustomer | src/Concerns/ManagesCustomer.php:32-35 | a customer row can be built exactly when the reply data has id and customer_code, and it records them for the billable |
| ManagesCustomer.CreateAsCustomer | src/Concerns/ManagesCustomer.php:20-38 | exactly one create-customer request; it succeeds exactly when the reply returns with a true status and an id and customer_code, for a billable without a customer row; success inserts exactly that row and returns the reply data; a false status throws the failure message; failure writes nothing |
| ManagesCustomer.AssertCustomerExists | src/Concerns/ManagesCustomer.php:74-79 | fails with InvalidCustomer exactly when there is no customer row or its paystack_id is null |
| ManagesPayments.ChargeOptions | src/Concerns/ManagesPayments.php:20-26 | the charge body always carries the billable's email and the amount; currency and reference are the defaults unless the caller gives them; every other option is kept |
| ManagesPayments.ChargeRequest | src/Concerns/ManagesPayments.php:28-34 | an authorization code routes to charge-authorization; otherwise a card or bank routes to charge; anything else becomes a payment request; the body is sent unchanged |
| ManagesPayments.ChargeBillable | src/Concerns/ManagesPayments.php:18-41 | one request, to the endpoint ChargeRequest picks; a false status throws the failure message; success returns the reply |
| ManagesPayments.RefundOptions | src/Concerns/ManagesPayments.php:53-55 | the refund body is the caller's options with transaction set to the refunded charge |
| ManagesPayments.RefundCharge | src/Concerns/ManagesPayments.php:51-58 | exactly one refund request; its reply is returned whatever its status |
| ManagesInvoices.ClassBasename | src/Concerns/ManagesInvoices.php:26 | the result is a suffix of the class name with no backslash in it, and the character before it, if any, is a backslash |
| ManagesInvoices.InvoiceOptions | src/Concerns/ManagesInvoices.php:33-40 | customer, amount, currency and description default to the billable's values unless the caller gives them; due_date is always the formatted date; other options are kept |
| ManagesInvoices.Tab | src/Concerns/ManagesInvoices.php:23-43 | no customer row raises a warning; a falsy paystack_id throws the not-a-customer message; a missing due_date fails; otherwise it is the result of one create-invoice request with InvoiceOptions |
| ManagesInvoices.TabNeedsDueDate | src/Concerns/ManagesInvoices.php:29-31 | a tab without a due date never succeeds |
| ManagesInvoices.FindInvoiceAsWritten | src/Concerns/ManagesInvoices.php:64-78 | as written: an invoice is found exactly when the call returns and the invoice's customer id equals the billable's own paystack_id; a TypeError escapes the catch exactly when the returned data, or its customer, is a string; every other failure answers null |
| ManagesInvoices.FindInvoice | src/Concerns/ManagesInvoices.php:64-78 | corrected: the comparison uses the customer row's paystack_id, with the same escaping TypeError; without a customer row nothing is found |
| ManagesInvoices.OwnInvoiceMissedAsWritten | src/Concerns/ManagesInvoices.php:70 | an invoice that belongs to the customer is not found as written but is found by the corrected lookup |
| ManagesInvoices.FindInvoiceOrFail | src/Concerns/ManagesInvoices.php:85-94 | returns the invoice findInvoice finds, fails with NotFound exactly when findInvoice returns null, and passes findInvoice's TypeError on |
| ManagesInvoices.InvoiceQuery | src/Concerns/ManagesInvoices.php:122 | the query is the caller's options over a default customer, the customer's paystack_id |
| ManagesInvoices.Listed | src/Concerns/ManagesInvoices.php:125-136 | defined as: the result invoices gives once its request is sent: the raised error, an invoice per list item in order, one per object value, or a warning |
| ManagesInvoices.Invoices | src/Concerns/ManagesInvoices.php:117-137 | no customer: InvalidCustomer and no request; otherwise exactly one fetch-invoices request; a list of data gives one invoice per item, in order; an object gives one per value; other data raises a warning |
| ManagesInvoices.PendingQuery | src/Concerns/ManagesInvoices.php:144 | the caller's parameters with status forced to "pending" |
| ManagesInvoices.PaidQuery | src/Concerns/ManagesInvoices.php:154 | the caller's parameters with paid forced to true |
| ManagesInvoices.InvoicesOnlyPending | src/Concerns/ManagesInvoices.php:142-147 | the one request is invoices with the pending query; no customer fails with InvalidCustomer and no request; the result is what invoices returns for that request: the raised error, one invoice per list item in order, one per object value, or a warning |
| ManagesInvoices.InvoicesOnlyPaid | src/Concerns/ManagesInvoices.php:152-157 | the one request is invoices with the paid query; no customer fails with InvalidCustomer and no request; the result is what invoices returns for that request: the raised error, one invoice per list item in order, one per object value, or a warning |
| Builder.TrialEndsAt | src/SubscriptionBuilder.php:101-105 | a trial end is recorded exactly when the trial is not skipped and the days are truthy, and it is now plus that many days |
| Builder.StartDate | src/SubscriptionBuilder.php:179-183 | the start date is now whenever the trial is skipped or has no truthy days |
| Builder.StartDateIsTrialEnd | src/SubscriptionBuilder.php:101-183 | the start date sent to Paystack equals the recorded trial end, or now when none is recorded |
| Builder.SubscriptionPayload | src/SubscriptionBuilder.php:177-190 | exists exactly when the customer data has customer_code; the caller's options are kept and override customer, plan and start_date, which default to the customer code, the plan and the start date |
| Builder.WithAuthorization | src/SubscriptionBuilder.php:157-159 | a non-null token is added as authorization; a null one leaves the payload as it was |
| Builder.NewRow | src/SubscriptionBuilder.php:107-115 | a row can be built exactly when the data has id and subscription_code; it belongs to the billable with the builder's type and plan |
| Builder.MetadataBase | src/SubscriptionBuilder.php:132-135 | the metadata always holds exactly billable_id, the owner's key, and billable_type, the owner's morph class |
| Builder.DecodedMetadata | src/SubscriptionBuilder.php:127 | absent, null or false metadata, and a string that decodes to null, all give the empty array; a string that decodes to a value gives that value; an array or object option raises an error; the result is never null |
| Builder.ListFields | src/SubscriptionBuilder.php:132 | defined as: a decoded list becomes an array keyed by the item positions |
| Builder.ListFieldsKeys | src/SubscriptionBuilder.php:132 | the keys of a list-derived array are exactly the positions "0" to "n-1" |
| Builder.ListFieldsValues | src/SubscriptionBuilder.php:132 | each item sits under its own position |
| Builder.ListKeysAreDigits | src/SubscriptionBuilder.php:132 | every key of a decoded list is a decimal position |
| Builder.MergeMetadataAsWritten | src/SubscriptionBuilder.php:132-135 | as written: the merge succeeds only for a decoded list, never for a decoded object |
| Builder.MergeMetadata | src/SubscriptionBuilder.php:132-135 | corrected: objects and lists both merge; an object's keys override the base metadata; a list merges as before |
| Builder.ObjectMetadataRejectedAsWritten | src/SubscriptionBuilder.php:127-135 | metadata given as a JSON object decodes, yet the as-written merge fails while the corrected merge succeeds |
| Builder.ChargeOptionsWith | src/SubscriptionBuilder.php:128-136 | the charge options keep the caller's options except metadata, default the plan, and carry the merged metadata encoded as a JSON object |
| Builder.SubscriptionChargeOptionsAsWritten | src/SubscriptionBuilder.php:127-136 | as written: the options exist exactly when the metadata decodes to a list, and then carry the base metadata merged with the list's positions |
| Builder.SubscriptionChargeOptions | src/SubscriptionBuilder.php:127-136 | corrected: the options exist exactly when the metadata decodes to a list or an object; an object's fields are merged over the base metadata; wherever the as-written options exist they are the same |
| Builder.ObjectMetadataChargeRejected | src/SubscriptionBuilder.php:127-136 | with metadata given as a JSON object, the as-written charge options fail while the corrected ones exist |
| Builder.SubscriptionBuilder.constructor | src/SubscriptionBuilder.php:60-65 | a builder holds the billable, type and plan, with no trial days and no skip |
| Builder.SubscriptionBuilder.TrialDays | src/SubscriptionBuilder.php:73-78 | records the trial days, keeps skip, returns the builder itself |
| Builder.SubscriptionBuilder.SkipTrial | src/SubscriptionBuilder.php:85-90 | sets skip, keeps the trial days, returns the builder itself |
| Builder.SubscriptionBuilder.Save | src/SubscriptionBuilder.php:99-116 | inserts exactly the row NewRow builds with the recorded trial end, or nothing when none can be built; customers are untouched |
| Builder.SubscriptionBuilder.GetPaystackCustomer | src/SubscriptionBuilder.php:197-206 | one request: a fetch for a billable whose customer row has a truthy paystack_id, succeeding exactly when the call returns; else a create, succeeding exactly as CreateAsCustomer does; the result is the reply data |
| Builder.SubscriptionBuilder.Create | src/SubscriptionBuilder.php:149-168 | the first request is the customer fetch or create getPaystackCustomer chooses; the create-subscription request with the payload follows exactly when the customer step succeeds and the payload exists; a false status throws and adds no row; a true status gives exactly the row save builds, and success adds it; the customers table gains exactly the new customer row when the owner had none and the create reply builds one, and is unchanged otherwise |
| Builder.SubscriptionBuilder.Charge | src/SubscriptionBuilder.php:125-139 | as written: fails with the options' error when they cannot be built, before any request; otherwise it is the billable's charge of 100 with the as-written options, succeeding exactly when the gateway returns a true status |
| Builder.SubscriptionBuilder.ChargeIntended | src/SubscriptionBuilder.php:125-139 | corrected: the billable's charge of 100 with the corrected options; wherever the as-written charge succeeds the two agree |
| ManagesSubscriptions.SubscriptionOfType | src/Concerns/ManagesSubscriptions.php:26-29 | the first subscription of the type in the relation, and none exactly when no subscription has that type |
| ManagesSubscriptions.Subscribed | src/Concerns/ManagesSubscriptions.php:123-132 | defined as: the subscription of the type exists, is valid, and has the plan when a truthy one is given |
| ManagesSubscriptions.SubscribedToAnyOf | src/Concerns/ManagesSubscriptions.php:141-156 | defined as: the subscription of the type exists, is valid, and has one of the plans |
| ManagesSubscriptions.OnTrialQuery | src/Concerns/ManagesSubscriptions.php:102-115 | defined as: called with no arguments while the generic trial holds, or the subscription of the type exists, is on trial and has the plan when a truthy one is given |
| ManagesSubscriptions.AsList | src/Concerns/ManagesSubscriptions.php:149 | a single plan is read as a one-element list |
| ManagesSubscriptions.SubscribedToPlan | src/Concerns/ManagesSubscriptions.php:141-156 | true exactly when the subscription of the type exists, is valid, and has one of the given plans |
| ManagesSubscriptions.SubscribedAgreesWithPlanList | src/Concerns/ManagesSubscriptions.php:123-156 | subscribed with one truthy plan agrees with subscribedToPlan with that plan; the plan "0" is ignored by subscribed |
| ManagesSubscriptions.SubscribedIsActive | src/Concerns/ManagesSubscriptions.php:123-132 | without a plan, subscribed holds exactly when the subscription of the type exists and is active |
| ManagesSubscriptions.OnGenericTrial | src/Concerns/ManagesSubscriptions.php:52-59 | false without a customer row, else the customer's own answer |
| ManagesSubscriptions.HasExpiredGenericTrial | src/Concerns/ManagesSubscriptions.php:64-71 | false without a customer row, else the customer's own answer |
| ManagesSubscriptions.GenericTrialOnlyWithoutArguments | src/Concerns/ManagesSubscriptions.php:102-115 | a generic trial makes onTrial() true only when called with no arguments; with the default type given, only the subscription answers |
| ManagesSubscriptions.TrialEndsAt | src/Concerns/ManagesSubscriptions.php:76-83 | the subscription's end date when one of the type exists; else the customer's; a warning exactly when neither exists |
| ManagesSubscriptions.OnPlan | src/Concerns/ManagesSubscriptions.php:164-169 | true exactly when some subscription, of any type and state, has exactly that plan |
| ManagesSubscriptions.SubscribedImpliesOnPlan | src/Concerns/ManagesSubscriptions.php:123-169 | a billable subscribed with a truthy plan is on that plan |
| ManagesSubscriptions.NewestRowAnswers | src/Concerns/ManagesSubscriptions.php:26-29 | the row a builder has just inserted is what subscription($type) returns next, whatever older rows of the type exist |
| ManagesSubscriptions.NewSubscription | src/Concerns/ManagesSubscriptions.php:91-94 | a fresh builder for this billable with the given type and plan and no trial settings |
| VerifyWebhookSignature.HeaderKey | src/Http/Middleware/VerifyWebhookSignature.php:45 | header names are looked up with `_` turned into `-` and ASCII letters lower-cased, length kept |
| VerifyWebhookSignature.Header | src/Http/Middleware/VerifyWebhookSignature.php:50 | a header value is read only when the header is present |
| VerifyWebhookSignature.Secret | src/Http/Middleware/VerifyWebhookSignature.php:50 | defined as: the configured value, or the empty string when the key is not configured |
| VerifyWebhookSignature.HandleAsWritten | src/Http/Middleware/VerifyWebhookSignature.php:42-55 | as written: the request goes on exactly when the asked header is present and differs from the HMAC of the body under paystack.secretKey; otherwise 403 |
| VerifyWebhookSignature.AskedHeaderIsNotPaystacks | src/Http/Middleware/VerifyWebhookSignature.php:45 | the asked header is stored as "http-x-paystack-signature", not as Paystack's "x-paystack-signature" |
| VerifyWebhookSignature.PaystackRequestRefusedAsWritten | src/Http/Middleware/VerifyWebhookSignature.php:45-52 | as written, a request correctly signed by Paystack in its own header is refused with 403 |
| VerifyWebhookSignature.ComparisonInvertedAsWritten | src/Http/Middleware/VerifyWebhookSignature.php:50-52 | as written, a correct signature is refused and a wrong one goes through |
| VerifyWebhookSignature.Handle | src/Http/Middleware/VerifyWebhookSignature.php:42-60 | corrected: the request goes on exactly when Paystack's header equals the HMAC of the body under the package's secret key; otherwise 403 |
| VerifyWebhookSignature.HandleAcceptsOnlySigned | src/Http/Middleware/VerifyWebhookSignature.php:42-60 | the corrected gate passes a correctly signed request and refuses one signed with another key or unsigned |
| WebhookController.DotsToUnderscores | src/Http/Controllers/WebhookController.php:44 | every dot becomes an underscore and nothing else changes |
| WebhookController.Studly | src/Http/Controllers/WebhookController.php:44 | defined as: Str::studly, each word capitalised and the separators removed; StudlyIgnoringCase states what it keeps |
| WebhookController.StudlyIgnoringCase | src/Http/Controllers/WebhookController.php:44 | up to letter case, Str::studly only removes the separators |
| WebhookController.HandlerFor | src/Http/Controllers/WebhookController.php:48 | a method exists for a name exactly when its lower-case form is that of one of the two handlers |
| WebhookController.EventText | src/Http/Controllers/WebhookController.php:44 | a string event is used as it is; an array event is a type error |
| WebhookController.RouteOf | src/Http/Controllers/WebhookController.php:40-60 | no event or a null one answers "no event"; an array event crashes; otherwise the event goes to the handler whose name matches, or to none |
| WebhookController.RouteOfStringEvent | src/Http/Controllers/WebhookController.php:44-48 | a string event reaches a handler exactly when, dots made underscores, separators dropped and lower-cased, it spells that handler's event |
| WebhookController.ResolveBillable | src/Http/Controllers/WebhookController.php:124-136 | fails exactly when the payload has no customer code; otherwise the owner of a customer with that code and no earlier customer has it, or none when no customer has it |
| WebhookController.CreatedRow | src/Http/Controllers/WebhookController.php:68-88 | succeeds exactly when the payload has data with a subscription code, the billable lookup succeeds, and, when a row is due, the data has a plan with a plan_code; a row is created exactly when the billable resolves and no row has the code yet; it carries the code, plan and owner from the payload; the failure is a TypeError exactly when a row is due and the plan is a string |
| WebhookController.CreateIsIdempotent | src/Http/Controllers/WebhookController.php:74-76 | delivering the same create event again, at any time, adds nothing |
| WebhookController.CreatedRows | src/Http/Controllers/WebhookController.php:82-84 | the rows to append: none, or exactly the created one |
| WebhookController.DisableTarget | src/Http/Controllers/WebhookController.php:95-106 | fails exactly when the payload has no subscription code, with a TypeError exactly when the data is a string; targets the first row with the code unless it is already ended |
| WebhookController.AfterDisable | src/Http/Controllers/WebhookController.php:101-102 | only the target row changes, and it is marked as cancelled now |
| WebhookController.DisableIsIdempotent | src/Http/Controllers/WebhookController.php:95-106 | delivering the same disable event again, then or later, changes nothing |
| WebhookController.DisableEndsGracePeriod | src/Http/Controllers/WebhookController.php:101-102 | a row the disable event marks is cancelled, off its grace period, and ended and inactive at that instant and every later one |
| WebhookController.HandleSubscriptionCreate | src/Http/Controllers/WebhookController.php:68-88 | the table gains exactly the rows CreatedRow specifies and customers are untouched; errors change nothing |
| WebhookController.HandleSubscriptionDisable | src/Http/Controllers/WebhookController.php:95-106 | the table becomes AfterDisable of the target DisableTarget finds; errors change nothing |
| WebhookController.Invoke | src/Http/Controllers/WebhookController.php:36-61 | per route: "no event" with no change and no event; a crash for an array event; "no handler" after the received event; for a handler, "handled" exactly when its specification succeeds, "skipped" exactly when it fails with an exception, and a server error exactly when it fails with a TypeError, which `catch (Exception $e)` does not catch; the table changes as that specification says; the event log is the received event, then the handler's SubscriptionCreated or SubscriptionCancelled exactly when it created or cancelled a row, then the handled event exactly when it succeeded |
| WebhookController.Receive | src/Http/Controllers/WebhookController.php:26-31 | with the corrected signature gate attached (the secret key configured), a refused request is answered 403 and changes nothing; a 403 comes exactly from the gate refusing; a request the gate lets through is answered and handled per route as `__invoke` does (no event, no handler, or the create or disable handler with its table change, a server error exactly when the handler's TypeError escapes) |
| WebhookController.MiddlewareAttached | src/Http/Controllers/WebhookController.php:28-30 | defined as: the secret key is configured with a truthy value |
| WebhookController.PayloadOf | src/Http/Controllers/WebhookController.php:38 | defined as: the decoded body when it is an object, else an empty payload |
| WebhookController.UnseparatedAppend | src/Http/Controllers/WebhookController.php:44 | dropping separators distributes over concatenation |
| WebhookController.UnseparatedPlain | src/Http/Controllers/WebhookController.php:44 | a name without separators is kept as it is |
| WebhookController.UnseparatedWords | src/Http/Controllers/WebhookController.php:44 | two lower-case words joined by an underscore lose only the underscore |
| WebhookController.LowerOfLower | src/Http/Controllers/WebhookController.php:48 | lower-casing a lower-case word keeps it |
| WebhookController.CreateEventSpellsCreate | tests/Feature/WebhookControllerTest.php:19-26 | "subscription.create" spells the create handler's event |
| WebhookController.CreateEventRoutes | tests/Feature/WebhookControllerTest.php:19-26 | a subscription.create delivery reaches the create handler |
| WebhookController.DisableEventRoutes | src/Http/Controllers/WebhookController.php:44-48 | a subscription.disable delivery reaches the disable handler |
| WebhookController.StringDataEscapesDisable | src/Http/Controllers/WebhookController.php:97 | a disable delivery whose data is a string reaches the handler and fails with a TypeError, which Invoke answers with a server error |
| WebhookController.FooEventUnrouted | tests/Feature/WebhookControllerTest.php:19-26 | a foo.bar delivery finds no handler |
| WebhookController.KnownEvents | tests/Feature/WebhookControllerTest.php:19-26 | "subscription.create" reaches the create handler; "foo.bar" has none |
| CashierConfig.GuessCurrencySymbol | src/Cashier.php:93-111 | fails exactly when the code, lower-cased, is not one of the seven known ones, with the package's message |
| CashierConfig.GuessIgnoresCase | src/Cashier.php:95 | the guessed symbol does not depend on letter case |
| CashierConfig.KnownSymbols | src/Cashier.php:95-107 | NGN, GHS, EUR and USD map to their symbols |
| CashierConfig.LowerIdempotent | src/Cashier.php:62-95 | lower-casing twice is lower-casing once |
| CashierConfig.UpperOfLower | src/Cashier.php:62-120 | upper-casing forgets an earlier lower-casing |
| CashierConfig.Pad3 | src/Cashier.php:166 | a group below 1000 is written in exactly three digits |
| CashierConfig.Pad2 | src/Cashier.php:166 | the minor units are written in exactly two digits |
| CashierConfig.Grouped | src/Cashier.php:166 | the grouped integer part starts with a digit |
| CashierConfig.NumberFormat | src/Cashier.php:166 | the text ends in a point and two decimals, and starts with a minus exactly when the amount is negative |
| CashierConfig.DefaultFormat | src/Cashier.php:166-172 | a negative amount has its minus sign before the symbol; otherwise the symbol comes first |
| CashierConfig.ValueAppend | src/Cashier.php:166 | the value of joined digit strings is the first shifted left plus the second |
| CashierConfig.ValueSnoc | src/Cashier.php:166 | appending a comma keeps the value; appending a digit shifts the value by one place and adds the digit |
| CashierConfig.NatTextValue | src/Cashier.php:166 | the decimal text of a number denotes that number |
| CashierConfig.DigitCharValue | src/Cashier.php:166 | a digit character denotes its digit |
| CashierConfig.Pad3Value | src/Cashier.php:166 | the three-digit group denotes the group |
| CashierConfig.Pad2Value | src/Cashier.php:166 | the two decimals denote the minor units |
| CashierConfig.GroupedValue | src/Cashier.php:166 | the grouped text, commas skipped, denotes the number it was made from |
| CashierConfig.FormatShape | src/Cashier.php:166-172 | the default format is the sign, the symbol, the grouped units, a point and two decimals |
| CashierConfig.FormatKeepsAmount | src/Cashier.php:166 | the units and the decimals of the default format together denote the absolute amount in minor units |
| CashierConfig.ThousandNaira | tests/Feature/CashierTest.php:284 | 100000 kobo formats as "₦1,000.00" |
| CashierConfig.Cashier.constructor | src/Cashier.php:15-49 | the defaults: NGN, "₦", no custom formatter, the package's model classes |
| CashierConfig.Cashier.UseCurrency | src/Cashier.php:60-121 | stores the code lower-cased, so that usesCurrency afterwards reports it upper-cased whatever case it was given in; a truthy symbol is stored, otherwise the guessed one, and an unknown code fails; other settings are kept |
| CashierConfig.Cashier.UseCurrencySymbol | src/Cashier.php:129-132 | sets only the symbol |
| CashierConfig.Cashier.UsesCurrencySymbol | src/Cashier.php:139-142 | defined as: the stored symbol, which UseCurrency and UseCurrencySymbol set |
| CashierConfig.Cashier.FormatCurrencyUsing | src/Cashier.php:149-152 | sets only the custom formatter |
| CashierConfig.Cashier.FormatAmount | src/Cashier.php:160-173 | the custom formatter's result when one is set, else the default format with the current symbol |
| CashierConfig.Cashier.UseCustomerModel | src/Cashier.php:72-75 | sets only the customer model |
| CashierConfig.Cashier.UseSubscriptionModel | src/Cashier.php:80-83 | sets only the subscription model |
| ReferenceGenerator.GetPool | src/ReferenceGenerator.php:13-24 | a named pool for a known type, otherwise the type string itself |
| ReferenceGenerator.AlnumPool | src/ReferenceGenerator.php:16 | the alnum pool has 62 characters, all letters or digits |
| ReferenceGenerator.OtherPools | src/ReferenceGenerator.php:17-21 | the sizes of the other pools, and the distinct pool holds only letters and digits |
| ReferenceGenerator.NamedPoolsAreAlphanumeric | src/ReferenceGenerator.php:13-24 | every named pool is made of letters and digits only |
| ReferenceGenerator.Pow2 | src/ReferenceGenerator.php:44 | a power of two is positive |
| ReferenceGenerator.BitLength | src/ReferenceGenerator.php:41-42 | the bit count covers the range, and is the least such for a range of two or more |
| ReferenceGenerator.ByteCount | src/ReferenceGenerator.php:43 | each draw reads at least one byte |
| ReferenceGenerator.BytesCoverBits | src/ReferenceGenerator.php:41-43 | the bytes of a draw cover every bit the mask keeps |
| ReferenceGenerator.BigEndian | src/ReferenceGenerator.php:47 | the bytes read as a number fit in their bits |
| ReferenceGenerator.Pow2Add | src/ReferenceGenerator.php:44 | powers of two multiply by adding exponents |
| ReferenceGenerator.Masked | src/ReferenceGenerator.php:44-48 | the mask keeps a value below 2^bits, and keeps unchanged a value already below it |
| ReferenceGenerator.Candidate | src/ReferenceGenerator.php:47-48 | each candidate is below 2^bits |
| ReferenceGenerator.FirstAcceptedInRange | src/ReferenceGenerator.php:46-49 | what the loop accepts is below the range, and the stream only moves forward |
| ReferenceGenerator.EmptyRangeNeverAccepts | src/ReferenceGenerator.php:46-49 | with min equal to max no draw is ever accepted |
| ReferenceGenerator.Draw | src/ReferenceGenerator.php:46-49 | the do-while loop yields exactly what FirstAccepted specifies: the first masked candidate below the range and the position after it, or nothing when the stream runs out |
| ReferenceGenerator.SecureCrypt | src/ReferenceGenerator.php:33-52 | min at once when max < min; otherwise the first candidate below max - min plus min, so min <= r < max; never a value when max == min |
| ReferenceGenerator.TokenLength | src/ReferenceGenerator.php:65 | a positive length is kept and a non-positive one gives an empty token |
| ReferenceGenerator.AlnumDraw | src/ReferenceGenerator.php:41-66 | an alnum draw reads one byte and keeps its six low bits |
| ReferenceGenerator.SmallByteAccepted | src/ReferenceGenerator.php:46-66 | a byte below 62 is accepted as it is by an alnum draw |
| ReferenceGenerator.AlnumChar | src/ReferenceGenerator.php:66 | defined as: the alnum pool's character at an index below 62 |
| ReferenceGenerator.Tokens | src/ReferenceGenerator.php:65-66 | defined as: per position, the alnum character at the first accepted draw below 62, in stream order, or nothing when the stream runs out |
| ReferenceGenerator.TokensStep | src/ReferenceGenerator.php:65-66 | the first accepted draw selects the first character and the rest is drawn after it |
| ReferenceGenerator.TokensShape | src/ReferenceGenerator.php:60-70 | the drawn token has exactly n characters, each from the alnum pool and a letter or digit, and the stream moves forward |
| ReferenceGenerator.TokensOfSmallBytes | src/ReferenceGenerator.php:46-66 | a stream whose next n bytes are below 62 always gives a token, reading exactly those bytes, whose i-th character is the pool character of the i-th byte |
| ReferenceGenerator.Generate | src/ReferenceGenerator.php:60-70 | the loop returns a token exactly when Tokens draws one for max(length, 0) positions, and then that very token and stream position |

## Left out

- Gateway I/O: the Paystack HTTP client, `src/Paystack.php` and `src/PaystackService.php` are an oracle from request to reply or exception.
- Dates: Carbon parsing and formatting are oracle functions of `Env`; time is an integer number of seconds.
- Gateway.ParseDate: Carbon itself is not part of this model; ParseDate follows the constructor of Carbon 2, whose version the package does not pin here. A numeric string such as "-5" or "1.5", which Carbon reads as a timestamp, goes to the parser oracle like any other string; floats are not modelled.
- JSON: json_decode and json_encode are oracle functions; the key order of a JSON object is not kept.
- HMAC-SHA256 in the signature middleware is a function parameter standing in for `sign`.
- Randomness: openssl_random_pseudo_bytes is a finite byte stream; where PHP would keep drawing, the model answers None when the stream runs out.
- ReferenceGenerator.BitLength: the floating-point `log` is an exact integer bit length; the two agree except for floating-point rounding near powers of two.
- ReferenceGenerator.BigEndian: hexdec overflows to a float for draws of eight bytes or more; the model keeps exact integers.
- CashierConfig.DefaultFormat: number_format works on a float, so very large amounts lose precision there; the model is exact.
- PHP loose comparison: `!=` in findInvoice and the status check in cancelled use structural equality of values.
- Letter case: strtolower, strtoupper and method-name matching map ASCII letters only; non-ASCII case mapping is not modelled.
- Warnings: Laravel turns PHP warnings (undefined key, property of null) into exceptions; the model reports them as the Warning error.
- Eloquent query scopes (scopeActive, scopeEnded, ...) and the morphTo/morphMany machinery are not modelled; relations are functions over the two tables.
- hasExpiredTrial, downloadInvoice and invoiceFor are not modelled: the first depends on Subscription::hasExpiredTrial, which is not in the source; downloadInvoice renders a PDF; invoiceFor only forwards to tab.
- asPaystackCustomer is folded into Builder.SubscriptionBuilder.GetPaystackCustomer, the only caller inside the model.
- The generic trial of a customer row comes from a Customer model that is not part of this model; it is a function parameter.
- `src/Card.php` and `src/Concerns/ManagesCards.php` are not modelled.
- Concurrency: two webhook deliveries handled at once are not modelled; each delivery runs alone.
- Events: dispatched events are an append-only log; listeners are not modelled.
- Configuration values are strings in a map; a missing key reads as the empty string.
- ManagesInvoices.Invoices: when Paystack returns an object, PHP iterates it in key order; the model states the count and members of the result, not its order.
- ManagesInvoices.ClassBasename: for a class name ending in a backslash PHP's `basename` drops the trailing backslash (`class_basename("A\\B\\")` is "B"), while the model answers the empty string; class names never end in a backslash.
- Store.SubscriptionsOf: the relation orders by created_at, newest first; the model takes table order reversed, which agrees because each row is inserted with created_at set to the current time. Rows with equal created_at, or written with an earlier created_at, are not ordered as the database would order them.
- Eloquent mass assignment: Subscription::fill at src/Subscription.php:301 and :326 and the create at src/SubscriptionBuilder.php:107 throw MassAssignmentException unless the application unguards its models, as tests/CashierTest.php:37 does; the model assumes unguarded models, so these writes always succeed.
- ManagesPayments.ChargeOptions: `intval($amount)` at src/Concerns/ManagesPayments.php:26 is not modelled; the amount is already an integer.
- ManagesSubscriptions.SubscriptionOfType: Collection::where at src/Concerns/ManagesSubscriptions.php:28 compares the type loosely (`==`); the model compares type strings exactly, which differs only for numeric-looking types.

## Findings

| source | as written | input that shows it | evidently intended | confidence | as-written member | corrected member |
|---|---|---|---|---|---|---|
| src/Http/Middleware/VerifyWebhookSignature.php:50 | aborts with 403 when the header EQUALS the expected signature, and lets every other value through | a request whose header holds the correct HMAC of its body | abort when the signature differs, pass when it matches | high, not executed | VerifyWebhookSignature.ComparisonInvertedAsWritten | VerifyWebhookSignature.HandleAcceptsOnlySigned |
| src/Http/Middleware/VerifyWebhookSignature.php:50 | signs with the config key `paystack.secretKey`, which the package's config does not define | any request, with only `cashier-paystack.secret_key` configured | sign with `cashier-paystack.secret_key`, the key the constructor checks | high, not executed | VerifyWebhookSignature.HandleAsWritten | VerifyWebhookSignature.Handle |
| src/Http/Middleware/VerifyWebhookSignature.php:45 | looks up the header `HTTP_X_PAYSTACK_SIGNATURE`, stored as "http-x-paystack-signature" | a request signed by Paystack in its `x-paystack-signature` header | look up `x-paystack-signature` | medium, not executed | VerifyWebhookSignature.PaystackRequestRefusedAsWritten | VerifyWebhookSignature.Handle |
| src/SubscriptionBuilder.php:127-135 | json_decode without the associative flag turns object metadata into an object, which array_merge refuses | options metadata `{"plan_note": "x"}` | decode as an array so the metadata keys merge | high, not executed | Builder.ObjectMetadataChargeRejected | Builder.SubscriptionBuilder.ChargeIntended |
| src/Concerns/ManagesInvoices.php:70 | compares the invoice's customer id with the billable's own paystack_id attribute, which lives on the customer row | a customer with paystack_id 7 asking for an invoice whose customer id is 7 | compare with the customer row's paystack_id | high, not executed | ManagesInvoices.OwnInvoiceMissedAsWritten | ManagesInvoices.FindInvoice |
