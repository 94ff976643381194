# stripe-kit request builders, in Dafny

This project models the request builders of two stripe-kit route objects:

- `StripeSubscriptionRoutes`, in `Sources/StripeKit/Billing/Subscriptions/SubscriptionRoutes.swift`. It has five routes: `create`, `retrieve`, `update`, `cancel` and `listAll`.
- `InvoiceRoutes`, in `Sources/Stripe/API/Routes/InvoiceRoutes.swift`. It has three routes: `create`, `fetch` and `listItems`.

Each route takes typed arguments, most of them optional. It builds a flat parameter dictionary, one conditional write at a time, and then chooses:

- an HTTP method,
- a path,
- a body or a query,
- headers.

It hands that description to a dispatcher. The model stops at that hand-off: each route is a method that returns a `Request` record.

The rules every route follows:

- An argument that is nil writes nothing.
- A date is sent as whole seconds since 1970.
- An enumeration is sent as its raw value.
- A nested dictionary `d` given for a prefix `p` is written one entry at a time, as the keys `p[k]`. The bare key `p` is never written.

Files:

- `wire.dfy` (module `Wire`): the value datatype and the request record. It also holds `Put`/`Insert`, the conditional one-key write.
- `form_keys.dfy` (module `FormKeys`): the bracket keys `prefix[k]` and their inverse. It also holds the entry-by-entry loop that flattens a dictionary, and facts about bodies that join plain keys with flattened ones.
- `subscription_routes.dfy` (module `SubscriptionRoutes`):
  - the routes object `StripeSubscriptionRoutes`, with its `headers` field and its `subscriptions` path;
  - the three enumerations and their raw values;
  - `CreateBody`, `UpdateBody` and `CancelBody`, the bodies as values.

  The imperative routes are proved to build those values. The route methods work step by step, like the Swift code. Each `Write` keeps one pre- and postcondition, carried through the ghost variables `ps` and `flat`: "the body so far is the plain parameters written so far, joined with the dictionaries flattened so far".
- `subscription_properties.dfy` (module `SubscriptionProperties`): what those bodies hold, key by key. This covers the properties the routes promise.
- `invoice_routes.dfy` (module `InvoiceRoutes`): the three invoice routes.

Some behaviours are modelled exactly as the code has them:

- Subscription `update` sends a trial end only when it is a `Date`. A `String` trial end is dropped, although `create` would send it.
- Invoice `create` writes the tax percent under the key `description`, over any description given. No `tax_percent` key is ever written.
- Invoice `fetch` is a POST.
- Invoice `create` sends `application_fee` only when an account is given as well as the fee.
- Invoice `create` copies metadata only when the metadata node is an object.

## Model

| member | source | states |
|---|---|---|
| Wire.Put | Sources/StripeKit/Billing/Subscriptions/SubscriptionRoutes.swift:318-320 | one `if let` write: the key gets the value when it is given, and every other key is unchanged |
| Wire.Overwrite | Sources/StripeKit/Billing/Subscriptions/SubscriptionRoutes.swift:394-400 | of two writes under one key, the later one wins when it happens |
| Wire.Insert | Sources/StripeKit/Billing/Subscriptions/SubscriptionRoutes.swift:318-320 | the imperative conditional write equals `Put` |
| FormKeys.UnbracketBracketKey | Sources/StripeKit/Billing/Subscriptions/SubscriptionRoutes.swift:334-336 | `prefix[k]` reads back as `k` under its prefix |
| FormKeys.BracketKeyUnbracket | Sources/StripeKit/Billing/Subscriptions/SubscriptionRoutes.swift:334-336 | every key that reads back under a prefix is the bracket key of what it reads back to |
| FormKeys.BracketKeyInjective | Sources/StripeKit/Billing/Subscriptions/SubscriptionRoutes.swift:370-392 | two prefixes without `[` share a flat key only when prefix and inner key are both equal, so families never collide |
| FormKeys.Bracketed | Sources/StripeKit/Billing/Subscriptions/SubscriptionRoutes.swift:334-336 | a flattened dictionary holds each entry under `prefix[k]` and holds no other key |
| FormKeys.NoBarePrefix | Sources/StripeKit/Billing/Subscriptions/SubscriptionRoutes.swift:334-336 | a flattened dictionary never holds its bare prefix |
| FormKeys.PutBracketed | Sources/StripeKit/Billing/Subscriptions/SubscriptionRoutes.swift:335 | the entry-by-entry loop leaves the body joined with the bracketed dictionary, whatever order it takes the entries in |
| FormKeys.InsertFlattened | Sources/StripeKit/Billing/Subscriptions/SubscriptionRoutes.swift:334-336 | flattening an optional dictionary writes nothing when it is nil |
| FormKeys.FlattenedKeys | Sources/StripeKit/Billing/Subscriptions/SubscriptionRoutes.swift:370-372 | a key is in a flattening exactly when it is `prefix[k]` for an entry `k` of the dictionary |
| FormKeys.JoinOther | Sources/StripeKit/Billing/Subscriptions/SubscriptionRoutes.swift:382-392 | flattening one family leaves every key of another family unchanged |
| FormKeys.FamilyWrite | Sources/StripeKit/Billing/Subscriptions/SubscriptionRoutes.swift:334-336 | flattening a family into a body of plain keys plus other families just adds that family |
| SubscriptionRoutes.RawValuesRoundTrip | Sources/StripeKit/Billing/Subscriptions/SubscriptionRoutes.swift:346-348 | each enumeration case's raw value parses back to that case, and only raw values parse |
| SubscriptionRoutes.ParamOfName | Sources/StripeKit/Billing/Subscriptions/SubscriptionRoutes.swift:318-412 | every parameter name reads back to its parameter, so distinct parameters use distinct keys |
| SubscriptionRoutes.CreateTrialEndWrites | Sources/StripeKit/Billing/Subscriptions/SubscriptionRoutes.swift:394-400 | the date write followed by the string write of `trial_end` act as one write of seconds-or-text |
| SubscriptionRoutes.Write | Sources/StripeKit/Billing/Subscriptions/SubscriptionRoutes.swift:318-320 | one conditional write extends the written parameters by one and leaves the flattened families alone |
| SubscriptionRoutes.WriteTrialEnd | Sources/StripeKit/Billing/Subscriptions/SubscriptionRoutes.swift:394-400 | the two `trial_end` writes of `create` extend the written parameters by `trial_end` |
| SubscriptionRoutes.StripeSubscriptionRoutes.constructor | Sources/StripeKit/Billing/Subscriptions/SubscriptionRoutes.swift:280-288 | the routes object starts with no headers and the path `subscriptions` under the API root |
| SubscriptionRoutes.StripeSubscriptionRoutes.Create | Sources/StripeKit/Billing/Subscriptions/SubscriptionRoutes.swift:290-415 | POST to `subscriptions`, no query, the object's headers, and a body that equals `CreateBody` |
| SubscriptionRoutes.StripeSubscriptionRoutes.Retrieve | Sources/StripeKit/Billing/Subscriptions/SubscriptionRoutes.swift:417-423 | GET `subscriptions/{id}`, no body, the object's headers; the query is empty without `expand` and holds exactly `expand` with it |
| SubscriptionRoutes.StripeSubscriptionRoutes.Update | Sources/StripeKit/Billing/Subscriptions/SubscriptionRoutes.swift:425-549 | POST to `subscriptions/{id}`, no query, the object's headers, and a body that equals `UpdateBody` |
| SubscriptionRoutes.StripeSubscriptionRoutes.Cancel | Sources/StripeKit/Billing/Subscriptions/SubscriptionRoutes.swift:551-570 | DELETE `subscriptions/{id}`, no query, the object's headers, and a body that equals `CancelBody` |
| SubscriptionRoutes.StripeSubscriptionRoutes.ListAll | Sources/StripeKit/Billing/Subscriptions/SubscriptionRoutes.swift:572-579 | GET `subscriptions`, no body, the object's headers; the query is empty without a filter and is the filter otherwise |
| SubscriptionProperties.BodyAtName | Sources/StripeKit/Billing/Subscriptions/SubscriptionRoutes.swift:318-412 | under a parameter's name, a body holds the argument's value if the route writes that parameter, and nothing otherwise; the flattened families never shadow it |
| SubscriptionProperties.CreateBodyAtName | Sources/StripeKit/Billing/Subscriptions/SubscriptionRoutes.swift:318-412 | under each parameter's name, the `create` body holds the argument's value when given, and no key for a parameter `create` does not send |
| SubscriptionProperties.CreateAlwaysSends | Sources/StripeKit/Billing/Subscriptions/SubscriptionRoutes.swift:315-316 | `customer` and `items` are in the `create` body, whatever the optional arguments are |
| SubscriptionProperties.CreateDatesAsSeconds | Sources/StripeKit/Billing/Subscriptions/SubscriptionRoutes.swift:326-340 | `backdate_start_date`, `billing_cycle_anchor` and `cancel_at` are integer seconds when given and absent otherwise |
| SubscriptionProperties.CreateTrialEndSent | Sources/StripeKit/Billing/Subscriptions/SubscriptionRoutes.swift:394-400 | `trial_end` is seconds for a date and the text for a string; for anything else, or nil, it is absent |
| SubscriptionProperties.CreateRawValues | Sources/StripeKit/Billing/Subscriptions/SubscriptionRoutes.swift:346-388 | `collection_method`, `payment_behavior` and `proration_behavior` are the raw values when given and absent otherwise |
| SubscriptionProperties.CreateFlattenedAt | Sources/StripeKit/Billing/Subscriptions/SubscriptionRoutes.swift:334-392 | each of the four families of `create` is read back under its own prefix, unaffected by the others |
| SubscriptionProperties.CreateFlattens | Sources/StripeKit/Billing/Subscriptions/SubscriptionRoutes.swift:334-392 | for every `k`, `billing_thresholds[k]`, `metadata[k]`, `pending_invoice_item_interval[k]` and `transfer_data[k]` hold the entry `k` of that argument, and nothing when it has none |
| SubscriptionProperties.CreateNoBarePrefix | Sources/StripeKit/Billing/Subscriptions/SubscriptionRoutes.swift:334-392 | none of the four prefixes is itself a key of the `create` body |
| SubscriptionProperties.CreateMinimalBody | Sources/StripeKit/Billing/Subscriptions/SubscriptionRoutes.swift:315-412 | with every optional argument nil, the `create` body is exactly `customer` and `items` |
| SubscriptionProperties.CreateKeys | Sources/StripeKit/Billing/Subscriptions/SubscriptionRoutes.swift:315-412 | every key of the `create` body names a parameter `create` writes or is `prefix[k]` for an entry of one of its dictionaries |
| SubscriptionProperties.UpdateBodyAtName | Sources/StripeKit/Billing/Subscriptions/SubscriptionRoutes.swift:452-546 | under each parameter's name, the `update` body holds the argument's value when given, and no key for a parameter `update` does not send |
| SubscriptionProperties.UpdateDatesAsSeconds | Sources/StripeKit/Billing/Subscriptions/SubscriptionRoutes.swift:460-530 | `cancel_at` and `proration_date` are integer seconds; `billing_cycle_anchor` is sent as its string; each is absent when nil |
| SubscriptionProperties.UpdateTrialEndSent | Sources/StripeKit/Billing/Subscriptions/SubscriptionRoutes.swift:536-538 | `trial_end` is seconds for a date and absent for anything else, a string included |
| SubscriptionProperties.UpdateRawValues | Sources/StripeKit/Billing/Subscriptions/SubscriptionRoutes.swift:476-526 | the three enumerations are sent as their raw values when given and are absent otherwise |
| SubscriptionProperties.UpdateFlattenedAt | Sources/StripeKit/Billing/Subscriptions/SubscriptionRoutes.swift:464-534 | each of the five families of `update` is read back under its own prefix, unaffected by the others |
| SubscriptionProperties.UpdateFlattens | Sources/StripeKit/Billing/Subscriptions/SubscriptionRoutes.swift:464-534 | for every `k`, each of the five families of `update`, `pause_collection` included, holds the entry `k` under `prefix[k]` and nothing when it has none |
| SubscriptionProperties.UpdateNoBarePrefix | Sources/StripeKit/Billing/Subscriptions/SubscriptionRoutes.swift:464-534 | none of the five prefixes is itself a key of the `update` body |
| SubscriptionProperties.UpdateEmptyBody | Sources/StripeKit/Billing/Subscriptions/SubscriptionRoutes.swift:450-546 | an `update` with every optional argument nil sends the empty body |
| SubscriptionProperties.UpdateKeys | Sources/StripeKit/Billing/Subscriptions/SubscriptionRoutes.swift:450-546 | every key of the `update` body names a parameter `update` writes or is `prefix[k]` for an entry of one of its dictionaries |
| SubscriptionProperties.CancelSends | Sources/StripeKit/Billing/Subscriptions/SubscriptionRoutes.swift:557-567 | `invoice_now`, `prorate` and `expand` are sent exactly when given |
| SubscriptionProperties.CancelKeys | Sources/StripeKit/Billing/Subscriptions/SubscriptionRoutes.swift:555-567 | the `cancel` body has no key besides `invoice_now`, `prorate` and `expand` |
| SubscriptionProperties.CancelEmptyBody | Sources/StripeKit/Billing/Subscriptions/SubscriptionRoutes.swift:555-567 | a `cancel` with every argument nil sends the empty body |
| InvoiceRoutes.CreatePlain | Sources/Stripe/API/Routes/InvoiceRoutes.swift:43-72 | the header is the account when given and nil otherwise; `application_fee` needs both account and fee; `customer` is always sent; a tax percent replaces the description; only the five plain keys occur |
| InvoiceRoutes.Create | Sources/Stripe/API/Routes/InvoiceRoutes.swift:42-81 | POST to `invoices`; the account header, fee, customer, subscription, description-or-tax and statement descriptor as above; every metadata entry under `metadata[k]`; no other key, and never `tax_percent` |
| InvoiceRoutes.Fetch | Sources/Stripe/API/Routes/InvoiceRoutes.swift:90-92 | POST to `invoice(id)` with no body and no headers |
| InvoiceRoutes.ListItems | Sources/Stripe/API/Routes/InvoiceRoutes.swift:111-126 | a failing filter makes the route fail; otherwise GET `invoiceLines(id)` with no body or headers, whose query is the filter's with a given `customer` and `coupon` replacing its entries and every other key unchanged |

## Left out

- Dispatch is not modelled. This covers `apiHandler.send`, `StripeRequest` (with its `client`) and `EventLoopFuture`: the asynchronous transport and the response decoding are not part of this model.
- The encoders are not modelled: `queryParameters`, `formURLEncoded` and `StripeFilter.createQuery` are defined in files that are not part of this model.
  - Requests carry the parameter dictionary before encoding.
  - An empty query string is the empty dictionary.
  - The filter of `listItems` is an input that is either a query or an error.
- Dates are taken as whole seconds since 1970. The truncation of `timeIntervalSince1970` to `Int` is floating point and is not modelled.
- `Decimal` (`applicationFeePercent`) and `Double` (`taxPercent`) are modelled as `real`, without rounding.
- Key order is not modelled. Swift dictionaries and `Node` objects are unordered, so bodies are maps. `PutBracketed` takes entries in any order.
- The protocol-extension overloads (SubscriptionRoutes.swift:156-277) are not modelled. They only forward default arguments.
- `APIBase + APIVersion` is the constructor's `apiRoot`.
- `HTTPHeaders` is a list of name/value pairs that the routes pass through unchanged.
- The text of `StripeHeader.Account` is not modelled; it is a constant of its own.
- The declarations of the three enumerations are not part of this model. Their raw values are the ones the parameter documentation lists (SubscriptionRoutes.swift:25, 34, 99).
- Invoice `create` and `listItems` can throw. Only the filter's failure is modelled; a failure of the encoders is not.
- Values inside `[String: Any]` arguments (`items`, `billingThresholds`, `transferData`, `pauseCollection`, metadata, the `listAll` filter) are limited to the six `Value` kinds. A nested `Date`, or a value of any other Swift type, which the source passes through unconverted, cannot be represented.
