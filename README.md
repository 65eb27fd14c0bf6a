# Bookstore order and loyalty engine — a Dafny model

This project models the business rules of an online bookstore's HTTP server
(storefront plus admin back office, with Algerian shipping zones called
*wilayas*) and proves properties of them. The model covers four parts.

- **The order and loyalty engine** (`routes.dfy`, `rules.dfy`). The server state
  is one `Server` object. Its fields are maps for users, books and orders, the
  list of wilayas, the next order id and the append-only activity log. Each
  handler is a method. It returns the HTTP status it sends and updates the fields
  as the handler does. The handlers are order creation, the order list, the
  status change (which credits loyalty points), points redemption, the admin
  customer update and delete, and the single and bulk shipping-price updates.
  The staff gate, the price snapshot, the shipping lookup, the points formulas
  and the customer-update filters are pure functions in `Rules`.
- **`buildUrl`** (`url_builder.dfy`). It is a loop over the parameter entries.
  Each entry replaces the first `:key` in the url when the url contains it. The
  replacement follows JavaScript's `String.prototype.replace`, so `$$`, `$&`,
  `` $` `` and `$'` in a text value are expanded. Numbers never contain `$`, so
  they are always inserted literally. The lemma `UrlBuilder.DollarValueExpands`
  shows a text value that is not.
- **The catalogue filter** of `getBooks` (`storage.dfy`). It filters by exact
  category and by a case-insensitive search over both titles and the author.
- **The shared schema** (`schema.dfy`). It holds the table rows with their column
  defaults, and the validation rules of the order and registration payloads. Each
  validator returns the field of the first error, in the order the fields are
  checked.

Prices, totals and points are whole dinars (`int`). `Math.floor(x / 350)` and
`Math.ceil(x / 350)` become integer division, and their meaning is stated as
bounds. Password hashing is the constructor `Hashed`. The e-mail format check is
a predicate passed in as a parameter. `req.user` is the session user's current
row.

The redemption handler does not check the quantity. A negative quantity gives a
negative cost, and "debiting" it raises the balance. `Rules.NegativeQuantityCost`
shows the cost, and the postcondition of `Routes.Server.RedeemPoints` gives the
new balance as old balance minus cost. The balance still never goes negative.
`Rules.CheckedRedeemCost` is the cost with a quantity check, as listed under
"Findings".

## Model

| member | source | states |
|---|---|---|
| `Text.IndexOf` | shared/routes.ts:215-216 | the result is the first position where the pattern occurs, or none when it occurs nowhere |
| `Text.Contains` | shared/routes.ts:215 | `includes`: true exactly when the pattern occurs at some position of the text |
| `Text.Lower` | server/storage.ts:71-75 | `toLowerCase` on ASCII: the length is kept, every capital A–Z becomes its own small letter, and every other character is unchanged; `Text.LowerIdempotent` adds that lowercasing twice is lowercasing once |
| `Text.IntToString` | shared/routes.ts:216 | `String(n)` of an integer: a `-` at the front exactly when n is negative, then only decimal digits with no leading zero, and `0` alone for zero; with `Text.IntToStringRoundTrip` this is the one canonical text of n |
| `Text.NatToStringRoundTrip` | shared/routes.ts:216 | reading back the decimal digits of `n` gives `n` |
| `Text.IntToStringRoundTrip` | shared/routes.ts:216 | `String(n)` can be parsed back to `n`, so distinct ids give distinct urls |
| `UrlBuilder.Expand` | shared/routes.ts:216 | the replacement text `replace` inserts: one with no `$` is inserted exactly as it is, and `$&` inserts the matched text instead (see `UrlBuilder.DollarValueExpands`) |
| `UrlBuilder.ReplaceFirst` | shared/routes.ts:216 | `replace` with a string pattern leaves a text without the pattern unchanged; otherwise a replacement with no `$` takes the place of the first occurrence only |
| `UrlBuilder.Substitute` | shared/routes.ts:215-216 | a url that does not mention `:key` is unchanged; otherwise a value with no `$` takes the place of the first `:key` (the key's length plus one characters), and the text before and after it is kept |
| `UrlBuilder.ApplyParams` | shared/routes.ts:214-218 | when the path mentions none of the entries' placeholders, applying the entries returns the path unchanged |
| `UrlBuilder.BuildUrl` | shared/routes.ts:211-221 | the loop applies the entries in order, each to the previous url; with no params, or an empty record, the path is returned unchanged |
| `UrlBuilder.AbsentKeyUnchanged` | shared/routes.ts:215 | an entry whose `:key` does not occur in the url leaves the url unchanged |
| `UrlBuilder.ReplacesFirstOccurrence` | shared/routes.ts:215-216 | for a value with no `$` (every number), when `:key` first occurs at `i`, only that occurrence becomes `String(value)` and the text before and after is kept |
| `UrlBuilder.Stringify` | shared/routes.ts:216 | `String(value)`: a string value is itself; a number gives a text with no `$`, so it is always substituted literally, and that text reads back as the number |
| `UrlBuilder.ApplyInSequence` | shared/routes.ts:214-218 | applying `ps` and then `qs` equals applying `ps + qs` |
| `UrlBuilder.NoColonUnchanged` | shared/routes.ts:214-216 | a path with no `:` is returned unchanged for any params |
| `UrlBuilder.BookPathExample` | shared/routes.ts:211-221 | `buildUrl('/api/books/:id', {id: n})` is `'/api/books/' + String(n)` |
| `UrlBuilder.DollarValueExpands` | shared/routes.ts:216 | the text value `$&` replaces `:id` by `:id` itself, because `replace` expands it |
| `Schema.UserRow` | shared/schema.ts:5-17 | a new user gets role "user" unless one is given, is enabled, and has 0 points |
| `Schema.OrderRow` | shared/schema.ts:53-70 | a new order is "pending", has points not yet awarded, and has 0 points used |
| `Schema.OrderIssue` | shared/schema.ts:123-136 | an order payload is accepted only if the name has ≥ 2 characters, the phone ≥ 8, the address ≥ 5 and the city ≥ 2, and the items are non-empty with every quantity ≥ 1; a reported field breaks its rule and every earlier field keeps its rule |
| `Schema.OptionalOrderFields` | shared/schema.ts:128-131 | the wilaya code, wilaya name, baladiya and notes never affect validation |
| `Schema.RegisterIssue` | shared/schema.ts:103-108 | a registration is accepted only with a valid e-mail, a password of ≥ 6 characters and a name of ≥ 2 characters; a reported field breaks its rule and every earlier field keeps its rule |
| `Schema.OptionalRegisterPhone` | shared/schema.ts:107 | the phone never affects registration validation |
| `Storage.FilterBooks` | server/storage.ts:68-79 | a fetched book is returned if and only if it passes both the category and the search test |
| `Storage.MatchesCategory` | server/storage.ts:69 | an absent or empty category passes every book; a given one passes exactly the books of that category |
| `Storage.MatchesSearch` | server/storage.ts:70-77 | an absent or empty search passes every book; a book that passes a given search has the lowercased search in its lowercased Arabic title, English title or author |
| `Storage.Keep` | server/storage.ts:68-79 | with no category and no search every book is kept; a kept book has the given category and passes the search |
| `Storage.FilterIsSubsequence` | server/storage.ts:68 | the result is a subsequence of the fetched list, in the same order |
| `Storage.NoCriteriaReturnsAll` | server/storage.ts:68-79 | with no category and no search (absent or empty), every fetched book is returned |
| `Storage.CategoryIsExact` | server/storage.ts:69 | with a category, every returned book has exactly that category |
| `Storage.SearchMatches` | server/storage.ts:70-77 | with a search, every returned book contains the lowercased search in its lowercased Arabic title, English title or author |
| `Storage.SearchIgnoresCase` | server/storage.ts:71-76 | the query is lowercased, so a search and its lowercased form pass exactly the same books |
| `Storage.SearchIsComplete` | server/storage.ts:68-79 | the search misses nothing: a fetched book of the requested category whose lowercased title or author contains the lowercased search is returned |
| `Rules.IsStaff` | server/routes.ts:21 | the gate passes a caller exactly when one is signed in and their role's name is in the list `["admin", "employee"]` |
| `Rules.GateRefusesCustomers` | server/routes.ts:20-26 | the staff gate passes exactly the signed-in users whose role is not "user", that is "admin" or "employee" |
| `Rules.NewUserIsNotStaff` | server/routes.ts:21 | a user inserted with the default role is refused by the staff gate |
| `Rules.ParseRole` | server/routes.ts:374-376 | an accepted role name is exactly the name of the role it gives; any other text gives none |
| `Rules.RoleNameRoundTrip` | server/routes.ts:374 | each of the three role names is accepted and gives back its role |
| `Rules.FindWilaya` | server/routes.ts:247 | the lookup gives the first zone with that code or id, or none when no zone has it |
| `Rules.ShippingCharge` | server/routes.ts:245-251 | the charge is non-zero only for a non-zero code whose zone exists and is active, and then it is that zone's price; no code, code 0 or an unknown code gives 0 |
| `Rules.ShippingOfZone` | server/routes.ts:245-251 | when codes are unique, a zone's charge is its price if it is active and 0 if not |
| `Rules.Priced` | server/routes.ts:237-243 | the stored lines are one per item of the payload; `Rules.PricedSnapshot` gives each line's content |
| `Rules.PricedSnapshot` | server/routes.ts:237-243 | every stored line keeps its book, its quantity and the book's price at creation time |
| `Rules.Subtotal` | server/routes.ts:242 | the subtotal Σ unitPrice×quantity is not negative when no price is negative and every quantity is at least 1 |
| `Rules.PlacedOrder` | server/routes.ts:236-255 | a placed order has one line per item; its shipping price is the zone's charge, its total the subtotal of its lines plus that charge; it starts pending, unawarded, and owned by its creator |
| `Rules.PlacedOrderLines` | server/routes.ts:237-243 | every line of a placed order keeps its item's book and quantity, at the book's price when the order was placed |
| `Rules.PointsFor` | server/routes.ts:295-296 | the points are `⌊(total − shipping) / 350⌋`: 350·p ≤ total − shipping < 350·(p + 1) |
| `Rules.PlacedOrderPoints` | server/routes.ts:295-296 | for a placed order, the points are ⌊subtotal / 350⌋, so shipping earns nothing |
| `Rules.HasCustomer` | server/routes.ts:294 | `existingOrder.userId` is truthy: an order counts as having a customer only with a non-zero user id, and every positive id counts |
| `Rules.PointsToCredit` | server/routes.ts:294-305 | points are credited only on "confirmed", only if not yet awarded, only with a user id, only to an existing customer and only when positive; under all those conditions the credit is exactly ⌊(total − shipping)/350⌋ |
| `Rules.CreditCustomer` | server/routes.ts:297-303 | exactly the order's customer gains the credited points; every other user is unchanged |
| `Rules.CreditedAtMostOnce` | server/routes.ts:294 | once `pointsAwarded` is set, any further status change credits nothing |
| `Rules.PlacedOrderEarns` | server/routes.ts:294-305 | a freshly placed order of an existing customer with a subtotal ≥ 350 earns ⌊subtotal / 350⌋ > 0 points on its first confirmation |
| `Rules.UnitCost` | server/routes.ts:450 | one copy costs `⌈price / 350⌉` points: 350·(c − 1) < price ≤ 350·c |
| `Rules.EffectiveQuantity` | server/routes.ts:450 | the `quantity or 1` default: an absent or zero quantity gives exactly 1, and any other value is kept |
| `Rules.RedeemCost` | server/routes.ts:450 | the cost is exactly `⌈price / 350⌉ × (quantity or 1)` for every quantity, negative ones included; for a positive effective quantity q this means price·q ≤ 350·cost < price·q + 350·q: the points are worth at least the books at 350 DZD per point, and less than one point per copy more |
| `Rules.NegativeQuantityCost` | server/routes.ts:446-455 | an unchecked quantity of −2 on a 350 DZD book costs −2 points, so the debit raises any balance |
| `Rules.CheckedRedeemCost` | server/routes.ts:446-455 | the corrected cost: a negative quantity is refused (absent or 0 still mean one copy), any other gives the source's cost, and for a book of non-negative price that cost is not negative |
| `Rules.RedemptionOrder` | server/routes.ts:457-469 | the redemption order has total 0, shipping 0, one line at unit price 0 with the effective quantity, the redeemer as owner, and points already marked as awarded |
| `Rules.OrElse` | server/routes.ts:459-462 | `value or fallback`: a non-empty value wins; otherwise the fallback is used, so the result is empty only when the fallback is |
| `Rules.UpdatedRole` | server/routes.ts:374-376 | the role changes only to one of the three known role names, and a known name given is always taken |
| `Rules.UpdatedPassword` | server/routes.ts:371-373 | the password changes only to the hash of a given one with ≥ 6 characters, and such a one is always taken |
| `Rules.ApplyCustomerUpdate` | server/routes.ts:366-383 | the role and password are filtered as above; a given e-mail, name, phone, address, city or enabled flag replaces the stored one and an absent one is kept; the id and points never change |
| `Rules.LogEntry` | server/routes.ts:28-40 | the entry carries the admin's id and e-mail and the action; an empty entity type and a zero entity id are stored as null, and any other value as given |
| `Routes.Server.Caller` | server/routes.ts:12-18 | `req.user`: a signed-in session whose user exists gives that user's stored row, with the session's id; a signed-out session or a missing user gives none |
| `Routes.Server.LogAdminAction` | server/routes.ts:28-40 | exactly one entry for the acting admin is appended to the log |
| `Routes.Server.PriceItems` | server/routes.ts:236-243 | the pricing loop succeeds exactly when every item's book exists, and then yields the lines `Rules.Priced` and their subtotal |
| `Routes.Server.ShippingFor` | server/routes.ts:245-251 | the shipping step charges exactly `Rules.ShippingCharge`: a non-zero code of an existing, active zone gives its price, anything else 0 |
| `Routes.Server.StoreOrder` | server/routes.ts:255 | `storage.createOrder` stores the order under the next serial id and advances it, keeping every stored row under its own id |
| `Routes.Server.CreateOrder` | server/routes.ts:227-265 | signed-out callers get 401; an invalid payload or a missing book gets 400 and stores nothing; otherwise one order is stored under the next id, with the snapshot prices, the shipping charge and the total |
| `Routes.Server.ListOrders` | server/routes.ts:267-277 | an admin gets every order; any other signed-in user gets exactly their own orders; signed-out callers get 401 |
| `Routes.Server.UpdateOrderStatus` | server/routes.ts:285-312 | non-staff get 401 and a missing order 404, with no change; otherwise the status is set, the customer is credited by `PointsToCredit` and `pointsAwarded` is set exactly when a credit happened, and the award and the status change are logged |
| `Routes.Server.RedeemPoints` | server/routes.ts:443-475 | signed-out callers get 401, a missing book 404, and a balance below the cost 400, with no change; otherwise the balance drops by exactly the cost and stays ≥ 0, and one free order that counts as already awarded is stored |
| `Routes.Server.UpdateCustomer` | server/routes.ts:366-383 | non-staff get 401 and an unknown id 400, with no change; otherwise that user's row becomes the filtered update and the change is logged |
| `Routes.Server.DeleteCustomer` | server/routes.ts:385-397 | non-staff get 401, an unknown id 404 and an admin account 400, with no change; otherwise exactly that user is removed; an admin account is never removed |
| `Routes.Server.UpdateShipping` | server/routes.ts:412-424 | non-staff get 401 and an unknown zone id 400, with no change; otherwise only that zone's price and active flag take the given values |
| `Routes.Server.BulkUpdateShipping` | server/routes.ts:426-440 | non-staff get 401; otherwise every zone's price becomes the default price, nothing else changes, and the returned count equals the number of zones |
| `Routes.ConfirmTwice` | server/routes.ts:294-305 | two confirmations of one order leave the customers exactly as a single confirmation does |

## Findings

| source | as written | input that shows it | evidently intended | confidence | as-written member | corrected member |
|---|---|---|---|---|---|---|
| server/routes.ts:446-455 | the redemption cost is `⌈price/350⌉ × (quantity or 1)` with the quantity never checked, and the balance is then lowered by that cost | `quantity: -2` for a 350 DZD book: the cost is −2 and a balance of b becomes b + 2 | a negative quantity is refused (absent or 0 still mean one copy), so a redemption never raises the balance | high (not executed) | `Rules.NegativeQuantityCost` | `Rules.CheckedRedeemCost` |

The handler `Routes.Server.RedeemPoints` keeps the behaviour as written, so that
it describes the server as it is. `Rules.CheckedRedeemCost` states the cost with
the missing check in place.

## Left out

- HTTP and session plumbing are not modelled. This covers Express routing, passport login and logout, `req.login` and the session store. A session is either signed out or a user id, and `req.user` is that user's stored row.
- The other handlers are not part of this model: registration, login, books and categories, profile, order get and delete, customer list/get/create, the shipping list, admin point setting, the activity list and stats.
- Password hashing is a foreign call. It is the constructor `Hashed`. The e-mail format check is an abstract predicate parameter.
- Database access is replaced by in-memory maps. Errors thrown by the database, and the 500 or 400 the catch blocks then send, are not modelled. The ORM rejecting an update with no fields is not modelled either.
- Floating point is not modelled. `Number(...)` of numeric columns, non-integer quantities and precision loss on very large numbers are out. `String(n)` is modelled for integers below 10^21 only, where JavaScript switches to exponent notation.
- Payload types are fixed: a non-number book id or a string quantity cannot be expressed. JSON `null` values in update bodies are not modelled.
- Zod's `.min` counts UTF-16 code units. The model counts characters, which differ only outside the Basic Multilingual Plane.
- The `role` column is text in the database. It is modelled as the three roles "user", "employee" and "admin", because the column default and the admin update (server/routes.ts:374) only ever write one of those names. Other text put into the column outside the server is not modelled.
- `toLowerCase` is modelled for ASCII letters only. Case mapping of other scripts is left out.
- Concurrency and atomicity are not modelled. Handlers run one at a time, so redemption's use of the session's `user.points` equals the stored balance.
- Timestamps, the `createdAt` ordering of the fetched book list and of order lists, and the wording of log actions and details are not modelled. Log actions are a datatype.
- Category rows, order-item row ids and startup seeding are not modelled.
- The params record's key order is not modelled: `BuildUrl` takes the entries in the order `Object.entries` would give them.
- `BulkUpdateShipping` updates the zones by position rather than by id lookup. The two are the same because zone ids are unique, which `Valid` keeps.
- Rules.ApplyCustomerUpdate: the source copies every body key other than `password` and `role` into the update, including keys such as `points`. The model accepts only the fields of the customer-update schema, so "points never change" holds only for bodies limited to those fields.
- Routes.Server.UpdateCustomer: for the same reason, a body carrying extra keys is not modelled.
