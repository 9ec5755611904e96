# Jephshield backend: VPN registry and user records

This project models the in-memory record keeping of the Jephshield VPN
subscription backend (`server.js`). It covers two lists. One is the registry of
VPN servers. The other is the list of users.

- **VPN registry.** `POST /api/vpn-servers` adds a server. It requires a truthy
  country and location and numbers the new record one past the list's length.
  `DELETE /api/vpn-servers/:id` removes the first record with that id and
  renumbers the rest `1..n` in list order. The registry invariant is that the
  record at position i has id i + 1. Add preserves it. Delete re-establishes it
  whatever the ids were before.
- **Login.** `POST /api/login` finds the first user with the given username and
  checks the password with bcrypt. On success it reports the user's
  `subscribed || false`.
- **Payment verification.** `GET /verify-payment` asks the payment provider to
  verify a reference. When the status is `'success'` and an email is present,
  it sets `subscribed = true` on the first user with that email.

Each route is a pure function. It takes the request's inputs and the current
list, and returns the response (status and body) with the list saved
afterwards. Loading and saving the JSON files are the identity. JavaScript's
truthiness, `||`, `===` and template-string conversion are written out over a
`Value` datatype (module `JsValue`). So a missing field, an empty string, `0`
and `null` behave as they do in the server.

`GET /verify-payment` (server.js:130-164) asks the payment provider to verify
the reference. It checks no signature.

Modules: `JsValue` (js_value.dfy), `Options` (options.dfy), `Lists` (lists.dfy), `Http` (http.dfy),
`VpnRegistry` (vpn_registry.dfy), `Users` (users.dfy).

## Model

| member | source | states |
|---|---|---|
| JsValue.Truthy | server.js:66 | a value is falsy exactly when it is `undefined`, `null`, `false`, `0` or the empty string, which is what `!x` tests |
| JsValue.Or | server.js:143 | `a \|\| b` is truthy exactly when one operand is; it yields the left operand when that is truthy, otherwise the right one |
| JsValue.StrictEqualsIsEquality | server.js:43 | `===` holds exactly between equal non-object values |
| JsValue.ToString | server.js:158 | a string status is reported as itself; a numeric status is reported in its canonical spelling (no leading zeros), which reads back as the same number; `undefined`, `null`, `true`, `false` and an object are reported as `undefined`, `null`, `true`, `false` and `[object Object]`, as ECMAScript's ToString gives |
| JsValue.NatToDecimal | server.js:158 | the decimal spelling of a number is non-empty, all digits, and has no leading zero |
| JsValue.IntToDecimal | server.js:158 | an integer is spelled as digits with a leading minus sign exactly when it is negative, and without leading zeros |
| JsValue.NatToDecimalRoundTrip | server.js:158 | reading back a natural number's decimal spelling gives the number |
| JsValue.IntToDecimalRoundTrip | server.js:158 | reading back an integer's spelling, sign included, gives the integer |
| Lists.FindIndex | server.js:98 | `findIndex` returns the first index whose element satisfies the predicate, and none exactly when no element does |
| Lists.RemoveAt | server.js:103 | `splice(i, 1)` shortens the list by one, keeps the elements before i, and shifts those after i down by one |
| VpnRegistry.Renumber | server.js:104 | renumbering keeps the length and every record's non-id fields, and leaves ids `1..n` in order |
| VpnRegistry.AddServer | server.js:63-85 | 400 with the list unchanged exactly when country or location is falsy; otherwise 200, old records unchanged, one record appended with id old length + 1; a contiguous registry stays contiguous |
| VpnRegistry.DeleteServer | server.js:94-108 | 404 with the list unchanged exactly when no record's id is `===` the parsed id; otherwise 200, the length drops by one, and the ids are `1..n-1` whatever they were before |
| VpnRegistry.DeleteRemovesFirstMatch | server.js:98-104 | the deleted record is the first with that id; the records before it keep their fields and those after it move down one and keep theirs |
| VpnRegistry.DeleteByPosition | server.js:98-104 | on a contiguous registry, deleting id k succeeds exactly when 1 <= k <= n and removes position k - 1 |
| VpnRegistry.RenumberKeepsContiguous | server.js:104 | renumbering a contiguous registry changes nothing |
| VpnRegistry.AddedIdIsFresh | server.js:72 | on a contiguous registry, no existing record carries the id an add hands out |
| VpnRegistry.DeleteUndoesAdd | server.js:63-108 | on a contiguous registry, deleting the id just added restores the registry and answers 200 |
| Users.Login | server.js:39-50 | the user list is untouched; 401 when no user has the username; otherwise the password check on the first such user decides, and success reports that user's `subscribed`, defaulting to false |
| Users.MarkSubscribed | server.js:147-154 | only the first user with the email gets `subscribed = true` and every other user is unchanged; with no such user the list is unchanged |
| Users.PaymentStatus | server.js:143 | the status is the data's status when the data is present and its status is truthy, and the top-level status otherwise; so it is `'success'` exactly when `data.status` is, or when `data.status` is falsy and the top-level status is |
| Users.PaymentEmail | server.js:144 | the email is the customer's email inside the data, and undefined when the data or the customer is missing |
| Users.Accepted | server.js:146 | a verification grants access exactly when the data and its customer are present, the customer's email is truthy, and the status is `'success'` (the data's status, or the top-level one when the data's is falsy) |
| Users.VerifyPayment | server.js:130-164 | a missing reference gives 400 and a failed verification gives 500, both with the list unchanged; a verified result answers 200; a verified but unaccepted result answers `Payment not successful: ` followed by the status's string form, with the list unchanged; the list changes only for a `'success'` status with an email, and then exactly by marking that email |
| Users.MarkKeepsKeys | server.js:151 | marking changes no username, password hash or email |
| Users.MarkSubscribedIdempotent | server.js:147-154 | marking an email twice leaves the same list as marking it once |
| Users.VerifyPaymentIdempotent | server.js:130-164 | repeating a verification callback with the same inputs changes nothing further and answers the same |
| Users.LoginAfterPayment | server.js:39-156 | after a payment is accepted for the user whom both the email and the username find first, logging in with the right password reports `subscribed: true` |

## Left out

- File I/O (server.js:20-36): the stores are in-memory lists, and load and save are the identity. A missing file would load as the empty list.
- bcrypt (server.js:46): `bcrypt.compare` is an uninterpreted parameter `matches`. Its rejection of malformed arguments is not modelled.
- The payment provider's verify call (server.js:140): its answer, or the message it throws, is an input to `VerifyPayment`.
- `POST /api/subscribe` (server.js:111-127): it is a network call plus the float product `amount * 100`. Neither is modelled.
- `GET /api/vpn-servers` (server.js:88-91): it returns the stored list unchanged.
- `parseInt` (server.js:95): the route id is given already parsed, as an integer or `NaN`. Integers are unbounded, so the loss of precision above 2^53 is not modelled.
- JsValue.ToString: arrays are represented by `Object` and spelled `[object Object]`, not by joining their elements. Numbers are integral, so fractional, `NaN` and infinite values are not spelled. Integers of magnitude above 2^53 are spelled with their exact digits. `String()` may spell them differently. Between 2^53 and 10^21 it prints the shortest digits that read back as the same double, padded with zeros (2^60 becomes `1152921504606847000`). From 10^21 up it switches to exponent form (`1e+21`). A status that large would be reported differently.
- JsValue.IntToDecimal: spells every integer in full digits; it matches `String()` only up to 2^53 in magnitude, for the reason given in the line above.
- Record fields other than the named ones: a server record's fields beyond its id and the six request fields are not modelled, though the spread `{ ...s, id }` would keep them. A user record's fields beyond `username`, `password`, `email` and `subscribed` are not modelled either, though setting `subscribed` in place (server.js:151) would keep them.
- Static pages, the admin and subscribe page routes, logging, and concurrency between requests. The file `index.js` holds only a presence check, an HTTP call and a webhook that logs and answers 200. The file `create-user.js` is a one-shot seeding script with bcrypt and a file write.
