# Payment-request broker, modelled in Dafny

The repository is a small payment-request broker. A client asks to collect an
amount through a payment app. The service builds a deep link for that app,
keeps the request in an in-memory map under a fresh id, and lets clients look
the request up or mark it received. All of its logic is in `index.js`:

- `generatePaymentLink` builds the link. For `upi` it gives
  `upi://pay?pa=<vpa>&pn=<encodeURIComponent(name)>&am=<amount>`. For `paypal` it gives
  `https://www.paypal.me/<username>/<amount>`. For any other tag it gives `""`.
- The map `paymentRequests` is shared by three handlers: create, get and mark-received.

The project has five files:

- `wrappers.dfy`: `Option`.
- `js_values.dfy`: the JSON values the handlers receive, and the JavaScript
  semantics the code relies on. `Truthy` is what the `!x` guards test.
  `ToText` is `String(v)`, used by template-string interpolation and by
  `encodeURIComponent`; it answers `None` for an object with its own
  `toString` member, where JavaScript throws a TypeError. `Member` is an
  unchecked member read, where a missing member reads as `undefined`.
- `uri_component.dfy`: `encodeURIComponent` over Unicode scalar values. A
  character in the RFC 3986 section 2.3 unreserved set, or one of `! * ' ( )`,
  is kept. Any other character becomes its UTF-8 bytes as `%XY` escapes. The
  inverse `DecodeUriComponent` is defined beside it. The two are proved to
  round-trip on every string.
- `payment_link.dfy`: `GeneratePaymentLink`, which answers `None` where the
  source throws, plus parsers that read a UPI or PayPal link back. Each kind of link is proved to give back exactly what was
  put in. Each proof names the condition it needs: no `&` in the payee, or no
  `/` in the username.
- `payment_store.dfy`: the records and the three handlers. Each handler is a
  pure step function on the map. `RequestStore` is a class holding the map,
  and its methods are proved to follow those step functions. Lemmas cover the
  store's lifecycle over any sequence of calls:
  - no record disappears;
  - no field other than `status` ever changes;
  - `status` never goes back from `Received` to `Pending`;
  - every record keeps the link built from its own fields.

Modelling choices:

- `uuidv4()` is a caller-supplied id with the precondition that the id is
  not yet in the map.
- HTTP answers are the constructors `Ok`, `BadRequest` (400), `NotFound`
  (404) and `ServerError`. `ServerError` is the 500 that Express sends when
  the create handler throws while building the link.
- A number is kept by its JavaScript rendering. So `0`, `-0` and `0.0` are all
  `Num("0")`, and that value is falsy.

## Model

| member | source | states |
|---|---|---|
| `JsValues.Truthy` | index.js:32 | an input fails the `!x` guard exactly when it is `undefined`, `null`, `false`, `0`, `NaN` or `""` |
| `JsValues.ToText` | index.js:19-22 | converting a value to text throws exactly for an object with its own `toString` member; a string converts to itself, and any other object to `[object Object]` |
| `JsValues.Member` | index.js:19-22 | reading `vpa`, `name` or `username` gives something other than `undefined` only when the account is an object with that member of its own |
| `JsValues.TruthyIsNotNullish` | index.js:32-36 | a truthy account is not nullish, so reading `vpa`, `name` or `username` from it does not throw |
| `UriComponent.EncodeUriComponent` | index.js:19 | the encoded name holds only unreserved characters and `%`, so it never contains `&`, `=` or `/`; it is never shorter than the name |
| `UriComponent.DecodeEncode` | index.js:19 | decoding the encoded name gives back the name, for every string |
| `UriComponent.EncodeInjective` | index.js:19 | two different names never get the same encoding |
| `UriComponent.EncodeUnreservedIsIdentity` | index.js:19 | a name made only of unreserved characters is inserted unchanged |
| `UriComponent.EncodeAppend` | index.js:19 | encoding works one character at a time: the encoding of a concatenation is the concatenation of the encodings |
| `UriComponent.Utf8RoundTrip` | index.js:19 | the UTF-8 bytes of a character announce their own length and decode back to that character |
| `PaymentLink.GeneratePaymentLink` | index.js:15-27 | the link is empty exactly when the tag is neither `upi` nor `paypal`; it throws exactly when a recognised tag meets a nullish account, or an interpolated member or the amount is an object with its own `toString` |
| `PaymentLink.LinkThrows` | index.js:19-22 | building the link can throw only for a recognised tag, and for a recognised tag it always throws when the account is nullish or the amount is an object with its own `toString` |
| `PaymentLink.UpiLinkRoundTrip` | index.js:17-19 | when payee, name and amount convert to text, a UPI link is built, and read back it gives the payee and the amount exactly as converted and the decoded name, provided the payee has no `&` |
| `PaymentLink.PaypalLinkRoundTrip` | index.js:20-22 | when username and amount convert to text, a PayPal link is built, and read back it gives both exactly as converted, provided the username has no `/` |
| `PaymentLink.PaypalUsernameWithSlashIsMisread` | index.js:22 | because nothing is encoded, the username `a/b` with amount `5` reads back as username `a` and amount `b/5` |
| `PaymentLink.ExampleUpiLink` | index.js:17-19 | tag `upi`, amount 100, payee `a@bank`, name `Bob` gives `upi://pay?pa=a@bank&pn=Bob&am=100` |
| `PaymentLink.EncodeSpace` | index.js:19 | a space is escaped as `%20` |
| `PaymentLink.EncodeAroundSpace` | index.js:19 | in a name made of unreserved runs joined by one space, only the space is escaped |
| `PaymentLink.EncodeAliceCo` | index.js:19 | the name `Alice Co` is inserted as `Alice%20Co` |
| `PaymentLink.ExampleAliceCoLink` | index.js:17-19 | tag `upi`, amount 250, payee `x@y`, name `Alice Co` gives `upi://pay?pa=x@y&pn=Alice%20Co&am=250`, written as the concatenation of its parts |
| `PaymentLink.UpiLinkWithSpacedName` | index.js:19 | a payee name of two unreserved runs joined by one space is inserted with only the space escaped as `%20` |
| `PaymentLink.ExamplePaypalLink` | index.js:20-22 | tag `paypal`, amount 50, username `bob` gives `https://www.paypal.me/bob/50` |
| `PaymentLink.MissingUpiMembersReadUndefined` | index.js:19 | a UPI account without `vpa` and `name` still gives a link, whose payee and name read back as `undefined` |
| `PaymentLink.NonObjectAccountReadsUndefined` | index.js:22 | a truthy account that is not an object gives a PayPal link whose username reads back as `undefined` |
| `PaymentLink.UnconvertibleAmountThrows` | index.js:19-22 | for either recognised tag, an amount that is an object with its own `toString` makes building the link throw |
| `PaymentLink.UnconvertibleNameThrows` | index.js:19 | a payee name that is an object with its own `toString` makes `encodeURIComponent` throw |
| `PaymentStore.HasRequiredFields` | index.js:32 | create's guard passes exactly when none of amount, app and account is `undefined`, `null`, `false`, `0`, `NaN` or `""` |
| `PaymentStore.CreateStep` | index.js:30-40 | create never answers 404; a refused or failing create leaves the map as it was; a successful one answers a record with the fresh id and stores it under that id, leaving the other entries alone (the rest is stated by `CreateSpec`) |
| `PaymentStore.CreateSpec` | index.js:30-40 | create answers 400 exactly when amount, app or account is falsy, 500 exactly when they are truthy but building the link throws, and 200 exactly in the remaining case; 400 and 500 leave the map unchanged; 200 adds exactly one key, the fresh id, whose record has the given id, amount, app and account, status pending and the link built from them, and every earlier entry is unchanged |
| `PaymentStore.CreateStoresLink` | index.js:35-39 | input that passes the guard and gives a link is answered with, and stored under the fresh id as, a pending record carrying that link |
| `PaymentStore.CreateRefusesZeroAmount` | index.js:32-34 | an amount of 0 is refused with 400, whatever the other inputs |
| `PaymentStore.CreateUnconvertibleAmountStoresNothing` | index.js:32-38 | the amount `{"toString": 1}` passes the guard, but create then fails with 500 and stores nothing |
| `PaymentStore.GetStep` | index.js:43-50 | get answers only 200 or 404, and a 200 carries a record held in the map (stated in full by `GetSpec`) |
| `PaymentStore.GetSpec` | index.js:43-50 | get answers 404 exactly for ids not in the map, and otherwise answers the stored record |
| `PaymentStore.MarkReceivedStep` | index.js:53-61 | mark-received answers only 200 or 404, keeps the set of ids, and a 200 carries status received (stated in full by `MarkReceivedSpec`) |
| `PaymentStore.MarkReceivedSpec` | index.js:53-61 | mark-received answers 404 exactly for unknown ids, and then leaves the map unchanged; otherwise it sets that record's status to received, changes none of its other fields and no other record, and answers the updated record |
| `PaymentStore.MarkReceivedIdempotent` | index.js:59-60 | marking a second time changes nothing and answers the same |
| `PaymentStore.GetAfterMarkReceived` | index.js:45-60 | a lookup after marking shows status received |
| `PaymentStore.StepEvolves` | index.js:37-59 | any single call keeps every record well formed (keyed by its own id, link built from its own fields); it never removes a key, never changes a field other than status, and never moves a status back to pending |
| `PaymentStore.RunEvolves` | index.js:12-61 | the same holds over any sequence of calls whose create ids are fresh |
| `PaymentStore.GetAfterCreateAndRun` | index.js:35-49 | after any later calls, a lookup of a created id answers the record that create answered, except possibly its status |
| `PaymentStore.CreatesGetDistinctIds` | index.js:35-38 | two successful creates answer different ids, and both records are in the map; the ids differ only because the id generator is assumed to give fresh ids |
| `PaymentStore.SourceLookupFinds` | index.js:45-46 | as written, the lookup succeeds exactly for the stored ids and the names inherited from `Object.prototype` |
| `PaymentStore.InheritedNameFoundAsWritten` | index.js:45-47 | as written, `constructor` is found in an empty store, where the corrected lookup answers 404 |
| `PaymentStore.RequestStore.constructor` | index.js:12 | the store starts empty and well formed |
| `PaymentStore.RequestStore.CreateRequest` | index.js:30-40 | the create handler updates the map and answers as `CreateStep` says, 500 with the map unchanged included, and keeps the map well formed and evolving |
| `PaymentStore.RequestStore.GetRequest` | index.js:43-50 | the get handler answers 404 exactly for unknown ids and otherwise the stored record; it modifies nothing |
| `PaymentStore.RequestStore.MarkReceived` | index.js:53-61 | the mark-received handler updates the map and answers as `MarkReceivedStep` says, and keeps the map well formed and evolving |

## Findings

| source | as written | input that shows it | evidently intended | confidence | as-written member | corrected member |
|---|---|---|---|---|---|---|
| index.js:45-46, index.js:55-56 | `paymentRequests` is a plain object, so `paymentRequests[id]` also finds inherited properties such as `constructor` or `__proto__`, which are truthy | `GET /api/payment/constructor` on an empty store passes the `!request` test and answers 200, not 404. `POST /api/payment/__proto__/mark-received` writes `status` onto `Object.prototype`. | 404 for every id that create never produced | high; not executed | `PaymentStore.SourceLookupFinds`, shown by `PaymentStore.InheritedNameFoundAsWritten` | `PaymentStore.GetStep` and `PaymentStore.MarkReceivedStep` look up own keys only, proved by `PaymentStore.GetSpec` and `PaymentStore.MarkReceivedSpec` |

The rest of the model uses the corrected lookup.

## Left out

- Express setup, CORS, JSON body parsing, `app.listen`, the health-check route and the SIGINT handler (index.js:1-9, 63-78). These are HTTP and process plumbing.
- The internals of `uuidv4()` (index.js:3, 35). This is a foreign library. It is replaced by the precondition that the id is fresh. A v4 UUID never equals an inherited property name, so create is not affected by the finding.
- The conversion of a JavaScript number to text. An amount is already in its rendered form: `Num(text)`.
- Arrays in a request body. An array account behaves like an object without the named members, which the model covers. The conversion of an array to text (`String([1,2])` is `"1,2"`, and an element with its own `toString` makes it throw) is not modelled, so neither is an array amount or member.
- GeneratePaymentLink: JavaScript strings that are not well-formed UTF-16 are not modelled. A Dafny string holds Unicode scalar values, so a lone surrogate (JSON `"\ud800"`) cannot be represented. In the source, such a UPI payee name makes `encodeURIComponent` throw a URIError; such a payee, username or amount is inserted into the link as it is.
- CreateSpec: for the same reason it does not cover a payee name holding a lone surrogate, on which the source answers 500 and stores nothing.
- RequestStore.CreateRequest: the lone-surrogate case is left out here too, as for `CreateSpec`.
- The JSON response shapes and status codes, such as `{success: true, request}`. They are the constructors of `Response`.
- What the answer to an inherited name contains, and the write to `Object.prototype`. The model records only that the 404 branch is skipped. `SourceLookupFinds` does not depend on earlier calls, so it misses one consequence: after `POST /api/payment/__proto__/mark-received`, `Object.prototype.status` exists, and the source then also finds the id `status`.
- Aliasing of the record objects. Mark-received updates the stored object in place. The model replaces the map entry with an updated copy. The record is reachable only through the map once create has answered, so no caller can tell the two apart.
