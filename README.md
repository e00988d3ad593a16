# Webpay Plus transaction lifecycle

This project models the transaction coordinator in `api/transbank.js` of a
Webpay Plus (Transbank) payment service. The coordinator has three request
handlers and one stored collection:

- `createTrx` checks the request and refuses an order the collection already
  holds. It then asks the gateway for a payment (`token`, `url`) whose return
  URL carries the encrypted buy order.
- `authorizeTrx` is the gateway's browser callback. It decrypts the reference
  and refuses an order that was already processed. It then commits the token
  and stores one settlement record, but only when the gateway approves the
  order that was decrypted. Whatever happens, it issues exactly one redirect,
  to the success page or to the failure page. The failure page carries only
  the buy order and the non-zero response code.
- `refund` checks the sanitised body and requires a stored record with the
  given buy order and authorization code. It then asks the gateway for a
  refund and accepts only a `REVERSED` or `NULLIFIED` outcome.

Files:

- `wrappers.dfy` holds `Option`, which stands for JavaScript's `undefined`.
- `js_text.dfy` holds the JavaScript built-ins the handlers depend on:
  `trim` with the ECMAScript white-space set, `replace(/\n/g, '. ')`,
  `String(n)` for integers below 10^21 with its read-back, and substring search for a
  regular expression made of literal alternatives.
- `store.dfy` holds the collection `tbkWebpayPlusTrx`. It is a sequence of
  records with the two `count` queries the handlers use, and the uniqueness
  invariant "at most one record per buy order".
- `transbank.dfy` holds the request and response datatypes, the error codes,
  the record normalisation and the failure query. It also holds:
  - the class `Webpay`, whose field `transactions` is the collection and
    whose methods `CreateTrx`, `AuthorizeTrx` and `Refund` are the three
    handlers;
  - the class `Reply`, which records `res.redirect` calls;
  - two client scenarios: a replayed callback, and a create after a commit.

How the outside world appears in the model:

- A gateway call appears twice. Its request is an out-parameter, `None` when
  the handler makes no call. Its outcome is a parameter `Completion`,
  either `Returned(value)` or `Threw(message)`, and it is read only when the
  call is made.
- The `xss` filter is a function fixed when the service is built, and so are
  the reference codec's `encrypt` and `decrypt`. `encrypt` yields a
  `Completion`, since its exception text reaches the caller; `decrypt` yields
  `None` when it throws, since its text is only logged.
- The collection's `count` is evaluated on the `transactions` field, and
  `insertOne` appends to it.

Behaviour of the handlers that a reader might not expect:

- The amount guard of `createTrx` is `!Number(amount)`. Negative and
  infinite amounts pass it; only zero, NaN and a missing amount are refused.
- `createTrx` has no guard for an empty sanitised `buyOrder`: `''` is
  counted, encrypted and sent to the gateway. `refund` refuses it.
- `createTrx` does not check `sessionId`. It passes it to the gateway
  unsanitised.
- `cardDigits` is the last four characters of the card number, or the whole
  card number when it has fewer than four characters. A missing or empty
  card number gives no digits.
- The stored record holds no gateway token. `refund` only counts records
  matching the buy order and the authorization code.
- `refund` passes its arguments to the gateway as
  `(buyOrder, commerceCode, buyOrder, amount)`. An empty commerce code
  becomes the test code `597055555542`.
- An approval also needs the `buy_order` that the gateway echoes back to
  equal the decrypted order. Otherwise no record is stored.
- `createTrx` calls `encrypt` inside its `try`. When `encrypt` throws, the
  handler answers an error envelope with the exception's text and makes no
  gateway call.

## Model

| member | source | states |
|---|---|---|
| Store.CountPositiveIff | api/transbank.js:87 | a `count` is truthy exactly when some stored record matches the filter, in both directions |
| Store.CountAppend | api/transbank.js:169 | inserting a record adds one to the count of every filter it matches and changes no other count |
| Store.UniqueInsert | api/transbank.js:135-169 | inserting a record whose buy order counts zero keeps "one record per buy order" |
| Store.UniqueCountAtMostOne | api/transbank.js:135 | in a collection with one record per buy order, every buy order counts at most once |
| Store.AuthMatchIsOrderMatch | api/transbank.js:223 | the refund filter (order and authorization code) never counts more than the order filter does |
| JsText.TrimStartShape | api/transbank.js:80 | the leading cut removes a run of white space only, keeps a suffix, and stops at a character that is not white space |
| JsText.TrimEndShape | api/transbank.js:80 | the trailing cut removes a run of white space only, keeps a prefix, and stops at a character that is not white space |
| JsText.TrimIsInfix | api/transbank.js:210-212 | what `trim` keeps is a contiguous part of the input with white space on both sides and at neither end |
| JsText.TrimEmptyIff | api/transbank.js:215-216 | a sanitised field is empty, and so refused, exactly when the filtered input is white space only |
| JsText.ReplaceNewlines | api/transbank.js:107 | the error text holds no line feed, and text without one is unchanged |
| JsText.ReplaceNewlinesAppend | api/transbank.js:246 | the replacement works character by character, so the replaced text of a concatenation is the concatenation of the replaced parts |
| JsText.ReplaceNewlinesAfter | api/transbank.js:246 | a prefix with no line feed passes through the replacement unchanged, and only the rest is rewritten |
| JsText.NatToString | api/transbank.js:182 | the decimal numeral is non-empty, made of digits only, and has no leading zero |
| JsText.IntToString | api/transbank.js:182 | `String(n)` is non-empty and starts with a minus sign exactly when `n` is negative |
| JsText.NatToStringRoundTrip | api/transbank.js:182 | the decimal numeral of a natural number reads back as that number |
| JsText.IntToStringRoundTrip | api/transbank.js:182 | `String(n)` of an integer reads back as `n` |
| JsText.ContainsIff | api/transbank.js:235 | the substring search succeeds exactly when the tag occurs at some position |
| Transbank.ErrorEnvelope | api/transbank.js:104-107 | a caught error becomes an error envelope whose text has no line feed; a fixed code is passed through unchanged; any other text has each line feed replaced |
| Transbank.CardDigits | api/transbank.js:150-164 | digits exist exactly when a non-empty card number was sent, and they are its last four characters, or all of it when shorter |
| Transbank.NewRecord | api/transbank.js:152-166 | the record copies the gateway's fields; shares is the installments number when that is truthy and 1 otherwise, never 0; sharesAmount is present exactly when the installments amount is truthy, and is never 0; the card digits are at most four characters |
| Transbank.FailureQuery | api/transbank.js:179-184 | the failure query has at most the two keys, each at most once, with `buyOrder` before `tbkResCode`. `buyOrder` is present exactly when it was decrypted and is non-empty. `tbkResCode` is present exactly when the code is non-zero, and then holds `String(code)`. The query is empty exactly when neither is present |
| Transbank.FailureCodeReadsBack | api/transbank.js:182 | the `tbkResCode` that a failure page reads is a signed decimal numeral whose value is the gateway's response code |
| Transbank.RefundTypeOkIff | api/transbank.js:235 | a refund type passes exactly when `REVERSED` or `NULLIFIED` occurs somewhere in it |
| Transbank.RefundRejectionText | api/transbank.js:235-246 | the error envelope of a refund whose type does not pass reads `UNEXPECTED_TBK_RESPONSE_`, then the type with its line feeds replaced, or `NAN` when the type is missing or empty |
| Transbank.CommitBlocksReplay | api/transbank.js:135-169 | after an approved commit stores its record, the order's count rises by one, so the duplicate check refuses it from then on |
| Transbank.Reply.RedirectTo | api/transbank.js:173 | a redirect is appended to the reply and the earlier ones are kept |
| Transbank.Webpay.CommerceCode | api/transbank.js:211-220 | the refund's commerce code is never empty: it is the sanitised one whenever that is non-empty, and otherwise the test code |
| Transbank.Webpay.CreateTrx | api/transbank.js:68-109 | answers MISSING_UA, INVALID_AMOUNT or TRX_ALREADY_PROCESSED in that order, without a gateway call. When `encrypt` throws, answers its exception text, also without a gateway call. Calls the gateway exactly when all three guards pass and `encrypt` returns, with the sanitised order, the session id, the amount and a return URL that embeds the encrypted order. Answers ok with the gateway's url and token exactly when both are non-empty; otherwise UNEXPECTED_TBK_RESPONSE, or the gateway's exception text |
| Transbank.Webpay.AuthorizeTrx | api/transbank.js:117-189 | keeps one record per buy order and issues exactly one redirect. Commits exactly when the token is present, the reference decrypts and the order is unprocessed. Stores `NewRecord` of the response, and redirects to the success URL with the order, exactly when the gateway returns code 0 and echoes the decrypted order. Every other path leaves the collection unchanged and redirects to the failure URL with the failure query. Names the rejection for each guard |
| Transbank.Webpay.Refund | api/transbank.js:197-248 | answers INVALID_BUY_ORDER, INVALID_AUTH_CODE, INVALID_AMOUNT or TRX_WITH_AUTH_CODE_NOT_FOUND in that order, without a gateway call. Calls the gateway exactly when a record matches the order and the authorization code. Answers ok with the gateway's response exactly when its type passes, and only when such a record exists; otherwise the typed rejection or the exception text. Never changes the collection |
| Transbank.ReplayedCallback | api/transbank.js:135-173 | after a successful first callback, any later callback with a token whose reference decodes to the same order never reaches the gateway. It leaves the collection with exactly the first record added, and redirects to the failure page with only the order |
| Transbank.CreateAfterCommit | api/transbank.js:87-169 | once an order has been committed, `createTrx` for it answers TRX_ALREADY_PROCESSED without calling the gateway |

## Left out

- Transbank.Webpay.CreateTrx: always answers an envelope. The source destructures `req.body` outside its `try` (api/transbank.js:70-75), so a request whose body is `undefined` or `null` throws a TypeError out of `createTrx` and gets no envelope. The model's `CreateBody` always exists, so this path is not captured.
- Transbank.Webpay.Refund: always answers an envelope. The destructuring of `req.body` is outside the `try` here too (api/transbank.js:199-205), so an `undefined` or `null` body throws out of `refund` with no envelope. The model's `RefundBody` always exists, so this path is not captured.
- `setup` and the production/integration switch are left out. They only read the environment and configure the gateway SDK. The gateway's credentials and environment are not modelled.
- The reference codec (`api/utils.js`) is not part of this model. `encrypt` and `decrypt` are fixed functions that may throw, and no round trip between them is assumed or proved.
- The `xss` filter is not part of this model. It is an arbitrary fixed function on strings, and its effect on non-string bodies is not modelled.
- JavaScript coercions are taken as inputs. `Number(amount)` appears as a `JsNumber`, and `parseInt(amount)` as an `Option<int>`, `None` for NaN. Infinities are not told apart from finite numbers, and `Number(response.amount)` is taken as an integer.
- The record's `_id` (a fresh `ObjectId`) is left out. `createdAt` keeps the gateway's `transaction_date` text instead of a parsed `Date`.
- URL encoding of redirects is not modelled. Redirects are kept as a destination and an ordered list of parameters. The success redirect interpolates the order without encoding, while the failure redirect goes through `URLSearchParams`.
- `server.getBaseUrl` is modelled as plain concatenation of the base URL and the path.
- Storage failures are not modelled: a `count` or `insertOne` that throws, and a `res.redirect` that throws inside the success branch and leads to a second, failure redirect.
- Transbank.CardDigits: strings are modelled as sequences of Unicode code points, while JavaScript's `length` and `substring` count UTF-16 code units. For a card number with characters above U+FFFF the model keeps four code points where the source keeps four code units, and strings holding a lone surrogate cannot be written. The two agree on the ASCII card numbers the gateway sends.
- Response codes are taken as integers below 10^21 in magnitude. There `String(n)` is a plain decimal numeral, which is what `IntToString` gives. For larger numbers JavaScript writes an exponent (`1e+21`), which the model does not produce.
- Logging is left out, including the token prefixes it writes.
- Concurrency is not modelled. The handlers run one after another, so the check-then-insert race between two concurrent callbacks is outside the model.
- The meaning of the refund call's arguments belongs to the gateway SDK, which is not part of this model. The model only records what is passed.
- Plain string fields of the gateway responses that may be missing are modelled as strings, with a missing field read as `""`. `Option`s are used for the fields whose truthiness the code tests, and for `buy_order`, which api/transbank.js:146 compares strictly with the decrypted order, so a missing `buy_order` never equals a decrypted `""`.
- The rejection `AuthorizeTrx` catches is modelled as a `Rejection` value, not as its message text, because that text is only logged.
