# Paysgator payment adapter: correlation token and webhook verdict

This project models the core of the Paysgator payment adapter for FOSSBilling
(`library/Payment/Adapter/Paysgator.php`) and proves properties of it. The
adapter does two jobs:

- **payment creation** (`process`): build a hosted-checkout request for an
  invoice, POST it to the gateway, classify the reply, and on success build a
  pending payment transaction and redirect the buyer;
- **webhook verification** (`processTransaction`): check the optional HMAC
  signature, check the body's structure, filter on the event, decode the
  invoice id from the echoed correlation token, filter on the status, and on
  success write a "processed" update to the host's transaction store.

The two jobs meet only in the correlation token `externalTransactionId`. It is
`{invoiceId}inv{timestamp}`, stripped to `[A-Za-z0-9_-]` and cut to 15
characters. On the way back it is read as the digits before the first
`inv`.

Modules, one per concern:

- `PhpString` (`php_string.dfy`): decimal rendering of integers and
  reading the digits back; `preg_replace` with a negated class (`Filter`);
  `explode(...)[0]` (`Before`); `substr($s, 0, n)` (`Truncate`).
- `PhpValue` (`php_value.dfy`): the value `json_decode(..., true)`
  yields (`Json`); `isset` on an offset, truthiness, and string conversion.
- `Token` (`token.dfy`): encoding and decoding the correlation token, and
  the round-trip boundary. Ids of 1 to 15 digits round-trip. Id 0 is refused.
  Ids of 16 or more digits decode to a different number. A negative id of
  up to 14 digits decodes to its magnitude.
- `Webhook` (`webhook.dfy`): the verdict as a pure function
  (Ignored / Rejected(reason) / Confirmed(record)) and its ordering lemmas.
  It also holds the store of written updates (a class) and the
  `ProcessTransaction` method that writes to it.
- `PaymentCreation` (`payment_creation.dfy`): the request payload, the
  POST, the reply classification, the `Payment_Transaction` filled in through
  its setters (a class), and the `Process` method.
- `Correlation` (`correlation.dfy`): end to end. A webhook that echoes a
  request's token confirms that request's invoice when the id has 1 to 15
  digits. Id 0 is refused. An id of 16 or more digits is confirmed under its
  first 15 digits. A negative id of up to 14 digits loses its sign on decoding
  (`Token.NegativeIdLosesSign`), so it is confirmed under its magnitude.

Inputs from the environment are parameters:

- the clock (`now`);
- the HMAC, as a function `hmac(key, text)`;
- the raw body, the signature header and the decoded body;
- the configuration;
- the curl round trip, as a function `send` from the POST to curl's report.

Three consequences of the code are easy to miss. The comment at
`Paysgator.php:90` gives the token's format and its 15-character limit, but
not these:

- The decoded id is refused when it is PHP-false (line 205). So `"0"` is
  refused as well as `""`.
- The token is refused when it is PHP-false (line 195): absent, null, `""`,
  `"0"`, `0`, `false` or an empty array.
- The 15-character cut reaches into the timestamp. Invoice 4821 at time
  1700000000 gives the token `4821inv17000000` (`Token.Example4821Encoded`).

## Model

| member | source | states |
|---|---|---|
| PhpString.Filter | library/Payment/Adapter/Paysgator.php:92 | `preg_replace` with a negated class keeps only accepted characters, as a subsequence of the input, no longer than it; it is the identity when every character is accepted and empty when none is |
| PhpString.FilterKeepsAccepted | library/Payment/Adapter/Paysgator.php:203 | the filter drops no accepted character: each occurs in the result as often as in the input |
| PhpString.FilterAppend | library/Payment/Adapter/Paysgator.php:203 | filtering distributes over concatenation |
| PhpString.Before | library/Payment/Adapter/Paysgator.php:201-202 | `explode($sep, $s)[0]` is the prefix of s up to the first occurrence of sep: no occurrence starts inside it, and one starts right after it unless it is all of s |
| PhpString.BeforeSkip | library/Payment/Adapter/Paysgator.php:201-202 | characters that cannot start the separator pass through the split unchanged |
| PhpString.Truncate | library/Payment/Adapter/Paysgator.php:93 | `substr($s, 0, n)` is a prefix of s of length min(n, \|s\|) |
| PhpString.NatToString | library/Payment/Adapter/Paysgator.php:91 | PHP's decimal rendering of a non-negative integer is a non-empty string of digits that starts with '0' exactly for 0 |
| PhpString.IntToString | library/Payment/Adapter/Paysgator.php:91 | PHP's decimal rendering of an integer is non-empty and starts with '-' exactly when the integer is negative; the rest is a string of digits that denotes the magnitude |
| PhpString.DecimalValue | library/Payment/Adapter/Paysgator.php:218 | the number a string of k digits denotes is below 10^k |
| PhpString.DecimalValueOfNatToString | library/Payment/Adapter/Paysgator.php:218 | reading the decimal rendering of n back gives n |
| PhpString.NatToStringLength | library/Payment/Adapter/Paysgator.php:93 | n has at most k decimal digits exactly when n < 10^k |
| PhpValue.Offset | library/Payment/Adapter/Paysgator.php:140 | reading `$v[$key]` gives a non-null value only when v is an object with that key, and the value is that entry; anything else reads as null |
| PhpValue.Isset | library/Payment/Adapter/Paysgator.php:190-193 | `isset($v[$key])` holds exactly when the offset reads a non-null value, and then yields that value |
| PhpValue.IssetOr | library/Payment/Adapter/Paysgator.php:190-193 | `isset($v[$key]) ? $v[$key] : default` gives the default exactly when the offset reads null, and the offset's value otherwise |
| PhpValue.FalsyValuesExactly | library/Payment/Adapter/Paysgator.php:195 | a value is PHP-false exactly when it is null, false, 0, "", "0", an empty list or an empty object |
| PhpValue.ConcatString | library/Payment/Adapter/Paysgator.php:135 | for a scalar, the string that concatenation produces is PHP-true exactly when the value is; an integer's text starts with '-' exactly when it is negative |
| PhpValue.OrEmpty | library/Payment/Adapter/Paysgator.php:166 | an absent string reads as ''; the result is '' exactly when the string is absent or empty, and otherwise is the string itself |
| PhpValue.StringArgument | library/Payment/Adapter/Paysgator.php:201 | a PHP-true value passed to `explode` fails (TypeError) exactly when it is an array; otherwise its text is non-empty and PHP-true |
| Token.Encode | library/Payment/Adapter/Paysgator.php:91-93 | the token has at most 15 characters, all in `[A-Za-z0-9_-]` |
| Token.EncodeIsPrefix | library/Payment/Adapter/Paysgator.php:91-93 | sanitising is the identity here: the token is the first min(15, length) characters of `str(id) + "inv" + str(now)` for every integer id |
| Token.DecodeDigits | library/Payment/Adapter/Paysgator.php:201-203 | the decoded id contains only digits and is a subsequence of the part before the first "inv" (the whole token if there is none) |
| Token.ParseInvoiceId | library/Payment/Adapter/Paysgator.php:201-207 | the decoded digits are refused exactly when they are "" or "0" (PHP-false); otherwise they are accepted unchanged |
| Token.SeparatorTailHasNoDigits | library/Payment/Adapter/Paysgator.php:93 | whatever part of "inv" + timestamp survives the cut contributes no digit before the first "inv" |
| Token.DecodeAfterShortPrefix | library/Payment/Adapter/Paysgator.php:201-203 | a token cut from p + "inv" + rest, with p of at most 15 characters and no 'i', decodes to the digits of p |
| Token.RoundTrip | library/Payment/Adapter/Paysgator.php:90-93 | for an id below 10^15 and any timestamp, decoding the token gives the id's decimal rendering, whether "inv", "in", "i" or nothing of the separator survives |
| Token.ParseRoundTrip | library/Payment/Adapter/Paysgator.php:199-207 | ids 1 to 10^15 - 1 are accepted, and the accepted digits denote the id |
| Token.ZeroIdRefused | library/Payment/Adapter/Paysgator.php:205-207 | id 0 decodes to "0", which is PHP-false and refused |
| Token.LongIdMisdecoded | library/Payment/Adapter/Paysgator.php:93 | an id of 16 or more digits decodes to its first 15 digits, which are accepted but denote a different number |
| Token.LongIdToken | library/Payment/Adapter/Paysgator.php:93 | the token of an id of 16 or more digits is the id's first 15 digits |
| Token.NegativeIdLosesSign | library/Payment/Adapter/Paysgator.php:92 | for a negative id of at most 14 digits, the token starts with '-', and it decodes to the digits of the magnitude |
| Token.Example4821 | library/Payment/Adapter/Paysgator.php:90-93 | invoice 4821's token starts with "4821inv" at any time and decodes back to "4821" |
| Token.Example4821Encoded | library/Payment/Adapter/Paysgator.php:91-93 | invoice 4821 at Unix time 1700000000 gets the 15-character token "4821inv17000000": the timestamp loses its last two digits |
| Token.Example4821Token | library/Payment/Adapter/Paysgator.php:199-207 | the token "4821inv17000000" decodes to "4821" |
| Webhook.MessageIdentifiesReason | library/Payment/Adapter/Paysgator.php:172-206 | the five refusal messages are pairwise distinct: two refusals have the same message exactly when they have the same reason |
| Webhook.IsEmptySecret | library/Payment/Adapter/Paysgator.php:169 | `empty($secret)` holds exactly when the secret is unset or PHP-false ("" or "0") |
| Webhook.SignatureAccepted | library/Payment/Adapter/Paysgator.php:169-171 | with a non-empty secret, the check fails for a header other than the HMAC of the raw body, and for a missing header unless the HMAC is '' |
| Webhook.PaymentSuccessVerdict | library/Payment/Adapter/Paysgator.php:189-212 | after the event filter, a confirmation carries a PHP-true all-digit invoice id |
| Webhook.WebhookVerdict | library/Payment/Adapter/Paysgator.php:162-226 | the verdict is Rejected(InvalidSignature) exactly when the signature check fails; a confirmation is for the given host transaction, with status "processed" and a PHP-true all-digit invoice id |
| Webhook.WrongSignatureRejected | library/Payment/Adapter/Paysgator.php:169-174 | with a non-empty secret, a header other than the HMAC of the exact raw body is refused, whatever the body |
| Webhook.EmptySecretSkipsSignature | library/Payment/Adapter/Paysgator.php:167-169 | with an unset, "" or "0" secret, the verdict depends neither on the HMAC nor on the header |
| Webhook.MissingHeaderIsEmpty | library/Payment/Adapter/Paysgator.php:166 | a missing signature header is treated as '' |
| Webhook.SuccessEventVerdict | library/Payment/Adapter/Paysgator.php:176-187 | a signed payment.success delivery with `data` present is judged on `data` alone |
| Webhook.MissingStructureRejected | library/Payment/Adapter/Paysgator.php:176-179 | past the signature, the verdict is Rejected(InvalidStructure) exactly when `event` or `data` is missing or null |
| Webhook.OtherEventIgnored | library/Payment/Adapter/Paysgator.php:184-187 | any event but exactly "payment.success" is ignored, whatever `data` holds |
| Webhook.MissingTokenRejected | library/Payment/Adapter/Paysgator.php:193-197 | a missing or PHP-false token is refused, whatever the status |
| Webhook.BadTokenRejectedWhateverStatus | library/Payment/Adapter/Paysgator.php:199-212 | decoding comes before the status filter: an undecodable token is refused even when the status is not SUCCESS |
| Webhook.DecodableTokenVerdict | library/Payment/Adapter/Paysgator.php:209-222 | once the token decodes, the status alone decides: SUCCESS confirms with the record of decoded id, transaction id, amount and "processed"; any other status is ignored |
| Webhook.ConfirmedExactly | library/Payment/Adapter/Paysgator.php:169-224 | confirmed exactly when the signature passes, the event is "payment.success", `data` is present, the token is PHP-true, a string and decodable, and the status is exactly SUCCESS; the record is {id, decoded id, transactionId or null, amount or 0, "processed"} |
| Webhook.IgnoredExactly | library/Payment/Adapter/Paysgator.php:184-212 | ignored exactly for another event, or for a decodable payment.success delivery whose status is not SUCCESS |
| Webhook.TransactionStore.Update | library/Payment/Adapter/Paysgator.php:224 | an update appends its record to the store's writes |
| Webhook.ProcessTransaction | library/Payment/Adapter/Paysgator.php:159-226 | the verdict is the webhook verdict, and the store gains exactly the confirmed record, once, and nothing on Ignored or Rejected |
| PaymentCreation.BuildRequest | library/Payment/Adapter/Paysgator.php:96-108 | the request's token has at most 15 characters, all in `[A-Za-z0-9_-]` |
| PaymentCreation.RequestCopiesInvoice | library/Payment/Adapter/Paysgator.php:96-108 | the request carries the invoice total and currency, the configured return URL, the fields [name, email, phone, address], and metadata with description 'Invoice #' + number, source 'FOSSBilling', the invoice id and the buyer's email; its token is the invoice's token at that time |
| PaymentCreation.RequestCorrelatesInvoice | library/Payment/Adapter/Paysgator.php:96-108 | for an id of 1 to 15 digits, the token decodes to the rendering of the metadata's invoice id, and that rendering reads back as the id |
| PaymentCreation.BuildPost | library/Payment/Adapter/Paysgator.php:111-120 | the POST goes to the service URL with the request as payload, a 30-second timeout, and exactly two headers: 'Content-Type: application/json' and 'X-Api-Key: ' followed by the API key ('' when unset) |
| PaymentCreation.SuccessFlag | library/Payment/Adapter/Paysgator.php:133 | `isset($result['success']) && $result['success']` holds exactly when `success` reads a PHP-true value |
| PaymentCreation.GatewayErrorMessage | library/Payment/Adapter/Paysgator.php:134 | the error text is the string form of `error.message` when that reads non-null, and 'Payment creation failed' otherwise |
| PaymentCreation.Classify | library/Payment/Adapter/Paysgator.php:127-136 | every failure message starts with 'Payment Error: ' |
| PaymentCreation.TransportErrorFirst | library/Payment/Adapter/Paysgator.php:127-129 | a curl error fails first with 'Payment Error: ' + the error, whatever the code and body |
| PaymentCreation.RejectionMessage | library/Payment/Adapter/Paysgator.php:133-136 | without a curl error, a code other than 200 or a missing or false `success` fails with `error.message` when set, else 'Payment creation failed' |
| PaymentCreation.CreatedExactly | library/Payment/Adapter/Paysgator.php:127-140 | a payment is created exactly when there is no curl error, the code is 200 and `success` is true, and it carries the gateway's `data.transactionId` |
| PaymentCreation.PaymentTransaction.constructor | library/Payment/Adapter/Paysgator.php:139 | a new transaction has no field set |
| PaymentCreation.PaymentTransaction.SetId | library/Payment/Adapter/Paysgator.php:140 | sets the gateway transaction id and nothing else |
| PaymentCreation.PaymentTransaction.SetAmount | library/Payment/Adapter/Paysgator.php:141 | sets the amount and nothing else |
| PaymentCreation.PaymentTransaction.SetCurrency | library/Payment/Adapter/Paysgator.php:142 | sets the currency and nothing else |
| PaymentCreation.PaymentTransaction.SetType | library/Payment/Adapter/Paysgator.php:143 | sets the type and nothing else |
| PaymentCreation.PaymentTransaction.SetStatus | library/Payment/Adapter/Paysgator.php:144 | sets the status and nothing else |
| PaymentCreation.NewPendingPayment | library/Payment/Adapter/Paysgator.php:139-144 | a fresh transaction holding the gateway id, the amount and currency given, type payment and status pending |
| PaymentCreation.Process | library/Payment/Adapter/Paysgator.php:85-148 | the outcome classifies the reply to the POST of the built request; a transaction exists exactly when the payment was created, and it holds the gateway id, the invoice total and currency, type payment and status pending |
| Correlation.IssuedTokenConfirmsInvoice | library/Payment/Adapter/Paysgator.php:91-224 | for an id of 1 to 15 digits, a SUCCESS webhook echoing the request's token is confirmed for that invoice: invoice_id reads back as the id |
| Correlation.IssuedTokenPendingIgnored | library/Payment/Adapter/Paysgator.php:209-212 | the same webhook with any other status is ignored, not refused |
| Correlation.ZeroInvoiceTokenRejected | library/Payment/Adapter/Paysgator.php:201-207 | invoice 0's own token is refused as 'Invalid externalTransactionId format', whatever the status |
| Correlation.LongInvoiceIdMisrouted | library/Payment/Adapter/Paysgator.php:93 | for an id of 16 or more digits, a SUCCESS webhook with the request's token is confirmed for a different invoice id |

## Left out

- curl, `json_encode` of the request and the HTTP exchange (lines 110-125): modelled as the function parameter `send` from the POST (URL, headers, payload, 30-second timeout) to curl's report (error text, HTTP code, decoded body). The timeout itself is not modelled.
- `header('Location: ...')` and `exit` (lines 147-148): `Process` returns the `Location:` header line and the transaction it built instead of ending the script. In the source that transaction is built and then discarded.
- `file_get_contents('php://input')` and `$_SERVER` (lines 162, 166): the raw body and the signature header are parameters.
- `json_decode` (lines 131, 163): the decoded body is a parameter of type `Json`. The model does not tie it to the raw body; the signature is still computed over the raw body.
- `hash_hmac('sha256', ...)` (line 170): a function parameter `hmac`. `hash_equals` (line 171) is plain string equality; its constant-time behaviour is a timing property the model cannot express.
- `time()`: the parameter `now`.
- Floating-point numbers: JSON numbers are integers in the model. The `(double)` cast on line 97 is not modelled. The invoice total is a `real` copied unchanged into the request and the transaction.
- PHP's 64-bit integer range: integers are unbounded.
- `invoice_transaction_get` (line 215): its result is unused, so the call is not modelled. `invoice_transaction_update` is modelled as an append to `TransactionStore.updates`.
- `Payment_Transaction`, `Payment_Invoice` and the host API are not part of this model. The transaction's fields start unset, and its type and status constants are single-value enumerations.
- `getConfig`, `getType`, `getServiceUrl` (lines 19-77) are configuration constants. Only the service URL is kept, as `ServiceUrl`. The unused `$config` on line 87 is dropped.
- Reading an offset of a non-array value without `isset` (line 140, `$result['data']['transactionId']`) gives null in the model. PHP warns or throws there, depending on its version.
- The TypeError that `explode` raises for an array token is the rejection `TokenNotString`. Its message stands in for PHP's error text.
- The regular expressions and `substr` act on bytes in PHP and on characters in the model. The results agree on UTF-8 text: every character the filters keep is ASCII, and no byte of a multi-byte character is ASCII.
