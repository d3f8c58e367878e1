# American Express SDK for Go: a Dafny model of its request-side core

This project models the logic of the American Express Go SDK that runs before a
request is sent. That means no network access and no JSON. It covers:

- the pre-flight validators for card details, payment requests and token
  requests, in `validation.go`;
- the supported-currency query and amount truncation, in `validation.go`;
- the reflection-driven query encoder `encodeQuery`, in `utils.go`;
- the transaction service's pre-call guards and query builders, in
  `transactions.go`: authorize, capture, void, refund, list and search;
- client construction, the API error text and the request URL rule, in
  `client.go`.

The modules follow the program:

- `Text`: the parts of Go's `strings`, `strconv` and `unicode` packages that
  the SDK calls. Go's `len` is the UTF-8 byte length, `unicode.IsSpace` is the
  White_Space set, and base-10 formatting round-trips.
- `Errors`: Go errors as values. A sentinel error, a plain message, or an
  error wrapped by `fmt.Errorf("...%w...")`. `Is` follows `errors.Is`
  through the wrapping, and `FirstFailure` models a chain of guard clauses
  that returns its first error.
- `Records`: the request records that the validators and the query encoder
  consume. They are declared in `payments.go` (`PaymentRequest`, `CardDetails`, `Address`) and
  `tokens.go` (`TokenRequest`, `ListTokensRequest`).
- `Validation`: `ValidateCardDetails`, `ValidatePaymentRequest`,
  `ValidateTokenRequest`, `SupportedCurrencies`, `IsSupportedCurrency` and
  `FormatAmount`.
- `Query`: `encodeQuery`, an imperative loop over a struct's field
  descriptors, plus `url.Values.Get` over the resulting pairs.
- `Transactions`: each service operation as a `Plan`. A `Plan` is either a
  rejection with the error the operation returns before it calls the API, or
  the call it would make (verb, path, query, body). `ListTransactions` and
  `SearchTransactions` are methods that build the query one `Add` at a time,
  as the source does.
- `Api`: `NewClient`, which fills in the caller's `Config` in place (a class
  with a `modifies` clause), `APIError.Error`, and the URL that `doRequest`
  builds.

The model follows the code where its behaviour may surprise:

- The code counts the CVV and the currency code in bytes (`len`), not in
  characters, although the message at `validation.go:75` says "currency must
  be 3 characters". So a two-character CVV of three bytes passes, and so does
  a single three-byte character as a currency.
- The currency check only requires three bytes. `ValidatePaymentRequest`
  never consults `IsSupportedCurrency`, so "XXX" passes.
- `FormatAmount` truncates toward zero. The test case named "round up" at
  `validation_test.go:205` expects this too: 100.996 gives 100.99.
- `RefundTransaction` does not check the refund amount.

`ValidateTransactionRequest` is called by `transactions.go:65`, but none of
the files modelled here defines it. There is no code to follow for it, so its
model is reconstructed from what `transactions_test.go:7-126` expects of it.

## Model

| member | source | states |
|---|---|---|
| Text.RuneLen | validation.go:47 | a character takes 1 to 4 bytes in UTF-8, and exactly 1 iff it is ASCII |
| Text.ByteLenBounds | validation.go:74 | Go's `len` of a string lies between its character count and four times that, and equals the character count iff the text is ASCII |
| Text.TrimSpaceEmpty | validation.go:52 | `strings.TrimSpace(s) == ""` holds iff every character of `s` is white space |
| Text.TrimLeftEmpty | validation.go:79 | trimming leading white space gives "" iff every character is white space |
| Text.TrimLeftStartsSolid | validation.go:79 | after trimming leading white space, the text is empty or starts with a non-space |
| Text.RemoveSpacesSpec | validation.go:33 | deleting every " " leaves no space, keeps every other character with its count, and leaves a text without spaces unchanged |
| Text.RemoveSpacesConcat | validation.go:33 | deleting spaces distributes over concatenation |
| Text.TrimSuffix | client.go:63 | with the suffix present, the result plus the suffix is the input; otherwise the input is returned unchanged |
| Text.TrimSuffixOnce | client.go:63 | `strings.TrimSuffix` removes one trailing "/" only, never two |
| Text.DigitValue | transactions.go:282 | a decimal digit character's value is below 10 and converts back to the same character |
| Text.NatToDecimal | transactions.go:282 | the decimal text of a natural number is non-empty, all digits, and has no leading zero |
| Text.NatToDecimalRoundTrip | transactions.go:282 | the decimal text of a natural number reads back as that number |
| Text.IntToDecimalRoundTrip | utils.go:51 | `strconv.FormatInt(n, 10)` and `%d` text parse back to `n`, negative numbers included |
| Errors.IsUnique | validation.go:10-21 | an error matches at most one of the five sentinel errors under `errors.Is` |
| Errors.Check | validation.go:34-36 | a guard passes iff its condition holds |
| Errors.FirstFailureSpec | validation.go:27-56 | a chain of guards passes iff every guard passes; otherwise it fails with the first failing guard's error |
| Errors.FirstFailureAt | validation.go:60-96 | if guard k is the first to fail, the chain returns guard k's error |
| Errors.FirstFailureStep | validation.go:60-96 | a chain returns its head's error when the head fails, and otherwise the rest's outcome |
| Validation.ValidateCardDetails | validation.go:27-30 | a nil card fails with "card details cannot be nil" |
| Validation.CardDetailsFirstFailure | validation.go:32-56 | for a non-nil card the result is the first failing check, in the source's order: number, month, year, CVV, holder name |
| Validation.CardNumberRule | validation.go:23-36 | the number passes the pattern `^\d{13,19}$` after every " " is deleted iff it is 13 to 19 ASCII digits with spaces anywhere; tabs and other white space are not deleted |
| Validation.CardDetailsPass | validation.go:27-56 | card validation passes iff the card is present and well formed: number, month 1-12, year 2020-2099, CVV of 3 or 4 bytes, and a holder name that is not all white space |
| Validation.CardDetailsKinds | validation.go:34-54 | each sentinel (card number, expiry date, CVV) is reported iff its check is the first to fail, the holder-name message likewise, and the month failure reads "invalid expiry date: month must be 1-12" |
| Validation.CardKindsByGuards | validation.go:32-54 | the same four kinds stated on the guard conditions as written (the pattern on the space-free number, the trimmed holder name), and the month failure text |
| Validation.SpacedCardNumberExample | validation.go:33-34 | a number with spaces between its digit groups ("4111 1111 1111 1111") passes, because the spaces are deleted before the pattern is matched |
| Validation.ShortCardNumberExample | validation_test.go:30-41 | "123" fails the pattern |
| Validation.TabbedCardNumberExample | validation.go:33-34 | only U+0020 spaces are deleted, so a number with a tab anywhere fails the pattern, whatever surrounds the tab |
| Validation.LongCardNumberExample | validation.go:24 | more than 19 digits fail |
| Validation.CardFieldExamples | validation.go:39-54 | the boundaries 1/12 and 2020/2099 pass; the month is reported before the year; a year failure carries ": year must be 2020-2099"; a 2-byte CVV fails while letters and a 2-character 3-byte CVV pass; an all-white-space holder fails |
| Validation.CardDetailsGuard | validation.go:88-93 | the card-details step fails iff card details are present and invalid |
| Validation.ValidatePaymentRequest | validation.go:60-63 | a nil request fails with "payment request cannot be nil" |
| Validation.PaymentFirstFailure | validation.go:65-95 | for a non-nil request the result is the first failing check: amount, currency, currency length, merchant, payment method, card details |
| Validation.PaymentPass | validation.go:60-96 | validation passes iff the request has a positive amount, a 3-byte currency, a non-blank merchant, a token or card details, and valid card details when present |
| Validation.CardFailureKinds | validation.go:27-56 | card validation never reports the amount or currency sentinels |
| Validation.PaymentAmountCurrencyKinds | validation.go:65-76 | the amount sentinel is reported iff amount <= 0; the currency sentinel iff the amount is positive and the currency is not 3 bytes; an empty currency gives the bare sentinel |
| Validation.PaymentCardKinds | validation.go:88-93 | any other sentinel is reported iff the earlier checks pass and the card details fail with it; that failure is wrapped as "invalid card details: " plus the card error's text |
| Validation.PaymentQuirks | validation.go:74-93 | an unlisted 3-letter currency passes, a token of one space passes, and invalid card details fail even when a token is given |
| Validation.ValidateTokenRequest | validation.go:99-109 | nil fails with "token request cannot be nil", missing card details fail with "card details are required for token creation", and otherwise the card's result is returned unchanged |
| Validation.TokenRequestPass | validation.go:99-109 | token validation passes iff card details are present and well formed |
| Validation.FoldSearch | validation.go:120-128 | the search finds the text iff some listed code equals it under case folding |
| Validation.IsSupportedCurrency | validation.go:111-128 | a currency is supported iff it equals one of the 20 listed codes under `strings.EqualFold` |
| Validation.SupportedCurrenciesUpper | validation.go:112-117 | every listed code is upper-case ASCII letters |
| Validation.SupportedCurrencyRule | validation.go:111-128 | a currency is supported iff its folded upper-case form is one of the 20 codes; this includes the Kelvin sign for K and the long s for S |
| Validation.LowerCaseCurrencyExample | validation_test.go:174-186 | "usd" is supported |
| Validation.KelvinSignCurrencyExample | validation.go:123 | "HKD" with the Kelvin sign in place of K is supported |
| Validation.LongSCurrencyExample | validation.go:123 | "sek" with a long s in place of s is supported |
| Validation.XyzNotListed | validation.go:112-117 | "XYZ" folds to a code that is not listed |
| Validation.UnlistedCurrencyExample | validation_test.go:174-186 | "XYZ" is not supported |
| Validation.EmptyCurrencyExample | validation_test.go:174-186 | the empty text is not supported |
| Validation.TruncateTowardZero | validation.go:132 | `int(x)` truncates toward zero, for positive and for negative values |
| Validation.FormatAmount | validation.go:130-133 | the result is a whole number of cents, at most one cent closer to zero than the amount, with the same sign |
| Validation.FormatAmountIdempotent | validation.go:130-133 | over exact amounts, formatting twice is formatting once (not so under `float64`, see Left out) |
| Validation.FormatAmountExamples | validation.go:130-133 | the four cases of the test at validation_test.go:196-216 (100.996 gives 100.99, 100.123456 gives 100.12, and 100.25 and 100.0 are unchanged), and, by truncation toward zero, -1.239 gives -1.23 |
| Query.EncodeQuery | utils.go:10-67 | the loop produces, in field order, one pair per tagged field whose value is set, and never fails |
| Query.FirstValueDistinct | utils.go:62 | with distinct keys, `url.Values.Get(key)` gives `value` iff the pair (key, value) was added |
| Query.FirstValuePresent | utils.go:62 | a key has a value iff some added pair carries that key |
| Query.EncodeFieldsBound | utils.go:27-64 | the query has at most one pair per tagged field |
| Query.EncodeFieldsAppend | utils.go:27-64 | encoding distributes over a concatenation of fields, so order is kept |
| Query.EncodeFieldsMembers | utils.go:27-64 | a pair is in the query iff some field produces it |
| Query.FieldPairKinds | utils.go:44-63 | strings and ints are sent iff non-zero, ints as base-10 text; booleans are always sent as "true" or "false"; nil pointers, non-nil pointers and other kinds are never sent |
| Query.UntaggedFields | utils.go:32-35 | a field tagged "" or "-" is never sent |
| Query.IntFieldRoundTrip | utils.go:49-52 | a non-zero int field's text parses back to the int |
| Query.ListTokensLimitExample | tokens.go:101-117 | the whole tag text, ",omitempty" included, becomes the key |
| Query.ListTokensNegativeExample | tokens.go:101-117 | a zero field is left out and a negative int is sent |
| Query.ListTokensEmptyExample | tokens.go:101-117 | a request with every field zero gives an empty query |
| Transactions.ValidateTransactionRequest | transactions_test.go:43-48 | a nil request fails with "transaction request cannot be nil" |
| Transactions.TransactionRequestPass | transactions_test.go:7-126 | a transaction request passes iff its payment part passes and its capture mode is "", "auto" or "manual" |
| Transactions.TransactionRequestFailures | transactions_test.go:49-103 | a payment failure is returned unchanged; otherwise an unknown capture mode gives "capture mode must be 'auto' or 'manual'", which matches no sentinel |
| Transactions.TokenTransactionExamples | transactions_test.go:14-103 | the token-paid test request passes; with capture mode "invalid" it fails with the capture-mode message; without a token or card it fails with "either card token or card details must be provided" |
| Transactions.RejectedTransactionExamples | transactions_test.go:43-81 | the nil, zero-amount, empty-currency and empty-merchant requests fail with exactly the texts the tests compare |
| Transactions.TestCardNumber | transactions_test.go:25-42 | the test card number passes the card-number check |
| Transactions.TestCardWellFormed | transactions_test.go:25-42 | the test card is well formed |
| Transactions.CardTransactionExample | transactions_test.go:25-42 | the card-paid test request with capture mode "manual" passes |
| Transactions.ActionPathId | transactions.go:122 | the path `fmt.Sprintf("/transactions/%s/capture", id)` splits back into the prefix "/transactions/", the transaction id, and "/" followed by the action |
| Transactions.ActionPathInjective | transactions.go:154 | different transaction ids give different paths |
| Transactions.AuthorizeTransaction | transactions.go:63-69 | the request is rejected iff validation fails, with the error wrapped as "validation failed: %w"; otherwise it is POSTed to "/transactions/authorize" |
| Transactions.AuthorizeRejection | transactions.go:65-66 | the wrapped error matches the same sentinels as the validation error, and its text is the prefix followed by the validation error's text |
| Transactions.AuthorizeSends | transactions.go:63-69 | the request is sent iff it is present, its payment part is well formed and its capture mode is known |
| Transactions.CaptureTransaction | transactions.go:117-122 | a capture is always sent, as a POST to "/transactions/{id}/capture" with the request as its body |
| Transactions.CaptureNilIsEmpty | transactions.go:118-120 | a nil capture request is sent as the empty request |
| Transactions.VoidTransaction | transactions.go:149-154 | a void is always sent, as a POST to "/transactions/{id}/void" with the request as its body |
| Transactions.VoidNilIsEmpty | transactions.go:150-152 | a nil void request is sent as the empty request |
| Transactions.RefundTransaction | transactions.go:200-205 | a refund is rejected with "refund request is required" iff the request is nil; otherwise it is POSTed to "/transactions/{id}/refund" |
| Transactions.RefundAmountUnchecked | transactions.go:200-205 | a zero or negative refund amount is sent unchanged |
| Transactions.PositiveDecimal | transactions.go:281-286 | the limit or offset text is non-empty iff the number is positive |
| Transactions.AddIfSet | transactions.go:254-256 | the pair is appended iff its value is non-empty |
| Transactions.AddIfPositive | transactions.go:281-283 | the pair is appended iff the number is positive, with its decimal text |
| Transactions.ListTransactions | transactions.go:251-295 | always a GET to "/transactions" with no body; a nil request has an empty query; otherwise the query is the 13 parameters in source order, each present iff set |
| Transactions.SearchTransactions | transactions.go:325-348 | rejected with "search query is required" iff the request is nil or its query is empty; otherwise a GET to "/transactions/search" whose query is "q" followed by the five other parameters that are set |
| Transactions.ListTableFilter | transactions.go:253-293 | the list query is the concatenation, in source order, of each parameter when set |
| Transactions.SearchTableFilter | transactions.go:331-346 | the search query is "q" followed, in source order, by each other parameter when set |
| Transactions.KeepConcat | transactions.go:253-293 | filtering a table made of two parts keeps the set entries of each part, in order |
| Transactions.KeepSnoc | transactions.go:253-293 | filtering one more parameter appends it iff it is set |
| Transactions.KeepNonEmptyMembers | transactions.go:253-293 | a pair is in the query iff it is one of the parameters and its value is non-empty |
| Transactions.KeepNonEmptyOrder | transactions.go:253-293 | the query keeps the parameters' relative order |
| Transactions.KeepNonEmptyDistinct | transactions.go:253-293 | filtering keeps keys distinct |
| Transactions.FilterFirstValue | transactions.go:253-293 | with distinct keys, looking a parameter up in the query gives its value iff the value is non-empty |
| Transactions.ListTableDistinct | transactions.go:253-293 | the 13 list parameters have distinct keys |
| Transactions.SearchTableDistinct | transactions.go:331-346 | the 6 search parameters have distinct keys |
| Transactions.ListQueryValues | transactions.go:253-293 | the list query has distinct keys, and looking up any parameter gives its value iff it is set |
| Transactions.ListQueryPaging | transactions.go:281-286 | "limit" and "offset" are present iff positive, and the limit text parses back to the limit |
| Transactions.SearchQueryShape | transactions.go:330-346 | the search query starts with ("q", query), has distinct keys, and gives back q, merchant_id, limit and offset as set |
| Transactions.ListQueryExample | transactions_test.go:181-226 | the test list request gives merchant_id, status and limit "10", and nothing for the zero offset |
| Transactions.SearchQueryExample | transactions_test.go:228-268 | the test search request gives q, merchant_id and limit "20" |
| Api.NewClient | client.go:43-69 | defaults are written into the caller's Config: the base URL if empty, the timeout if zero, and a fresh HTTP client with the config's timeout if none. A given HTTP client is kept and not changed. The client takes the base URL minus one trailing "/", and the keys and HTTP client of the config. A nil config gives the defaults. The user agent is "AmexSDK-Go/1.0.0" |
| Api.NewClientWithDefaults | client_test.go:34-48 | `NewClient(nil)` has the default base URL and the 30-second timeout |
| Api.NewClientWithKeys | client_test.go:8-32 | the keys are copied, the base URL is defaulted, and the new HTTP client takes the configured 10-second timeout |
| Api.TrailingSlashJoin | client.go:63 | a base URL configured with a trailing "/" is stored without it, so a path starting with "/" joins with a single "/" |
| Api.RequestUrl | client.go:103-107 | the URL starts with base URL plus path, gains "?" and the encoded query iff the query is non-empty, and is exactly base plus path otherwise |
| Api.ApiErrorText | client.go:79-81 | the text starts with "amex api error: " and ends with ")" |
| Api.ApiErrorTextParts | client.go:79-81 | the status code reads back from the text right after the prefix, and the details never affect the text |
| Api.ApiErrorExample | client_test.go:86-97 | a 400 error reads "amex api error: 400 - " followed by the message and the code in parentheses, whatever the details |

## Left out

- HTTP transport is left out: `doRequest`'s request creation, headers, authentication, response status handling and `Get`/`Post`/`Put`/`Delete`. The model stops at the `Plan`, the call an operation would make.
- JSON marshalling of bodies and unmarshalling of responses is left out. Response records and the errors for reading, unmarshalling or transport failures are not modelled.
- `GetTransaction` and `GetTransactionStatus` only issue a GET and decode the reply, with no logic of their own before the call.
- `payments.go`, `tokens.go` (except `ListTokens`' use of `encodeQuery`), `merchants.go` and `sdk.go` are not part of this model.
- Context cancellation and deadlines are not modelled.
- Query.EncodeQuery: reflection is replaced by a list of field descriptors (tag, value kind, value). A float field carries its `strconv.FormatFloat` text as given, because Go's float formatting is not modelled.
- Query.EncodeQuery: the query is a sequence of pairs in insertion order. `url.Values` keeps only per-key order, so the order across keys here is finer than the source's. `url.Values.Encode` sorting and escaping are left out, and `RequestUrl` takes the encoding as a parameter.
- Validation.FormatAmount: amounts are exact reals, not `float64`. Binary rounding of `amount*100` is not modelled (in Go, 0.29 gives 0.28), nor are NaN, infinities or overflow of `int(amount*100)`.
- Validation.FormatAmountIdempotent: holds over exact reals only. Under `float64` the Go code is not idempotent: `0.575*100` is `57.49999999999999`, so 0.575 gives 0.57, and `0.57*100` is `56.99999999999999`, so 0.57 gives 0.56.
- Validation.PaymentAmountCurrencyKinds: the amount is a real, so NaN, which passes Go's `Amount <= 0` check, does not arise.
- Text.ByteLen: strings are sequences of Unicode scalar values. A Go string holding invalid UTF-8 is not modelled.
- Transactions.ValidateTransactionRequest: none of the files modelled here defines it. The model reconstructs it from the tests, with the capture-mode check after the payment checks. The tests do not fix that order, nor whether the CVV and AVS flags are checked.
- Api.NewClient: `*http.Client` is reduced to its timeout, and `time.Duration` is an integer count of nanoseconds.
