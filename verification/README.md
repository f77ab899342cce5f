# OmniKassa .NET SDK — a Dafny model of its request pipeline and order values

This project models, in Dafny, four sequential pieces of the OmniKassa (Rabo Smart Pay) .NET SDK
and proves properties of them:

1. **The endpoint's token protocol** (`Endpoint`, in `endpoint.dfy`). Every public operation is a
   pure function from a token provider and an abstract transport to a `Call`: the outcome, the
   provider afterwards, and a `Trace` of the transport calls made (the ordered log plus a refresh
   counter and an attempt counter). The counters tell the transport which refresh or attempt of
   the call it is answering; the log only records.
   The SDK does not apply one policy everywhere, and neither does the model:
   - `AnnounceMerchantOrder`, `RetrievePaymentBrands`, `RetrieveIdealIssuers`,
     `RetrieveShopperPaymentDetails` and `DeleteShopperPaymentDetail` run a pre-flight validity
     check and then a single reactive retry (`Guarded`).
   - The three refund operations skip the pre-flight check (`Reactive`).
   - `RetrieveAnnouncement` checks the notification's signature and fetches the order status
     once, with no token handling.
   The transport answers the n-th attempt and the n-th refresh of one call, so "rejected the first
   time, accepted the second" is expressible.
2. **The order-status result** (`OrderResult`, in `order_result.dfy`): its canonical signature
   data (ten header fields in protocol order, then every transaction's fields in list order) and
   its equality, which treats an absent transaction list like an empty one.
3. **The response gate of the HTTP client** (`HttpClient`, in `http_client.dfy`). The error-code
   member is checked first, then the body is deserialised, then a signed payload is checked
   against the client's signing key. JSON parsing, deserialisation and the keyed-digest check
   are parameters.
4. **Payment-brand metadata** (`MetaData`, in `metadata.dfy`) and the **merchant order builder**
   operations on it (`Order`, in `merchant_order.dfy`). This covers creating the metadata when it
   is absent, setting one part while keeping the other, wholesale replacement, and the dictionary
   view. It also covers the equality on required-checkout-field lists. That equality ignores order
   but only looks one way: `MetaData.NotSymmetricWithDuplicates` shows two lists with repeated
   entries that compare equal in one direction and unequal in the other.
   `MetaData.SymmetricWithoutDuplicates` proves symmetry for duplicate-free lists.

Supporting modules: `Wrappers` (Option, Result, the argument of an `Equals(object)`), `Errors`
(the exceptions as values), `Text` (decimal rendering of integers), `Amounts` (money) and `Enums`.

Three behaviours of the SDK are worth stating plainly:
- Not every authenticated operation checks the token before its first attempt. The refund
  operations only retry after a rejection, and `RetrieveAnnouncement` does no token handling.
- There is no "no token available" error. The endpoint sends whatever the provider holds, so a
  provider that never held a token sends a null bearer (`None`).
- The SDK has no notification poller (see Left out).

## Model

| member | source | states |
|---|---|---|
| Endpoint.RetrieveNewToken | src/OmniKassa/Core/Endpoint.cs:169-173 | One refresh call carrying the provider's refresh token. On success the returned token is stored. On failure the provider is unchanged and the failure propagates. The refresh token never changes. |
| Endpoint.ValidateAccessToken | src/OmniKassa/Core/Endpoint.cs:220-226 | Refreshes exactly when the provider reports no valid token; otherwise makes no call and changes nothing. After a refresh, a new token is stored and the call goes on; a failed refresh is returned with the provider unchanged. |
| Endpoint.AttemptWithRetry | src/OmniKassa/Core/Endpoint.cs:35-45 | Appends an attempt, at most one refresh and at most one retry to the trace. The first attempt uses the current token. The first attempt is the only call exactly when it is not rejected for its token, and then its answer is returned with the provider unchanged. A failed refresh returns the refresh's failure with the provider unchanged. Otherwise the refreshed token is stored, the retry carries it as bearer, and the retry's answer is returned. |
| Endpoint.Guarded | src/OmniKassa/Core/Endpoint.cs:31-46 | Call shape: a refresh comes first exactly when the token is invalid, then attempt / refresh / retry. At most two refreshes and two attempts. The refresh token is kept. |
| Endpoint.Reactive | src/OmniKassa/Core/Endpoint.cs:68-81 | Never refreshes before its first attempt, which uses the current token. At most one refresh and two attempts. |
| Endpoint.AnnounceMerchantOrder | src/OmniKassa/Core/Endpoint.cs:31-46 | Pre-flight and retry shape, every attempt being the announce of the given order. |
| Endpoint.RetrievePaymentBrands | src/OmniKassa/Core/Endpoint.cs:128-143 | Pre-flight and retry shape for the payment-brands request. |
| Endpoint.RetrieveIdealIssuers | src/OmniKassa/Core/Endpoint.cs:149-164 | Pre-flight and retry shape for the iDEAL-issuers request. |
| Endpoint.RetrieveShopperPaymentDetails | src/OmniKassa/Core/Endpoint.cs:180-195 | Pre-flight and retry shape for the shopper-payment-details request. |
| Endpoint.DeleteShopperPaymentDetail | src/OmniKassa/Core/Endpoint.cs:203-218 | Pre-flight and retry shape for the delete request. |
| Endpoint.InitiateRefundTransaction | src/OmniKassa/Core/Endpoint.cs:68-81 | Reactive-only shape for the refund post: no refresh before the first attempt. |
| Endpoint.FetchRefundTransaction | src/OmniKassa/Core/Endpoint.cs:89-102 | Reactive-only shape for the refund fetch. |
| Endpoint.FetchRefundableTransactionDetails | src/OmniKassa/Core/Endpoint.cs:109-122 | Reactive-only shape for the refundable-details fetch. |
| Endpoint.RetrieveAnnouncement | src/OmniKassa/Core/Endpoint.cs:53-59 | A bad notification signature fails with no transport call. Otherwise exactly one order-status call is made and its outcome returned. No refresh and no attempt either way; the provider is untouched. |
| Endpoint.AnnouncementIgnoresTokens | src/OmniKassa/Core/Endpoint.cs:53-59 | Two endpoints differing only in token provider and authenticated transport give the same outcome and the same calls for a notification. |
| Endpoint.ValidTokenSingleAttempt | src/OmniKassa/Core/Endpoint.cs:33-39 | With a valid token, an answer other than a token rejection (success or any other failure) means: no refresh, exactly one attempt with the current token, and that answer is returned. |
| Endpoint.ExpiredTokenRefreshedFirst | src/OmniKassa/Core/Endpoint.cs:220-226 | Without a valid token, exactly one refresh precedes the first attempt. That attempt uses the refreshed token, and if it is not rejected it is the only one. |
| Endpoint.RejectedTokenRetriedOnce | src/OmniKassa/Core/Endpoint.cs:39-45 | After a rejected first attempt: exactly one refresh, then one retry with the token that refresh stored. The retry's outcome is returned even if it is another rejection; no third attempt. |
| Endpoint.PreflightAndRetry | src/OmniKassa/Core/Endpoint.cs:31-46 | The worst case: refresh, attempt, refresh, retry. Two refreshes and two attempts, and the retry uses the second refreshed token. |
| Endpoint.RefreshFailurePropagates | src/OmniKassa/Core/Endpoint.cs:169-173 | A failed first refresh, whether pre-flight or reactive, ends the call with its failure and leaves the provider unchanged. |
| Endpoint.ReactiveRefreshFailurePropagates | src/OmniKassa/Core/Endpoint.cs:39-45 | After a successful pre-flight refresh and a rejected attempt, a failed second refresh ends the call with its failure. The provider keeps the pre-flight token, with two refreshes and one attempt. |
| Endpoint.ReactiveRetriedOnce | src/OmniKassa/Core/Endpoint.cs:70-80 | All three outcomes of a refund operation: a single attempt, an attempt then a failed refresh, or attempt / refresh / retry. |
| Endpoint.AnnounceAfterRejection | src/OmniKassa/Core/Endpoint.cs:35-45 | Concrete run. The first announce is rejected, and the refresh with "rt-1" yields "at-2". The retried announce succeeds, so the caller gets that success and the provider holds "at-2". |
| HttpClient.NewClient | src/OmniKassa/Http/OmniKassaHttpClient.cs:40-42 | The client holds exactly the signing key it was constructed with. |
| HttpClient.ValidateSignature | src/OmniKassa/Http/OmniKassaHttpClient.cs:79-83 | Succeeds exactly when the signature check accepts the payload under the key; otherwise fails with a signature mismatch. |
| HttpClient.CheckForErrorsInResponse | src/OmniKassa/Http/OmniKassaHttpClient.cs:87-95 | Passes exactly when the body parses and has no error-code member. An error-code member fails with the raw body. |
| HttpClient.ProcessResult | src/OmniKassa/Http/OmniKassaHttpClient.cs:73-85 | An error-code member always fails. Success holds iff the error check passes, deserialisation succeeds and a signed payload passes its check under the client key. A success is the deserialised value unchanged. An unsigned payload returns the deserialiser's outcome, and a failing signature gives a signature mismatch. |
| HttpClient.ErrorCheckPrecedesDeserialization | src/OmniKassa/Http/OmniKassaHttpClient.cs:75-77 | When the error check fails, the deserialiser and the signature check have no influence on the (failed) outcome. |
| HttpClient.OnlySigningKeyMatters | src/OmniKassa/Http/OmniKassaHttpClient.cs:32 | Two clients with the same signing key process every response identically. |
| OrderResult.SignatureData | src/OmniKassa/Model/Response/MerchantOrderResult.cs:94-117 | Ten header fields in protocol order. The status and status time are the raw wire strings, and the POI id and cents are decimal strings. The header is followed by all transactions' fields in list order, so the length is 10 plus their sum. A null list gives just the header. An absent amount fails. |
| OrderResult.GetSignatureData | src/OmniKassa/Model/Response/MerchantOrderResult.cs:96-116 | The loop that appends each transaction's fields produces exactly the canonical signature data. |
| OrderResult.FlattenAppend | src/OmniKassa/Model/Response/MerchantOrderResult.cs:109-115 | The signature fields of two concatenated transaction lists are the concatenation of their fields. |
| OrderResult.FlattenLength | src/OmniKassa/Model/Response/MerchantOrderResult.cs:109-115 | The transactions contribute exactly the sum of their own field counts. |
| OrderResult.AppendTransaction | src/OmniKassa/Model/Response/MerchantOrderResult.cs:111-114 | Appending a transaction appends exactly its fields to the signature data. |
| OrderResult.PointOfInteractionSigned | src/OmniKassa/Model/Response/MerchantOrderResult.cs:100 | Results that differ in POI id have different signature data. |
| OrderResult.TransactionsEqual | src/OmniKassa/Model/Response/MerchantOrderResult.cs:150-169 | Equal iff the lists are equal element by element once null is read as empty. So absent equals empty, empty never equals non-empty, and non-empty lists compare element-wise. |
| OrderResult.Equals | src/OmniKassa/Model/Response/MerchantOrderResult.cs:124-148 | False for null and for other types. Reflexive. Equal results agree on POI id, both order ids, error code and both amounts. They have the same parsed status and the same parsed status time, and the same transactions (null read as empty). Results with equal POI id, order ids, error code and amounts, equal parsed status and status time, and the same transactions are equal. This holds even when the raw status or status-time strings differ. |
| OrderResult.EqualsSymmetric | src/OmniKassa/Model/Response/MerchantOrderResult.cs:137-147 | Result equality is symmetric. |
| OrderResult.AbsentEqualsEmpty | src/OmniKassa/Model/Response/MerchantOrderResult.cs:154-161 | A result with a null transaction list equals the same result with an empty list. |
| OrderResult.SignatureCoversRawStatus | src/OmniKassa/Model/Response/MerchantOrderResult.cs:101-102 | Two spellings of a status that parse alike give equal results but different signature data: the signature covers the raw string. |
| Text.IntToStringInjective | src/OmniKassa/Model/Response/MerchantOrderResult.cs:100 | Distinct integers render to distinct decimal strings. |
| MetaData.FieldListsEqual | src/OmniKassa/Model/Order/PaymentBrandMetaData.cs:74-99 | Null and empty lists all compare equal, and an empty list never equals a non-empty one. Two non-empty lists are equal exactly when they have the same length and every element of the first occurs in the second. |
| MetaData.Equals | src/OmniKassa/Model/Order/PaymentBrandMetaData.cs:54-72 | False for null and other types. Reflexive. Equal exactly when the issuer ids are equal and the field lists compare equal. So permuted lists, null against empty, and the one-way duplicate case all give equal metadata. |
| MetaData.EmptyAndNonEmptyDiffer | src/OmniKassa/Model/Order/PaymentBrandMetaData.cs:88-91 | Metadata whose fast checkout requires some fields never equals metadata requiring none, in either direction. |
| MetaData.AbsentNullEmptyInterchangeable | src/OmniKassa/Model/Order/PaymentBrandMetaData.cs:79-86 | An absent fast checkout, a null field list and an empty field list are interchangeable for equality. |
| MetaData.PermutationEqual | src/OmniKassa/Model/Order/PaymentBrandMetaData.cs:93-98 | Every permutation of a field list compares equal to it. |
| MetaData.NotSymmetricWithDuplicates | src/OmniKassa/Model/Order/PaymentBrandMetaData.cs:98 | [BILLING, BILLING] equals [BILLING, SHIPPING], but not the other way round. |
| MetaData.SymmetricWithoutDuplicates | src/OmniKassa/Model/Order/PaymentBrandMetaData.cs:93-98 | For duplicate-free lists the comparison is symmetric. |
| MetaData.WithIssuerId | src/OmniKassa/Model/Order/PaymentBrandMetaData.cs:138-142 | Sets the issuer id and keeps the fast checkout. |
| MetaData.WithFastCheckout | src/OmniKassa/Model/Order/PaymentBrandMetaData.cs:152-156 | Sets the fast checkout and keeps the issuer id. |
| MetaData.Build | src/OmniKassa/Model/Order/PaymentBrandMetaData.cs:162-165 | The built metadata has exactly the builder's issuer id and fast checkout. |
| MetaData.SettersCommute | src/OmniKassa/Model/Order/PaymentBrandMetaData.cs:138-156 | The two setters commute, and the build holds exactly the two values set. |
| Order.PaymentBrandMetaDataView | src/OmniKassa/Model/Order/MerchantOrder.cs:95-106 | The only possible key is "issuerId". It is absent when the metadata is absent or its issuer id is null or empty; otherwise it maps to that non-empty issuer id. |
| Order.WithPaymentBrandMetaDataDictionary | src/OmniKassa/Model/Order/MerchantOrder.cs:463-480 | A null dictionary or one without "issuerId" leaves the builder unchanged and throws nothing. With the key present, the metadata is created if absent, any fast checkout and every other builder field are kept, and a non-null value becomes the issuer id. A null value throws a null reference and leaves the created (or existing) metadata behind. |
| Order.WithPaymentBrandFastCheckout | src/OmniKassa/Model/Order/MerchantOrder.cs:487-496 | Creates the metadata if absent and sets its fast checkout. An existing issuer id is kept (none on fresh metadata), and nothing else changes. |
| Order.WithPaymentBrandMetaData | src/OmniKassa/Model/Order/MerchantOrder.cs:503-507 | Replaces the metadata wholesale; nothing else changes. |
| Order.Build | src/OmniKassa/Model/Order/MerchantOrder.cs:180-199 | Succeeds iff the item list is non-null, and a null item list fails. The order carries every builder field, recoverable exactly, with the timestamp unset. |
| Order.SetTimestamp | src/OmniKassa/Model/Order/MerchantOrder.cs:145 | Sets the timestamp and nothing else. |
| Order.Equals | src/OmniKassa/Model/Order/MerchantOrder.cs:206-239 | False for null and other types. Reflexive. Equal orders agree on every field except the metadata, timestamp included. With those fields equal, the orders are equal iff their metadata are equal under the metadata's own equality. |
| Order.EqualsIgnoresFieldOrder | src/OmniKassa/Model/Order/MerchantOrder.cs:233 | Orders differing only in the order of their fast-checkout field list compare equal. |
| Order.SameCallsEqualOrders | tests/OmniKassa.Tests/Model/Request/MerchantOrderRequestTest.cs:21-31 | Two orders built by the same chain of builder calls are equal. |
| Order.WholesaleReplacementDiscards | src/OmniKassa/Model/Order/MerchantOrder.cs:503-507 | Wholesale replacement discards earlier issuer and fast-checkout settings. |
| Order.DictionaryViewRoundTrip | src/OmniKassa/Model/Order/MerchantOrder.cs:95-106 | Feeding an order's dictionary view to the dictionary setter restores the order's issuer id, or leaves the builder unchanged when the view is empty. |
| Order.IssuerThenFastCheckout | tests/OmniKassa.Tests/Model/MerchantOrderFactory.cs:27-28 | Setting the issuer from a dictionary and then the fast checkout keeps both. |

## Left out

- HTTP, certificates, request paths and headers are not modelled. The transport is a record of
  functions giving the answer to each attempt, each refresh and the order-status fetch.
- Newtonsoft JSON parsing and deserialisation are codec parameters of `ProcessResult`.
- The keyed digest behind `SignedResponse.ValidateSignature` is a parameter (`SignatureCheck`);
  `SignedResponse` is not part of this model.
- The value of `OmniKassaErrorResponse.ERROR_CODE_FIELD_NAME` is taken to be "errorCode";
  `OmniKassaErrorResponse` is not part of this model.
- async/Task concurrency is not modelled: each call runs sequentially, and there is no locking
  around refreshes.
- The token provider's validity test depends on the clock, so its answer is an input of every
  guarded operation. The provider implementation is not part of this model.
- The notification poller: the SDK has no loop that drains "more results available" pages. Only
  the sample web controller loops over `RetrieveAnnouncement`, and the samples are not modelled.
- `Announce` only forwards to `AnnounceMerchantOrder` and has no member of its own.
- All `GetHashCode` overrides, which rely on platform hashing and wrapping arithmetic.
- `PaymentStatusParser` and `DateTimeUtils` are parameters of `OrderResult.Equals`, and any
  exception they throw is not modelled. `Money` is a currency code and a cent count compared by
  value. `TransactionInfo` is given by its own signature fields and compared by value.
- Reference aliasing: the model uses value semantics. `Build` (MerchantOrder.cs:187 and 193)
  shares the builder's item list and metadata object with the order it builds. Both the
  dictionary setter (MerchantOrder.cs:476) and `WithPaymentBrandFastCheckout` (MerchantOrder.cs:493)
  mutate that metadata object in place, so in the source they also change an order already built
  from the same builder, and any metadata object the caller passed in. The model does not show this.
- OrderResult.SignatureData: a null element in the transaction list, which makes the source throw a null reference (MerchantOrderResult.cs:113), cannot occur in the model's list.
- Order.WithPaymentBrandMetaDataDictionary: the key is looked up exactly. `TryGetValue` uses the
  dictionary's own comparer (MerchantOrder.cs:470), so a dictionary with a case-insensitive
  comparer would also match other spellings of "issuerId".
- The order's private dictionary setter (MerchantOrder.cs:107-116) is not modelled; no code shown
  calls it.
- The parameterless constructors used by JSON deserialisation are not modelled; orders are built
  only through the builder.
- `Convert.ToString` is taken to render with invariant digits and a '-' sign.
- The plain setters of the order builder are modelled only as `Order.Apply` cases, with no
  contract of their own.
- The response DTOs (addresses, customer and company information, checkout details, card on file,
  shopper payment details, order-status response) are carried without interpretation or left out.
- The enumerations CardStatus, TransactionStatus, TransactionType and RefundStatus are declared
  but used by nothing in the model.
