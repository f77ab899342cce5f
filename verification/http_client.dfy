/** The response-processing gate of the HTTP client: error envelope first,
    then deserialisation, then the signature check of signed payloads. */
module HttpClient {
  import opened Wrappers
  import opened Errors
  import Order

  type Key = seq<bv8>

  /** What a signed payload offers its signature check: the ordered
      signature fields and the declared signature. */
  datatype SignedParts = SignedParts(signatureData: seq<NString>, signature: string)

  /** The keyed-digest comparison of a signed payload against a key. The
      digest itself is not part of this model: callers pass it in. */
  type SignatureCheck = (SignedParts, Key) -> bool

  /** A parsed JSON object, reduced to its top-level members. */
  datatype JsonObject = JsonObject(members: map<string, string>)

  /** The member name of the gateway's error envelope. */
  const ErrorCodeFieldName := "errorCode"

  /** How a response body becomes a value of the expected type: JSON parsing,
      deserialisation, and whether the deserialised value is a signed payload. */
  datatype Codec<!T> = Codec(
    parse: string -> Option<JsonObject>,
    deserialize: string -> Outcome<T>,
    signedParts: T -> Option<SignedParts>)

  datatype Guid = Guid(value: string)

  /** The body of a refund request, carried without interpretation. */
  datatype InitiateRefundRequest = InitiateRefundRequest(content: string)

  /** A webhook notification: its authentication token and its signed part. */
  datatype ApiNotification = ApiNotification(authentication: string, signed: SignedParts)

  /** The client's remote operations that carry a bearer token. */
  datatype Request =
    | AnnounceMerchantOrder(order: Order.MerchantOrder)
    | RetrievePaymentBrands
    | RetrieveIdealIssuers
    | GetShopperPaymentDetails(shopperRef: NString)
    | DeleteShopperPaymentDetail(id: NString, shopperRef: NString)
    | PostRefundRequest(refundRequest: InitiateRefundRequest, transactionId: Guid, requestId: Guid)
    | GetRefundRequest(transactionId: Guid, refundId: Guid)
    | GetRefundableDetails(transactionId: Guid)

  /** The client keeps the signing key it was constructed with; no operation
      produces a client with another key. */
  datatype OmniKassaHttpClient = OmniKassaHttpClient(baseUrl: string, signingKey: Key)

  function NewClient(baseUrl: string, signingKey: Key): (c: OmniKassaHttpClient)
    ensures c.signingKey == signingKey && c.baseUrl == baseUrl
  {
    OmniKassaHttpClient(baseUrl, signingKey)
  }

  /** `SignedResponse.ValidateSignature`: fails unless the check accepts. */
  function ValidateSignature(parts: SignedParts, key: Key, check: SignatureCheck): (r: Outcome<()>)
    ensures r.Ok? <==> check(parts, key)
    ensures r.Err? ==> r.error == SignatureMismatch
  {
    if check(parts, key) then Ok(()) else Err(SignatureMismatch)
  }

  /** `CheckForErrorsInResponse`: a body that does not parse, or whose top
      level has the error-code member, fails. */
  function CheckForErrorsInResponse(raw: string, parse: string -> Option<JsonObject>): (r: Outcome<()>)
    ensures r.Ok? <==> parse(raw).Some? && ErrorCodeFieldName !in parse(raw).value.members
    ensures r.Err? && parse(raw).Some? ==> r.error == IllegalApiResponse(raw)
  {
    match parse(raw)
    case None => Err(MalformedJson)
    case Some(json) =>
      if ErrorCodeFieldName in json.members then Err(IllegalApiResponse(raw)) else Ok(())
  }

  /** `ProcessResult<T>`. */
  function ProcessResult<T>(c: OmniKassaHttpClient, raw: string, codec: Codec<T>, check: SignatureCheck): (r: Outcome<T>)
    ensures codec.parse(raw).Some? && ErrorCodeFieldName in codec.parse(raw).value.members ==>
      r == Err(IllegalApiResponse(raw))
    ensures r.Ok? <==>
      && CheckForErrorsInResponse(raw, codec.parse).Ok?
      && codec.deserialize(raw).Ok?
      && (codec.signedParts(codec.deserialize(raw).value).Some? ==>
            check(codec.signedParts(codec.deserialize(raw).value).value, c.signingKey))
    ensures r.Ok? ==> r.value == codec.deserialize(raw).value
    ensures (&& CheckForErrorsInResponse(raw, codec.parse).Ok?
             && codec.deserialize(raw).Ok?
             && codec.signedParts(codec.deserialize(raw).value).None?) ==> r == codec.deserialize(raw)
    ensures CheckForErrorsInResponse(raw, codec.parse).Ok? && codec.deserialize(raw).Err? ==> r == codec.deserialize(raw)
    ensures (&& CheckForErrorsInResponse(raw, codec.parse).Ok?
             && codec.deserialize(raw).Ok?
             && codec.signedParts(codec.deserialize(raw).value).Some?
             && !check(codec.signedParts(codec.deserialize(raw).value).value, c.signingKey)) ==> r == Err(SignatureMismatch)
  {
    var _ :- CheckForErrorsInResponse(raw, codec.parse);
    var data :- codec.deserialize(raw);
    match codec.signedParts(data)
    case None => Ok(data)
    case Some(parts) =>
      var _ :- ValidateSignature(parts, c.signingKey, check);
      Ok(data)
  }

  /** The error check runs before deserialisation: when it fails, neither
      the deserialiser nor the signature check has any say in the outcome. */
  lemma ErrorCheckPrecedesDeserialization<T>(c: OmniKassaHttpClient, raw: string,
                                             codec1: Codec<T>, codec2: Codec<T>,
                                             check1: SignatureCheck, check2: SignatureCheck)
    requires codec1.parse == codec2.parse
    requires CheckForErrorsInResponse(raw, codec1.parse).Err?
    ensures ProcessResult(c, raw, codec1, check1) == ProcessResult(c, raw, codec2, check2)
    ensures ProcessResult(c, raw, codec1, check1).Err?
  {
  }

  /** Of the client, only its signing key affects response processing. */
  lemma OnlySigningKeyMatters<T>(c1: OmniKassaHttpClient, c2: OmniKassaHttpClient, raw: string,
                                 codec: Codec<T>, check: SignatureCheck)
    requires c1.signingKey == c2.signingKey
    ensures ProcessResult(c1, raw, codec, check) == ProcessResult(c2, raw, codec, check)
  {
  }
}
