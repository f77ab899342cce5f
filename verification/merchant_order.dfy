/** The merchant order announced to the gateway, its builder, the
    payment-brand metadata operations on the builder, and order equality. */
module Order {
  import opened Wrappers
  import opened Errors
  import opened Amounts
  import opened Enums
  import MetaData

  /** Order details the model carries without interpreting. */
  datatype Language = Language(code: string)
  datatype OrderItem = OrderItem(content: string)
  datatype Address = Address(content: string)
  datatype CustomerInformation = CustomerInformation(content: string)
  datatype PaymentBrand = PaymentBrand(name: string)
  datatype PaymentBrandForce = PaymentBrandForce(name: string)

  /** A C# `IReadOnlyDictionary<string, object>`: each value is null or an
      object given by its string form. */
  type Dictionary = map<string, NString>

  const IssuerIdKey := "issuerId"

  datatype MerchantOrder = MerchantOrder(
    merchantOrderId: NString,
    amount: Option<Money>,
    language: Option<Language>,
    description: NString,
    merchantReturnUrl: NString,
    orderItems: seq<OrderItem>,
    shippingDetails: Option<Address>,
    shopperReference: NString,
    billingDetails: Option<Address>,
    customerInformation: Option<CustomerInformation>,
    paymentBrand: Option<PaymentBrand>,
    paymentBrandForce: Option<PaymentBrandForce>,
    paymentBrandMetaData: Option<MetaData.PaymentBrandMetaData>,
    skipHppResultPage: bool,
    timestamp: NString,
    shippingCost: Option<Money>,
    initiatingParty: NString,
    shopperBankstatementReference: NString)

  datatype Builder = Builder(
    merchantOrderId: NString,
    amount: Option<Money>,
    language: Option<Language>,
    description: NString,
    merchantReturnUrl: NString,
    orderItems: Option<seq<OrderItem>>,
    shippingDetails: Option<Address>,
    billingDetails: Option<Address>,
    customerInformation: Option<CustomerInformation>,
    paymentBrand: Option<PaymentBrand>,
    paymentBrandForce: Option<PaymentBrandForce>,
    paymentBrandMetaData: Option<MetaData.PaymentBrandMetaData>,
    shopperReference: NString,
    skipHppResultPage: bool,
    shippingCost: Option<Money>,
    initiatingParty: NString,
    shopperBankstatementReference: NString)

  /** `new MerchantOrder.Builder()`: everything unset except an empty item list. */
  const NewBuilder := Builder(None, None, None, None, None, Some([]), None, None, None,
                              None, None, None, None, false, None, None, None)

  /** The backwards-compatible dictionary view of the metadata: it holds the
      issuer id under "issuerId" when one is set and non-empty, and nothing else. */
  function PaymentBrandMetaDataView(o: MerchantOrder): (d: Dictionary)
    ensures d.Keys <= {IssuerIdKey}
    ensures IssuerIdKey !in d <==> o.paymentBrandMetaData.None? || IsNullOrEmpty(o.paymentBrandMetaData.value.issuerId)
    ensures IssuerIdKey in d ==> d[IssuerIdKey] == o.paymentBrandMetaData.value.issuerId && d[IssuerIdKey] != Some("")
  {
    var m := o.paymentBrandMetaData;
    if m.Some? && !IsNullOrEmpty(m.value.issuerId) then
      map[IssuerIdKey := m.value.issuerId]
    else
      map[]
  }

  /** The metadata the builder currently holds, created blank if absent. */
  function MetaDataOrBlank(b: Builder): MetaData.PaymentBrandMetaData {
    b.paymentBrandMetaData.GetOr(MetaData.Blank)
  }

  /** The builder after a setter call, and the exception the call threw, if
      any. A throwing setter may already have changed the builder. */
  datatype SetterOutcome = SetterOutcome(builder: Builder, thrown: Option<Failure>)

  /** `WithPaymentBrandMetaData(IReadOnlyDictionary<string, object>)`: only the
      key "issuerId" is read. A null dictionary or a missing key leaves the
      builder alone. Otherwise the metadata is created blank if absent, and
      then the value is stored as the issuer id; a null value is dereferenced
      and throws, leaving the freshly created metadata behind. */
  function WithPaymentBrandMetaDataDictionary(b: Builder, dict: Option<Dictionary>): (r: SetterOutcome)
    ensures dict.None? ==> r == SetterOutcome(b, None)
    ensures dict.Some? && IssuerIdKey !in dict.value ==> r == SetterOutcome(b, None)
    ensures dict.Some? && IssuerIdKey in dict.value ==>
      && r.builder.paymentBrandMetaData.Some?
      && r.builder.paymentBrandMetaData.value.fastCheckout == MetaDataOrBlank(b).fastCheckout
      && r.builder == b.(paymentBrandMetaData := r.builder.paymentBrandMetaData)
    ensures dict.Some? && IssuerIdKey in dict.value && dict.value[IssuerIdKey].None? ==>
      && r.thrown == Some(NullReference)
      && r.builder.paymentBrandMetaData == Some(MetaDataOrBlank(b))
    ensures dict.Some? && IssuerIdKey in dict.value && dict.value[IssuerIdKey].Some? ==>
      && r.thrown.None?
      && r.builder.paymentBrandMetaData.value.issuerId == dict.value[IssuerIdKey]
  {
    if dict.None? || IssuerIdKey !in dict.value then
      SetterOutcome(b, None)
    else
      var created := b.(paymentBrandMetaData := Some(MetaDataOrBlank(b)));
      var value := dict.value[IssuerIdKey];
      if value.None? then
        SetterOutcome(created, Some(NullReference))
      else
        SetterOutcome(created.(paymentBrandMetaData := Some(MetaDataOrBlank(created).(issuerId := value))), None)
  }

  /** `WithPaymentBrandFastCheckout`: creates the metadata if absent and sets
      only its fast-checkout part. */
  function WithPaymentBrandFastCheckout(b: Builder, fastCheckout: Option<MetaData.FastCheckout>): (r: Builder)
    ensures r.paymentBrandMetaData.Some?
    ensures r.paymentBrandMetaData.value.fastCheckout == fastCheckout
    ensures b.paymentBrandMetaData.Some? ==> r.paymentBrandMetaData.value.issuerId == b.paymentBrandMetaData.value.issuerId
    ensures b.paymentBrandMetaData.None? ==> r.paymentBrandMetaData.value.issuerId.None?
    ensures r == b.(paymentBrandMetaData := r.paymentBrandMetaData)
  {
    b.(paymentBrandMetaData := Some(MetaDataOrBlank(b).(fastCheckout := fastCheckout)))
  }

  /** `WithPaymentBrandMetaData(PaymentBrandMetaData)`: wholesale replacement. */
  function WithPaymentBrandMetaData(b: Builder, metaData: Option<MetaData.PaymentBrandMetaData>): (r: Builder)
    ensures r.paymentBrandMetaData == metaData
    ensures r == b.(paymentBrandMetaData := metaData)
  {
    b.(paymentBrandMetaData := metaData)
  }

  /** `Builder.Build`: copies every builder field; the timestamp stays unset.
      A null item list is dereferenced and fails. */
  function Build(b: Builder): (r: Outcome<MerchantOrder>)
    ensures r.Ok? <==> b.orderItems.Some?
    ensures r.Err? ==> r.error == NullReference
    ensures r.Ok? ==> r.value.timestamp.None? && ToBuilder(r.value) == b
  {
    if b.orderItems.None? then
      Err(NullReference)
    else
      Ok(MerchantOrder(b.merchantOrderId, b.amount, b.language, b.description, b.merchantReturnUrl,
                       b.orderItems.value, b.shippingDetails, b.shopperReference, b.billingDetails,
                       b.customerInformation, b.paymentBrand, b.paymentBrandForce,
                       b.paymentBrandMetaData, b.skipHppResultPage, None, b.shippingCost,
                       b.initiatingParty, b.shopperBankstatementReference))
  }

  /** Reads an order's fields back into a builder; used to state that `Build`
      loses nothing. */
  function ToBuilder(o: MerchantOrder): Builder {
    Builder(o.merchantOrderId, o.amount, o.language, o.description, o.merchantReturnUrl,
            Some(o.orderItems), o.shippingDetails, o.billingDetails, o.customerInformation,
            o.paymentBrand, o.paymentBrandForce, o.paymentBrandMetaData, o.shopperReference,
            o.skipHppResultPage, o.shippingCost, o.initiatingParty, o.shopperBankstatementReference)
  }

  /** `Timestamp` has a public setter. */
  function SetTimestamp(o: MerchantOrder, timestamp: NString): (r: MerchantOrder)
    ensures r.timestamp == timestamp && r.(timestamp := o.timestamp) == o
  {
    o.(timestamp := timestamp)
  }

  /** `object.Equals(a, b)` applied to the metadata references. */
  function MetaDataReferencesEqual(a: Option<MetaData.PaymentBrandMetaData>, b: Option<MetaData.PaymentBrandMetaData>): bool {
    if a.None? || b.None? then a.None? && b.None?
    else MetaData.Equals(a.value, Instance(b.value))
  }

  /** `MerchantOrder.Equals(object)`: field by field, the item lists as
      sequences, the metadata through its own equality. */
  function Equals(o: MerchantOrder, obj: Obj<MerchantOrder>): (equal: bool)
    ensures !obj.Instance? ==> !equal
    ensures obj == Instance(o) ==> equal
    ensures equal ==> o.(paymentBrandMetaData := None) == obj.value.(paymentBrandMetaData := None)
    ensures obj.Instance? && obj.value.(paymentBrandMetaData := None) == o.(paymentBrandMetaData := None) ==>
      (equal <==> MetaDataReferencesEqual(o.paymentBrandMetaData, obj.value.paymentBrandMetaData))
  {
    match obj
    case Null => false
    case OtherType => false
    case Instance(other) =>
      && o.merchantOrderId == other.merchantOrderId
      && o.amount == other.amount
      && o.language == other.language
      && o.description == other.description
      && o.merchantReturnUrl == other.merchantReturnUrl
      && o.orderItems == other.orderItems
      && o.shippingDetails == other.shippingDetails
      && o.shopperReference == other.shopperReference
      && o.billingDetails == other.billingDetails
      && o.customerInformation == other.customerInformation
      && o.paymentBrand == other.paymentBrand
      && o.paymentBrandForce == other.paymentBrandForce
      && MetaDataReferencesEqual(o.paymentBrandMetaData, other.paymentBrandMetaData)
      && o.skipHppResultPage == other.skipHppResultPage
      && o.timestamp == other.timestamp
      && o.shopperBankstatementReference == other.shopperBankstatementReference
      && o.shippingCost == other.shippingCost
      && o.initiatingParty == other.initiatingParty
  }

  /** One builder call; the builder's plain setters assign their field. */
  datatype BuilderCall =
    | SetMerchantOrderId(merchantOrderId: NString)
    | SetAmount(amount: Option<Money>)
    | SetLanguage(language: Language)
    | SetDescription(description: NString)
    | SetMerchantReturnUrl(merchantReturnUrl: NString)
    | SetOrderItems(orderItems: Option<seq<OrderItem>>)
    | SetShippingDetail(shippingDetails: Option<Address>)
    | SetShopperReference(shopperReference: NString)
    | SetBillingDetail(billingDetails: Option<Address>)
    | SetPaymentBrand(paymentBrand: Option<PaymentBrand>)
    | SetPaymentBrandForce(paymentBrandForce: Option<PaymentBrandForce>)
    | SetPaymentBrandMetaDataDictionary(dict: Option<Dictionary>)
    | SetPaymentBrandFastCheckout(fastCheckout: Option<MetaData.FastCheckout>)
    | SetPaymentBrandMetaData(metaData: Option<MetaData.PaymentBrandMetaData>)
    | SetSkipHppResultPage(skipHppResultPage: bool)
    | SetCustomerInformation(customerInformation: Option<CustomerInformation>)
    | SetInitiatingParty(initiatingParty: NString)
    | SetShopperBankstatementReference(shopperBankstatementReference: NString)
    | SetShippingCost(shippingCost: Option<Money>)

  function Apply(b: Builder, call: BuilderCall): Outcome<Builder> {
    match call
    case SetMerchantOrderId(x) => Ok(b.(merchantOrderId := x))
    case SetAmount(x) => Ok(b.(amount := x))
    case SetLanguage(x) => Ok(b.(language := Some(x)))
    case SetDescription(x) => Ok(b.(description := x))
    case SetMerchantReturnUrl(x) => Ok(b.(merchantReturnUrl := x))
    case SetOrderItems(x) => Ok(b.(orderItems := x))
    case SetShippingDetail(x) => Ok(b.(shippingDetails := x))
    case SetShopperReference(x) => Ok(b.(shopperReference := x))
    case SetBillingDetail(x) => Ok(b.(billingDetails := x))
    case SetPaymentBrand(x) => Ok(b.(paymentBrand := x))
    case SetPaymentBrandForce(x) => Ok(b.(paymentBrandForce := x))
    case SetPaymentBrandMetaDataDictionary(d) =>
      var step := WithPaymentBrandMetaDataDictionary(b, d);
      if step.thrown.Some? then Err(step.thrown.value) else Ok(step.builder)
    case SetPaymentBrandFastCheckout(fc) => Ok(WithPaymentBrandFastCheckout(b, fc))
    case SetPaymentBrandMetaData(m) => Ok(WithPaymentBrandMetaData(b, m))
    case SetSkipHppResultPage(x) => Ok(b.(skipHppResultPage := x))
    case SetCustomerInformation(x) => Ok(b.(customerInformation := x))
    case SetInitiatingParty(x) => Ok(b.(initiatingParty := x))
    case SetShopperBankstatementReference(x) => Ok(b.(shopperBankstatementReference := x))
    case SetShippingCost(x) => Ok(b.(shippingCost := x))
  }

  /** A chain of builder calls followed by `Build`; the first throwing call
      aborts the chain. */
  function BuildFrom(b: Builder, calls: seq<BuilderCall>): Outcome<MerchantOrder>
    decreases |calls|
  {
    if |calls| == 0 then Build(b)
    else
      match Apply(b, calls[0])
      case Err(e) => Err(e)
      case Ok(b') => BuildFrom(b', calls[1..])
  }

  /** Order equality ignores the order of the fast-checkout field list, so
      it is coarser than equality of values. */
  lemma EqualsIgnoresFieldOrder(o: MerchantOrder, id: NString, fields: seq<RequiredCheckoutField>, permuted: seq<RequiredCheckoutField>)
    requires multiset(fields) == multiset(permuted)
    ensures Equals(o.(paymentBrandMetaData := Some(MetaData.PaymentBrandMetaData(id, Some(MetaData.FastCheckout(Some(fields)))))),
                   Instance(o.(paymentBrandMetaData := Some(MetaData.PaymentBrandMetaData(id, Some(MetaData.FastCheckout(Some(permuted))))))))
  {
    MetaData.PermutationEqual(fields, permuted);
  }

  /** Two orders built by the same chain of builder calls are equal. */
  lemma SameCallsEqualOrders(calls: seq<BuilderCall>)
    requires BuildFrom(NewBuilder, calls).Ok?
    ensures Equals(BuildFrom(NewBuilder, calls).value, Instance(BuildFrom(NewBuilder, calls).value))
  {
  }

  /** Replacing the metadata wholesale discards whatever the issuer and
      fast-checkout setters put there before. */
  lemma WholesaleReplacementDiscards(b: Builder, dict: Option<Dictionary>, fastCheckout: Option<MetaData.FastCheckout>, m: Option<MetaData.PaymentBrandMetaData>)
    ensures WithPaymentBrandMetaData(WithPaymentBrandFastCheckout(WithPaymentBrandMetaDataDictionary(b, dict).builder, fastCheckout), m)
         == WithPaymentBrandMetaData(b, m)
  {
  }

  /** Feeding an order's dictionary view back into a builder restores the
      order's issuer id (or leaves the builder alone when there is none). */
  lemma DictionaryViewRoundTrip(o: MerchantOrder, b: Builder)
    ensures WithPaymentBrandMetaDataDictionary(b, Some(PaymentBrandMetaDataView(o))).thrown.None?
    ensures var r := WithPaymentBrandMetaDataDictionary(b, Some(PaymentBrandMetaDataView(o))).builder;
      if o.paymentBrandMetaData.Some? && !IsNullOrEmpty(o.paymentBrandMetaData.value.issuerId)
      then r.paymentBrandMetaData.Some? && r.paymentBrandMetaData.value.issuerId == o.paymentBrandMetaData.value.issuerId
      else r == b
  {
  }

  /** The optional-fields order of the unit tests: the issuer from the
      dictionary and the fast checkout set afterwards are both kept. */
  lemma IssuerThenFastCheckout(b: Builder)
    requires b.paymentBrandMetaData.None?
    ensures var fc := Some(MetaData.FastCheckout(Some([BillingAddress])));
      var r := WithPaymentBrandMetaDataDictionary(b, Some(map[IssuerIdKey := Some("RABONL2U")]));
      && r.thrown.None?
      && WithPaymentBrandFastCheckout(r.builder, fc).paymentBrandMetaData == Some(MetaData.PaymentBrandMetaData(Some("RABONL2U"), fc))
  {
  }
}
