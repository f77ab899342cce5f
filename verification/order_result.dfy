/** One order's result in an order-status response: its canonical signature
    data and its equality. */
module OrderResult {
  import opened Wrappers
  import opened Errors
  import opened Amounts
  import opened Text

  type Int32 = x: int | -0x8000_0000 <= x < 0x8000_0000

  /** A transaction of the order, given by the ordered signature fields its
      own `GetSignatureData` yields. */
  datatype TransactionInfo = TransactionInfo(signatureFields: seq<NString>)

  /** The order-status and status-time fields are the raw wire strings; the
      parsed forms exist only through the parsers passed to `Equals`. */
  datatype MerchantOrderResult = MerchantOrderResult(
    pointOfInteractionId: Int32,
    merchantOrderId: NString,
    omnikassaOrderId: NString,
    transactionInfo: Option<seq<TransactionInfo>>,
    orderStatus: NString,
    errorCode: NString,
    orderStatusDateTime: NString,
    paidAmount: Option<Money>,
    totalAmount: Option<Money>)

  const HeaderLength := 10

  /** A null transaction list contributes nothing, like an empty one. */
  function Transactions(r: MerchantOrderResult): seq<TransactionInfo> {
    r.transactionInfo.GetOr([])
  }

  /** The signature fields of a list of transactions, in list order. */
  function Flatten(txs: seq<TransactionInfo>): seq<NString>
    decreases |txs|
  {
    if |txs| == 0 then [] else Flatten(txs[..|txs| - 1]) + txs[|txs| - 1].signatureFields
  }

  /** The number of signature fields the transactions contribute. */
  function TotalLength(txs: seq<TransactionInfo>): nat
    decreases |txs|
  {
    if |txs| == 0 then 0 else |txs[0].signatureFields| + TotalLength(txs[1..])
  }

  lemma {:induction false} FlattenAppend(a: seq<TransactionInfo>, b: seq<TransactionInfo>)
    ensures Flatten(a + b) == Flatten(a) + Flatten(b)
    decreases |b|
  {
    if |b| > 0 {
      var b' := b[..|b| - 1];
      assert (a + b)[..|a + b| - 1] == a + b';
      FlattenAppend(a, b');
    } else {
      assert a + b == a;
    }
  }

  lemma {:induction false} FlattenLength(txs: seq<TransactionInfo>)
    ensures |Flatten(txs)| == TotalLength(txs)
    decreases |txs|
  {
    if |txs| > 0 {
      assert txs == [txs[0]] + txs[1..];
      FlattenAppend([txs[0]], txs[1..]);
      assert Flatten([txs[0]]) == txs[0].signatureFields by {
        assert [txs[0]][..0] == [];
      }
      FlattenLength(txs[1..]);
    }
  }

  /** The ten header fields in protocol order. */
  function Header(r: MerchantOrderResult): (h: seq<NString>)
    requires r.paidAmount.Some? && r.totalAmount.Some?
  {
    [ r.merchantOrderId,
      r.omnikassaOrderId,
      Some(IntToString(r.pointOfInteractionId)),
      r.orderStatus,
      r.orderStatusDateTime,
      r.errorCode,
      Some(r.paidAmount.value.currency),
      Some(IntToString(r.paidAmount.value.cents)),
      Some(r.totalAmount.value.currency),
      Some(IntToString(r.totalAmount.value.cents)) ]
  }

  /** The canonical signature data: the header fields followed by every
      transaction's fields in list order. An absent amount is dereferenced
      and fails. */
  function SignatureData(r: MerchantOrderResult): (data: Outcome<seq<NString>>)
    ensures data.Err? <==> r.paidAmount.None? || r.totalAmount.None?
    ensures data.Err? ==> data.error == NullReference
    ensures data.Ok? ==>
      && |data.value| == HeaderLength + TotalLength(Transactions(r))
      && data.value[0] == r.merchantOrderId
      && data.value[1] == r.omnikassaOrderId
      && data.value[2] == Some(IntToString(r.pointOfInteractionId))
      && data.value[3] == r.orderStatus
      && data.value[4] == r.orderStatusDateTime
      && data.value[5] == r.errorCode
      && data.value[6] == Some(r.paidAmount.value.currency)
      && data.value[7] == Some(IntToString(r.paidAmount.value.cents))
      && data.value[8] == Some(r.totalAmount.value.currency)
      && data.value[9] == Some(IntToString(r.totalAmount.value.cents))
      && data.value[HeaderLength..] == Flatten(Transactions(r))
    ensures data.Ok? && r.transactionInfo.None? ==> |data.value| == HeaderLength
  {
    if r.paidAmount.None? || r.totalAmount.None? then
      Err(NullReference)
    else
      FlattenLength(Transactions(r));
      Ok(Header(r) + Flatten(Transactions(r)))
  }

  /** `GetSignatureData`: builds the list the way the source does, appending
      each transaction's fields in a loop. */
  method GetSignatureData(r: MerchantOrderResult) returns (data: Outcome<seq<NString>>)
    ensures data == SignatureData(r)
  {
    if r.paidAmount.None? || r.totalAmount.None? {
      return Err(NullReference);
    }
    var acc := Header(r);
    var txs := Transactions(r);
    var i := 0;
    while i < |txs|
      invariant 0 <= i <= |txs|
      invariant acc == Header(r) + Flatten(txs[..i])
    {
      assert txs[..i + 1][..i] == txs[..i];
      acc := acc + txs[i].signatureFields;
      i := i + 1;
    }
    assert txs[..|txs|] == txs;
    return Ok(acc);
  }

  /** Appending a transaction appends exactly its fields to the signature data. */
  lemma AppendTransaction(r: MerchantOrderResult, t: TransactionInfo)
    requires SignatureData(r).Ok?
    ensures SignatureData(r.(transactionInfo := Some(Transactions(r) + [t]))).Ok?
    ensures SignatureData(r.(transactionInfo := Some(Transactions(r) + [t]))).value
         == SignatureData(r).value + t.signatureFields
  {
    var txs := Transactions(r) + [t];
    assert txs[..|txs| - 1] == Transactions(r);
  }

  /** Different points of interaction give different signature data. */
  lemma PointOfInteractionSigned(r: MerchantOrderResult, poi: Int32)
    requires SignatureData(r).Ok? && poi != r.pointOfInteractionId
    ensures SignatureData(r.(pointOfInteractionId := poi)) != SignatureData(r)
  {
    var other := r.(pointOfInteractionId := poi);
    if SignatureData(other) == SignatureData(r) {
      assert SignatureData(other).value[2] == SignatureData(r).value[2];
      IntToStringInjective(poi, r.pointOfInteractionId);
    }
  }

  /** `EqualsTransactionInfo`: null and empty lists are the same; otherwise
      the lists must be equal element by element. */
  function TransactionsEqual(one: Option<seq<TransactionInfo>>, two: Option<seq<TransactionInfo>>): (equal: bool)
    ensures equal <==> one.GetOr([]) == two.GetOr([])
  {
    var tmpOne := if one.Some? && |one.value| > 0 then one else None;
    var tmpTwo := if two.Some? && |two.value| > 0 then two else None;
    if tmpOne.None? && tmpTwo.None? then true
    else if tmpOne.None? || tmpTwo.None? then false
    else tmpOne.value == tmpTwo.value
  }

  /** `MerchantOrderResult.Equals(object)`. Status and status time compare
      by their PARSED values, through the given parsers. */
  function Equals<S(==), D(==)>(r: MerchantOrderResult, obj: Obj<MerchantOrderResult>,
                                parseStatus: NString -> S, parseDateTime: NString -> D): (equal: bool)
    ensures !obj.Instance? ==> !equal
    ensures obj == Instance(r) ==> equal
    ensures equal ==> Transactions(r) == Transactions(obj.value)
    ensures equal ==>
      && obj.value.pointOfInteractionId == r.pointOfInteractionId
      && obj.value.merchantOrderId == r.merchantOrderId
      && obj.value.omnikassaOrderId == r.omnikassaOrderId
      && obj.value.errorCode == r.errorCode
      && obj.value.paidAmount == r.paidAmount
      && obj.value.totalAmount == r.totalAmount
      && parseStatus(obj.value.orderStatus) == parseStatus(r.orderStatus)
      && parseDateTime(obj.value.orderStatusDateTime) == parseDateTime(r.orderStatusDateTime)
    ensures (&& obj.Instance?
             && obj.value.pointOfInteractionId == r.pointOfInteractionId
             && obj.value.merchantOrderId == r.merchantOrderId
             && obj.value.omnikassaOrderId == r.omnikassaOrderId
             && obj.value.errorCode == r.errorCode
             && obj.value.paidAmount == r.paidAmount
             && obj.value.totalAmount == r.totalAmount
             && parseStatus(obj.value.orderStatus) == parseStatus(r.orderStatus)
             && parseDateTime(obj.value.orderStatusDateTime) == parseDateTime(r.orderStatusDateTime)
             && Transactions(r) == Transactions(obj.value)) ==> equal
  {
    match obj
    case Null => false
    case OtherType => false
    case Instance(other) =>
      && r.pointOfInteractionId == other.pointOfInteractionId
      && r.merchantOrderId == other.merchantOrderId
      && r.omnikassaOrderId == other.omnikassaOrderId
      && parseStatus(r.orderStatus) == parseStatus(other.orderStatus)
      && r.errorCode == other.errorCode
      && parseDateTime(r.orderStatusDateTime) == parseDateTime(other.orderStatusDateTime)
      && r.paidAmount == other.paidAmount
      && r.totalAmount == other.totalAmount
      && TransactionsEqual(r.transactionInfo, other.transactionInfo)
  }

  /** Unlike the payment-brand metadata, result equality is symmetric. */
  lemma EqualsSymmetric<S, D>(a: MerchantOrderResult, b: MerchantOrderResult, parseStatus: NString -> S, parseDateTime: NString -> D)
    ensures Equals(a, Instance(b), parseStatus, parseDateTime) <==> Equals(b, Instance(a), parseStatus, parseDateTime)
  {
  }

  /** An absent transaction list and an empty one make equal results. */
  lemma AbsentEqualsEmpty<S, D>(r: MerchantOrderResult, parseStatus: NString -> S, parseDateTime: NString -> D)
    ensures Equals(r.(transactionInfo := None), Instance(r.(transactionInfo := Some([]))), parseStatus, parseDateTime)
  {
  }

  /** Two spellings of the same status are equal results but sign
      differently: the signature covers the raw wire string. */
  lemma SignatureCoversRawStatus<S, D>(r: MerchantOrderResult, raw: NString,
                                               parseStatus: NString -> S, parseDateTime: NString -> D)
    requires SignatureData(r).Ok?
    requires raw != r.orderStatus && parseStatus(raw) == parseStatus(r.orderStatus)
    ensures Equals(r, Instance(r.(orderStatus := raw)), parseStatus, parseDateTime)
    ensures SignatureData(r.(orderStatus := raw)) != SignatureData(r)
  {
    assert SignatureData(r.(orderStatus := raw)).value[3] != SignatureData(r).value[3];
  }
}
