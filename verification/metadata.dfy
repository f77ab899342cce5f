/** Payment-brand metadata of an order: the iDEAL issuer and the fast-checkout
    configuration, its equality, and its builder. */
module MetaData {
  import opened Wrappers
  import opened Enums

  /** Fast-checkout configuration; its field list may itself be null. */
  datatype FastCheckout = FastCheckout(requiredCheckoutFields: Option<seq<RequiredCheckoutField>>)

  datatype PaymentBrandMetaData = PaymentBrandMetaData(issuerId: NString, fastCheckout: Option<FastCheckout>)

  /** `new PaymentBrandMetaData()`: both fields null. */
  const Blank := PaymentBrandMetaData(None, None)

  /** `FastCheckout?.RequiredCheckoutFields`: null when either link is null. */
  function RequiredFields(m: PaymentBrandMetaData): Option<seq<RequiredCheckoutField>> {
    match m.fastCheckout
    case None => None
    case Some(fc) => fc.requiredCheckoutFields
  }

  /** A list that is null or has no elements. */
  predicate IsNullOrEmptyList<T>(l: Option<seq<T>>) {
    l.None? || |l.value| == 0
  }

  /** The elements of a possibly-null list (none for null). */
  function Elements<T>(l: Option<seq<T>>): set<T> {
    if l.None? then {} else set x | x in l.value
  }

  /** Equality of two required-checkout-field lists: null and empty lists
      are interchangeable; otherwise the lengths must agree and every element
      of the first list must occur in the second. */
  function FieldListsEqual(one: Option<seq<RequiredCheckoutField>>, two: Option<seq<RequiredCheckoutField>>): (equal: bool)
    ensures IsNullOrEmptyList(one) && IsNullOrEmptyList(two) ==> equal
    ensures IsNullOrEmptyList(one) != IsNullOrEmptyList(two) ==> !equal
    ensures equal && one.Some? && two.Some? ==> |one.value| == |two.value|
    ensures equal ==> Elements(one) <= Elements(two)
    ensures (!IsNullOrEmptyList(one) && !IsNullOrEmptyList(two) && |one.value| == |two.value|
             && Elements(one) <= Elements(two)) ==> equal
  {
    if IsNullOrEmptyList(one) && IsNullOrEmptyList(two) then
      true
    else if IsNullOrEmptyList(one) || IsNullOrEmptyList(two) then
      false
    else if |one.value| != |two.value| then
      false
    else
      assert forall i :: 0 <= i < |one.value| ==> one.value[i] in Elements(one);
      forall i :: 0 <= i < |one.value| ==> one.value[i] in two.value
  }

  /** `PaymentBrandMetaData.Equals(object)`. The reference-equality shortcut
      of the source is subsumed: a value is always equal to itself. */
  function Equals(m: PaymentBrandMetaData, obj: Obj<PaymentBrandMetaData>): (equal: bool)
    ensures !obj.Instance? ==> !equal
    ensures equal ==> obj.value.issuerId == m.issuerId
    ensures equal ==> FieldListsEqual(RequiredFields(m), RequiredFields(obj.value))
    ensures obj == Instance(m) ==> equal
    ensures obj.Instance? && m.issuerId == obj.value.issuerId && FieldListsEqual(RequiredFields(m), RequiredFields(obj.value)) ==> equal
  {
    match obj
    case Null => false
    case OtherType => false
    case Instance(other) =>
      m.issuerId == other.issuerId && FieldListsEqual(RequiredFields(m), RequiredFields(other))
  }

  /** An absent fast checkout, a null field list and an empty field list are
      interchangeable for equality. */
  lemma AbsentNullEmptyInterchangeable(id: NString, fc1: Option<FastCheckout>, fc2: Option<FastCheckout>)
    requires fc1.None? || fc1.value.requiredCheckoutFields.None? || fc1.value.requiredCheckoutFields == Some([])
    requires fc2.None? || fc2.value.requiredCheckoutFields.None? || fc2.value.requiredCheckoutFields == Some([])
    ensures Equals(PaymentBrandMetaData(id, fc1), Instance(PaymentBrandMetaData(id, fc2)))
  {
  }

  /** A fast checkout that requires some fields never equals one that
      requires none, whatever the issuer. */
  lemma EmptyAndNonEmptyDiffer(id: NString, fields: seq<RequiredCheckoutField>, none: Option<FastCheckout>)
    requires |fields| > 0
    requires none.None? || IsNullOrEmptyList(none.value.requiredCheckoutFields)
    ensures !Equals(PaymentBrandMetaData(id, Some(FastCheckout(Some(fields)))), Instance(PaymentBrandMetaData(id, none)))
    ensures !Equals(PaymentBrandMetaData(id, none), Instance(PaymentBrandMetaData(id, Some(FastCheckout(Some(fields))))))
  {
  }

  /** Reordering a field list never changes equality: a list equals each of
      its permutations. */
  lemma PermutationEqual(a: seq<RequiredCheckoutField>, b: seq<RequiredCheckoutField>)
    requires multiset(a) == multiset(b)
    ensures FieldListsEqual(Some(a), Some(b))
  {
    assert |a| == |multiset(a)| == |multiset(b)| == |b|;
    forall i | 0 <= i < |a|
      ensures a[i] in b
    {
      assert a[i] in multiset(a);
    }
  }

  /** The comparison only looks one way, so with repeated entries it is not
      symmetric. */
  lemma NotSymmetricWithDuplicates()
    ensures FieldListsEqual(Some([BillingAddress, BillingAddress]), Some([BillingAddress, ShippingAddress]))
    ensures !FieldListsEqual(Some([BillingAddress, ShippingAddress]), Some([BillingAddress, BillingAddress]))
  {
    assert [BillingAddress, BillingAddress][1] == BillingAddress;
    assert [BillingAddress, ShippingAddress][1] == ShippingAddress;
    assert ShippingAddress !in [BillingAddress, BillingAddress];
  }

  predicate NoDuplicates<T(==)>(s: seq<T>) {
    forall i, j :: 0 <= i < j < |s| ==> s[i] != s[j]
  }

  lemma {:induction false} DistinctCardinality<T>(s: seq<T>)
    requires NoDuplicates(s)
    ensures |set x | x in s| == |s|
  {
    if |s| > 0 {
      var rest := s[1..];
      assert NoDuplicates(rest) by {
        forall i, j | 0 <= i < j < |rest| ensures rest[i] != rest[j] {
          assert rest[i] == s[i + 1] && rest[j] == s[j + 1];
        }
      }
      DistinctCardinality(rest);
      assert s[0] !in rest by {
        forall k | 0 <= k < |rest| ensures rest[k] != s[0] {
          assert rest[k] == s[k + 1];
        }
      }
      assert (set x | x in s) == (set x | x in rest) + {s[0]} by {
        assert s == [s[0]] + rest;
      }
    }
  }

  /** On lists without repeated entries the comparison is symmetric. */
  lemma SymmetricWithoutDuplicates(a: seq<RequiredCheckoutField>, b: seq<RequiredCheckoutField>)
    requires NoDuplicates(a) && NoDuplicates(b)
    requires FieldListsEqual(Some(a), Some(b))
    ensures FieldListsEqual(Some(b), Some(a))
  {
    if |a| > 0 {
      var sa := set x | x in a;
      var sb := set x | x in b;
      DistinctCardinality(a);
      DistinctCardinality(b);
      assert sa <= sb;
      assert sb - sa == {} by {
        assert |sb - sa| == |sb| - |sa| == 0;
      }
      forall i | 0 <= i < |b|
        ensures b[i] in a
      {
        assert b[i] in sb;
        assert b[i] !in sb - sa;
      }
    }
  }

  /** Builder of the metadata value. */
  datatype Builder = Builder(issuerId: NString, fastCheckout: Option<FastCheckout>)

  function WithIssuerId(b: Builder, issuerId: NString): (r: Builder)
    ensures r.issuerId == issuerId && r.fastCheckout == b.fastCheckout
  {
    b.(issuerId := issuerId)
  }

  function WithFastCheckout(b: Builder, fastCheckout: Option<FastCheckout>): (r: Builder)
    ensures r.fastCheckout == fastCheckout && r.issuerId == b.issuerId
  {
    b.(fastCheckout := fastCheckout)
  }

  function Build(b: Builder): (m: PaymentBrandMetaData)
    ensures m.issuerId == b.issuerId && m.fastCheckout == b.fastCheckout
  {
    PaymentBrandMetaData(b.issuerId, b.fastCheckout)
  }

  /** The two setters touch disjoint fields, so their order does not matter,
      and a later call of the same setter overrides an earlier one. */
  lemma SettersCommute(b: Builder, issuerId: NString, fastCheckout: Option<FastCheckout>)
    ensures Build(WithFastCheckout(WithIssuerId(b, issuerId), fastCheckout))
         == Build(WithIssuerId(WithFastCheckout(b, fastCheckout), issuerId))
         == PaymentBrandMetaData(issuerId, fastCheckout)
  {
  }
}
