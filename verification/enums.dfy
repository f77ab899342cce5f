/** The SDK's enumerations. */
module Enums {

  datatype RequiredCheckoutField = CustomerInformation | BillingAddress | ShippingAddress

  datatype CardStatus = Active | Inactive | Deleted | Suspended

  datatype TransactionStatus = Success | Cancelled | Expired | Failure | Open | New | Accepted

  datatype TransactionType = Payment | Refund | Authorize | Capture

  datatype RefundStatus = Pending | Succeeded | Failed | Unknown
}
