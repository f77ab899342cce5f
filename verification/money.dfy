/** Amounts of money, as the gateway exchanges them: a currency code and a
    whole number of minor units. */
module Amounts {
  datatype Money = Money(currency: string, cents: int)
}
