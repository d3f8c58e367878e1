/** The request records of payments.go and tokens.go that the validators and
    the query encoder consume. Pointer-typed fields are `Option`s. */
module Records {

  import opened Optional

  /** `CardDetails` (payments.go). */
  datatype CardDetails = CardDetails(
    number: string,
    expiryMonth: int,
    expiryYear: int,
    cvv: string,
    holderName: string)

  /** `Address` (payments.go): carried along, never validated. */
  datatype Address = Address(
    line1: string,
    line2: string,
    city: string,
    state: string,
    postalCode: string,
    country: string)

  /** `PaymentRequest` (payments.go). `amount` is a float64 in the source,
      modelled as an exact real. */
  datatype PaymentRequest = PaymentRequest(
    amount: real,
    currency: string,
    merchantId: string,
    description: string,
    reference: string,
    cardToken: string,
    cardDetails: Option<CardDetails>,
    billingAddr: Option<Address>,
    shippingAddr: Option<Address>,
    metadata: map<string, string>)

  /** `TokenRequest` (tokens.go). */
  datatype TokenRequest = TokenRequest(
    cardDetails: Option<CardDetails>,
    customerId: string,
    description: string,
    singleUse: bool)

  /** `ListTokensRequest` (tokens.go), encoded by the generic query encoder. */
  datatype ListTokensRequest = ListTokensRequest(
    customerId: string,
    limit: int,
    offset: int)
}
