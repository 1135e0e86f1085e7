/** The values of the billing domain: identifiers, money, quotes, payments, events. */
module Billing {
  import opened Wrappers
  import opened PyText
  import opened Decimals

  /** `Uuid(n)` is the n-th identifier drawn from `uuid4`; `Given` is any other text a
      caller may send, which never equals a drawn identifier. */
  datatype Id = Uuid(n: nat) | Given(text: string)

  /** The `ValueError`s, `KeyError`s and gateway errors the service raises. */
  datatype Error =
    | MoneyNotPositive
    | CurrencyRequired
    | ServiceOrderRequired
    | ItemsRequired
    | QuoteNotFound(id: Id)
    | QuoteNotCreated
    | QuoteAlreadyCancelled
    | QuoteNotApproved
    | PaymentNotFound(id: Id)
    | PreferenceAlreadyRequested
    | PaymentNotPending
    | PaymentAlreadyConfirmed
    | UnsupportedStatus(status: string)
    | GatewayError(statusCode: int)
    | PreferenceWithoutId
    | PreferenceWithoutUrl
    | AmountUnreadable
    | InvalidMessage
    | MissingField
    | PayloadUnreadable
    | MissingServiceOrder
    | BadRow

  datatype RawMoney = RawMoney(amount: Decimal, currency: string)

  predicate ValidMoney(m: RawMoney) {
    Positive(m.amount) && !Blank(m.currency)
  }

  /** Frozen and checked on construction, hence valid wherever it is held. */
  type Money = m: RawMoney | ValidMoney(m) witness RawMoney(Decimal(false, 1, 0), "BRL")

  function MakeMoney(amount: Decimal, currency: string): Result<Money, Error> {
    if !Positive(amount) then Err(MoneyNotPositive)
    else if Blank(currency) then Err(CurrencyRequired)
    else Ok(RawMoney(amount, currency))
  }

  const DEFAULT_CURRENCY := "BRL"

  datatype QuoteStatus = Created | Approved | Cancelled

  datatype PaymentStatus = WaitingPreference | Pending | Confirmed | Failed

  datatype Preference = Preference(preferenceId: string, checkoutUrl: string,
                                   externalReference: Option<string>)

  datatype QuoteData = QuoteData(quoteId: Id, serviceOrderId: string, items: seq<string>,
                                 total: Money, status: QuoteStatus)

  datatype PaymentData = PaymentData(paymentId: Id, quoteId: Id, serviceOrderId: string,
                                     total: Money, status: PaymentStatus,
                                     preference: Option<Preference>)

  /** What an event says; together with the fields of `Event` this is its payload. */
  datatype Kind =
    | QuoteCreated
    | QuoteApproved
    | QuoteCancelled(why: string)
    | PreferenceCreated(paymentId: Id, preferenceId: string)
    | PaymentConfirmed(paymentId: Id)
    | PaymentFailed(paymentId: Id, reason: string)

  /** A `DomainEvent`; its correlation id is always the service order id. */
  datatype Event = Event(kind: Kind, quoteId: Id, serviceOrderId: string, eventId: Id)

  /** Event types as they travel: the supported ones, and any other text. */
  datatype EventType =
    | OsOpened
    | QuoteCreatedType
    | QuoteApprovedType
    | QuoteCancelledType
    | PreferenceCreatedType
    | PaymentConfirmedType
    | PaymentFailedType
    | UnknownType(text: string)

  const INTEGRATION_EVENT_TYPES :=
    {OsOpened, QuoteCreatedType, QuoteApprovedType, QuoteCancelledType,
     PreferenceCreatedType, PaymentConfirmedType, PaymentFailedType}

  function TypeOf(k: Kind): EventType {
    match k
    case QuoteCreated => QuoteCreatedType
    case QuoteApproved => QuoteApprovedType
    case QuoteCancelled(_) => QuoteCancelledType
    case PreferenceCreated(_, _) => PreferenceCreatedType
    case PaymentConfirmed(_) => PaymentConfirmedType
    case PaymentFailed(_, _) => PaymentFailedType
  }

  function TypeName(t: EventType): string {
    match t
    case OsOpened => "OS_OPENED"
    case QuoteCreatedType => "QUOTE_CREATED"
    case QuoteApprovedType => "QUOTE_APPROVED"
    case QuoteCancelledType => "QUOTE_CANCELLED"
    case PreferenceCreatedType => "PAYMENT_PREFERENCE_CREATED"
    case PaymentConfirmedType => "PAYMENT_CONFIRMED"
    case PaymentFailedType => "PAYMENT_FAILED"
    case UnknownType(text) => text
  }

  /** Reading the text of an event type. */
  function ParseType(text: string): (t: EventType)
    ensures TypeName(t) == text
  {
    if text == "OS_OPENED" then OsOpened
    else if text == "QUOTE_CREATED" then QuoteCreatedType
    else if text == "QUOTE_APPROVED" then QuoteApprovedType
    else if text == "QUOTE_CANCELLED" then QuoteCancelledType
    else if text == "PAYMENT_PREFERENCE_CREATED" then PreferenceCreatedType
    else if text == "PAYMENT_CONFIRMED" then PaymentConfirmedType
    else if text == "PAYMENT_FAILED" then PaymentFailedType
    else UnknownType(text)
  }

  /** The supported names are told apart when they are read back. */
  lemma TypeNamesRoundTrip(t: EventType)
    requires t in INTEGRATION_EVENT_TYPES
    ensures ParseType(TypeName(t)) == t
  {
  }
}
