/** Quotes and payments as the service holds them: objects whose status changes in place. */
module Entities {
  import opened Wrappers
  import opened PyText
  import opened Billing
  import opened Gateway
  import opened Saga

  /** `uuid4`: every draw is new. */
  class UuidSource {
    var drawn: nat

    constructor ()
      ensures drawn == 0
    {
      drawn := 0;
    }

    method Uuid4() returns (id: Id)
      modifies this
      ensures id == Uuid(old(drawn)) && drawn == old(drawn) + 1
    {
      id := Uuid(drawn);
      drawn := drawn + 1;
    }
  }

  class Quote {
    const quoteId: Id
    const serviceOrderId: string
    const items: seq<string>
    const total: Money
    var status: QuoteStatus

    function Data(): QuoteData
      reads this
    {
      QuoteData(quoteId, serviceOrderId, items, total, status)
    }

    constructor (quoteId: Id, serviceOrderId: string, items: seq<string>, total: Money, status: QuoteStatus)
      ensures Data() == QuoteData(quoteId, serviceOrderId, items, total, status)
    {
      this.quoteId, this.serviceOrderId, this.items, this.total, this.status :=
        quoteId, serviceOrderId, items, total, status;
    }

    /** `Quote.create`: a new quote and the event that announces it. */
    static method Create(serviceOrderId: string, items: seq<string>, total: Money, uuids: UuidSource)
      returns (r: Result<(Quote, Event), Error>)
      modifies uuids
      ensures Blank(serviceOrderId) ==> r == Err(ServiceOrderRequired) && uuids.drawn == old(uuids.drawn)
      ensures !Blank(serviceOrderId) && items == [] ==> r == Err(ItemsRequired) && uuids.drawn == old(uuids.drawn)
      ensures !Blank(serviceOrderId) && items != [] ==>
                && r.Ok? && fresh(r.value.0) && uuids.drawn == old(uuids.drawn) + 2
                && r.value.0.Data() == NewQuote(Uuid(old(uuids.drawn)), serviceOrderId, items, total)
                && r.value.1 == QuoteEvent(r.value.0.Data(), QuoteCreated, Uuid(old(uuids.drawn) + 1))
    {
      if Blank(serviceOrderId) { return Err(ServiceOrderRequired); }
      if items == [] { return Err(ItemsRequired); }
      var id := uuids.Uuid4();
      var quote := new Quote(id, serviceOrderId, items, total, Created);
      var event := quote.Announce(QuoteCreated, uuids);
      return Ok((quote, event));
    }

    /** `_event`. */
    method Announce(kind: Kind, uuids: UuidSource) returns (event: Event)
      modifies uuids
      ensures event == QuoteEvent(Data(), kind, Uuid(old(uuids.drawn)))
      ensures uuids.drawn == old(uuids.drawn) + 1
    {
      var id := uuids.Uuid4();
      event := Event(kind, quoteId, serviceOrderId, id);
    }

    method Approve(uuids: UuidSource) returns (r: Result<Event, Error>)
      modifies this, uuids
      ensures !old(status).Created? ==>
                r == Err(QuoteNotCreated) && Data() == old(Data()) && uuids.drawn == old(uuids.drawn)
      ensures old(status).Created? ==>
                && Data() == old(Data()).(status := Approved) && uuids.drawn == old(uuids.drawn) + 1
                && r == Ok(QuoteEvent(Data(), QuoteApproved, Uuid(old(uuids.drawn))))
    {
      if !status.Created? { return Err(QuoteNotCreated); }
      status := Approved;
      var event := Announce(QuoteApproved, uuids);
      return Ok(event);
    }

    /** No use case cancels a quote; an approved quote may be cancelled, never twice. */
    method Cancel(reason: string, uuids: UuidSource) returns (r: Result<Event, Error>)
      modifies this, uuids
      ensures old(status).Cancelled? ==>
                r == Err(QuoteAlreadyCancelled) && Data() == old(Data()) && uuids.drawn == old(uuids.drawn)
      ensures !old(status).Cancelled? ==>
                && Data() == old(Data()).(status := Cancelled) && uuids.drawn == old(uuids.drawn) + 1
                && r == Ok(QuoteEvent(Data(), QuoteCancelled(reason), Uuid(old(uuids.drawn))))
    {
      if status.Cancelled? { return Err(QuoteAlreadyCancelled); }
      status := Cancelled;
      var event := Announce(QuoteCancelled(reason), uuids);
      return Ok(event);
    }
  }

  class Payment {
    const paymentId: Id
    const quoteId: Id
    const serviceOrderId: string
    const total: Money
    var status: PaymentStatus
    var preference: Option<Preference>

    function Data(): PaymentData
      reads this
    {
      PaymentData(paymentId, quoteId, serviceOrderId, total, status, preference)
    }

    constructor (paymentId: Id, quoteId: Id, serviceOrderId: string, total: Money,
                 status: PaymentStatus, preference: Option<Preference>)
      ensures Data() == PaymentData(paymentId, quoteId, serviceOrderId, total, status, preference)
    {
      this.paymentId, this.quoteId, this.serviceOrderId, this.total := paymentId, quoteId, serviceOrderId, total;
      this.status, this.preference := status, preference;
    }

    static method FromQuote(quote: Quote, uuids: UuidSource) returns (r: Result<Payment, Error>)
      modifies uuids
      ensures !quote.status.Approved? ==> r == Err(QuoteNotApproved) && uuids.drawn == old(uuids.drawn)
      ensures quote.status.Approved? ==>
                && r.Ok? && fresh(r.value) && uuids.drawn == old(uuids.drawn) + 1
                && r.value.Data() == PaymentData(Uuid(old(uuids.drawn)), quote.quoteId, quote.serviceOrderId,
                                                 quote.total, WaitingPreference, None)
    {
      if !quote.status.Approved? { return Err(QuoteNotApproved); }
      var id := uuids.Uuid4();
      var payment := new Payment(id, quote.quoteId, quote.serviceOrderId, quote.total, WaitingPreference, None);
      return Ok(payment);
    }

    method Announce(kind: Kind, uuids: UuidSource) returns (event: Event)
      modifies uuids
      ensures event == PaymentEvent(Data(), kind, Uuid(old(uuids.drawn)))
      ensures uuids.drawn == old(uuids.drawn) + 1
    {
      var id := uuids.Uuid4();
      event := Event(kind, quoteId, serviceOrderId, id);
    }

    /** The gateway's answer is `reply`; when it raises, nothing has changed. */
    method CreatePreference(reply: PreferenceReply, uuids: UuidSource) returns (r: Result<Event, Error>)
      modifies this, uuids
      ensures var made := CreateCheckoutPreference(reply, serviceOrderId);
              if !old(status).WaitingPreference? then
                r == Err(PreferenceAlreadyRequested) && Data() == old(Data()) && uuids.drawn == old(uuids.drawn)
              else if made.Err? then
                r == Err(made.error) && Data() == old(Data()) && uuids.drawn == old(uuids.drawn)
              else
                && Data() == old(Data()).(status := Pending, preference := Some(made.value))
                && uuids.drawn == old(uuids.drawn) + 1
                && r == Ok(PaymentEvent(Data(), PreferenceCreated(paymentId, made.value.preferenceId),
                                        Uuid(old(uuids.drawn))))
    {
      if !status.WaitingPreference? { return Err(PreferenceAlreadyRequested); }
      var made :- CreateCheckoutPreference(reply, serviceOrderId);
      preference := Some(made);
      status := Pending;
      var event := Announce(PreferenceCreated(paymentId, made.preferenceId), uuids);
      return Ok(event);
    }

    method Confirm(uuids: UuidSource) returns (r: Result<Event, Error>)
      modifies this, uuids
      ensures !old(status).Pending? ==>
                r == Err(PaymentNotPending) && Data() == old(Data()) && uuids.drawn == old(uuids.drawn)
      ensures old(status).Pending? ==>
                && Data() == old(Data()).(status := Confirmed) && uuids.drawn == old(uuids.drawn) + 1
                && r == Ok(PaymentEvent(Data(), PaymentConfirmed(paymentId), Uuid(old(uuids.drawn))))
    {
      if !status.Pending? { return Err(PaymentNotPending); }
      status := Confirmed;
      var event := Announce(PaymentConfirmed(paymentId), uuids);
      return Ok(event);
    }

    method Fail(reason: string, uuids: UuidSource) returns (r: Result<Event, Error>)
      modifies this, uuids
      ensures old(status).Confirmed? ==>
                r == Err(PaymentAlreadyConfirmed) && Data() == old(Data()) && uuids.drawn == old(uuids.drawn)
      ensures !old(status).Confirmed? ==>
                && Data() == old(Data()).(status := Failed) && uuids.drawn == old(uuids.drawn) + 1
                && r == Ok(PaymentEvent(Data(), PaymentFailed(paymentId, reason), Uuid(old(uuids.drawn))))
    {
      if status.Confirmed? { return Err(PaymentAlreadyConfirmed); }
      status := Failed;
      var event := Announce(PaymentFailed(paymentId, reason), uuids);
      return Ok(event);
    }
  }
}
