/** What the use cases do, as values: each one reads the store, and either raises or
    makes a list of writes (saves, publishes, marks) in a fixed order.

    The list is the protocol: a crash keeps a prefix of it. The classes in `UseCases`
    are proved to make exactly these writes. */
module Saga {
  import opened Wrappers
  import opened PyText
  import opened Decimals
  import opened Billing
  import opened Gateway

  /** Everything the service keeps. `history` is every event ever published, and
      `processed` maps a processed event id to the quote made for it (the source keeps
      the ids only). `next` is the number of identifiers drawn so far. */
  datatype Store = Store(quotes: map<Id, QuoteData>, payments: map<Id, PaymentData>,
                         processed: map<Id, Id>, history: seq<Event>, next: nat)

  const EMPTY := Store(map[], map[], map[], [], 0)

  datatype Write =
    | SaveQuote(quote: QuoteData)
    | SavePayment(payment: PaymentData)
    | Publish(event: Event)
    | Mark(eventId: Id, quoteId: Id)

  function Perform(s: Store, w: Write): Store {
    match w
    case SaveQuote(q) => s.(quotes := s.quotes[q.quoteId := q])
    case SavePayment(p) => s.(payments := s.payments[p.paymentId := p])
    case Publish(e) => s.(history := s.history + [e])
    case Mark(eventId, quoteId) => s.(processed := s.processed[eventId := quoteId])
  }

  function PerformAll(s: Store, ws: seq<Write>): Store
    decreases |ws|
  {
    if ws == [] then s else PerformAll(Perform(s, ws[0]), ws[1..])
  }

  lemma PerformOne(s: Store, a: Write)
    ensures PerformAll(s, [a]) == Perform(s, a)
  {
  }

  lemma PerformTwo(s: Store, a: Write, b: Write)
    ensures PerformAll(s, [a, b]) == Perform(Perform(s, a), b)
  {
    assert [a, b][1..] == [b];
    PerformOne(Perform(s, a), b);
  }

  lemma PerformThree(s: Store, a: Write, b: Write, c: Write)
    ensures PerformAll(s, [a, b, c]) == Perform(Perform(Perform(s, a), b), c)
  {
    assert [a, b, c][1..] == [b, c];
    PerformTwo(Perform(s, a), b, c);
  }

  lemma PerformFour(s: Store, a: Write, b: Write, c: Write, d: Write)
    ensures PerformAll(s, [a, b, c, d]) == Perform(Perform(Perform(Perform(s, a), b), c), d)
  {
    assert [a, b, c, d][1..] == [b, c, d];
    PerformThree(Perform(s, a), b, c, d);
  }

  /** The stores on the way: the one after each write. */
  function Stages(s: Store, ws: seq<Write>): seq<Store>
    decreases |ws|
  {
    if ws == [] then [] else [Perform(s, ws[0])] + Stages(Perform(s, ws[0]), ws[1..])
  }

  /** The store after each write is what a prefix of the writes leads to. */
  lemma {:induction false} StagesArePrefixes(s: Store, ws: seq<Write>)
    ensures |Stages(s, ws)| == |ws|
    ensures forall i :: 0 <= i < |ws| ==> Stages(s, ws)[i] == PerformAll(s, ws[..i + 1])
    decreases |ws|
  {
    if ws != [] {
      var t, rest := Perform(s, ws[0]), ws[1..];
      StagesArePrefixes(t, rest);
      forall i | 0 <= i < |ws| ensures Stages(s, ws)[i] == PerformAll(s, ws[..i + 1]) {
        assert ws[..i + 1][1..] == rest[..i];
        if i > 0 { assert Stages(s, ws)[i] == Stages(t, rest)[i - 1]; }
      }
    }
  }

  lemma {:induction false} StagesOfConcat(s: Store, a: seq<Write>, b: seq<Write>)
    ensures Stages(s, a + b) == Stages(s, a) + Stages(PerformAll(s, a), b)
    decreases |a|
  {
    if a == [] {
      assert a + b == b;
    } else {
      var t := Perform(s, a[0]);
      StagesOfConcat(t, a[1..], b);
      assert (a + b)[1..] == a[1..] + b;
      var head, tail, last := [t], Stages(t, a[1..]), Stages(PerformAll(t, a[1..]), b);
      assert head + (tail + last) == (head + tail) + last;
    }
  }

  /** The events among the writes, in order. */
  function Events(ws: seq<Write>): seq<Event> {
    if ws == [] then [] else (if ws[0].Publish? then [ws[0].event] else []) + Events(ws[1..])
  }

  lemma {:induction false} EventsOfConcat(a: seq<Write>, b: seq<Write>)
    ensures Events(a + b) == Events(a) + Events(b)
  {
    if a == [] {
      assert a + b == b;
    } else {
      EventsOfConcat(a[1..], b);
      assert (a + b)[1..] == a[1..] + b;
      var head, tail, last := if a[0].Publish? then [a[0].event] else [], Events(a[1..]), Events(b);
      assert head + (tail + last) == (head + tail) + last;
    }
  }

  lemma FirstEvent(s: Store, w: Write)
    ensures Perform(s, w).history == s.history + if w.Publish? then [w.event] else []
    ensures Perform(s, w).next == s.next
  {
  }

  lemma {:induction false} WritesAppendEvents(s: Store, ws: seq<Write>)
    ensures PerformAll(s, ws).history == s.history + Events(ws)
    ensures PerformAll(s, ws).next == s.next
    decreases |ws|
  {
    if ws == [] {
    } else {
      var t, rest := Perform(s, ws[0]), ws[1..];
      WritesAppendEvents(t, rest);
      FirstEvent(s, ws[0]);
      hide Perform;
      var head := if ws[0].Publish? then [ws[0].event] else [];
      assert (s.history + head) + Events(rest) == s.history + (head + Events(rest));
    }
  }

  lemma {:induction false} QuotesNeedSaves(s: Store, ws: seq<Write>)
    requires forall i :: 0 <= i < |ws| ==> !ws[i].SaveQuote?
    ensures PerformAll(s, ws).quotes == s.quotes
    decreases |ws|
  {
    if ws == [] {
    } else {
      QuotesNeedSaves(Perform(s, ws[0]), ws[1..]);
    }
  }

  lemma {:induction false} PaymentsNeedSaves(s: Store, ws: seq<Write>)
    requires forall i :: 0 <= i < |ws| ==> !ws[i].SavePayment?
    ensures PerformAll(s, ws).payments == s.payments
    decreases |ws|
  {
    if ws == [] {
    } else {
      PaymentsNeedSaves(Perform(s, ws[0]), ws[1..]);
    }
  }

  lemma {:induction false} ProcessedNeedsMarks(s: Store, ws: seq<Write>)
    requires forall i :: 0 <= i < |ws| ==> !ws[i].Mark?
    ensures PerformAll(s, ws).processed == s.processed
    decreases |ws|
  {
    if ws == [] {
    } else {
      ProcessedNeedsMarks(Perform(s, ws[0]), ws[1..]);
    }
  }

  /** Each part of the store changes only through its own kind of write. */
  lemma WritesAreLocal(s: Store, ws: seq<Write>)
    ensures PerformAll(s, ws).history == s.history + Events(ws)
    ensures PerformAll(s, ws).next == s.next
    ensures (forall i :: 0 <= i < |ws| ==> !ws[i].SaveQuote?) ==> PerformAll(s, ws).quotes == s.quotes
    ensures (forall i :: 0 <= i < |ws| ==> !ws[i].SavePayment?) ==> PerformAll(s, ws).payments == s.payments
    ensures (forall i :: 0 <= i < |ws| ==> !ws[i].Mark?) ==> PerformAll(s, ws).processed == s.processed
  {
    WritesAppendEvents(s, ws);
    if forall i :: 0 <= i < |ws| ==> !ws[i].SaveQuote? { QuotesNeedSaves(s, ws); }
    if forall i :: 0 <= i < |ws| ==> !ws[i].SavePayment? { PaymentsNeedSaves(s, ws); }
    if forall i :: 0 <= i < |ws| ==> !ws[i].Mark? { ProcessedNeedsMarks(s, ws); }
  }

  /** The message a queue delivers, after JSON decoding. Fields are taken after
      `str(...)`, and are `None` when they are missing. An event type that is not a text
      renders as none of the supported ones. */
  datatype Body =
    | NotAnEvent
    | Fields(eventId: Option<Id>, eventType: Option<EventType>, correlationId: Option<string>,
             hasOccurredAt: bool, payload: Option<Payload>)

  /** `Pairs` is what `dict(...)` accepts besides a dictionary, such as a list of pairs. The
      members other than the service order are texts, kept by name. */
  datatype Payload =
    | NotADict
    | Pairs(serviceOrderId: Option<string>)
    | Dict(serviceOrderId: Option<string>, others: map<string, Id>)

  /** Quote defaults the worker is configured with. */
  datatype Defaults = Defaults(items: seq<string>, amount: Decimal)

  datatype Command =
    | CreateQuote(serviceOrderId: string, items: seq<string>, amount: Decimal)
    | ApproveQuote(quoteId: Id, preferenceReply: PreferenceReply)
    | ConfirmPayment(paymentId: Id)
    | FailPayment(paymentId: Id, reason: string)
    | ApplyStatus(paymentId: Id, status: string, detail: Option<string>)
    | SyncStatus(paymentId: Id, searchReply: SearchReply)
    | Deliver(body: Body, defaults: Defaults)

  datatype Action = ActionConfirmed | ActionFailed | ActionIgnored | ActionDuplicate

  datatype Answer =
    | QuoteAnswer(quote: QuoteData)
    | PaymentAnswer(payment: PaymentData)
    | StatusAnswer(updated: PaymentData, action: Action)
    | Processed
    | Skipped
    | Ignored

  /** The writes of one use case, the number of ids it draws, and its result. */
  datatype Plan = Plan(writes: seq<Write>, drawn: nat, answer: Result<Answer, Error>)

  function Raise(e: Error): Plan {
    Plan([], 0, Err(e))
  }

  // ----- Quotes -----

  function NewQuote(id: Id, serviceOrderId: string, items: seq<string>, total: Money): QuoteData {
    QuoteData(id, serviceOrderId, items, total, Created)
  }

  function PlanCreate(s: Store, serviceOrderId: string, items: seq<string>, amount: Decimal): Plan {
    match MakeMoney(amount, DEFAULT_CURRENCY)
    case Err(e) => Raise(e)
    case Ok(total) =>
      if Blank(serviceOrderId) then Raise(ServiceOrderRequired)
      else if items == [] then Raise(ItemsRequired)
      else
        var q := NewQuote(Uuid(s.next), serviceOrderId, items, total);
        Plan([SaveQuote(q), Publish(QuoteEvent(q, QuoteCreated, Uuid(s.next + 1)))], 2, Ok(QuoteAnswer(q)))
  }

  function QuoteEvent(q: QuoteData, k: Kind, eventId: Id): Event {
    Event(k, q.quoteId, q.serviceOrderId, eventId)
  }

  function PaymentEvent(p: PaymentData, k: Kind, eventId: Id): Event {
    Event(k, p.quoteId, p.serviceOrderId, eventId)
  }

  function PaymentOf(q: QuoteData, paymentId: Id, preference: Preference): PaymentData {
    PaymentData(paymentId, q.quoteId, q.serviceOrderId, q.total, Pending, Some(preference))
  }

  /** Approval asks the gateway for a preference before it saves anything; the ids of
      the approval event and of the payment are drawn before the gateway is asked. */
  function PlanApprove(s: Store, quoteId: Id, reply: PreferenceReply): Plan {
    if quoteId !in s.quotes then Raise(QuoteNotFound(quoteId))
    else if !s.quotes[quoteId].status.Created? then Raise(QuoteNotCreated)
    else
      var q := s.quotes[quoteId].(status := Approved);
      match CreateCheckoutPreference(reply, q.serviceOrderId)
      case Err(e) => Plan([], 2, Err(e))
      case Ok(preference) =>
        var p := PaymentOf(q, Uuid(s.next + 1), preference);
        Plan([SaveQuote(q),
              SavePayment(p),
              Publish(QuoteEvent(q, QuoteApproved, Uuid(s.next))),
              Publish(PaymentEvent(p, PreferenceCreated(p.paymentId, preference.preferenceId), Uuid(s.next + 2)))],
             3, Ok(PaymentAnswer(p)))
  }

  // ----- Payments -----

  function PlanConfirm(s: Store, paymentId: Id): Plan {
    if paymentId !in s.payments then Raise(PaymentNotFound(paymentId))
    else if !s.payments[paymentId].status.Pending? then Raise(PaymentNotPending)
    else
      var p := s.payments[paymentId].(status := Confirmed);
      Plan([SavePayment(p), Publish(PaymentEvent(p, PaymentConfirmed(p.paymentId), Uuid(s.next)))],
           1, Ok(PaymentAnswer(p)))
  }

  function PlanFail(s: Store, paymentId: Id, reason: string): Plan {
    if paymentId !in s.payments then Raise(PaymentNotFound(paymentId))
    else if s.payments[paymentId].status.Confirmed? then Raise(PaymentAlreadyConfirmed)
    else
      var p := s.payments[paymentId].(status := Failed);
      Plan([SavePayment(p), Publish(PaymentEvent(p, PaymentFailed(p.paymentId, reason), Uuid(s.next)))],
           1, Ok(PaymentAnswer(p)))
  }

  function FailureReason(status: string, detail: Option<string>): string {
    if detail.Some? && detail.value != "" then detail.value
    else "Mercado Pago status: " + status
  }

  function PlanApply(s: Store, paymentId: Id, status: string, detail: Option<string>): Plan {
    PlanClassified(s, paymentId, Classify(status), status, detail)
  }

  /** A supported provider status is saved even when it changes nothing. */
  function PlanClassified(s: Store, paymentId: Id, meaning: StatusClass, status: string,
                          detail: Option<string>): Plan
  {
    if paymentId !in s.payments then Raise(PaymentNotFound(paymentId))
    else
      var p := s.payments[paymentId];
      match meaning
      case ApprovedLike =>
        if p.status.Confirmed? then Resave(p, ActionDuplicate)
        else if p.status.Failed? then Resave(p, ActionIgnored)
        else WithAction(PlanConfirm(s, paymentId), ActionConfirmed)
      case RejectedLike =>
        if p.status.Confirmed? then Resave(p, ActionIgnored)
        else if p.status.Failed? then Resave(p, ActionDuplicate)
        else WithAction(PlanFail(s, paymentId, FailureReason(status, detail)), ActionFailed)
      case PendingLike => Resave(p, ActionIgnored)
      case Unsupported => Raise(UnsupportedStatus(status))
  }

  function Resave(p: PaymentData, action: Action): Plan {
    Plan([SavePayment(p)], 0, Ok(StatusAnswer(p, action)))
  }

  function WithAction(plan: Plan, action: Action): Plan {
    if plan.answer.Ok? && plan.answer.value.PaymentAnswer?
    then plan.(answer := Ok(StatusAnswer(plan.answer.value.payment, action)))
    else plan
  }

  function PlanSync(s: Store, paymentId: Id, reply: SearchReply): Plan {
    if paymentId !in s.payments then Raise(PaymentNotFound(paymentId))
    else
      match GetPaymentStatus(s.payments[paymentId], reply)
      case Err(e) => Raise(e)
      case Ok(found) => PlanApply(s, paymentId, found.status, found.detail)
  }

  // ----- The worker's handler -----

  /** `validate_event_message`. */
  predicate ValidBody(b: Body) {
    && b.Fields?
    && b.eventId.Some? && b.eventType.Some? && b.correlationId.Some?
    && b.hasOccurredAt && b.payload.Some?
    && b.eventType.value in INTEGRATION_EVENT_TYPES
    && b.payload.value.Dict?
  }

  /** `handle` on a message that need not have been validated. */
  function PlanHandle(s: Store, b: Body, d: Defaults): Plan
    requires b.Fields?
  {
    if b.eventId.None? || b.eventType.None? || b.correlationId.None? then Raise(MissingField)
    else if b.eventId.value in s.processed then Plan([], 0, Ok(Skipped))
    else if b.eventType.value != OsOpened then Plan([], 0, Ok(Ignored))
    else if b.payload.None? then Raise(MissingField)
    else if b.payload.value.NotADict? then Raise(PayloadUnreadable)
    else if b.payload.value.serviceOrderId.None? then Raise(MissingServiceOrder)
    else
      var create := PlanCreate(s, b.payload.value.serviceOrderId.value, d.items, d.amount);
      if create.answer.Err? then create
      else Plan(create.writes + [Mark(b.eventId.value, Uuid(s.next))], create.drawn, Ok(Processed))
  }

  /** The worker hands over validated messages only. */
  function PlanDeliver(s: Store, b: Body, d: Defaults): Plan {
    if !ValidBody(b) then Raise(InvalidMessage) else PlanHandle(s, b, d)
  }

  function PlanOf(s: Store, c: Command): Plan {
    match c
    case CreateQuote(so, items, amount) => PlanCreate(s, so, items, amount)
    case ApproveQuote(quoteId, reply) => PlanApprove(s, quoteId, reply)
    case ConfirmPayment(paymentId) => PlanConfirm(s, paymentId)
    case FailPayment(paymentId, reason) => PlanFail(s, paymentId, reason)
    case ApplyStatus(paymentId, status, detail) => PlanApply(s, paymentId, status, detail)
    case SyncStatus(paymentId, reply) => PlanSync(s, paymentId, reply)
    case Deliver(body, defaults) => PlanDeliver(s, body, defaults)
  }

  // ----- The four kinds of write lists -----

  /** Everything is stored under its own id. */
  ghost predicate Keyed(s: Store) {
    && (forall id :: id in s.quotes ==> s.quotes[id].quoteId == id)
    && (forall id :: id in s.payments ==> s.payments[id].paymentId == id)
  }

  /** A new quote is saved and announced, and the message that asked for it is marked. */
  predicate Opening(s: Store, ws: seq<Write>) {
    && 2 <= |ws| <= 3 && ws[0].SaveQuote?
    && var q := ws[0].quote;
    && q == NewQuote(Uuid(s.next), q.serviceOrderId, q.items, q.total)
    && q.serviceOrderId != "" && q.items != []
    && ws[1] == Publish(QuoteEvent(q, QuoteCreated, Uuid(s.next + 1)))
    && (|ws| == 3 ==> ws[2].Mark? && ws[2].quoteId == q.quoteId)
  }

  /** A created quote is approved and gets its payment. */
  predicate Approving(s: Store, ws: seq<Write>) {
    && |ws| == 4 && ws[0].SaveQuote? && ws[1].SavePayment?
    && var q, p := ws[0].quote, ws[1].payment;
    && q.quoteId in s.quotes && s.quotes[q.quoteId].status.Created?
    && q == s.quotes[q.quoteId].(status := Approved)
    && p.preference.Some? && p.preference.value.externalReference == Some(q.serviceOrderId)
    && p == PaymentOf(q, Uuid(s.next + 1), p.preference.value)
    && ws[2] == Publish(QuoteEvent(q, QuoteApproved, Uuid(s.next)))
    && ws[3] == Publish(PaymentEvent(p, PreferenceCreated(p.paymentId, p.preference.value.preferenceId),
                                     Uuid(s.next + 2)))
  }

  predicate Resaving(s: Store, ws: seq<Write>) {
    && |ws| == 1 && ws[0].SavePayment? && ws[0].payment.paymentId in s.payments
    && ws[0].payment == s.payments[ws[0].payment.paymentId]
  }

  /** A payment is confirmed, from pending, or failed, from anything but confirmed. */
  predicate Settling(s: Store, ws: seq<Write>) {
    && |ws| == 2 && ws[0].SavePayment? && ws[1].Publish?
    && var p, k := ws[0].payment, ws[1].event.kind;
    && p.paymentId in s.payments
    && var before := s.payments[p.paymentId];
    && p == before.(status := p.status)
    && ws[1].event == PaymentEvent(p, k, Uuid(s.next))
    && if p.status.Confirmed? then before.status.Pending? && k == PaymentConfirmed(p.paymentId)
       else p.status.Failed? && !before.status.Confirmed? && k.PaymentFailed? && k.paymentId == p.paymentId
  }

  ghost predicate KnownKind(s: Store, plan: Plan) {
    || plan.writes == []
    || (Opening(s, plan.writes) && plan.drawn == 2)
    || (Approving(s, plan.writes) && plan.drawn == 3)
    || (Resaving(s, plan.writes) && plan.drawn == 0)
    || (Settling(s, plan.writes) && plan.drawn == 1)
  }

  lemma ClassifiedKind(s: Store, paymentId: Id, meaning: StatusClass, status: string, detail: Option<string>)
    requires Keyed(s)
    ensures KnownKind(s, PlanClassified(s, paymentId, meaning, status, detail))
    ensures |PlanClassified(s, paymentId, meaning, status, detail).writes| <= 2
  {
  }

  lemma DeliverKind(s: Store, b: Body, d: Defaults)
    requires Keyed(s)
    ensures KnownKind(s, PlanDeliver(s, b, d)) && |PlanDeliver(s, b, d).writes| <= 3
  {
    if PlanDeliver(s, b, d).writes != [] {
      assert KnownKind(s, PlanCreate(s, b.payload.value.serviceOrderId.value, d.items, d.amount));
    }
  }

  /** Synchronising either raises or applies the status that was found. */
  lemma SyncApplies(s: Store, paymentId: Id, reply: SearchReply) returns (status: string, detail: Option<string>)
    ensures var plan := PlanSync(s, paymentId, reply);
            || (plan.answer.Err? && plan == Raise(plan.answer.error))
            || plan == PlanApply(s, paymentId, status, detail)
  {
    status, detail := "", None;
    if paymentId in s.payments {
      var found := GetPaymentStatus(s.payments[paymentId], reply);
      if found.Ok? {
        status, detail := found.value.status, found.value.detail;
      }
    }
  }

  lemma ApproveKind(s: Store, quoteId: Id, reply: PreferenceReply)
    requires Keyed(s)
    ensures KnownKind(s, PlanApprove(s, quoteId, reply))
    ensures PlanApprove(s, quoteId, reply).answer.Ok? <==> |PlanApprove(s, quoteId, reply).writes| == 4
    ensures PlanApprove(s, quoteId, reply).answer.Ok? ==>
              PlanApprove(s, quoteId, reply).writes[0].quote.quoteId == quoteId
  {
  }

  lemma SettleKind(s: Store, paymentId: Id, reason: string)
    requires Keyed(s)
    ensures KnownKind(s, PlanConfirm(s, paymentId))
    ensures KnownKind(s, PlanFail(s, paymentId, reason))
  {
  }

  /** Every use case that writes anything makes one of the four kinds of list; only a
      successful approval approves. */
  lemma KindOf(s: Store, c: Command)
    requires Keyed(s)
    ensures KnownKind(s, PlanOf(s, c))
    ensures |PlanOf(s, c).writes| == 4 <==> c.ApproveQuote? && PlanOf(s, c).answer.Ok?
    ensures c.ApproveQuote? && PlanOf(s, c).answer.Ok? ==> PlanOf(s, c).writes[0].quote.quoteId == c.quoteId
  {
    match c
    case CreateQuote(so, items, amount) => assert KnownKind(s, PlanCreate(s, so, items, amount));
    case ApproveQuote(quoteId, reply) => ApproveKind(s, quoteId, reply);
    case ConfirmPayment(paymentId) => SettleKind(s, paymentId, "");
    case FailPayment(paymentId, reason) => SettleKind(s, paymentId, reason);
    case ApplyStatus(paymentId, status, detail) => ClassifiedKind(s, paymentId, Classify(status), status, detail);
    case SyncStatus(paymentId, reply) =>
      var status, detail := SyncApplies(s, paymentId, reply);
      ClassifiedKind(s, paymentId, Classify(status), status, detail);
    case Deliver(body, defaults) => DeliverKind(s, body, defaults);
  }

  lemma OpeningEffect(s: Store, t: Store, ws: seq<Write>)
    requires Opening(s, ws)
    ensures PerformAll(t, ws) ==
            Store(t.quotes[ws[0].quote.quoteId := ws[0].quote], t.payments,
                  if |ws| == 3 then t.processed[ws[2].eventId := ws[0].quote.quoteId] else t.processed,
                  t.history + [ws[1].event], t.next)
  {
    if |ws| == 3 {
      assert ws == [ws[0], ws[1], ws[2]];
      PerformThree(t, ws[0], ws[1], ws[2]);
    } else {
      assert ws == [ws[0], ws[1]];
      PerformTwo(t, ws[0], ws[1]);
    }
  }

  lemma ApprovingEffect(s: Store, t: Store, ws: seq<Write>)
    requires Approving(s, ws)
    ensures PerformAll(t, ws) ==
            Store(t.quotes[ws[0].quote.quoteId := ws[0].quote],
                  t.payments[ws[1].payment.paymentId := ws[1].payment],
                  t.processed, t.history + [ws[2].event, ws[3].event], t.next)
  {
    assert ws == [ws[0], ws[1], ws[2], ws[3]];
    PerformFour(t, ws[0], ws[1], ws[2], ws[3]);
    assert t.history + [ws[2].event] + [ws[3].event] == t.history + [ws[2].event, ws[3].event];
  }

  lemma SettlingEffect(s: Store, t: Store, ws: seq<Write>)
    requires Settling(s, ws)
    ensures PerformAll(t, ws) ==
            Store(t.quotes, t.payments[ws[0].payment.paymentId := ws[0].payment], t.processed,
                  t.history + [ws[1].event], t.next)
  {
    assert ws == [ws[0], ws[1]];
    PerformTwo(t, ws[0], ws[1]);
  }

  lemma ResavingEffect(s: Store, t: Store, ws: seq<Write>)
    requires Resaving(s, ws) && t.payments == s.payments
    ensures PerformAll(t, ws) == t
  {
    assert ws == [ws[0]];
    PerformOne(t, ws[0]);
  }

  // ----- Executing a command -----

  /** Row-copying repositories change only through saves. In-memory repositories hand
      out the stored object, so what a use case does to it shows at once. */
  datatype Mode = Copying | Aliasing

  function Draw(s: Store, plan: Plan): Store {
    s.(next := s.next + plan.drawn)
  }

  /** The effect on stored objects before the first save. */
  function TouchStored(s: Store, c: Command): Store {
    match c
    case ApproveQuote(quoteId, _) =>
      if quoteId in s.quotes && s.quotes[quoteId].status.Created?
      then Perform(s, SaveQuote(s.quotes[quoteId].(status := Approved)))
      else s
    case _ =>
      var ws := PlanOf(s, c).writes;
      if ws != [] && ws[0].SavePayment? then Perform(s, ws[0]) else s
  }

  function Before(mode: Mode, s: Store, c: Command): Store {
    Draw(if mode.Aliasing? then TouchStored(s, c) else s, PlanOf(s, c))
  }

  function Exec(mode: Mode, s: Store, c: Command): Store {
    PerformAll(Before(mode, s, c), PlanOf(s, c).writes)
  }

  function Run(mode: Mode, cs: seq<Command>): Store {
    if cs == [] then EMPTY else Exec(mode, Run(mode, cs[..|cs| - 1]), cs[|cs| - 1])
  }

  /** The state left when the process dies after the first `k` writes. */
  function Crash(s: Store, c: Command, k: nat): Store {
    var ws := PlanOf(s, c).writes;
    PerformAll(Draw(s, PlanOf(s, c)), ws[..if k < |ws| then k else |ws|])
  }

  datatype Attempt = Attempt(command: Command, survived: nat)

  /** A run in which any command may be cut short. */
  function CrashRun(attempts: seq<Attempt>): Store {
    if attempts == [] then EMPTY
    else
      var last := attempts[|attempts| - 1];
      Crash(CrashRun(attempts[..|attempts| - 1]), last.command, last.survived)
  }
}
