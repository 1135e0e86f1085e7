/** The queue worker: the handler of one message, and the loop that empties the queue. */
module Worker {
  import opened Wrappers
  import opened Decimals
  import opened Billing
  import opened Saga
  import opened Entities
  import opened Repositories
  import opened Publishers
  import opened Wiring
  import opened UseCases
  import opened Deliveries

  /** The handler's plan in terms of the plan for the quote it creates. */
  lemma HandlingSteps(s: Store, b: Body, d: Defaults)
    requires b.Fields?
    ensures var plan := PlanHandle(s, b, d); var t := PerformAll(Draw(s, plan), plan.writes);
            if b.eventId.None? || b.eventType.None? || b.correlationId.None? then t == s && plan == Raise(MissingField)
            else if b.eventId.value in s.processed then t == s && plan == Plan([], 0, Ok(Skipped))
            else if b.eventType.value != OsOpened then t == s && plan == Plan([], 0, Ok(Ignored))
            else if b.payload.None? then t == s && plan == Raise(MissingField)
            else if b.payload.value.NotADict? then t == s && plan == Raise(PayloadUnreadable)
            else if b.payload.value.serviceOrderId.None? then t == s && plan == Raise(MissingServiceOrder)
            else
              var create := PlanCreate(s, b.payload.value.serviceOrderId.value, d.items, d.amount);
              if create.answer.Err? then t == s && create.writes == plan.writes == [] && plan.answer == create.answer
              else
                var mark := Mark(b.eventId.value, Uuid(s.next));
                && |create.writes| == 2 && plan.writes == create.writes + [mark] && plan.answer == Ok(Processed)
                && Draw(s, plan) == s.(next := s.next + 2)
                && t == Perform(Perform(Perform(s.(next := s.next + 2), create.writes[0]), create.writes[1]), mark)
                && EncodeAll(Events(plan.writes)) == [Encode(create.writes[1].event)]
  {
    var plan := PlanHandle(s, b, d);
    if |plan.writes| == 3 {
      var ws := plan.writes;
      assert ws == [ws[0], ws[1], ws[2]];
      PerformThree(s.(next := s.next + 2), ws[0], ws[1], ws[2]);
      ThreeEvents(ws);
    }
  }

  lemma ThreeEvents(ws: seq<Write>)
    requires |ws| == 3 && !ws[0].Publish? && ws[1].Publish? && !ws[2].Publish?
    ensures EncodeAll(Events(ws)) == [Encode(ws[1].event)]
  {
    var rest := ws[1..];
    var last := rest[1..];
    assert rest[0] == ws[1] && last[0] == ws[2] && last[1..] == [];
    assert Events(last) == [];
    assert Events(rest) == [ws[1].event] + Events(last);
    assert Events(ws) == Events(rest);
  }

  method IsProcessed(ports: Ports, eventId: Id) returns (r: bool)
    requires ports.Valid()
    ensures Intact(ports, old(ports.Frame()), old(ports.Log()), old(ports.publisher.Queue()),
                   old(ports.Entries()))
    ensures ports.Snapshot() == old(ports.Snapshot())
    ensures r <==> eventId in ports.Snapshot().processed
  {
    hide QuotesView, PaymentsView, RowsView, ValidQuotes, ValidPayments, ValidRows;
    r := ports.processed.IsProcessed(eventId);
    IdsDrawn(ports);
  }

  lemma NewQuoteIsNamed(s: Store, serviceOrderId: string, items: seq<string>, amount: Decimal)
    ensures var create := PlanCreate(s, serviceOrderId, items, amount);
            create.answer.Ok? ==> create.answer.value.QuoteAnswer? && create.answer.value.quote.quoteId == Uuid(s.next)
  {
  }

  lemma OneMoreLogged(log: Record, s: Store, ws: seq<Write>, w: Write)
    requires |ws| == 2
    ensures Logged(Logged(log, s, ws), Perform(Perform(s, ws[0]), ws[1]), [w]) == Logged(log, s, ws + [w])
  {
    assert ws == [ws[0], ws[1]];
    PerformTwo(s, ws[0], ws[1]);
    LoggedConcat(log, s, ws, [w]);
  }

  /** Create the quote, then mark the event. */
  method CreateAndMark(ports: Ports, eventId: Id, serviceOrderId: string, items: seq<string>, amount: Decimal)
    returns (r: Result<Answer, Error>)
    requires ports.Valid()
    modifies ports.Frame()
    ensures ports.Valid() && fresh(ports.Frame() - old(ports.Frame()))
    ensures UnusedIds(old(ports.Snapshot())) ==> ports.Extends(old(ports.Entries()))
    ensures var s := old(ports.Snapshot()); var create := PlanCreate(s, serviceOrderId, items, amount);
            var mark := Mark(eventId, Uuid(s.next));
            if create.answer.Err? then
              && r == Err(create.answer.error) && ports.Snapshot() == s
              && ports.Log() == old(ports.Log())
              && ports.publisher.Queue() == old(ports.publisher.Queue())
            else
              && r == Ok(Processed) && |create.writes| == 2 && create.writes[1].Publish?
              && ports.Snapshot() ==
                 Perform(Perform(Perform(s.(next := s.next + 2), create.writes[0]), create.writes[1]), mark)
              && ports.Log() == Logged(old(ports.Log()), s.(next := s.next + 2), create.writes + [mark])
              && ports.publisher.Queue() == old(ports.publisher.Queue())
                + ports.publisher.Copies(create.writes[1].event)
  {
    ghost var s, log := ports.Snapshot(), ports.Log();
    ghost var create := PlanCreate(s, serviceOrderId, items, amount);
    NewQuoteIsNamed(s, serviceOrderId, items, amount);
    hide QuotesView, PaymentsView, RowsView, ValidQuotes, ValidPayments, ValidRows, PlanCreate, Perform, Logged;
    var quote :- CreateSteps(ports, serviceOrderId, items, amount);
    OneMoreLogged(log, s.(next := s.next + 2), create.writes, Mark(eventId, Uuid(s.next)));
    ports.MarkProcessed(eventId, quote.quoteId);
    return Ok(Processed);
  }

  lemma NoEvents()
    ensures EncodeAll(Events([])) == []
  {
  }

  /** What publishing the events among the writes puts on the queue. */
  function Published(ports: Ports, ws: seq<Write>): seq<Body> {
    if ports.publisher.Local? then [] else EncodeAll(Events(ws))
  }

  lemma NothingPublished(ports: Ports)
    ensures Published(ports, []) == []
  {
    NoEvents();
  }

  /** A message that asks for a quote and has not been processed. */
  method Open(ports: Ports, b: Body, d: Defaults) returns (r: Result<Answer, Error>)
    requires ports.Valid() && AsksForQuote(b)
    requires b.eventId.Some? && b.correlationId.Some? && b.eventId.value !in ports.Snapshot().processed
    requires b.payload.Some? && !b.payload.value.NotADict? && b.payload.value.serviceOrderId.Some?
    modifies ports.Frame()
    ensures ports.Valid() && fresh(ports.Frame() - old(ports.Frame()))
    ensures var s := old(ports.Snapshot()); var plan := PlanHandle(s, b, d);
            && r == plan.answer
            && ports.Snapshot() == PerformAll(Draw(s, plan), plan.writes)
            && ports.Log() == Logged(old(ports.Log()), Draw(s, plan), plan.writes)
            && ports.publisher.Queue() == old(ports.publisher.Queue()) + Published(ports, plan.writes)
    ensures UnusedIds(old(ports.Snapshot())) ==> ports.Extends(old(ports.Entries()))
  {
    hide QuotesView, PaymentsView, RowsView, ValidQuotes, ValidPayments, ValidRows;
    hide PlanHandle, PlanCreate, Perform, PerformAll, Draw, EncodeAll, Encode, Ports.Snapshot, Logged;
    HandlingSteps(ports.Snapshot(), b, d);
    LoggedNone(ports.Log(), Draw(ports.Snapshot(), PlanHandle(ports.Snapshot(), b, d)));
    NoEvents();
    r := CreateAndMark(ports, b.eventId.value, b.payload.value.serviceOrderId.value, d.items, d.amount);
  }

  class BillingIntegrationEventHandler {
    const ports: Ports
    const defaults: Defaults

    constructor (ports: Ports, defaults: Defaults)
      ensures this.ports == ports && this.defaults == defaults
    {
      this.ports, this.defaults := ports, defaults;
    }

    /** Any dictionary will do, validated or not. The mark comes last. */
    method Handle(b: Body) returns (r: Result<Answer, Error>)
      requires ports.Valid() && b.Fields?
      modifies ports.Frame()
      ensures ports.Valid() && fresh(ports.Frame() - old(ports.Frame()))
      ensures var s := old(ports.Snapshot()); var plan := PlanHandle(s, b, defaults);
              && r == plan.answer
              && ports.Snapshot() == PerformAll(Draw(s, plan), plan.writes)
              && ports.Log() == Logged(old(ports.Log()), Draw(s, plan), plan.writes)
              && ports.publisher.Queue() == old(ports.publisher.Queue()) + Published(ports, plan.writes)
      ensures UnusedIds(old(ports.Snapshot())) ==> ports.Extends(old(ports.Entries()))
    {
      hide QuotesView, PaymentsView, RowsView, ValidQuotes, ValidPayments, ValidRows;
      hide PlanHandle, PlanCreate, Perform, PerformAll, Draw, EncodeAll, Encode, Ports.Snapshot, Published, Logged;
      NothingPublished(ports);
      LoggedNone(ports.Log(), Draw(ports.Snapshot(), PlanHandle(ports.Snapshot(), b, defaults)));
      HandlingSteps(ports.Snapshot(), b, defaults);
      if b.eventId.None? || b.eventType.None? || b.correlationId.None? { return Err(MissingField); }
      var seen := IsProcessed(ports, b.eventId.value);
      if seen { return Ok(Skipped); }
      if b.eventType.value != OsOpened { return Ok(Ignored); }
      if b.payload.None? { return Err(MissingField); }
      if b.payload.value.NotADict? { return Err(PayloadUnreadable); }
      if b.payload.value.serviceOrderId.None? { return Err(MissingServiceOrder); }
      r := Open(ports, b, defaults);
    }
  }

  /** The handler never touches a stored object, so both kinds of repositories agree. */
  lemma DeliveryIsTheSameEverywhere(mode: Mode, s: Store, b: Body, d: Defaults)
    ensures Exec(mode, s, Deliver(b, d)) == Handle(s, b, d)
    ensures Before(mode, s, Deliver(b, d)) == Draw(s, PlanDeliver(s, b, d))
  {
    var ws := PlanDeliver(s, b, d).writes;
    assert ws != [] ==> ws[0].SaveQuote?;
  }

  /** Handling a validated message is a delivery, and what it publishes is the echo. */
  lemma ValidatedHandling(s: Store, b: Body, d: Defaults)
    requires ValidBody(b)
    ensures var plan := PlanHandle(s, b, d);
            && PlanOf(s, Deliver(b, d)) == plan
            && Handle(s, b, d) == PerformAll(Draw(s, plan), plan.writes)
            && EncodeAll(Events(plan.writes)) == Echo(s, b, d)
  {
    DefaultCurrencyIsValid();
    HandlingSteps(s, b, d);
    NoEvents();
  }

  lemma NoFields(s: Store, b: Body, d: Defaults)
    ensures ValidBody(b) ==> b.Fields?
    ensures !ValidBody(b) ==> PlanOf(s, Deliver(b, d)).answer.Err? && Handle(s, b, d) == s && Echo(s, b, d) == []
  {
  }

  lemma DrainUnfolds(s: Store, queue: seq<Body>, d: Defaults)
    ensures Drain(s, queue, d) ==
            if queue == [] then (s, 0)
            else
              var rest := Drain(Deliveries.Handle(s, queue[0], d), queue[1..] + Echo(s, queue[0], d), d);
              (rest.0, 1 + rest.1)
  {
  }

  lemma LiveUnfolds(s: Store, queue: seq<Body>, moments: seq<Moment>, i: nat, d: Defaults)
    requires i < |moments|
    ensures Live(s, queue, moments[i..], d) ==
            match moments[i]
            case Arrives(b) => Live(s, queue + [b], moments[i + 1..], d)
            case Delivers =>
              if queue == [] then Live(s, queue, moments[i + 1..], d)
              else Live(Deliveries.Handle(s, queue[0], d), queue[1..] + Echo(s, queue[0], d), moments[i + 1..], d)
  {
    assert moments[i..][1..] == moments[i + 1..];
  }

  lemma LiveEnds(s: Store, queue: seq<Body>, d: Defaults)
    ensures Live(s, queue, [], d) == (s, queue)
  {
  }

  /** Whatever happens to the queue itself changes nothing else. */
  twostate lemma QueueChanged(ports: Ports, new broker: Broker)
    requires ports.publisher.Rabbit? && broker == ports.publisher.rabbit.broker
    requires forall o :: o in old(ports.Frame()) - {broker} ==> unchanged(o)
    ensures ports.Valid() == old(ports.Valid()) && ports.Frame() == old(ports.Frame())
    ensures old(ports.Valid()) ==> ports.Snapshot() == old(ports.Snapshot())
  {
    assert ports.quotes.Repository() in old(ports.Frame()) - {broker};
    assert ports.payments.Repository() in old(ports.Frame()) - {broker};
    assert ports.processed as object in old(ports.Frame()) - {broker};
    assert ports.uuids as object in old(ports.Frame()) - {broker};
    assert ports.publisher.rabbit as object in old(ports.Frame()) - {broker};
    forall o | o in old(ports.quotes.Objects()) ensures unchanged(o) {
      assert o as object in old(ports.Frame()) - {broker};
    }
    QuotesUntouched(ports.quotes);
    forall o | o in old(ports.payments.Objects()) ensures unchanged(o) {
      assert o as object in old(ports.Frame()) - {broker};
    }
    PaymentsUntouched(ports.payments);
  }

  class RabbitMqBlockingEventWorker {
    const handler: BillingIntegrationEventHandler
    const broker: Broker

    /** The service publishes to the queue that the worker consumes. */
    ghost predicate Valid()
      reads handler.ports.quotes.Repository(), handler.ports.payments.Repository()
      reads handler.ports.processed, handler.ports.publisher.Objects()
    {
      && handler.ports.Valid() && handler.ports.publisher.Rabbit?
      && handler.ports.publisher.rabbit.broker == broker
    }

    constructor (handler: BillingIntegrationEventHandler, broker: Broker)
      ensures this.handler == handler && this.broker == broker
    {
      this.handler, this.broker := handler, broker;
    }

    /** `_handle_delivery`: acknowledged if the handler returned, else rejected without
        requeueing; either way the message is gone. */
    method HandleDelivery(b: Body) returns (acked: bool)
      requires Valid()
      modifies handler.ports.Frame()
      ensures Valid() && fresh(handler.ports.Frame() - old(handler.ports.Frame()))
      ensures var s := old(handler.ports.Snapshot());
              && (acked <==> PlanOf(s, Deliver(b, handler.defaults)).answer.Ok?)
              && handler.ports.Snapshot() == Deliveries.Handle(s, b, handler.defaults)
              && broker.queue == old(broker.queue) + Echo(s, b, handler.defaults)
    {
      hide QuotesView, PaymentsView, RowsView, ValidQuotes, ValidPayments, ValidRows;
      hide PlanHandle, PerformAll, Draw, EncodeAll, Deliveries.Handle, Echo, Logged, ValidBody;
      ghost var s := handler.ports.Snapshot();
      NoFields(s, b, handler.defaults);
      if !ValidBody(b) {
        return false;
      }
      ValidatedHandling(s, b, handler.defaults);
      var r := handler.Handle(b);
      acked := r.Ok?;
    }

    /** Consuming until nothing is queued: it ends although announcements come back, and
        leaves what handling the initially queued messages alone would leave. */
    method Consume() returns (deliveries: nat)
      requires Valid()
      modifies handler.ports.Frame()
      ensures Valid() && broker.queue == []
      ensures var s, queue := old(handler.ports.Snapshot()), old(broker.queue);
              (handler.ports.Snapshot(), deliveries) == Drain(s, queue, handler.defaults)
    {
      hide QuotesView, PaymentsView, RowsView, ValidQuotes, ValidPayments, ValidRows;
      hide Drain, Echo, Deliveries.Handle, Load, Ports.Snapshot, Ports.Valid;
      deliveries := 0;
      while broker.queue != []
        invariant Valid() && fresh(handler.ports.Frame() - old(handler.ports.Frame()))
        invariant var s, queue := old(handler.ports.Snapshot()), old(broker.queue);
                  var rest := Drain(handler.ports.Snapshot(), broker.queue, handler.defaults);
                  Drain(s, queue, handler.defaults) == (rest.0, deliveries + rest.1)
        decreases Load(broker.queue)
      {
        DrainUnfolds(handler.ports.Snapshot(), broker.queue, handler.defaults);
        Next();
        deliveries := deliveries + 1;
      }
      DrainUnfolds(handler.ports.Snapshot(), [], handler.defaults);
    }

    /** The worker as it runs: others publish to the queue, and it takes one message after
        the other. */
    method Serve(moments: seq<Moment>)
      requires Valid()
      modifies handler.ports.Frame()
      ensures Valid() && fresh(handler.ports.Frame() - old(handler.ports.Frame()))
      ensures var s, queue := old(handler.ports.Snapshot()), old(broker.queue);
              (handler.ports.Snapshot(), broker.queue) == Live(s, queue, moments, handler.defaults)
    {
      hide QuotesView, PaymentsView, RowsView, ValidQuotes, ValidPayments, ValidRows;
      hide Live, Echo, Deliveries.Handle, Load, Ports.Snapshot, Ports.Valid;
      assert moments[0..] == moments;
      for i := 0 to |moments|
        invariant Valid() && fresh(handler.ports.Frame() - old(handler.ports.Frame()))
        invariant Live(old(handler.ports.Snapshot()), old(broker.queue), moments, handler.defaults)
                  == Live(handler.ports.Snapshot(), broker.queue, moments[i..], handler.defaults)
      {
        LiveUnfolds(handler.ports.Snapshot(), broker.queue, moments, i, handler.defaults);
        match moments[i]
        case Arrives(b) => Arrive(b);
        case Delivers =>
          if broker.queue != [] { Next(); }
      }
      assert moments[|moments|..] == [];
      LiveEnds(handler.ports.Snapshot(), broker.queue, handler.defaults);
    }

    method Arrive(b: Body)
      requires Valid()
      modifies broker
      ensures Valid() && handler.ports.Frame() == old(handler.ports.Frame())
      ensures handler.ports.Snapshot() == old(handler.ports.Snapshot())
      ensures broker.queue == old(broker.queue) + [b]
    {
      hide QuotesView, PaymentsView, RowsView, ValidQuotes, ValidPayments, ValidRows;
      broker.BasicPublish(b);
      QueueChanged(handler.ports, broker);
    }

    method Next()
      requires Valid() && broker.queue != []
      modifies handler.ports.Frame()
      ensures Valid() && fresh(handler.ports.Frame() - old(handler.ports.Frame()))
      ensures Load(broker.queue) < old(Load(broker.queue))
      ensures var s, queue := old(handler.ports.Snapshot()), old(broker.queue);
              && handler.ports.Snapshot() == Deliveries.Handle(s, queue[0], handler.defaults)
              && broker.queue == queue[1..] + Echo(s, queue[0], handler.defaults)
    {
      hide QuotesView, PaymentsView, RowsView, ValidQuotes, ValidPayments, ValidRows, Echo, Deliveries.Handle,
        Ports.Snapshot, Ports.Valid, Load;
      EchoLightens(handler.ports.Snapshot(), broker.queue, handler.defaults);
      var b := broker.Take();
      QueueChanged(handler.ports, broker);
      var acked := HandleDelivery(b);
    }
  }
}
