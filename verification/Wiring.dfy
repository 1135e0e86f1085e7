/** What the application is wired with, and how the store it amounts to changes when one
    of its objects does. */
module Wiring {
  import opened Wrappers
  import opened Billing
  import opened Saga
  import opened Deliveries
  import opened Tables
  import opened Entities
  import opened Repositories
  import opened Publishers

  /** The writes, the whole store right after each of them, and the queue if there is one. */
  datatype Record = Record(writes: seq<Write>, stages: seq<Store>, queue: Option<seq<Body>>)

  function Queued(queue: Option<seq<Body>>, ws: seq<Write>): Option<seq<Body>> {
    if queue.None? then None else Some(queue.value + EncodeAll(Events(ws)))
  }

  /** The log after more writes that start from the store `s`; every event among them has
      been queued. */
  function Logged(log: Record, s: Store, ws: seq<Write>): Record {
    Record(log.writes + ws, log.stages + Stages(s, ws), Queued(log.queue, ws))
  }

  lemma LoggedNone(log: Record, s: Store)
    ensures Logged(log, s, []) == log
  {
    assert EncodeAll(Events([])) == [] && Stages(s, []) == [];
    assert log.queue.Some? ==> log.queue.value + [] == log.queue.value;
    assert log.writes + [] == log.writes && log.stages + [] == log.stages;
  }

  lemma LoggedOne(log: Record, s: Store, w: Write)
    ensures Logged(log, s, [w]) ==
            Record(log.writes + [w], log.stages + [Perform(s, w)],
                   if log.queue.None? || !w.Publish? then log.queue
                   else Some(log.queue.value + [Encode(w.event)]))
  {
    assert [w][1..] == [] && Stages(Perform(s, w), []) == [];
    assert Events([w]) == if w.Publish? then [w.event] else [];
    assert EncodeAll(Events([w])) == if w.Publish? then [Encode(w.event)] else [];
    assert log.queue.Some? ==> log.queue.value + [] == log.queue.value;
  }

  lemma QueuedConcat(queue: Option<seq<Body>>, a: seq<Write>, b: seq<Write>)
    ensures Queued(Queued(queue, a), b) == Queued(queue, a + b)
  {
    EventsOfConcat(a, b);
    var first, second := EncodeAll(Events(a)), EncodeAll(Events(b));
    assert EncodeAll(Events(a) + Events(b)) == first + second;
    if queue.Some? { assert (queue.value + first) + second == queue.value + (first + second); }
  }

  lemma LoggedConcat(log: Record, s: Store, a: seq<Write>, b: seq<Write>)
    ensures Logged(Logged(log, s, a), PerformAll(s, a), b) == Logged(log, s, a + b)
  {
    StagesOfConcat(s, a, b);
    QueuedConcat(log.queue, a, b);
    hide Queued, Stages;
  }

  lemma LoggedTwo(log: Record, s: Store, a: Write, b: Write)
    ensures Logged(Logged(log, s, [a]), Perform(s, a), [b]) == Logged(log, s, [a, b])
  {
    PerformOne(s, a);
    LoggedConcat(log, s, [a], [b]);
    assert [a] + [b] == [a, b];
  }

  /** What the application is wired with: both repositories of one kind. */
  datatype Ports = Ports(quotes: QuotePort, payments: PaymentPort, publisher: PublisherPort,
                         processed: ProcessedEventRepository, uuids: UuidSource, journal: Journal)
  {
    ghost function Frame(): set<object>
      reads quotes.Repository(), payments.Repository()
    {
      {quotes.Repository(), payments.Repository(), processed, uuids, journal}
      + publisher.Objects() + quotes.Objects() + payments.Objects()
    }

    ghost predicate Valid()
      reads quotes.Repository(), payments.Repository(), processed, publisher.Objects()
    {
      && quotes.Valid() && payments.Valid() && publisher.Valid() && processed.Valid()
      && quotes.Journal() == payments.Journal() == publisher.Journal() == processed.journal == journal
      && (quotes.MemoryQuotes? <==> payments.MemoryPayments?)
    }

    ghost function RepositoryMode(): Mode {
      if quotes.MemoryQuotes? then Aliasing else Copying
    }

    ghost function Snapshot(): Store
      reads Frame(), quotes.Repository(), payments.Repository()
    {
      Store(quotes.View(), payments.View(), processed.origin, publisher.History(), uuids.drawn)
    }

    /** The stored objects in insertion order; nothing when rows are stored. */
    ghost function Entries(): (Table<Quote>, Table<Payment>)
      reads quotes.Repository(), payments.Repository()
    {
      (quotes.Entries(), payments.Entries())
    }

    /** Entries were added at the end, if at all. */
    ghost predicate Extends(before: (Table<Quote>, Table<Payment>))
      reads quotes.Repository(), payments.Repository()
    {
      before.0 <= Entries().0 && before.1 <= Entries().1
    }

    ghost function Log(): Record
      reads journal, publisher.Objects()
    {
      Record(journal.writes, journal.stages, if publisher.Local? then None else Some(publisher.Queue()))
    }

    /** The store as it is now goes on record. */
    ghost method Stage()
      requires Valid()
      modifies journal`stages
      ensures Valid() && Frame() == old(Frame()) && Snapshot() == old(Snapshot()) && Entries() == old(Entries())
      ensures publisher.Queue() == old(publisher.Queue())
      ensures Log() == old(Log()).(stages := old(journal.stages) + [Snapshot()])
    {
      hide QuotesView, PaymentsView, RowsView, ValidQuotes, ValidPayments, ValidRows;
      journal.stages := journal.stages + [Snapshot()];
      QuotesUntouched(quotes);
      PaymentsUntouched(payments);
    }

    // ----- Single writes -----

    /** Objects of different classes are different. */
    lemma RepositoriesStandAlone()
      ensures quotes.Repository() != payments.Repository()
      ensures {quotes.Repository(), payments.Repository()} !! publisher.Objects() + {processed, uuids, journal}
      ensures journal as object !in publisher.Objects() + {processed, uuids}
    {
    }

    method Save(quote: Quote)
      requires Valid()
      modifies quotes.Repository(), journal
      ensures Valid() && Snapshot() == Perform(old(Snapshot()), SaveQuote(quote.Data()))
      ensures Frame() <= old(Frame()) + {quote}
      ensures Log() == Logged(old(Log()), old(Snapshot()), [SaveQuote(quote.Data())])
      ensures old(HeldQuote(this, quote) || quote.quoteId !in Snapshot().quotes) ==> Extends(old(Entries()))
      ensures publisher.Queue() == old(publisher.Queue())
    {
      hide QuotesView, PaymentsView, RowsView, ValidQuotes, ValidPayments, ValidRows;
      RepositoriesStandAlone();
      hide PublisherPort.History, PublisherPort.Queue, PublisherPort.Valid, QuotePort.View, PaymentPort.View,
        QuotePort.Valid, PaymentPort.Valid;
      LoggedOne(Log(), Snapshot(), SaveQuote(quote.Data()));
      hide Logged;
      quotes.Save(quote);
      PaymentsUntouched(payments);
      Stage();
    }

    method SavePayment(payment: Payment)
      requires Valid()
      modifies payments.Repository(), journal
      ensures Valid() && Snapshot() == Perform(old(Snapshot()), Saga.SavePayment(payment.Data()))
      ensures Frame() <= old(Frame()) + {payment}
      ensures Log() == Logged(old(Log()), old(Snapshot()), [Saga.SavePayment(payment.Data())])
      ensures old(HeldPayment(this, payment) || payment.paymentId !in Snapshot().payments) ==> Extends(old(Entries()))
      ensures publisher.Queue() == old(publisher.Queue())
    {
      hide QuotesView, PaymentsView, RowsView, ValidQuotes, ValidPayments, ValidRows;
      RepositoriesStandAlone();
      hide PublisherPort.History, PublisherPort.Queue, PublisherPort.Valid, QuotePort.View, PaymentPort.View,
        QuotePort.Valid, PaymentPort.Valid;
      LoggedOne(Log(), Snapshot(), Saga.SavePayment(payment.Data()));
      hide Logged;
      payments.Save(payment);
      QuotesUntouched(quotes);
      Stage();
    }

    method Publish(event: Event)
      requires Valid()
      modifies publisher.Objects(), journal
      ensures Valid() && Snapshot() == Perform(old(Snapshot()), Saga.Publish(event))
      ensures Frame() == old(Frame())
      ensures publisher.Queue() == old(publisher.Queue()) + publisher.Copies(event)
      ensures Log() == Logged(old(Log()), old(Snapshot()), [Saga.Publish(event)])
      ensures Entries() == old(Entries())
    {
      hide QuotesView, PaymentsView, RowsView, ValidQuotes, ValidPayments, ValidRows;
      LoggedOne(Log(), Snapshot(), Saga.Publish(event));
      hide Logged;
      publisher.Publish(event);
      QuotesUntouched(quotes);
      PaymentsUntouched(payments);
      Stage();
    }

    method MarkProcessed(eventId: Id, ghost quoteId: Id)
      requires Valid()
      modifies processed, journal
      ensures Valid() && Snapshot() == Perform(old(Snapshot()), Mark(eventId, quoteId))
      ensures Frame() == old(Frame())
      ensures Log() == Logged(old(Log()), old(Snapshot()), [Mark(eventId, quoteId)])
      ensures Entries() == old(Entries())
      ensures publisher.Queue() == old(publisher.Queue())
    {
      hide QuotesView, PaymentsView, RowsView, ValidQuotes, ValidPayments, ValidRows;
      LoggedOne(Log(), Snapshot(), Mark(eventId, quoteId));
      hide Logged;
      processed.MarkProcessed(eventId, quoteId);
      QuotesUntouched(quotes);
      PaymentsUntouched(payments);
      Stage();
    }
  }

  ghost predicate HeldPayment(ports: Ports, payment: Payment)
    reads ports.payments.Repository()
  {
    payment in ports.payments.Objects() <==> ports.payments.MemoryPayments?
  }

  ghost predicate HeldQuote(ports: Ports, quote: Quote)
    reads ports.quotes.Repository()
  {
    quote in ports.quotes.Objects() <==> ports.quotes.MemoryQuotes?
  }

  /** An object that the repository holds shows at once what has become of it. */
  ghost function WithQuote(s: Store, port: QuotePort, quote: Quote): Store
    reads port.Repository(), quote
  {
    if quote in port.Objects() then Perform(s, SaveQuote(quote.Data())) else s
  }

  ghost function WithPayment(s: Store, port: PaymentPort, payment: Payment): Store
    reads port.Repository(), payment
  {
    if payment in port.Objects() then Perform(s, Saga.SavePayment(payment.Data())) else s
  }

  /** Nothing but the given objects has changed, as far as the single-object parts go. */
  twostate lemma RestUnchanged(ports: Ports, new changed: set<object>)
    requires forall o :: o in old(ports.Frame()) - changed ==> unchanged(o)
    requires changed !! {ports.quotes.Repository(), ports.payments.Repository(), ports.processed, ports.journal}
    requires changed !! ports.publisher.Objects()
    ensures unchanged(ports.quotes.Repository()) && unchanged(ports.payments.Repository())
    ensures unchanged(ports.processed) && unchanged(ports.journal)
    ensures ports.publisher.Valid() == old(ports.publisher.Valid())
    ensures ports.publisher.History() == old(ports.publisher.History())
    ensures ports.publisher.Queue() == old(ports.publisher.Queue())
  {
    assert ports.quotes.Repository() in old(ports.Frame()) - changed;
    assert ports.payments.Repository() in old(ports.Frame()) - changed;
    assert ports.processed in old(ports.Frame()) - changed;
    assert ports.journal in old(ports.Frame()) - changed;
    forall o | o in ports.publisher.Objects() ensures o in old(ports.Frame()) - changed {}
  }

  /** Only the quote and the id source may have changed. */
  twostate lemma QuoteChanged(ports: Ports, new quote: Quote)
    requires forall o :: o in old(ports.Frame()) - {quote, ports.uuids} ==> unchanged(o)
    ensures ports.Valid() == old(ports.Valid()) && ports.Frame() == old(ports.Frame())
    ensures ports.Entries() == old(ports.Entries())
    ensures ports.Log() == old(ports.Log()) && ports.publisher.Queue() == old(ports.publisher.Queue())
    ensures old(ports.Valid()) ==>
              ports.Snapshot() == WithQuote(old(ports.Snapshot()), ports.quotes, quote).(next := ports.uuids.drawn)
  {
    RestUnchanged(ports, {quote, ports.uuids});
    forall o | o in old(ports.quotes.Objects()) - {quote} ensures unchanged(o) {
      assert o as object in old(ports.Frame()) - {quote, ports.uuids};
    }
    QuoteTouched(ports.quotes, quote);
    forall o | o in old(ports.payments.Objects()) ensures unchanged(o) {
      assert o as object in old(ports.Frame()) - {quote, ports.uuids};
    }
    PaymentsUntouched(ports.payments);
  }

  /** Only the payment and the id source may have changed. */
  twostate lemma PaymentChanged(ports: Ports, new payment: Payment)
    requires forall o :: o in old(ports.Frame()) - {payment, ports.uuids} ==> unchanged(o)
    ensures ports.Valid() == old(ports.Valid()) && ports.Frame() == old(ports.Frame())
    ensures ports.Entries() == old(ports.Entries())
    ensures ports.Log() == old(ports.Log()) && ports.publisher.Queue() == old(ports.publisher.Queue())
    ensures old(ports.Valid()) ==>
              ports.Snapshot() == WithPayment(old(ports.Snapshot()), ports.payments,
                payment).(next := ports.uuids.drawn)
  {
    RestUnchanged(ports, {payment, ports.uuids});
    forall o | o in old(ports.payments.Objects()) - {payment} ensures unchanged(o) {
      assert o as object in old(ports.Frame()) - {payment, ports.uuids};
    }
    PaymentTouched(ports.payments, payment);
    forall o | o in old(ports.quotes.Objects()) ensures unchanged(o) {
      assert o as object in old(ports.Frame()) - {payment, ports.uuids};
    }
    QuotesUntouched(ports.quotes);
  }

  /** Only the id source may have changed, as after building a new object. */
  twostate lemma IdsDrawn(ports: Ports)
    requires forall o :: o in old(ports.Frame()) - {ports.uuids} ==> unchanged(o)
    ensures ports.Valid() == old(ports.Valid()) && ports.Frame() == old(ports.Frame())
    ensures ports.Entries() == old(ports.Entries())
    ensures ports.Log() == old(ports.Log()) && ports.publisher.Queue() == old(ports.publisher.Queue())
    ensures old(ports.Valid()) ==> ports.Snapshot() == old(ports.Snapshot()).(next := ports.uuids.drawn)
  {
    RestUnchanged(ports, {ports.uuids});
    forall o | o in old(ports.quotes.Objects()) ensures unchanged(o) {
      assert o as object in old(ports.Frame()) - {ports.uuids};
    }
    QuotesUntouched(ports.quotes);
    forall o | o in old(ports.payments.Objects()) ensures unchanged(o) {
      assert o as object in old(ports.Frame()) - {ports.uuids};
    }
    PaymentsUntouched(ports.payments);
  }
}
