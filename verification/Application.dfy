/** The service as a whole: commands executed one after the other on freshly built ports. */
module Application {
  import opened Wrappers
  import opened Billing
  import opened Saga
  import opened CrashSafety
  import opened Entities
  import opened Repositories
  import opened Publishers
  import opened Wiring
  import opened UseCases
  import opened Deliveries
  import opened Messages
  import W = Worker
  import A = Aliasing

  /** Nothing has been stored, published or put on record. */
  ghost predicate Fresh(ports: Ports)
    reads ports.Frame(), ports.quotes.Repository(), ports.payments.Repository()
  {
    && ports.Valid() && ports.Snapshot() == EMPTY && ports.journal.writes == [] && ports.journal.stages == []
    && ports.publisher.Queue() == []
  }

  /** SQL repositories and the broker. */
  method BuildRealPorts() returns (ports: Ports)
    ensures fresh(ports.Frame()) && Fresh(ports) && ports.RepositoryMode() == Copying
  {
    var journal := new Journal();
    var uuids := new UuidSource();
    var processed := new ProcessedEventRepository(journal);
    var quotes := new SqlQuoteRepository(journal);
    var payments := new SqlPaymentRepository(journal);
    var broker := new Broker();
    var publisher := new RabbitMqBlockingEventPublisher(broker, journal);
    ports := Ports(TableQuotes(quotes), TablePayments(payments), Rabbit(publisher), processed, uuids, journal);
  }

  method BuildMemory(journal: Journal) returns (quotes: QuotePort, payments: PaymentPort)
    ensures quotes.MemoryQuotes? && fresh(quotes.memory) && quotes.Objects() == {}
    ensures payments.MemoryPayments? && fresh(payments.memory) && payments.Objects() == {}
    ensures quotes.Valid() && quotes.View() == map[] && quotes.Journal() == journal
    ensures payments.Valid() && payments.View() == map[] && payments.Journal() == journal
  {
    var quotesInMemory := new InMemoryQuoteRepository(journal);
    var paymentsInMemory := new InMemoryPaymentRepository(journal);
    quotes, payments := MemoryQuotes(quotesInMemory), MemoryPayments(paymentsInMemory);
  }

  /** Everything in memory. */
  method BuildLocalPorts() returns (ports: Ports)
    ensures fresh(ports.Frame()) && Fresh(ports) && ports.RepositoryMode() == Aliasing
  {
    hide QuotesView, PaymentsView, RowsView, ValidQuotes, ValidPayments, ValidRows, LosesNothing;
    var journal := new Journal();
    var uuids := new UuidSource();
    var processed := new ProcessedEventRepository(journal);
    var publisher := new InMemoryEventPublisher(journal);
    var quotes, payments := BuildMemory(journal);
    ports := Ports(quotes, payments, Local(publisher), processed, uuids, journal);
  }

  /** `APP_RUNTIME_MODE`. */
  method BuildPorts(realMode: bool) returns (ports: Ports)
    ensures fresh(ports.Frame()) && Fresh(ports)
    ensures ports.RepositoryMode() == if realMode then Copying else Aliasing
  {
    if realMode { ports := BuildRealPorts(); } else { ports := BuildLocalPorts(); }
  }

  lemma InvalidIsQuiet(s: Store, b: Body, d: Defaults)
    requires !ValidBody(b)
    ensures PlanOf(s, Deliver(b, d)) == Raise(InvalidMessage) && Exec(Copying, s, Deliver(b, d)) == s
  {
  }

  method BuildHandler(ports: Ports, d: Defaults) returns (handler: W.BillingIntegrationEventHandler)
    requires ports.Valid()
    ensures fresh(handler) && handler.ports == ports && handler.defaults == d
    ensures Intact(ports, old(ports.Frame()), old(ports.Log()), old(ports.publisher.Queue()),
                   old(ports.Entries()))
    ensures ports.Snapshot() == old(ports.Snapshot())
  {
    hide QuotesView, PaymentsView, RowsView, ValidQuotes, ValidPayments, ValidRows;
    handler := new W.BillingIntegrationEventHandler(ports, d);
    IdsDrawn(ports);
  }

  method ExecuteDelivery(ports: Ports, b: Body, d: Defaults) returns (r: Result<Answer, Error>)
    requires ports.Valid()
    modifies ports.Frame()
    ensures Executed(ports, Deliver(b, d)) && fresh(ports.Frame() - old(ports.Frame()))
    ensures UnusedIds(old(ports.Snapshot())) ==> ports.Extends(old(ports.Entries()))
    ensures r == PlanOf(old(ports.Snapshot()), Deliver(b, d)).answer
  {
    hide QuotesView, PaymentsView, RowsView, ValidQuotes, ValidPayments, ValidRows;
    hide Exec, PerformAll, PlanHandle, Draw, Before, Logged, Ports.Snapshot;
    NothingLogged(ports, Deliver(b, d));
    W.DeliveryIsTheSameEverywhere(ports.RepositoryMode(), ports.Snapshot(), b, d);
    if !ValidBody(b) {
      InvalidIsQuiet(ports.Snapshot(), b, d);
      return Err(InvalidMessage);
    }
    W.ValidatedHandling(ports.Snapshot(), b, d);
    var handler := BuildHandler(ports, d);
    r := handler.Handle(b);
  }

  /** The messages for what was published between the two stores. */
  function NewSince(s: Store, t: Store): seq<Body> {
    if s.history <= t.history then NewMessages(s, t) else []
  }

  lemma QueueGrows(ports: Ports, c: Command)
    requires ports.publisher.Rabbit?
    ensures var mode, s := ports.RepositoryMode(), ports.Snapshot();
            Logged(ports.Log(), Before(mode, s, c), PlanOf(s, c).writes).queue
            == Some(ports.publisher.Queue() + NewSince(s, Exec(mode, s, c)))
  {
    NewMessagesAreQueued(ports.RepositoryMode(), ports.Snapshot(), c);
    hide Exec, PlanOf, Events, Before, NewMessages;
  }

  method Execute(ports: Ports, c: Command) returns (r: Result<Answer, Error>)
    requires ports.Valid()
    modifies ports.Frame()
    ensures Executed(ports, c) && fresh(ports.Frame() - old(ports.Frame()))
    ensures UnusedIds(old(ports.Snapshot())) ==> ports.Extends(old(ports.Entries()))
    ensures r == PlanOf(old(ports.Snapshot()), c).answer
    ensures ports.publisher.Rabbit? ==>
              ports.publisher.Queue()
              == old(ports.publisher.Queue()) + NewSince(old(ports.Snapshot()), ports.Snapshot())
  {
    hide QuotesView, PaymentsView, RowsView, ValidQuotes, ValidPayments, ValidRows, Exec, PlanOf, Ports.Snapshot;
    if ports.publisher.Rabbit? { QueueGrows(ports, c); }
    hide Logged, NewSince;
    match c
    case CreateQuote(serviceOrderId, items, amount) =>
      var quote :- CreateQuoteUseCase(ports, serviceOrderId, items, amount);
      return Ok(QuoteAnswer(quote.Data()));
    case ApproveQuote(quoteId, reply) =>
      var payment :- ApproveQuoteUseCase(ports, quoteId, reply);
      return Ok(PaymentAnswer(payment.Data()));
    case ConfirmPayment(paymentId) =>
      var payment :- ConfirmPaymentUseCase(ports, paymentId);
      return Ok(PaymentAnswer(payment.Data()));
    case FailPayment(paymentId, reason) =>
      var payment :- FailPaymentUseCase(ports, paymentId, reason);
      return Ok(PaymentAnswer(payment.Data()));
    case ApplyStatus(paymentId, status, detail) =>
      var result :- ApplyPaymentStatusUseCase(ports, paymentId, status, detail);
      return Ok(StatusAnswer(result.0.Data(), result.1));
    case SyncStatus(paymentId, reply) =>
      var result :- SyncPaymentStatusUseCase(ports, paymentId, reply);
      return Ok(StatusAnswer(result.0.Data(), result.1));
    case Deliver(b, d) => r := ExecuteDelivery(ports, b, d);
  }

  lemma RunsLeaveIdsUnused(mode: Mode, cs: seq<Command>)
    ensures UnusedIds(Run(mode, cs))
  {
    A.RunsAreSafe(mode, cs);
    DrawnIdsAreFresh(Run(mode, cs));
  }

  lemma OneMoreCommand(mode: Mode, before: seq<Command>, cs: seq<Command>, i: nat)
    requires i < |cs|
    ensures Run(mode, before + cs[..i + 1]) == Exec(mode, Run(mode, before + cs[..i]), cs[i])
    ensures A.Answers(mode, before + cs[..i + 1])
            == A.Answers(mode, before + cs[..i]) + [PlanOf(Run(mode, before + cs[..i]), cs[i]).answer]
  {
    hide Exec, PlanOf;
    var longer := before + cs[..i + 1];
    assert longer[..|longer| - 1] == before + cs[..i] && longer[|longer| - 1] == cs[i];
  }

  /** Every store on record from the n-th on is consistent. */
  ghost predicate SafeFrom(stages: seq<Store>, n: nat) {
    forall i :: n <= i < |stages| ==> Safe(stages[i])
  }

  lemma SafeOnTheWay(log: Record, s: Store, c: Command, n: nat)
    requires Safe(s) && n <= |log.stages| && SafeFrom(log.stages, n)
    ensures SafeFrom(Logged(log, Before(Copying, s, c), PlanOf(s, c).writes).stages, n)
  {
    CrashesAreOnTheWay(log, s, c);
    forall k: nat { CrashKeepsSafe(s, c, k); }
    hide Safe, Crash, PlanOf, Logged, Before;
    var stages := Logged(log, Before(Copying, s, c), PlanOf(s, c).writes).stages;
    forall i | n <= i < |stages| ensures Safe(stages[i]) {
      if i < |log.stages| { assert stages[..|log.stages|][i] == stages[i]; }
    }
  }

  /** More commands, on ports that have executed `before`: the store and the results are
      those of the whole run, and over live objects nothing moves in the stores. */
  method ExecuteAll(ports: Ports, cs: seq<Command>, ghost before: seq<Command>)
    returns (answers: seq<Result<Answer, Error>>)
    requires ports.Valid() && ports.Snapshot() == Run(ports.RepositoryMode(), before)
    modifies ports.Frame()
    ensures ports.Valid() && fresh(ports.Frame() - old(ports.Frame()))
    ensures ports.Snapshot() == Run(ports.RepositoryMode(), before + cs)
    ensures A.Answers(ports.RepositoryMode(), before + cs) == A.Answers(ports.RepositoryMode(), before) + answers
    ensures ports.Extends(old(ports.Entries()))
    ensures ports.RepositoryMode() == Copying ==> SafeFrom(ports.journal.stages, old(|ports.journal.stages|))
  {
    hide QuotesView, PaymentsView, RowsView, ValidQuotes, ValidPayments, ValidRows, Exec, PlanOf, Ports.Snapshot;
    hide Run, A.Answers, UnusedIds;
    ghost var mode := ports.RepositoryMode();
    answers := [];
    assert before + cs[..0] == before;
    for i := 0 to |cs|
      invariant ports.Valid() && fresh(ports.Frame() - old(ports.Frame()))
      invariant ports.Snapshot() == Run(mode, before + cs[..i])
      invariant A.Answers(mode, before + cs[..i]) == A.Answers(mode, before) + answers
      invariant ports.Extends(old(ports.Entries()))
      invariant old(|ports.journal.stages|) <= |ports.journal.stages|
      invariant ports.RepositoryMode() == Copying ==> SafeFrom(ports.journal.stages, old(|ports.journal.stages|))
    {
      RunsLeaveIdsUnused(mode, before + cs[..i]);
      OneMoreCommand(mode, before, cs, i);
      A.RunsAreSafe(mode, before + cs[..i]);
      if mode == Copying { SafeOnTheWay(ports.Log(), ports.Snapshot(), cs[i], old(|ports.journal.stages|)); }
      var answer := Execute(ports, cs[i]);
      answers := answers + [answer];
    }
    assert cs[..|cs|] == cs;
  }

  /** A freshly started service executes any commands as `Run` and `Answers` say; over rows
      every store it goes through on the way is consistent. */
  method StartAndExecute(realMode: bool, cs: seq<Command>)
    returns (ports: Ports, answers: seq<Result<Answer, Error>>)
    ensures fresh(ports.Frame()) && ports.Valid()
    ensures ports.RepositoryMode() == if realMode then Copying else Aliasing
    ensures ports.Snapshot() == Run(ports.RepositoryMode(), cs)
    ensures answers == A.Answers(ports.RepositoryMode(), cs)
    ensures realMode ==> SafeFrom(ports.journal.stages, 0)
  {
    hide QuotesView, PaymentsView, RowsView, ValidQuotes, ValidPayments, ValidRows, Exec, PlanOf;
    ports := BuildPorts(realMode);
    answers := ExecuteAll(ports, cs, []);
    assert [] + cs == cs;
  }

  predicate HasQuote(s: Store, q: QuoteData) {
    q.quoteId in s.quotes && s.quotes[q.quoteId] == q
  }

  predicate HasPayment(s: Store, p: PaymentData) {
    p.paymentId in s.payments && s.payments[p.paymentId] == p
  }

  method LookUpQuote(ports: Ports, serviceOrderId: string) returns (r: Option<Quote>)
    requires ports.Valid() && ports.quotes.MemoryQuotes?
    ensures Intact(ports, old(ports.Frame()), old(ports.Log()), old(ports.publisher.Queue()),
                   old(ports.Entries()))
    ensures ports.Snapshot() == old(ports.Snapshot())
    ensures r == FirstQuoteOf(ports.Entries().0, serviceOrderId)
    ensures r.Some? ==> HasQuote(ports.Snapshot(), r.value.Data())
  {
    hide QuotesView, PaymentsView, RowsView, ValidQuotes, ValidPayments, ValidRows, FirstQuoteOf;
    r := ports.quotes.memory.GetByServiceOrderId(serviceOrderId);
    IdsDrawn(ports);
  }

  method LookUpPayment(ports: Ports, serviceOrderId: string) returns (r: Option<Payment>)
    requires ports.Valid() && ports.payments.MemoryPayments?
    ensures Intact(ports, old(ports.Frame()), old(ports.Log()), old(ports.publisher.Queue()),
                   old(ports.Entries()))
    ensures ports.Snapshot() == old(ports.Snapshot())
    ensures r == FirstPaymentOf(ports.Entries().1, serviceOrderId)
    ensures r.Some? ==> HasPayment(ports.Snapshot(), r.value.Data())
  {
    hide QuotesView, PaymentsView, RowsView, ValidQuotes, ValidPayments, ValidRows, FirstPaymentOf;
    r := ports.payments.memory.GetByServiceOrderId(serviceOrderId);
    IdsDrawn(ports);
  }

  /** A lookup by service order in memory, any commands, and the same lookup: what was found
      is found again, the very same object, and it shows the state stored last. */
  method QuoteLookupsAreStable(ports: Ports, cs: seq<Command>, ghost before: seq<Command>, serviceOrderId: string)
    returns (first: Option<Quote>, later: Option<Quote>)
    requires ports.Valid() && ports.quotes.MemoryQuotes? && ports.Snapshot() == Run(Aliasing, before)
    modifies ports.Frame()
    ensures ports.Valid() && ports.Snapshot() == Run(Aliasing, before + cs)
    ensures first == FirstQuoteOf(old(ports.Entries()).0, serviceOrderId)
    ensures first.Some? ==> later == first
    ensures later.Some? ==> HasQuote(ports.Snapshot(), later.value.Data())
  {
    hide QuotesView, PaymentsView, RowsView, ValidQuotes, ValidPayments, ValidRows, FirstQuoteOf, Run, Ports.Snapshot;
    ghost var entries := ports.Entries();
    first := LookUpQuote(ports, serviceOrderId);
    var answers := ExecuteAll(ports, cs, before);
    later := LookUpQuote(ports, serviceOrderId);
    if first.Some? { FirstQuoteStays(entries.0, ports.Entries().0, serviceOrderId); }
  }

  method PaymentLookupsAreStable(ports: Ports, cs: seq<Command>, ghost before: seq<Command>, serviceOrderId: string)
    returns (first: Option<Payment>, later: Option<Payment>)
    requires ports.Valid() && ports.payments.MemoryPayments? && ports.Snapshot() == Run(Aliasing, before)
    modifies ports.Frame()
    ensures ports.Valid() && ports.Snapshot() == Run(Aliasing, before + cs)
    ensures first == FirstPaymentOf(old(ports.Entries()).1, serviceOrderId)
    ensures first.Some? ==> later == first
    ensures later.Some? ==> HasPayment(ports.Snapshot(), later.value.Data())
  {
    hide QuotesView, PaymentsView, RowsView, ValidQuotes, ValidPayments, ValidRows, FirstPaymentOf, Run, Ports.Snapshot;
    ghost var entries := ports.Entries();
    first := LookUpPayment(ports, serviceOrderId);
    var answers := ExecuteAll(ports, cs, before);
    later := LookUpPayment(ports, serviceOrderId);
    if first.Some? { FirstPaymentStays(entries.1, ports.Entries().1, serviceOrderId); }
  }
}
