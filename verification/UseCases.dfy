/** The use cases over the ports, proved to do what `Saga` says: same writes in the same
    order, same final store, same result, over either kind of repository. */
module UseCases {
  import opened Wrappers
  import opened Decimals
  import opened Billing
  import opened Gateway
  import opened Saga
  import opened Tables
  import opened Entities
  import opened Repositories
  import opened Publishers
  import opened Wiring

  // ----- Steps of the use cases, seen as changes of the store -----

  /** What changing a stored object, or a copy of it, does to the store. */
  function Touch(mode: Mode, s: Store, w: Write): Store {
    if mode.Aliasing? then Perform(s, w) else s
  }

  /** Ids not yet drawn are not in use, as in every store a run leads to. */
  ghost predicate UnusedIds(s: Store) {
    forall n :: s.next <= n ==> Uuid(n) !in s.quotes && Uuid(n) !in s.payments
  }

  ghost predicate Intact(ports: Ports, frame: set<object>, log: Record, queue: seq<Body>,
                         entries: (Table<Quote>, Table<Payment>))
    reads ports.quotes.Repository(), ports.payments.Repository(), ports.processed, ports.publisher.Objects(),
      ports.journal
  {
    && ports.Valid() && ports.Frame() == frame && ports.Log() == log
    && ports.publisher.Queue() == queue && ports.Entries() == entries
  }

  /** Objects of different classes are different. */
  lemma PaymentStandsAlone(ports: Ports, payment: Payment)
    ensures payment as object !in
              {ports.quotes.Repository(), ports.payments.Repository(), ports.processed, ports.journal}
    ensures payment as object !in ports.publisher.Objects()
  {
  }

  lemma QuoteStandsAlone(ports: Ports, quote: Quote)
    ensures quote as object !in {ports.quotes.Repository(), ports.payments.Repository(), ports.processed, ports.journal}
    ensures quote as object !in ports.publisher.Objects()
  {
  }

  method FetchPayment(ports: Ports, paymentId: Id) returns (r: Result<Payment, Error>)
    requires ports.Valid()
    ensures Intact(ports, old(ports.Frame()), old(ports.Log()), old(ports.publisher.Queue()),
                   old(ports.Entries()))
    ensures ports.Snapshot() == old(ports.Snapshot())
    ensures paymentId !in ports.Snapshot().payments ==> r == Err(PaymentNotFound(paymentId))
    ensures paymentId in ports.Snapshot().payments ==>
              && r.Ok? && HeldPayment(ports, r.value) && r.value.Data() == ports.Snapshot().payments[paymentId]
              && r.value.paymentId == paymentId
    ensures r.Ok? ==> r.value in old(ports.payments.Objects()) || fresh(r.value)
  {
    hide QuotesView, PaymentsView, RowsView, ValidQuotes, ValidPayments, ValidRows;
    r := ports.payments.Get(paymentId);
    IdsDrawn(ports);
  }

  method FetchQuote(ports: Ports, quoteId: Id) returns (r: Result<Quote, Error>)
    requires ports.Valid()
    ensures Intact(ports, old(ports.Frame()), old(ports.Log()), old(ports.publisher.Queue()),
                   old(ports.Entries()))
    ensures ports.Snapshot() == old(ports.Snapshot())
    ensures quoteId !in ports.Snapshot().quotes ==> r == Err(QuoteNotFound(quoteId))
    ensures quoteId in ports.Snapshot().quotes ==>
              && r.Ok? && HeldQuote(ports, r.value) && r.value.Data() == ports.Snapshot().quotes[quoteId]
              && r.value.quoteId == quoteId
    ensures r.Ok? ==> r.value in old(ports.quotes.Objects()) || fresh(r.value)
  {
    hide QuotesView, PaymentsView, RowsView, ValidQuotes, ValidPayments, ValidRows;
    r := ports.quotes.Get(quoteId);
    IdsDrawn(ports);
  }

  /** A held payment is the stored one. */
  ghost predicate Current(ports: Ports, payment: Payment)
    reads ports.Frame(), ports.quotes.Repository(), ports.payments.Repository(), payment
  {
    && HeldPayment(ports, payment)
    && (ports.payments.MemoryPayments? ==>
          payment.paymentId in ports.Snapshot().payments
          && payment.Data() == ports.Snapshot().payments[payment.paymentId])
  }

  /** What has become of a held payment shows in the store exactly over live objects. */
  twostate lemma HeldPaymentChanged(ports: Ports, new payment: Payment)
    requires forall o :: o in old(ports.Frame()) - {payment, ports.uuids} ==> unchanged(o)
    requires old(ports.Valid()) && HeldPayment(ports, payment)
    ensures Intact(ports, old(ports.Frame()), old(ports.Log()), old(ports.publisher.Queue()),
                   old(ports.Entries()))
    ensures ports.Snapshot() ==
            Touch(ports.RepositoryMode(), old(ports.Snapshot()),
              SavePayment(payment.Data())).(next := ports.uuids.drawn)
  {
    PaymentChanged(ports, payment);
  }

  method ConfirmHeld(ports: Ports, payment: Payment) returns (r: Result<Event, Error>)
    requires ports.Valid() && Current(ports, payment)
    modifies payment, ports.uuids
    ensures Intact(ports, old(ports.Frame()), old(ports.Log()), old(ports.publisher.Queue()),
                   old(ports.Entries()))
    ensures var s, before := old(ports.Snapshot()), old(payment.Data());
            if before.status.Pending? then
              && payment.Data() == before.(status := Confirmed)
              && r == Ok(PaymentEvent(payment.Data(), PaymentConfirmed(payment.paymentId), Uuid(s.next)))
              && ports.Snapshot() == Touch(ports.RepositoryMode(), s, SavePayment(payment.Data())).(next := s.next + 1)
            else
              r == Err(PaymentNotPending) && ports.Snapshot() == s && payment.Data() == before
  {
    hide QuotesView, PaymentsView, RowsView, ValidQuotes, ValidPayments, ValidRows;
    r := payment.Confirm(ports.uuids);
    HeldPaymentChanged(ports, payment);
  }

  method FailHeld(ports: Ports, payment: Payment, reason: string) returns (r: Result<Event, Error>)
    requires ports.Valid() && Current(ports, payment)
    modifies payment, ports.uuids
    ensures Intact(ports, old(ports.Frame()), old(ports.Log()), old(ports.publisher.Queue()),
                   old(ports.Entries()))
    ensures var s, before := old(ports.Snapshot()), old(payment.Data());
            if before.status.Confirmed? then
              r == Err(PaymentAlreadyConfirmed) && ports.Snapshot() == s && payment.Data() == before
            else
              && payment.Data() == before.(status := Failed)
              && r == Ok(PaymentEvent(payment.Data(), PaymentFailed(payment.paymentId, reason), Uuid(s.next)))
              && ports.Snapshot() == Touch(ports.RepositoryMode(), s, SavePayment(payment.Data())).(next := s.next + 1)
  {
    hide QuotesView, PaymentsView, RowsView, ValidQuotes, ValidPayments, ValidRows;
    r := payment.Fail(reason, ports.uuids);
    HeldPaymentChanged(ports, payment);
  }

  /** The last two steps of settling a payment. */
  method SaveAndPublish(ports: Ports, payment: Payment, event: Event)
    requires ports.Valid()
    modifies ports.payments.Repository(), ports.publisher.Objects(), ports.journal
    ensures ports.Valid() && ports.Frame() <= old(ports.Frame()) + {payment}
    ensures old(HeldPayment(ports, payment) || payment.paymentId !in ports.Snapshot().payments) ==>
              ports.Extends(old(ports.Entries()))
    ensures payment.Data() == old(payment.Data())
    ensures ports.Snapshot() ==
            Perform(Perform(old(ports.Snapshot()), SavePayment(payment.Data())), Publish(event))
    ensures ports.Log()
            == Logged(old(ports.Log()), old(ports.Snapshot()), [SavePayment(payment.Data()), Publish(event)])
  {
    hide QuotesView, PaymentsView, RowsView, ValidQuotes, ValidPayments, ValidRows;
    PaymentStandsAlone(ports, payment);
    LoggedTwo(ports.Log(), ports.Snapshot(), SavePayment(payment.Data()), Publish(event));
    hide Logged;
    ports.SavePayment(payment);
    ports.Publish(event);
  }

  // ----- Confirm and fail -----

  /** The command has been executed, completely and with exactly the planned writes, and each
      write was the only change since the one before. */
  twostate predicate Executed(ports: Ports, c: Command)
    reads ports.Frame(), ports.quotes.Repository(), ports.payments.Repository()
  {
    && ports.Valid()
    && var mode, s := ports.RepositoryMode(), old(ports.Snapshot());
    && ports.Snapshot() == Exec(mode, s, c)
    && ports.Log() == Logged(old(ports.Log()), Before(mode, s, c), PlanOf(s, c).writes)
  }

  /** Over rows, what is on record right after the k-th write of an executed command is what a
      crash after that write leaves. */
  lemma CrashesAreOnTheWay(log: Record, s: Store, c: Command)
    ensures var n, ws := |log.stages|, PlanOf(s, c).writes; var stages := Logged(log, Before(Copying, s, c), ws).stages;
            && |stages| == n + |ws| && stages[..n] == log.stages
            && forall i :: n <= i < |stages| ==> stages[i] == Crash(s, c, i - n + 1)
  {
    StagesArePrefixes(Before(Copying, s, c), PlanOf(s, c).writes);
    hide PlanOf, PerformAll, Stages;
  }

  /** A command that raises puts nothing on record. */
  lemma NothingLogged(ports: Ports, c: Command)
    ensures var s := ports.Snapshot(); Logged(ports.Log(), Before(ports.RepositoryMode(), s, c), []) == ports.Log()
  {
    LoggedNone(ports.Log(), Before(ports.RepositoryMode(), ports.Snapshot(), c));
  }

  lemma ConfirmExecutes(mode: Mode, s: Store, paymentId: Id)
    ensures var c := ConfirmPayment(paymentId); var plan, t := PlanOf(s, c), Exec(mode, s, c);
            if paymentId in s.payments && s.payments[paymentId].status.Pending? then
              var p := s.payments[paymentId].(status := Confirmed);
              var e := PaymentEvent(p, PaymentConfirmed(p.paymentId), Uuid(s.next));
              && plan.writes == [SavePayment(p), Publish(e)] && plan.answer == Ok(PaymentAnswer(p))
              && Before(mode, s, c) == Touch(mode, s, SavePayment(p)).(next := s.next + 1)
              && t == Perform(Perform(Before(mode, s, c), SavePayment(p)), Publish(e))
            else
              && t == s && plan.writes == []
              && plan.answer == Err(if paymentId in s.payments then PaymentNotPending else PaymentNotFound(paymentId))
  {
    var plan := PlanConfirm(s, paymentId);
    if plan.answer.Ok? {
      PerformTwo(Before(mode, s, ConfirmPayment(paymentId)), plan.writes[0], plan.writes[1]);
    }
  }

  lemma FailExecutes(mode: Mode, s: Store, paymentId: Id, reason: string)
    ensures var c := FailPayment(paymentId, reason); var plan, t := PlanOf(s, c), Exec(mode, s, c);
            if paymentId in s.payments && !s.payments[paymentId].status.Confirmed? then
              var p := s.payments[paymentId].(status := Failed);
              var e := PaymentEvent(p, PaymentFailed(p.paymentId, reason), Uuid(s.next));
              && plan.writes == [SavePayment(p), Publish(e)] && plan.answer == Ok(PaymentAnswer(p))
              && Before(mode, s, c) == Touch(mode, s, SavePayment(p)).(next := s.next + 1)
              && t == Perform(Perform(Before(mode, s, c), SavePayment(p)), Publish(e))
            else
              && t == s && plan.writes == []
              && plan.answer ==
                 Err(if paymentId in s.payments then PaymentAlreadyConfirmed else PaymentNotFound(paymentId))
  {
    var plan := PlanFail(s, paymentId, reason);
    if plan.answer.Ok? {
      PerformTwo(Before(mode, s, FailPayment(paymentId, reason)), plan.writes[0], plan.writes[1]);
    }
  }

  /** The store and the writes after settling a stored payment as `p`, announced by `e`. */
  ghost predicate Settled(ports: Ports, s: Store, log: Record, p: PaymentData, e: Event)
    reads ports.Frame(), ports.quotes.Repository(), ports.payments.Repository()
  {
    var before := Touch(ports.RepositoryMode(), s, SavePayment(p)).(next := s.next + 1);
    && ports.Snapshot() == Perform(Perform(before, SavePayment(p)), Publish(e))
    && ports.Log() == Logged(log, before, [SavePayment(p), Publish(e)])
  }

  method FetchAndConfirm(ports: Ports, paymentId: Id) returns (r: Result<(Payment, Event), Error>)
    requires ports.Valid()
    modifies ports.payments.Objects(), ports.uuids
    ensures Intact(ports, old(ports.Frame()), old(ports.Log()), old(ports.publisher.Queue()),
                   old(ports.Entries()))
    ensures r.Ok? ==> r.value.0 in old(ports.payments.Objects()) || fresh(r.value.0)
    ensures r.Ok? ==> HeldPayment(ports, r.value.0)
    ensures var s := old(ports.Snapshot());
            if paymentId in s.payments && s.payments[paymentId].status.Pending? then
              var p := s.payments[paymentId].(status := Confirmed);
              && r.Ok? && r.value.0.Data() == p
              && r.value.1 == PaymentEvent(p, PaymentConfirmed(p.paymentId), Uuid(s.next))
              && ports.Snapshot() == Touch(ports.RepositoryMode(), s, SavePayment(p)).(next := s.next + 1)
            else
              && r == Err(if paymentId in s.payments then PaymentNotPending else PaymentNotFound(paymentId))
              && ports.Snapshot() == s
  {
    hide QuotesView, PaymentsView, RowsView, ValidQuotes, ValidPayments, ValidRows;
    var payment :- FetchPayment(ports, paymentId);
    var event :- ConfirmHeld(ports, payment);
    return Ok((payment, event));
  }

  method ConfirmSteps(ports: Ports, paymentId: Id) returns (r: Result<Payment, Error>)
    requires ports.Valid()
    modifies ports.Frame()
    ensures ports.Valid() && fresh(ports.Frame() - old(ports.Frame()))
    ensures ports.Extends(old(ports.Entries()))
    ensures var s, log := old(ports.Snapshot()), old(ports.Log());
            if paymentId in s.payments && s.payments[paymentId].status.Pending? then
              var p := s.payments[paymentId].(status := Confirmed);
              && r.Ok? && r.value.Data() == p
              && Settled(ports, s, log, p, PaymentEvent(p, PaymentConfirmed(p.paymentId), Uuid(s.next)))
            else
              && r == Err(if paymentId in s.payments then PaymentNotPending else PaymentNotFound(paymentId))
              && ports.Snapshot() == s && ports.Log() == log
  {
    hide QuotesView, PaymentsView, RowsView, ValidQuotes, ValidPayments, ValidRows;
    var settled :- FetchAndConfirm(ports, paymentId);
    SaveAndPublish(ports, settled.0, settled.1);
    return Ok(settled.0);
  }

  method ConfirmPaymentUseCase(ports: Ports, paymentId: Id) returns (r: Result<Payment, Error>)
    requires ports.Valid()
    modifies ports.Frame()
    ensures Executed(ports, ConfirmPayment(paymentId))
    ensures fresh(ports.Frame() - old(ports.Frame()))
    ensures ports.Extends(old(ports.Entries()))
    ensures PlanOf(old(ports.Snapshot()), ConfirmPayment(paymentId)).answer
            == if r.Ok? then Ok(PaymentAnswer(r.value.Data())) else Err(r.error)
  {
    hide QuotesView, PaymentsView, RowsView, ValidQuotes, ValidPayments, ValidRows;
    hide Touch, Perform, Exec, PlanOf, Before, Logged;
    ConfirmExecutes(ports.RepositoryMode(), ports.Snapshot(), paymentId);
    NothingLogged(ports, ConfirmPayment(paymentId));
    r := ConfirmSteps(ports, paymentId);
  }

  method FetchAndFail(ports: Ports, paymentId: Id, reason: string) returns (r: Result<(Payment, Event), Error>)
    requires ports.Valid()
    modifies ports.payments.Objects(), ports.uuids
    ensures Intact(ports, old(ports.Frame()), old(ports.Log()), old(ports.publisher.Queue()),
                   old(ports.Entries()))
    ensures r.Ok? ==> r.value.0 in old(ports.payments.Objects()) || fresh(r.value.0)
    ensures r.Ok? ==> HeldPayment(ports, r.value.0)
    ensures var s := old(ports.Snapshot());
            if paymentId in s.payments && !s.payments[paymentId].status.Confirmed? then
              var p := s.payments[paymentId].(status := Failed);
              && r.Ok? && r.value.0.Data() == p
              && r.value.1 == PaymentEvent(p, PaymentFailed(p.paymentId, reason), Uuid(s.next))
              && ports.Snapshot() == Touch(ports.RepositoryMode(), s, SavePayment(p)).(next := s.next + 1)
            else
              && r == Err(if paymentId in s.payments then PaymentAlreadyConfirmed else PaymentNotFound(paymentId))
              && ports.Snapshot() == s
  {
    hide QuotesView, PaymentsView, RowsView, ValidQuotes, ValidPayments, ValidRows;
    var payment :- FetchPayment(ports, paymentId);
    var event :- FailHeld(ports, payment, reason);
    return Ok((payment, event));
  }

  method FailSteps(ports: Ports, paymentId: Id, reason: string) returns (r: Result<Payment, Error>)
    requires ports.Valid()
    modifies ports.Frame()
    ensures ports.Valid() && fresh(ports.Frame() - old(ports.Frame()))
    ensures ports.Extends(old(ports.Entries()))
    ensures var s, log := old(ports.Snapshot()), old(ports.Log());
            if paymentId in s.payments && !s.payments[paymentId].status.Confirmed? then
              var p := s.payments[paymentId].(status := Failed);
              && r.Ok? && r.value.Data() == p
              && Settled(ports, s, log, p, PaymentEvent(p, PaymentFailed(p.paymentId, reason), Uuid(s.next)))
            else
              && r == Err(if paymentId in s.payments then PaymentAlreadyConfirmed else PaymentNotFound(paymentId))
              && ports.Snapshot() == s && ports.Log() == log
  {
    hide QuotesView, PaymentsView, RowsView, ValidQuotes, ValidPayments, ValidRows;
    var settled :- FetchAndFail(ports, paymentId, reason);
    SaveAndPublish(ports, settled.0, settled.1);
    return Ok(settled.0);
  }

  method FailPaymentUseCase(ports: Ports, paymentId: Id, reason: string) returns (r: Result<Payment, Error>)
    requires ports.Valid()
    modifies ports.Frame()
    ensures Executed(ports, FailPayment(paymentId, reason))
    ensures fresh(ports.Frame() - old(ports.Frame()))
    ensures ports.Extends(old(ports.Entries()))
    ensures PlanOf(old(ports.Snapshot()), FailPayment(paymentId, reason)).answer
            == if r.Ok? then Ok(PaymentAnswer(r.value.Data())) else Err(r.error)
  {
    hide QuotesView, PaymentsView, RowsView, ValidQuotes, ValidPayments, ValidRows;
    hide Touch, Perform, Exec, PlanOf, Before, Logged;
    FailExecutes(ports.RepositoryMode(), ports.Snapshot(), paymentId, reason);
    NothingLogged(ports, FailPayment(paymentId, reason));
    r := FailSteps(ports, paymentId, reason);
  }

  // ----- Create -----

  lemma CreateExecutes(mode: Mode, s: Store, serviceOrderId: string, items: seq<string>, amount: Decimal)
    ensures var c := CreateQuote(serviceOrderId, items, amount);
            var plan := PlanCreate(s, serviceOrderId, items, amount);
            if plan.answer.Err? then
              plan.writes == [] && Exec(mode, s, c) == s
            else
              && |plan.writes| == 2 && plan.answer.value.QuoteAnswer?
              && plan.writes[0] == SaveQuote(plan.answer.value.quote)
              && Before(mode, s, c) == s.(next := s.next + 2)
              && Exec(mode, s, c) == Perform(Perform(s.(next := s.next + 2), plan.writes[0]), plan.writes[1])
  {
    var plan := PlanCreate(s, serviceOrderId, items, amount);
    if plan.answer.Ok? {
      PerformTwo(s.(next := s.next + 2), plan.writes[0], plan.writes[1]);
    }
  }

  /** The new quote and its event, before anything is saved. */
  method DraftQuote(ports: Ports, serviceOrderId: string, items: seq<string>, amount: Decimal)
    returns (r: Result<(Quote, Event), Error>)
    requires ports.Valid()
    modifies ports.uuids
    ensures Intact(ports, old(ports.Frame()), old(ports.Log()), old(ports.publisher.Queue()),
                   old(ports.Entries()))
    ensures var s := old(ports.Snapshot()); var plan := PlanCreate(s, serviceOrderId, items, amount);
            if plan.answer.Err? then
              r == Err(plan.answer.error) && ports.Snapshot() == s
            else
              && r.Ok? && fresh(r.value.0) && r.value.0.quoteId == Uuid(s.next)
              && plan.writes == [SaveQuote(r.value.0.Data()), Publish(r.value.1)]
              && plan.answer == Ok(QuoteAnswer(r.value.0.Data()))
              && ports.Snapshot() == s.(next := s.next + 2)
  {
    hide QuotesView, PaymentsView, RowsView, ValidQuotes, ValidPayments, ValidRows;
    var total :- MakeMoney(amount, DEFAULT_CURRENCY);
    r := Quote.Create(serviceOrderId, items, total, ports.uuids);
    IdsDrawn(ports);
  }

  method SaveAndAnnounce(ports: Ports, quote: Quote, event: Event)
    requires ports.Valid()
    modifies ports.quotes.Repository(), ports.publisher.Objects(), ports.journal
    ensures ports.Valid() && ports.Frame() <= old(ports.Frame()) + {quote}
    ensures old(HeldQuote(ports, quote) || quote.quoteId !in ports.Snapshot().quotes) ==>
              ports.Extends(old(ports.Entries()))
    ensures quote.Data() == old(quote.Data())
    ensures ports.Snapshot() == Perform(Perform(old(ports.Snapshot()), SaveQuote(quote.Data())), Publish(event))
    ensures ports.Log() == Logged(old(ports.Log()), old(ports.Snapshot()), [SaveQuote(quote.Data()), Publish(event)])
    ensures ports.publisher.Queue() == old(ports.publisher.Queue()) + ports.publisher.Copies(event)
  {
    hide QuotesView, PaymentsView, RowsView, ValidQuotes, ValidPayments, ValidRows;
    QuoteStandsAlone(ports, quote);
    LoggedTwo(ports.Log(), ports.Snapshot(), SaveQuote(quote.Data()), Publish(event));
    hide Logged;
    ports.Save(quote);
    ports.Publish(event);
  }

  method CreateSteps(ports: Ports, serviceOrderId: string, items: seq<string>, amount: Decimal)
    returns (r: Result<Quote, Error>)
    requires ports.Valid()
    modifies ports.Frame()
    ensures ports.Valid() && fresh(ports.Frame() - old(ports.Frame()))
    ensures UnusedIds(old(ports.Snapshot())) ==> ports.Extends(old(ports.Entries()))
    ensures var s := old(ports.Snapshot()); var plan := PlanCreate(s, serviceOrderId, items, amount);
            if plan.answer.Err? then
              && r == Err(plan.answer.error) && ports.Snapshot() == s && ports.Log() == old(ports.Log())
              && ports.publisher.Queue() == old(ports.publisher.Queue())
            else
              && r.Ok? && plan.answer == Ok(QuoteAnswer(r.value.Data())) && |plan.writes| == 2
              && plan.writes[1].Publish?
              && ports.Snapshot() == Perform(Perform(s.(next := s.next + 2), plan.writes[0]), plan.writes[1])
              && ports.Log() == Logged(old(ports.Log()), s.(next := s.next + 2), plan.writes)
              && ports.publisher.Queue() == old(ports.publisher.Queue())
                + ports.publisher.Copies(plan.writes[1].event)
  {
    ghost var s := ports.Snapshot();
    CreateExecutes(Copying, s, serviceOrderId, items, amount);
    assert UnusedIds(s) ==> Uuid(s.next) !in s.quotes;
    hide QuotesView, PaymentsView, RowsView, ValidQuotes, ValidPayments, ValidRows, Logged, PlanCreate, Exec, Before,
      Perform, UnusedIds, Ports.Snapshot, Ports.Extends, Ports.Entries, Ports.Log;
    hide PublisherPort.Queue, PublisherPort.Copies, PublisherPort.Valid, QuotePort.Valid, PaymentPort.Valid;
    var drafted :- DraftQuote(ports, serviceOrderId, items, amount);
    SaveAndAnnounce(ports, drafted.0, drafted.1);
    return Ok(drafted.0);
  }

  method CreateQuoteUseCase(ports: Ports, serviceOrderId: string, items: seq<string>, amount: Decimal)
    returns (r: Result<Quote, Error>)
    requires ports.Valid()
    modifies ports.Frame()
    ensures Executed(ports, CreateQuote(serviceOrderId, items, amount))
    ensures fresh(ports.Frame() - old(ports.Frame()))
    ensures UnusedIds(old(ports.Snapshot())) ==> ports.Extends(old(ports.Entries()))
    ensures PlanOf(old(ports.Snapshot()), CreateQuote(serviceOrderId, items, amount)).answer
            == if r.Ok? then Ok(QuoteAnswer(r.value.Data())) else Err(r.error)
  {
    hide QuotesView, PaymentsView, RowsView, ValidQuotes, ValidPayments, ValidRows;
    hide PlanCreate, Exec, Before, Perform, Logged;
    CreateExecutes(ports.RepositoryMode(), ports.Snapshot(), serviceOrderId, items, amount);
    NothingLogged(ports, CreateQuote(serviceOrderId, items, amount));
    r := CreateSteps(ports, serviceOrderId, items, amount);
  }

  // ----- Approve -----

  lemma ApproveExecutes(mode: Mode, s: Store, quoteId: Id, reply: PreferenceReply)
    ensures var c := ApproveQuote(quoteId, reply); var plan, t := PlanOf(s, c), Exec(mode, s, c);
            if quoteId in s.quotes && s.quotes[quoteId].status.Created? then
              var q := s.quotes[quoteId].(status := Approved);
              var touched := Touch(mode, s, SaveQuote(q));
              var made := CreateCheckoutPreference(reply, q.serviceOrderId);
              if made.Err? then
                t == touched.(next := s.next + 2) && plan.writes == [] && plan.answer == Err(made.error)
              else
                var p := PaymentOf(q, Uuid(s.next + 1), made.value);
                && plan.writes == ApprovalWrites(s, q, p, made.value) && plan.answer == Ok(PaymentAnswer(p))
                && Before(mode, s, c) == touched.(next := s.next + 3)
                && t == PerformAll(Before(mode, s, c), plan.writes)
            else
              && t == s && plan.writes == []
              && plan.answer == Err(if quoteId in s.quotes then QuoteNotCreated else QuoteNotFound(quoteId))
  {
  }

  function ApprovalWrites(s: Store, q: QuoteData, p: PaymentData, made: Preference): seq<Write> {
    [SaveQuote(q), SavePayment(p),
     Publish(QuoteEvent(q, QuoteApproved, Uuid(s.next))),
     Publish(PaymentEvent(p, PreferenceCreated(p.paymentId, made.preferenceId), Uuid(s.next + 2)))]
  }

  method FetchAndApprove(ports: Ports, quoteId: Id) returns (r: Result<(Quote, Event), Error>)
    requires ports.Valid()
    modifies ports.quotes.Objects(), ports.uuids
    ensures Intact(ports, old(ports.Frame()), old(ports.Log()), old(ports.publisher.Queue()),
                   old(ports.Entries()))
    ensures r.Ok? ==> r.value.0 in old(ports.quotes.Objects()) || fresh(r.value.0)
    ensures r.Ok? ==> HeldQuote(ports, r.value.0)
    ensures var s := old(ports.Snapshot());
            if quoteId in s.quotes && s.quotes[quoteId].status.Created? then
              var q := s.quotes[quoteId].(status := Approved);
              && r.Ok? && r.value.0.Data() == q
              && r.value.1 == QuoteEvent(q, QuoteApproved, Uuid(s.next))
              && ports.Snapshot() == Touch(ports.RepositoryMode(), s, SaveQuote(q)).(next := s.next + 1)
            else
              && r == Err(if quoteId in s.quotes then QuoteNotCreated else QuoteNotFound(quoteId))
              && ports.Snapshot() == s
  {
    hide QuotesView, PaymentsView, RowsView, ValidQuotes, ValidPayments, ValidRows;
    var quote :- FetchQuote(ports, quoteId);
    var event :- ApproveHeld(ports, quote);
    return Ok((quote, event));
  }

  twostate lemma HeldQuoteChanged(ports: Ports, new quote: Quote)
    requires forall o :: o in old(ports.Frame()) - {quote, ports.uuids} ==> unchanged(o)
    requires old(ports.Valid()) && HeldQuote(ports, quote)
    ensures Intact(ports, old(ports.Frame()), old(ports.Log()), old(ports.publisher.Queue()),
                   old(ports.Entries()))
    ensures ports.Snapshot() ==
            Touch(ports.RepositoryMode(), old(ports.Snapshot()), SaveQuote(quote.Data())).(next := ports.uuids.drawn)
  {
    QuoteChanged(ports, quote);
  }

  method ApproveHeld(ports: Ports, quote: Quote) returns (r: Result<Event, Error>)
    requires ports.Valid() && HeldQuote(ports, quote)
    requires quote.quoteId in ports.Snapshot().quotes && quote.Data() == ports.Snapshot().quotes[quote.quoteId]
    modifies quote, ports.uuids
    ensures Intact(ports, old(ports.Frame()), old(ports.Log()), old(ports.publisher.Queue()),
                   old(ports.Entries()))
    ensures var s, before := old(ports.Snapshot()), old(quote.Data());
            if before.status.Created? then
              && quote.Data() == before.(status := Approved)
              && r == Ok(QuoteEvent(quote.Data(), QuoteApproved, Uuid(s.next)))
              && ports.Snapshot() == Touch(ports.RepositoryMode(), s, SaveQuote(quote.Data())).(next := s.next + 1)
            else
              r == Err(QuoteNotCreated) && ports.Snapshot() == s && quote.Data() == before
  {
    hide QuotesView, PaymentsView, RowsView, ValidQuotes, ValidPayments, ValidRows;
    r := quote.Approve(ports.uuids);
    HeldQuoteChanged(ports, quote);
  }

  /** A payment for the approved quote, with the gateway's preference; nothing is saved. */
  method PreparePayment(ports: Ports, quote: Quote, reply: PreferenceReply) returns (r: Result<(Payment, Event), Error>)
    requires ports.Valid() && quote.status.Approved?
    modifies ports.uuids
    ensures Intact(ports, old(ports.Frame()), old(ports.Log()), old(ports.publisher.Queue()),
                   old(ports.Entries()))
    ensures var s, q := old(ports.Snapshot()),
      quote.Data(); var made := CreateCheckoutPreference(reply, q.serviceOrderId);
            if made.Err? then
              r == Err(made.error) && ports.Snapshot() == s.(next := s.next + 1)
            else
              var p := PaymentOf(q, Uuid(s.next), made.value);
              && r.Ok? && fresh(r.value.0) && r.value.0.Data() == p
              && r.value.1 == PaymentEvent(p, PreferenceCreated(p.paymentId, made.value.preferenceId), Uuid(s.next + 1))
              && ports.Snapshot() == s.(next := s.next + 2)
  {
    hide QuotesView, PaymentsView, RowsView, ValidQuotes, ValidPayments, ValidRows;
    var made := RequestPreference(quote, reply, ports.uuids);
    IdsDrawn(ports);
    return made;
  }

  method RequestPreference(quote: Quote, reply: PreferenceReply, uuids: UuidSource)
    returns (r: Result<(Payment, Event), Error>)
    modifies uuids
    ensures var q := quote.Data(); var made := CreateCheckoutPreference(reply, q.serviceOrderId);
            if !q.status.Approved? then
              r == Err(QuoteNotApproved) && uuids.drawn == old(uuids.drawn)
            else if made.Err? then
              r == Err(made.error) && uuids.drawn == old(uuids.drawn) + 1
            else
              var p := PaymentOf(q, Uuid(old(uuids.drawn)), made.value);
              && r.Ok? && fresh(r.value.0) && r.value.0.Data() == p
              && r.value.1 == PaymentEvent(p, PreferenceCreated(p.paymentId, made.value.preferenceId),
                                           Uuid(old(uuids.drawn) + 1))
              && uuids.drawn == old(uuids.drawn) + 2
  {
    var payment :- Payment.FromQuote(quote, uuids);
    var event :- payment.CreatePreference(reply, uuids);
    return Ok((payment, event));
  }

  method SaveBoth(ports: Ports, quote: Quote, payment: Payment)
    requires ports.Valid()
    modifies ports.quotes.Repository(), ports.payments.Repository(), ports.journal
    ensures ports.Valid() && ports.Frame() <= old(ports.Frame()) + {quote, payment}
    ensures old(HeldQuote(ports, quote) && payment.paymentId !in ports.Snapshot().payments) ==>
              ports.Extends(old(ports.Entries()))
    ensures quote.Data() == old(quote.Data()) && payment.Data() == old(payment.Data())
    ensures ports.Snapshot() ==
            Perform(Perform(old(ports.Snapshot()), SaveQuote(quote.Data())), SavePayment(payment.Data()))
    ensures ports.Log() == Logged(old(ports.Log()), old(ports.Snapshot()),
                                  [SaveQuote(quote.Data()), SavePayment(payment.Data())])
  {
    hide QuotesView, PaymentsView, RowsView, ValidQuotes, ValidPayments, ValidRows;
    QuoteStandsAlone(ports, quote);
    PaymentStandsAlone(ports, payment);
    LoggedTwo(ports.Log(), ports.Snapshot(), SaveQuote(quote.Data()), SavePayment(payment.Data()));
    hide Logged;
    ports.Save(quote);
    ports.SavePayment(payment);
  }

  method PublishBoth(ports: Ports, first: Event, second: Event)
    requires ports.Valid()
    modifies ports.publisher.Objects(), ports.journal
    ensures ports.Valid() && ports.Frame() == old(ports.Frame())
    ensures ports.Entries() == old(ports.Entries())
    ensures ports.Snapshot() == Perform(Perform(old(ports.Snapshot()), Publish(first)), Publish(second))
    ensures ports.Log() == Logged(old(ports.Log()), old(ports.Snapshot()), [Publish(first), Publish(second)])
  {
    hide QuotesView, PaymentsView, RowsView, ValidQuotes, ValidPayments, ValidRows;
    LoggedTwo(ports.Log(), ports.Snapshot(), Publish(first), Publish(second));
    hide Logged;
    ports.Publish(first);
    ports.Publish(second);
  }

  lemma FourSteps(log: Record, s: Store, a: Write, b: Write, c: Write, d: Write)
    ensures var t := Perform(Perform(s, a), b); var ws := [a, b, c, d];
            && PerformAll(s, ws) == Perform(Perform(t, c), d)
            && Logged(Logged(log, s, [a, b]), t, [c, d]) == Logged(log, s, ws)
  {
    PerformTwo(s, a, b);
    PerformFour(s, a, b, c, d);
    LoggedConcat(log, s, [a, b], [c, d]);
    assert [a, b] + [c, d] == [a, b, c, d];
  }

  /** Both saves come before both publications. */
  method SaveAndPublishBoth(ports: Ports, quote: Quote, payment: Payment, first: Event, second: Event)
    requires ports.Valid()
    modifies ports.quotes.Repository(), ports.payments.Repository(), ports.publisher.Objects(), ports.journal
    ensures ports.Valid() && ports.Frame() <= old(ports.Frame()) + {quote, payment}
    ensures old(HeldQuote(ports, quote) && payment.paymentId !in ports.Snapshot().payments) ==>
              ports.Extends(old(ports.Entries()))
    ensures quote.Data() == old(quote.Data()) && payment.Data() == old(payment.Data())
    ensures var ws := [SaveQuote(quote.Data()), SavePayment(payment.Data()), Publish(first), Publish(second)];
            && ports.Snapshot() == PerformAll(old(ports.Snapshot()), ws)
            && ports.Log() == Logged(old(ports.Log()), old(ports.Snapshot()), ws)
  {
    hide QuotesView, PaymentsView, RowsView, ValidQuotes, ValidPayments, ValidRows;
    QuoteStandsAlone(ports, quote);
    PaymentStandsAlone(ports, payment);
    FourSteps(ports.Log(), ports.Snapshot(), SaveQuote(quote.Data()), SavePayment(payment.Data()), Publish(first),
      Publish(second));
    hide Logged, PerformAll;
    SaveBoth(ports, quote, payment);
    PublishBoth(ports, first, second);
  }

  /** The approved quote, its payment and both events; over live objects the approval
      shows already, even when the gateway raises. */
  method ApproveAndPrepare(ports: Ports, quoteId: Id, reply: PreferenceReply)
    returns (r: Result<(Quote, Payment, Event, Event), Error>)
    requires ports.Valid()
    modifies ports.quotes.Objects(), ports.uuids
    ensures Intact(ports, old(ports.Frame()), old(ports.Log()), old(ports.publisher.Queue()),
                   old(ports.Entries()))
    ensures r.Ok? ==> (r.value.0 in old(ports.quotes.Objects()) || fresh(r.value.0)) && fresh(r.value.1)
    ensures r.Ok? ==> HeldQuote(ports, r.value.0)
    ensures var s := old(ports.Snapshot());
            if quoteId in s.quotes && s.quotes[quoteId].status.Created? then
              var q := s.quotes[quoteId].(status := Approved);
              var touched := Touch(ports.RepositoryMode(), s, SaveQuote(q));
              var made := CreateCheckoutPreference(reply, q.serviceOrderId);
              if made.Err? then
                r == Err(made.error) && ports.Snapshot() == touched.(next := s.next + 2)
              else
                var p := PaymentOf(q, Uuid(s.next + 1), made.value);
                && r.Ok? && r.value.0.Data() == q && r.value.1.Data() == p
                && [SaveQuote(q), SavePayment(p), Publish(r.value.2), Publish(r.value.3)]
                   == ApprovalWrites(s, q, p, made.value)
                && ports.Snapshot() == touched.(next := s.next + 3)
            else
              && r == Err(if quoteId in s.quotes then QuoteNotCreated else QuoteNotFound(quoteId))
              && ports.Snapshot() == s
  {
    hide QuotesView, PaymentsView, RowsView, ValidQuotes, ValidPayments, ValidRows;
    hide Touch, CreateCheckoutPreference, Ports.Snapshot, Ports.Entries, Ports.Log;
    var approved :- FetchAndApprove(ports, quoteId);
    var prepared :- PreparePayment(ports, approved.0, reply);
    return Ok((approved.0, prepared.0, approved.1, prepared.1));
  }

  method ApproveSteps(ports: Ports, quoteId: Id, reply: PreferenceReply) returns (r: Result<Payment, Error>)
    requires ports.Valid()
    modifies ports.Frame()
    ensures ports.Valid() && fresh(ports.Frame() - old(ports.Frame()))
    ensures UnusedIds(old(ports.Snapshot())) ==> ports.Extends(old(ports.Entries()))
    ensures var s, log := old(ports.Snapshot()), old(ports.Log());
            if quoteId in s.quotes && s.quotes[quoteId].status.Created? then
              var q := s.quotes[quoteId].(status := Approved);
              var touched := Touch(ports.RepositoryMode(), s, SaveQuote(q));
              var made := CreateCheckoutPreference(reply, q.serviceOrderId);
              if made.Err? then
                && r == Err(made.error) && ports.Snapshot() == touched.(next := s.next + 2)
                && ports.Log() == log
              else
                var p := PaymentOf(q, Uuid(s.next + 1), made.value); var ws := ApprovalWrites(s, q, p, made.value);
                && r.Ok? && r.value.Data() == p
                && ports.Snapshot() == PerformAll(touched.(next := s.next + 3), ws)
                && ports.Log() == Logged(log, touched.(next := s.next + 3), ws)
            else
              && r == Err(if quoteId in s.quotes then QuoteNotCreated else QuoteNotFound(quoteId))
              && ports.Snapshot() == s && ports.Log() == log
  {
    hide QuotesView, PaymentsView, RowsView, ValidQuotes, ValidPayments, ValidRows;
    ghost var s := ports.Snapshot();
    assert UnusedIds(s) ==> Uuid(s.next + 1) !in s.payments;
    hide CreateCheckoutPreference, PerformAll, ApprovalWrites, Logged, UnusedIds;
    hide Ports.Snapshot, Ports.Extends, Ports.Entries, Ports.Log;
    var ready :- ApproveAndPrepare(ports, quoteId, reply);
    SaveAndPublishBoth(ports, ready.0, ready.1, ready.2, ready.3);
    return Ok(ready.1);
  }

  method ApproveQuoteUseCase(ports: Ports, quoteId: Id, reply: PreferenceReply) returns (r: Result<Payment, Error>)
    requires ports.Valid()
    modifies ports.Frame()
    ensures Executed(ports, ApproveQuote(quoteId, reply))
    ensures fresh(ports.Frame() - old(ports.Frame()))
    ensures UnusedIds(old(ports.Snapshot())) ==> ports.Extends(old(ports.Entries()))
    ensures PlanOf(old(ports.Snapshot()), ApproveQuote(quoteId, reply)).answer
            == if r.Ok? then Ok(PaymentAnswer(r.value.Data())) else Err(r.error)
  {
    hide QuotesView, PaymentsView, RowsView, ValidQuotes, ValidPayments, ValidRows;
    hide Touch, CreateCheckoutPreference, PerformAll, Exec, PlanOf, Before, Logged;
    ApproveExecutes(ports.RepositoryMode(), ports.Snapshot(), quoteId, reply);
    NothingLogged(ports, ApproveQuote(quoteId, reply));
    r := ApproveSteps(ports, quoteId, reply);
  }

  // ----- Apply and sync -----

  function StatusWrites(p: PaymentData, event: Option<Event>): seq<Write> {
    if event.None? then [SavePayment(p)] else [SavePayment(p), Publish(event.value)]
  }

  lemma ApplyExecutes(mode: Mode, s: Store, c: Command, plan: Plan, p: PaymentData, event: Option<Event>)
    requires (c.ApplyStatus? || c.SyncStatus?) && PlanOf(s, c) == plan && plan.writes == StatusWrites(p, event)
    ensures Before(mode, s, c) == Touch(mode, s, SavePayment(p)).(next := s.next + plan.drawn)
    ensures Exec(mode, s, c) == PerformAll(Before(mode, s, c), plan.writes)
  {
  }

  lemma RaiseExecutes(mode: Mode, s: Store, c: Command, e: Error)
    requires (c.ApplyStatus? || c.SyncStatus?) && PlanOf(s, c) == Raise(e)
    ensures Exec(mode, s, c) == s
  {
  }

  lemma ApplyRaisesQuietly(s: Store, paymentId: Id, meaning: StatusClass, status: string, detail: Option<string>)
    ensures var plan := PlanClassified(s, paymentId, meaning, status, detail);
            plan.answer.Err? ==> plan == Raise(plan.answer.error)
  {
  }

  /** The branch on the provider's status: the payment may settle; nothing is saved yet. */
  method Decide(ports: Ports, payment: Payment, meaning: StatusClass, status: string, detail: Option<string>)
    returns (r: Result<(Action, Option<Event>), Error>)
    requires ports.Valid() && Current(ports, payment)
    requires payment.paymentId in ports.Snapshot().payments
    requires payment.Data() == ports.Snapshot().payments[payment.paymentId]
    modifies payment, ports.uuids
    ensures Intact(ports, old(ports.Frame()), old(ports.Log()), old(ports.publisher.Queue()),
                   old(ports.Entries()))
    ensures var s := old(ports.Snapshot()); var plan := PlanClassified(s, payment.paymentId, meaning, status, detail);
            if plan.answer.Err? then
              r == Err(plan.answer.error) && ports.Snapshot() == s
            else
              && r.Ok? && plan.answer == Ok(StatusAnswer(payment.Data(), r.value.0))
              && plan.writes == StatusWrites(payment.Data(), r.value.1)
              && ports.Snapshot() ==
                 Touch(ports.RepositoryMode(), s, SavePayment(payment.Data())).(next := s.next + plan.drawn)
  {
    hide QuotesView, PaymentsView, RowsView, ValidQuotes, ValidPayments, ValidRows;
    match meaning
    case ApprovedLike =>
      if payment.status.Confirmed? { return Ok((ActionDuplicate, None)); }
      if payment.status.Failed? { return Ok((ActionIgnored, None)); }
      var event :- ConfirmHeld(ports, payment);
      return Ok((ActionConfirmed, Some(event)));
    case RejectedLike =>
      if payment.status.Confirmed? { return Ok((ActionIgnored, None)); }
      if payment.status.Failed? { return Ok((ActionDuplicate, None)); }
      var failed := FailHeld(ports, payment, FailureReason(status, detail));
      return Ok((ActionFailed, Some(failed.value)));
    case PendingLike => return Ok((ActionIgnored, None));
    case Unsupported => return Err(UnsupportedStatus(status));
  }

  method FetchAndDecide(ports: Ports, paymentId: Id, status: string, detail: Option<string>)
    returns (r: Result<(Payment, Action, Option<Event>), Error>)
    requires ports.Valid()
    modifies ports.payments.Objects(), ports.uuids
    ensures Intact(ports, old(ports.Frame()), old(ports.Log()), old(ports.publisher.Queue()),
                   old(ports.Entries()))
    ensures r.Ok? ==> r.value.0 in old(ports.payments.Objects()) || fresh(r.value.0)
    ensures r.Ok? ==> HeldPayment(ports, r.value.0)
    ensures var s := old(ports.Snapshot()); var plan := PlanApply(s, paymentId, status, detail);
            if plan.answer.Err? then
              r == Err(plan.answer.error) && ports.Snapshot() == s
            else
              && r.Ok? && plan.answer == Ok(StatusAnswer(r.value.0.Data(), r.value.1))
              && plan.writes == StatusWrites(r.value.0.Data(), r.value.2)
              && ports.Snapshot() ==
                 Touch(ports.RepositoryMode(), s, SavePayment(r.value.0.Data())).(next := s.next + plan.drawn)
  {
    hide QuotesView, PaymentsView, RowsView, ValidQuotes, ValidPayments, ValidRows, Classify, Touch;
    var payment :- FetchPayment(ports, paymentId);
    var decided :- Decide(ports, payment, Classify(status), status, detail);
    return Ok((payment, decided.0, decided.1));
  }

  /** Saved always, published if there is something to say. */
  method SaveAndMaybePublish(ports: Ports, payment: Payment, event: Option<Event>)
    requires ports.Valid()
    modifies ports.payments.Repository(), ports.publisher.Objects(), ports.journal
    ensures ports.Valid() && ports.Frame() <= old(ports.Frame()) + {payment}
    ensures old(HeldPayment(ports, payment) || payment.paymentId !in ports.Snapshot().payments) ==>
              ports.Extends(old(ports.Entries()))
    ensures payment.Data() == old(payment.Data())
    ensures ports.Snapshot() == PerformAll(old(ports.Snapshot()), StatusWrites(payment.Data(), event))
    ensures ports.Log() == Logged(old(ports.Log()), old(ports.Snapshot()), StatusWrites(payment.Data(), event))
  {
    hide QuotesView, PaymentsView, RowsView, ValidQuotes, ValidPayments, ValidRows, Logged;
    if event.Some? {
      PerformTwo(ports.Snapshot(), SavePayment(payment.Data()), Publish(event.value));
      SaveAndPublish(ports, payment, event.value);
    } else {
      PaymentStandsAlone(ports, payment);
      PerformOne(ports.Snapshot(), SavePayment(payment.Data()));
      ports.SavePayment(payment);
    }
  }

  method ApplySteps(ports: Ports, paymentId: Id, status: string, detail: Option<string>)
    returns (r: Result<(Payment, Action), Error>, ghost event: Option<Event>)
    requires ports.Valid()
    modifies ports.Frame()
    ensures ports.Valid() && fresh(ports.Frame() - old(ports.Frame()))
    ensures ports.Extends(old(ports.Entries()))
    ensures var s := old(ports.Snapshot()); var plan := PlanApply(s, paymentId, status, detail);
            if plan.answer.Err? then
              && r == Err(plan.answer.error) && ports.Snapshot() == s
              && ports.Log() == old(ports.Log())
            else
              && r.Ok? && plan.answer == Ok(StatusAnswer(r.value.0.Data(), r.value.1))
              && plan.writes == StatusWrites(r.value.0.Data(), event)
              && var before := Touch(ports.RepositoryMode(), s, SavePayment(r.value.0.Data()));
              && ports.Snapshot() == PerformAll(before.(next := s.next + plan.drawn), plan.writes)
              && ports.Log() == Logged(old(ports.Log()), before.(next := s.next + plan.drawn), plan.writes)
  {
    hide QuotesView, PaymentsView, RowsView, ValidQuotes, ValidPayments, ValidRows;
    hide Touch, PerformAll, PlanApply, StatusWrites, Logged;
    event := None;
    var decided :- FetchAndDecide(ports, paymentId, status, detail);
    event := decided.2;
    SaveAndMaybePublish(ports, decided.0, decided.2);
    r := Ok((decided.0, decided.1));
  }

  method ApplyPaymentStatusUseCase(ports: Ports, paymentId: Id, status: string, detail: Option<string>)
    returns (r: Result<(Payment, Action), Error>)
    requires ports.Valid()
    modifies ports.Frame()
    ensures Executed(ports, ApplyStatus(paymentId, status, detail))
    ensures fresh(ports.Frame() - old(ports.Frame()))
    ensures ports.Extends(old(ports.Entries()))
    ensures PlanOf(old(ports.Snapshot()), ApplyStatus(paymentId, status, detail)).answer
            == if r.Ok? then Ok(StatusAnswer(r.value.0.Data(), r.value.1)) else Err(r.error)
  {
    hide QuotesView, PaymentsView, RowsView, ValidQuotes, ValidPayments, ValidRows;
    hide Touch, PerformAll, PlanClassified, StatusWrites, Exec, Classify, Before, Logged;
    NothingLogged(ports, ApplyStatus(paymentId, status, detail));
    ghost var s, plan := ports.Snapshot(), PlanApply(ports.Snapshot(), paymentId, status, detail);
    ghost var event;
    ApplyRaisesQuietly(s, paymentId, Classify(status), status, detail);
    r, event := ApplySteps(ports, paymentId, status, detail);
    if r.Ok? {
      ApplyExecutes(ports.RepositoryMode(), s, ApplyStatus(paymentId, status, detail), plan, r.value.0.Data(), event);
    } else {
      RaiseExecutes(ports.RepositoryMode(), s, ApplyStatus(paymentId, status, detail), r.error);
    }
  }

  lemma SyncExecutes(mode: Mode, s: Store, paymentId: Id, reply: SearchReply)
    ensures var plan := PlanOf(s, SyncStatus(paymentId, reply));
            if paymentId !in s.payments then
              plan == Raise(PaymentNotFound(paymentId)) && Exec(mode, s, SyncStatus(paymentId, reply)) == s
            else
              var found := GetPaymentStatus(s.payments[paymentId], reply);
              if found.Err? then
                plan == Raise(found.error) && Exec(mode, s, SyncStatus(paymentId, reply)) == s
              else
                var c := ApplyStatus(paymentId, found.value.status, found.value.detail);
                && plan == PlanOf(s, c) && Before(mode, s, SyncStatus(paymentId, reply)) == Before(mode, s, c)
                && Exec(mode, s, SyncStatus(paymentId, reply)) == Exec(mode, s, c)
  {
  }

  /** The payment is looked up at the provider, and what was found is applied. */
  method SyncPaymentStatusUseCase(ports: Ports, paymentId: Id, reply: SearchReply)
    returns (r: Result<(Payment, Action), Error>)
    requires ports.Valid()
    modifies ports.Frame()
    ensures Executed(ports, SyncStatus(paymentId, reply))
    ensures fresh(ports.Frame() - old(ports.Frame()))
    ensures ports.Extends(old(ports.Entries()))
    ensures PlanOf(old(ports.Snapshot()), SyncStatus(paymentId, reply)).answer
            == if r.Ok? then Ok(StatusAnswer(r.value.0.Data(), r.value.1)) else Err(r.error)
  {
    hide QuotesView, PaymentsView, RowsView, ValidQuotes, ValidPayments, ValidRows;
    hide Touch, PerformAll, PlanOf, Exec, GetPaymentStatus, Before, Logged;
    NothingLogged(ports, SyncStatus(paymentId, reply));
    SyncExecutes(ports.RepositoryMode(), ports.Snapshot(), paymentId, reply);
    var payment :- FetchPayment(ports, paymentId);
    var found :- GetPaymentStatus(payment.Data(), reply);
    r := ApplyPaymentStatusUseCase(ports, paymentId, found.status, found.detail);
  }
}
