/** The routes that settle payments: they count what their use cases report. */
module Routes {
  import opened Wrappers
  import opened Billing
  import opened Gateway
  import opened Saga
  import opened Settlement
  import opened Entities
  import opened Repositories
  import opened Wiring
  import opened UseCases

  /** `PAYMENT_TRANSITION_COUNTER`, by its label. */
  class TransitionCounter {
    var confirmed: nat
    var failed: nat

    constructor ()
      ensures confirmed == 0 && failed == 0
    {
      confirmed, failed := 0, 0;
    }

    method Count(action: Action)
      modifies this
      ensures confirmed == old(confirmed) + if action.ActionConfirmed? then 1 else 0
      ensures failed == old(failed) + if action.ActionFailed? then 1 else 0
    {
      match action
      case ActionConfirmed => confirmed := confirmed + 1;
      case ActionFailed => failed := failed + 1;
      case ActionIgnored =>
      case ActionDuplicate =>
    }
  }

  ghost function ServiceOf(ports: Ports, counter: TransitionCounter): Service
    reads ports.Frame(), ports.quotes.Repository(), ports.payments.Repository(), counter
  {
    Service(ports.Snapshot(), counter.confirmed, counter.failed)
  }

  /** The route has served the command: one step of `ServeAll`. */
  twostate predicate Served(ports: Ports, counter: TransitionCounter, c: Command)
    reads ports.Frame(), ports.quotes.Repository(), ports.payments.Repository(), counter
  {
    && Executed(ports, c)
    && ServiceOf(ports, counter) == Serve(ports.RepositoryMode(), old(ServiceOf(ports, counter)), c)
  }

  /** The route's answer: the payment as it now is, or the reason for refusing. */
  ghost predicate Shows(answer: Result<Answer, Error>, r: Result<Payment, Error>)
    reads if r.Ok? then {r.value} else {}
  {
    match r
    case Err(e) => answer == Err(e)
    case Ok(payment) =>
      answer == Ok(PaymentAnswer(payment.Data()))
      || exists action :: answer == Ok(StatusAnswer(payment.Data(), action))
  }

  lemma CounterStandsAlone(ports: Ports, counter: TransitionCounter)
    ensures counter !in ports.Frame()
  {
  }

  /** A response, after the use case has been executed. */
  method Respond(ports: Ports, counter: TransitionCounter, action: Action)
    requires ports.Valid()
    modifies counter
    ensures ports.Valid() && ports.Frame() == old(ports.Frame()) && ports.Snapshot() == old(ports.Snapshot())
    ensures ports.Log() == old(ports.Log())
    ensures counter.confirmed == old(counter.confirmed) + if action.ActionConfirmed? then 1 else 0
    ensures counter.failed == old(counter.failed) + if action.ActionFailed? then 1 else 0
  {
    hide QuotesView, PaymentsView, RowsView, ValidQuotes, ValidPayments, ValidRows;
    CounterStandsAlone(ports, counter);
    counter.Count(action);
    IdsDrawn(ports);
  }

  method ConfirmPaymentRoute(ports: Ports, counter: TransitionCounter, paymentId: Id)
    returns (r: Result<Payment, Error>)
    requires ports.Valid()
    modifies ports.Frame(), counter
    ensures Served(ports, counter, ConfirmPayment(paymentId))
    ensures Shows(PlanOf(old(ports.Snapshot()), ConfirmPayment(paymentId)).answer, r)
  {
    hide QuotesView, PaymentsView, RowsView, ValidQuotes, ValidPayments, ValidRows, Exec, PlanOf;
    CounterStandsAlone(ports, counter);
    var payment :- ConfirmPaymentUseCase(ports, paymentId);
    Respond(ports, counter, ActionConfirmed);
    return Ok(payment);
  }

  method FailPaymentRoute(ports: Ports, counter: TransitionCounter, paymentId: Id, reason: string)
    returns (r: Result<Payment, Error>)
    requires ports.Valid()
    modifies ports.Frame(), counter
    ensures Served(ports, counter, FailPayment(paymentId, reason))
    ensures Shows(PlanOf(old(ports.Snapshot()), FailPayment(paymentId, reason)).answer, r)
  {
    hide QuotesView, PaymentsView, RowsView, ValidQuotes, ValidPayments, ValidRows, Exec, PlanOf;
    CounterStandsAlone(ports, counter);
    var payment :- FailPaymentUseCase(ports, paymentId, reason);
    Respond(ports, counter, ActionFailed);
    return Ok(payment);
  }

  method SyncPaymentStatusRoute(ports: Ports, counter: TransitionCounter, paymentId: Id, reply: SearchReply)
    returns (r: Result<Payment, Error>)
    requires ports.Valid()
    modifies ports.Frame(), counter
    ensures Served(ports, counter, SyncStatus(paymentId, reply))
    ensures Shows(PlanOf(old(ports.Snapshot()), SyncStatus(paymentId, reply)).answer, r)
  {
    hide QuotesView, PaymentsView, RowsView, ValidQuotes, ValidPayments, ValidRows, Exec, PlanOf;
    CounterStandsAlone(ports, counter);
    var result :- SyncPaymentStatusUseCase(ports, paymentId, reply);
    Respond(ports, counter, result.1);
    return Ok(result.0);
  }

  /** The test endpoint, when it is enabled. */
  method SimulatePaymentUpdateRoute(ports: Ports, counter: TransitionCounter, paymentId: Id, status: string,
                                    detail: Option<string>)
    returns (r: Result<Payment, Error>)
    requires ports.Valid()
    modifies ports.Frame(), counter
    ensures Served(ports, counter, ApplyStatus(paymentId, status, detail))
    ensures Shows(PlanOf(old(ports.Snapshot()), ApplyStatus(paymentId, status, detail)).answer, r)
  {
    hide QuotesView, PaymentsView, RowsView, ValidQuotes, ValidPayments, ValidRows, Exec, PlanOf;
    CounterStandsAlone(ports, counter);
    var result :- ApplyPaymentStatusUseCase(ports, paymentId, status, detail);
    Respond(ports, counter, result.1);
    return Ok(result.0);
  }
}
