/** What each command does to a store that a run can lead to, over either kind of repository:
    the whole new store, the result, and every reason to refuse, in plain values. */
module Commands {
  import opened Wrappers
  import opened PyText
  import opened Words
  import opened Decimals
  import opened Billing
  import opened Gateway
  import opened Saga
  import opened CrashSafety
  import A = Aliasing

  /** The command is refused for the given reason, and nothing changes. */
  predicate Refused(mode: Mode, s: Store, c: Command, e: Error) {
    Exec(mode, s, c) == s && PlanOf(s, c).answer == Err(e)
  }

  /** Nothing changes, and the result is `answer`. */
  predicate Idle(mode: Mode, s: Store, c: Command, answer: Answer) {
    Exec(mode, s, c) == s && PlanOf(s, c).answer == Ok(answer)
  }

  /** One event about the payment, and its new status; everything else stays. */
  predicate Settled(s: Store, t: Store, id: Id, status: PaymentStatus, kind: Kind) {
    && id in s.payments
    && var p := s.payments[id];
    t == Store(s.quotes,
               s.payments[id := PaymentData(id, p.quoteId, p.serviceOrderId, p.total, status, p.preference)],
               s.processed, s.history + [Event(kind, p.quoteId, p.serviceOrderId, Uuid(s.next))], s.next + 1)
  }

  lemma SameEverywhere(mode: Mode, s: Store, c: Command)
    requires Safe(s) && !c.ApproveQuote?
    ensures Exec(mode, s, c) == Exec(Copying, s, c)
  {
    SafeIsKeyed(s);
    A.AliasingStep(s, c);
  }

  lemma NothingWritten(mode: Mode, s: Store, c: Command)
    requires Safe(s) && !c.ApproveQuote? && PlanOf(s, c).writes == [] && PlanOf(s, c).drawn == 0
    ensures Exec(mode, s, c) == s
  {
    SameEverywhere(mode, s, c);
  }

  // ----- Creating quotes -----

  predicate PositiveAmount(amount: Decimal) {
    !amount.negative && amount.coefficient > 0
  }

  /** The quote that is asked for. */
  function Asked(id: Id, serviceOrderId: string, items: seq<string>, amount: Decimal): QuoteData
    requires PositiveAmount(amount)
  {
    assert !IsSpace("BRL"[0]);
    QuoteData(id, serviceOrderId, items, RawMoney(amount, "BRL"), Created)
  }

  /** The store with one more quote, under an id that was not in use, and its announcement. */
  predicate Opened(s: Store, t: Store, q: QuoteData) {
    && q.quoteId == Uuid(s.next) && q.quoteId !in s.quotes
    && t.quotes == s.quotes[q.quoteId := q] && t.payments == s.payments
    && t.history == s.history + [Event(QuoteCreated, q.quoteId, q.serviceOrderId, Uuid(s.next + 1))]
    && t.next == s.next + 2
  }

  lemma OpeningOpens(s: Store, ws: seq<Write>, drawn: Store)
    requires Safe(s) && Opening(s, ws) && drawn == s.(next := s.next + 2)
    ensures var t := PerformAll(drawn, ws);
            && Opened(s, t, ws[0].quote)
            && t.processed == if |ws| == 3 then s.processed[ws[2].eventId := Uuid(s.next)] else s.processed
  {
    DrawnIdsAreFresh(s);
    OpeningEffect(s, drawn, ws);
  }

  /** What the plan of a creation is made of. */
  lemma CreatePlan(s: Store, serviceOrderId: string, items: seq<string>, amount: Decimal)
    ensures var plan := PlanCreate(s, serviceOrderId, items, amount);
            if !PositiveAmount(amount) then plan == Raise(MoneyNotPositive)
            else if !HasText(serviceOrderId) then plan == Raise(ServiceOrderRequired)
            else if items == [] then plan == Raise(ItemsRequired)
            else
              var q := Asked(Uuid(s.next), serviceOrderId, items, amount);
              && |plan.writes| == 2 && Opening(s, plan.writes) && plan.writes[0] == SaveQuote(q)
              && plan.drawn == 2 && plan.answer == Ok(QuoteAnswer(q))
  {
    BlankHasNoText(serviceOrderId);
    assert !IsSpace("BRL"[0]);
  }

  /** A quote is created exactly when the order is not blank, there are items, and the amount
      is positive. It carries the order, the items, the amount digit by digit and the default
      currency. */
  lemma CreateQuoteDoes(mode: Mode, s: Store, serviceOrderId: string, items: seq<string>, amount: Decimal)
    requires Safe(s)
    ensures var c := CreateQuote(serviceOrderId, items, amount); var t := Exec(mode, s, c);
            if !PositiveAmount(amount) then Refused(mode, s, c, MoneyNotPositive)
            else if !HasText(serviceOrderId) then Refused(mode, s, c, ServiceOrderRequired)
            else if items == [] then Refused(mode, s, c, ItemsRequired)
            else
              var q := Asked(Uuid(s.next), serviceOrderId, items, amount);
              Opened(s, t, q) && t.processed == s.processed && PlanOf(s, c).answer == Ok(QuoteAnswer(q))
  {
    var c := CreateQuote(serviceOrderId, items, amount);
    CreatePlan(s, serviceOrderId, items, amount);
    var plan := PlanCreate(s, serviceOrderId, items, amount);
    SameEverywhere(mode, s, c);
    hide PlanCreate, Safe, Opening, Asked, HasText;
    if plan.writes == [] { NothingWritten(mode, s, c); } else { OpeningOpens(s, plan.writes, Draw(s, plan)); }
  }

  /** The type of a message, as the text that travels. */
  predicate Named(b: Body, name: string) {
    b.Fields? && b.eventType.Some? && TypeName(b.eventType.value) == name
  }

  /** Every field is there, the type is supported, and the payload is an object. */
  predicate Complete(b: Body) {
    && b.Fields? && b.eventId.Some? && b.correlationId.Some? && b.hasOccurredAt
    && b.payload.Some? && b.payload.value.Dict?
    && (Named(b, "OS_OPENED") || Named(b, "QUOTE_CREATED") || Named(b, "QUOTE_APPROVED")
        || Named(b, "QUOTE_CANCELLED") || Named(b, "PAYMENT_PREFERENCE_CREATED") || Named(b, "PAYMENT_CONFIRMED")
        || Named(b, "PAYMENT_FAILED"))
  }

  /** The type was read from a text. */
  predicate Read(b: Body) {
    b.Fields? && b.eventType.Some? ==> b.eventType.value == ParseType(TypeName(b.eventType.value))
  }

  lemma TypesHaveNames(b: Body)
    requires Read(b)
    ensures ValidBody(b) <==> Complete(b)
    ensures b.Fields? ==> (b.eventType == Some(OsOpened) <==> Named(b, "OS_OPENED"))
  {
  }

  /** The quote that a message asks for, if the configured values will do. */
  predicate Quotable(serviceOrderId: string, d: Defaults) {
    PositiveAmount(d.amount) && HasText(serviceOrderId) && d.items != []
  }

  function WhyNotQuotable(serviceOrderId: string, d: Defaults): Error
    requires !Quotable(serviceOrderId, d)
  {
    if !PositiveAmount(d.amount) then MoneyNotPositive
    else if !HasText(serviceOrderId) then ServiceOrderRequired
    else ItemsRequired
  }

  /** The store after a message with the given event id has opened a quote and been marked. */
  predicate OpenedFor(s: Store, t: Store, eventId: Id, serviceOrderId: string, d: Defaults)
    requires Quotable(serviceOrderId, d)
  {
    && Opened(s, t, Asked(Uuid(s.next), serviceOrderId, d.items, d.amount))
    && t.processed == s.processed[eventId := Uuid(s.next)]
  }

  lemma DeliveryOpens(s: Store, plan: Plan, eventId: Id, serviceOrderId: string, d: Defaults)
    requires Safe(s) && Quotable(serviceOrderId, d)
    requires var create := PlanCreate(s, serviceOrderId, d.items, d.amount);
             plan.writes == create.writes + [Mark(eventId, Uuid(s.next))] && plan.drawn == create.drawn
    ensures OpenedFor(s, PerformAll(Draw(s, plan), plan.writes), eventId, serviceOrderId, d)
  {
    CreatePlan(s, serviceOrderId, d.items, d.amount);
    OpeningOpens(s, plan.writes, Draw(s, plan));
    hide Safe, PerformAll, PlanCreate, Opened, Asked;
  }

  /** The handler, given any dictionary, validated or not. */
  lemma HandlingDoes(s: Store, b: Body, d: Defaults)
    requires Safe(s) && b.Fields? && Read(b)
    ensures var plan := PlanHandle(s, b, d); var t := PerformAll(Draw(s, plan), plan.writes);
            if b.eventId.None? || b.eventType.None? || b.correlationId.None? then
              t == s && plan.answer == Err(MissingField)
            else if b.eventId.value in s.processed then t == s && plan.answer == Ok(Skipped)
            else if !Named(b, "OS_OPENED") then t == s && plan.answer == Ok(Ignored)
            else if b.payload.None? then t == s && plan.answer == Err(MissingField)
            else if b.payload.value.NotADict? then t == s && plan.answer == Err(PayloadUnreadable)
            else if b.payload.value.serviceOrderId.None? then t == s && plan.answer == Err(MissingServiceOrder)
            else
              var serviceOrderId := b.payload.value.serviceOrderId.value;
              if !Quotable(serviceOrderId, d) then
                t == s && plan.answer == Err(WhyNotQuotable(serviceOrderId, d))
              else OpenedFor(s, t, b.eventId.value, serviceOrderId, d) && plan.answer == Ok(Processed)
  {
    hide Safe, Named, PlanCreate, OpenedFor, HasText, ParseType, Complete, ValidBody;
    TypesHaveNames(b);
    if AsksInFull(s, b) {
      var serviceOrderId := b.payload.value.serviceOrderId.value;
      CreatePlan(s, serviceOrderId, d.items, d.amount);
      if Quotable(serviceOrderId, d) {
        DeliveryOpens(s, PlanHandle(s, b, d), b.eventId.value, serviceOrderId, d);
      }
    }
  }

  predicate AsksInFull(s: Store, b: Body) {
    && b.Fields? && b.eventId.Some? && b.eventType == Some(OsOpened) && b.correlationId.Some?
    && b.eventId.value !in s.processed
    && b.payload.Some? && !b.payload.value.NotADict? && b.payload.value.serviceOrderId.Some?
  }

  /** A delivered message makes a quote exactly when it is complete, asks for one, has not been
      processed, names an order that is not blank, and the configured items and amount will do;
      the quote carries the order and the configured values, and the message is marked. */
  lemma DeliverDoes(mode: Mode, s: Store, b: Body, d: Defaults)
    requires Safe(s) && Read(b)
    ensures var c := Deliver(b, d);
            if !Complete(b) then Refused(mode, s, c, InvalidMessage)
            else if b.eventId.value in s.processed then Idle(mode, s, c, Skipped)
            else if !Named(b, "OS_OPENED") then Idle(mode, s, c, Ignored)
            else if b.payload.value.serviceOrderId.None? then Refused(mode, s, c, MissingServiceOrder)
            else
              var serviceOrderId := b.payload.value.serviceOrderId.value;
              if !Quotable(serviceOrderId, d) then Refused(mode, s, c, WhyNotQuotable(serviceOrderId, d))
              else
                && OpenedFor(s, Exec(mode, s, c), b.eventId.value, serviceOrderId, d)
                && PlanOf(s, c).answer == Ok(Processed)
  {
    var c := Deliver(b, d);
    SameEverywhere(mode, s, c);
    TypesHaveNames(b);
    if ValidBody(b) {
      HandlingDoes(s, b, d);
    } else {
      assert PlanOf(s, c) == Raise(InvalidMessage);
    }
    hide Safe, Named, PlanHandle, OpenedFor, Quotable, WhyNotQuotable, ParseType;
  }

  // ----- Approving -----

  /** Over live objects an approval shows before the gateway has answered. */
  function Shown(mode: Mode, s: Store, q: QuoteData): map<Id, QuoteData> {
    if mode.Aliasing? then s.quotes[q.quoteId := q] else s.quotes
  }

  /** The quote is approved, and gets a payment with the preference, both announced. */
  predicate Paid(s: Store, t: Store, q: QuoteData, preference: Preference) {
    var p := PaymentData(Uuid(s.next + 1), q.quoteId, q.serviceOrderId, q.total, Pending, Some(preference));
    && p.paymentId !in s.payments
    && t == Store(s.quotes[q.quoteId := q], s.payments[p.paymentId := p], s.processed,
                  s.history + [Event(QuoteApproved, q.quoteId, q.serviceOrderId, Uuid(s.next)),
                               Event(PreferenceCreated(p.paymentId, preference.preferenceId), q.quoteId,
                                     q.serviceOrderId, Uuid(s.next + 2))],
                  s.next + 3)
  }

  lemma ApprovalPays(s: Store, ws: seq<Write>, drawn: Store)
    requires Safe(s) && Approving(s, ws) && drawn == s.(next := s.next + 3)
    ensures Paid(s, PerformAll(drawn, ws), ws[0].quote, ws[1].payment.preference.value)
  {
    DrawnIdsAreFresh(s);
    ApprovingEffect(s, drawn, ws);
    hide Safe, PerformAll;
  }

  /** The same quote, approved. */
  function ApprovedOf(q: QuoteData): QuoteData {
    QuoteData(q.quoteId, q.serviceOrderId, q.items, q.total, Approved)
  }

  lemma ApprovalPlan(s: Store, quoteId: Id, reply: PreferenceReply)
    requires Safe(s) && quoteId in s.quotes && s.quotes[quoteId].status.Created?
    ensures var plan := PlanApprove(s, quoteId, reply); var ws := plan.writes;
            var made := CreateCheckoutPreference(reply, s.quotes[quoteId].serviceOrderId);
            if made.Err? then plan == Plan([], 2, Err(made.error))
            else
              && Approving(s, ws) && plan.drawn == 3 && ws[0].quote == ApprovedOf(s.quotes[quoteId])
              && ws[1].payment.preference == Some(made.value) && ws[1].payment.paymentId == Uuid(s.next + 1)
              && plan.answer == Ok(PaymentAnswer(ws[1].payment))
  {
    assert KnownQuote(s, quoteId);
    hide Safe, CreateCheckoutPreference;
  }

  /** A stored quote is approved exactly when it is still created and the gateway answers with
      an id and an address. When the gateway does not, rows keep the quote as it was, and live
      objects show it approved. */
  lemma ApproveQuoteDoes(mode: Mode, s: Store, quoteId: Id, reply: PreferenceReply)
    requires Safe(s)
    ensures var c := ApproveQuote(quoteId, reply); var t, answer := Exec(mode, s, c), PlanOf(s, c).answer;
            if quoteId !in s.quotes then Refused(mode, s, c, QuoteNotFound(quoteId))
            else if !s.quotes[quoteId].status.Created? then Refused(mode, s, c, QuoteNotCreated)
            else
              var q := ApprovedOf(s.quotes[quoteId]);
              var made := CreateCheckoutPreference(reply, q.serviceOrderId);
              if made.Err? then
                && answer == Err(made.error)
                && t == Store(Shown(mode, s, q), s.payments, s.processed, s.history, s.next + 2)
              else Paid(s, t, q, made.value) && answer == Ok(PaymentAnswer(t.payments[Uuid(s.next + 1)]))
  {
    var c := ApproveQuote(quoteId, reply);
    SafeIsKeyed(s);
    A.AliasingStep(s, c);
    if quoteId in s.quotes && s.quotes[quoteId].status.Created? {
      assert KnownQuote(s, quoteId);
      ApprovalPlan(s, quoteId, reply);
      var ws := PlanOf(s, c).writes;
      if ws != [] {
        ApprovalPays(s, ws, Draw(s, PlanOf(s, c)));
        assert ws[1].payment.paymentId == Uuid(s.next + 1);
      }
      hide Safe, PlanApprove, CreateCheckoutPreference, Keyed, Approving;
    } else {
      hide Safe, CreateCheckoutPreference, Keyed;
    }
  }

  // ----- Settling -----

  lemma SettlingSettles(s: Store, ws: seq<Write>, drawn: Store)
    requires Safe(s) && Settling(s, ws) && drawn == s.(next := s.next + 1)
    ensures Settled(s, PerformAll(drawn, ws), ws[0].payment.paymentId, ws[0].payment.status, ws[1].event.kind)
  {
    SettlingEffect(s, drawn, ws);
  }

  lemma ConfirmPaymentDoes(mode: Mode, s: Store, paymentId: Id)
    requires Safe(s)
    ensures var c := ConfirmPayment(paymentId); var t := Exec(mode, s, c);
            if paymentId !in s.payments then Refused(mode, s, c, PaymentNotFound(paymentId))
            else if !s.payments[paymentId].status.Pending? then Refused(mode, s, c, PaymentNotPending)
            else
              && Settled(s, t, paymentId, Confirmed, PaymentConfirmed(paymentId))
              && PlanOf(s, c).answer == Ok(PaymentAnswer(t.payments[paymentId]))
  {
    var c := ConfirmPayment(paymentId);
    SameEverywhere(mode, s, c);
    if paymentId in s.payments { assert KnownPayment(s, paymentId); }
    SafeIsKeyed(s);
    SettleKind(s, paymentId, "");
    var plan := PlanConfirm(s, paymentId);
    if plan.writes != [] { SettlingSettles(s, plan.writes, Draw(s, plan)); }
    hide Safe, Settling, PerformAll, Keyed;
  }

  lemma FailPaymentDoes(mode: Mode, s: Store, paymentId: Id, reason: string)
    requires Safe(s)
    ensures var c := FailPayment(paymentId, reason); var t := Exec(mode, s, c);
            if paymentId !in s.payments then Refused(mode, s, c, PaymentNotFound(paymentId))
            else if s.payments[paymentId].status.Confirmed? then Refused(mode, s, c, PaymentAlreadyConfirmed)
            else
              && Settled(s, t, paymentId, Failed, PaymentFailed(paymentId, reason))
              && PlanOf(s, c).answer == Ok(PaymentAnswer(t.payments[paymentId]))
  {
    var c := FailPayment(paymentId, reason);
    SameEverywhere(mode, s, c);
    if paymentId in s.payments { assert KnownPayment(s, paymentId); }
    var plan := PlanFail(s, paymentId, reason);
    if plan.writes != [] { SettlingSettles(s, plan.writes, Draw(s, plan)); }
    hide Safe;
  }

  // ----- Provider statuses -----

  /** The reason of a failure that a provider reports. */
  function ProviderReason(status: string, detail: Option<string>): string {
    match detail
    case Some(text) => if text == "" then "Mercado Pago status: " + status else text
    case None => "Mercado Pago status: " + status
  }

  /** What a status does to a stored payment: the new store, and the result. */
  ghost predicate Applied(s: Store, t: Store, answer: Result<Answer, Error>, id: Id, status: string,
                          detail: Option<string>)
    requires id in s.payments
  {
    var p := s.payments[id];
    if ApprovedWord(status) then
      match p.status
      case Confirmed => t == s && answer == Ok(StatusAnswer(p, ActionDuplicate))
      case Failed => t == s && answer == Ok(StatusAnswer(p, ActionIgnored))
      case _ =>
        && Settled(s, t, id, Confirmed, PaymentConfirmed(id))
        && answer == Ok(StatusAnswer(t.payments[id], ActionConfirmed))
    else if RejectedWord(status) then
      match p.status
      case Confirmed => t == s && answer == Ok(StatusAnswer(p, ActionIgnored))
      case Failed => t == s && answer == Ok(StatusAnswer(p, ActionDuplicate))
      case _ =>
        && Settled(s, t, id, Failed, PaymentFailed(id, ProviderReason(status, detail)))
        && answer == Ok(StatusAnswer(t.payments[id], ActionFailed))
    else if PendingWord(status) then t == s && answer == Ok(StatusAnswer(p, ActionIgnored))
    else t == s && answer == Err(UnsupportedStatus(status))
  }

  /** The status that a class of words gives a pending payment, and the event. */
  lemma ClassifiedPlan(s: Store, id: Id, meaning: StatusClass, status: string, detail: Option<string>)
    requires Safe(s) && id in s.payments
    ensures var plan := PlanClassified(s, id, meaning, status, detail); var p, ws := s.payments[id], plan.writes;
            var settles := p.status.Pending? && (meaning.ApprovedLike? || meaning.RejectedLike?);
            var approved := meaning.ApprovedLike?;
            && (settles <==> Settling(s, ws)) && (settles ==> plan.drawn == 1)
            && (settles ==>
                  && ws[0].payment == p.(status := if approved then Confirmed else Failed)
                  && ws[0].payment.paymentId == id
                  && ws[1].event.kind == (if approved then PaymentConfirmed(id)
                                          else PaymentFailed(id, ProviderReason(status, detail)))
                  && plan.answer == Ok(StatusAnswer(ws[0].payment, if approved then ActionConfirmed else ActionFailed)))
            && (!settles && !meaning.Unsupported? ==> Resaving(s, ws) && plan.drawn == 0)
            && (meaning.Unsupported? ==> plan == Raise(UnsupportedStatus(status)))
  {
    assert KnownPayment(s, id);
    hide Safe;
  }

  lemma ClassifiedAnswer(s: Store, id: Id, meaning: StatusClass, status: string, detail: Option<string>)
    requires Safe(s) && id in s.payments
    ensures var answer := PlanClassified(s, id, meaning, status, detail).answer; var p := s.payments[id];
            match meaning
            case ApprovedLike =>
              && (p.status.Confirmed? ==> answer == Ok(StatusAnswer(p, ActionDuplicate)))
              && (p.status.Failed? ==> answer == Ok(StatusAnswer(p, ActionIgnored)))
            case RejectedLike =>
              && (p.status.Confirmed? ==> answer == Ok(StatusAnswer(p, ActionIgnored)))
              && (p.status.Failed? ==> answer == Ok(StatusAnswer(p, ActionDuplicate)))
            case PendingLike => answer == Ok(StatusAnswer(p, ActionIgnored))
            case Unsupported => true
  {
    hide Safe;
  }

  lemma ClassifiedDoes(s: Store, id: Id, meaning: StatusClass, status: string, detail: Option<string>)
    requires Safe(s) && id in s.payments
    requires meaning.ApprovedLike? <==> ApprovedWord(status)
    requires meaning.RejectedLike? <==> RejectedWord(status)
    requires meaning.PendingLike? <==> PendingWord(status)
    ensures var plan := PlanClassified(s, id, meaning, status, detail);
            Applied(s, PerformAll(Draw(s, plan), plan.writes), plan.answer, id, status, detail)
  {
    assert KnownPayment(s, id);
    var plan := PlanClassified(s, id, meaning, status, detail);
    ClassifiedPlan(s, id, meaning, status, detail);
    ClassifiedAnswer(s, id, meaning, status, detail);
    if Settling(s, plan.writes) { SettlingSettles(s, plan.writes, Draw(s, plan)); }
    if Resaving(s, plan.writes) { ResavingEffect(s, Draw(s, plan), plan.writes); }
    assert !s.payments[id].status.WaitingPreference?;
    assert plan.writes == [] ==> PerformAll(Draw(s, plan), plan.writes) == Draw(s, plan);
    hide Safe, PerformAll, PlanClassified, Settling, Resaving, ApprovedWord, RejectedWord, PendingWord, ProviderReason;
    hide Settled, Backed;
  }

  /** The two approved words confirm a pending payment, the six rejected words fail it, the two
      pending words change nothing, and any other text is refused; a settled payment stays. */
  lemma ApplyStatusDoes(mode: Mode, s: Store, paymentId: Id, status: string, detail: Option<string>)
    requires Safe(s)
    ensures var c := ApplyStatus(paymentId, status, detail);
            if paymentId !in s.payments then Refused(mode, s, c, PaymentNotFound(paymentId))
            else Applied(s, Exec(mode, s, c), PlanOf(s, c).answer, paymentId, status, detail)
  {
    var c := ApplyStatus(paymentId, status, detail);
    SameEverywhere(mode, s, c);
    if paymentId in s.payments {
      ClassifyMeans(status);
      ClassifiedDoes(s, paymentId, Classify(status), status, detail);
      assert PlanOf(s, c) == PlanClassified(s, paymentId, Classify(status), status, detail);
      hide Safe, PlanClassified, Classify, Applied;
    }
  }

  /** The only record of the payment's order, complete and for its amount and currency. */
  ghost predicate Matching(s: Store, id: Id, reply: SearchReply, i: nat)
    requires id in s.payments
  {
    && reply.Results? && SoleRecord(reply.items, s.payments[id].serviceOrderId, i)
    && Agrees(reply.items[i], s.payments[id].total)
  }

  /** Why a reply gives no status: the provider's own refusal, no list (502), no record of the
      order (404), an unreadable amount, no id or status (502), and in all other cases, such as
      several records, another amount or another currency, a conflict (409). */
  ghost predicate WhyNoStatus(serviceOrderId: string, total: Money, reply: SearchReply, e: Error) {
    match reply
    case SearchRefused(code) => e == GatewayError(code)
    case NotAList => e == GatewayError(502)
    case Results(items) =>
      if forall j :: 0 <= j < |items| ==> !(items[j].Record? && items[j].externalReference == serviceOrderId)
      then e == GatewayError(404)
      else if exists i: nat :: SoleRecord(items, serviceOrderId, i) && items[i].amount.AmountGarbled?
      then e == AmountUnreadable
      else if exists i: nat :: SoleRecord(items, serviceOrderId, i) && Incomplete(items[i], total)
      then e == GatewayError(502)
      else e == GatewayError(409)
  }

  lemma SearchedByOrder(s: Store, id: Id)
    requires Safe(s) && id in s.payments
    ensures SearchedBy(s.payments[id], s.payments[id].serviceOrderId)
  {
    assert KnownPayment(s, id);
    assert KnownQuote(s, s.payments[id].quoteId);
  }

  lemma SearchFinds(s: Store, id: Id, reply: SearchReply)
    requires Safe(s) && id in s.payments
    ensures var p := s.payments[id]; var found := GetPaymentStatus(p, reply);
            && (found.Ok? <==> exists i: nat :: Matching(s, id, reply, i))
            && (found.Err? ==> WhyNoStatus(p.serviceOrderId, p.total, reply, found.error))
  {
    hide Safe, GetPaymentStatus, Agrees, Incomplete, SearchedBy;
    var p := s.payments[id];
    SearchedByOrder(s, id);
    SearchSucceedsExactly(p, reply, p.serviceOrderId);
    var found := GetPaymentStatus(p, reply);
    if found.Ok? {
      var i: nat :| SoleRecord(reply.items, p.serviceOrderId, i) && Agrees(reply.items[i], p.total);
      assert Matching(s, id, reply, i);
    }
  }

  lemma SearchReports(s: Store, id: Id, reply: SearchReply, i: nat, status: string)
    requires Safe(s) && id in s.payments
    requires Matching(s, id, reply, i) && Trims(reply.items[i].status, status)
    ensures var found := GetPaymentStatus(s.payments[id], reply);
            found.Ok? && found.value.status == status && found.value.detail == reply.items[i].detail
  {
    var p := s.payments[id];
    assert KnownPayment(s, id);
    SearchFinds(s, id, reply);
    var k := StatusIsSound(p, reply);
    assert k == i;
    StripIsTrimming(reply.items[i].status, status);
    StripIsTrimming(reply.items[i].status, GetPaymentStatus(p, reply).value.status);
  }

  /** A sync applies the trimmed status of the one matching record, with its detail, and is
      refused when there is no such record. */
  lemma SyncStatusDoes(mode: Mode, s: Store, paymentId: Id, reply: SearchReply)
    requires Safe(s)
    ensures var c := SyncStatus(paymentId, reply); var t, answer := Exec(mode, s, c), PlanOf(s, c).answer;
            if paymentId !in s.payments then Refused(mode, s, c, PaymentNotFound(paymentId))
            else if exists i: nat :: Matching(s, paymentId, reply, i) then
              forall i: nat, status :: Matching(s, paymentId, reply, i) && Trims(reply.items[i].status, status) ==>
                Applied(s, t, answer, paymentId, status, reply.items[i].detail)
            else
              var p := s.payments[paymentId];
              t == s && answer.Err? && WhyNoStatus(p.serviceOrderId, p.total, reply, answer.error)
  {
    var c := SyncStatus(paymentId, reply);
    SameEverywhere(mode, s, c);
    if paymentId in s.payments {
      var found := GetPaymentStatus(s.payments[paymentId], reply);
      SearchFinds(s, paymentId, reply);
      SyncPlans(mode, s, paymentId, reply);
      hide GetPaymentStatus, PlanOf, Exec, Applied, Agrees, Trims, Matching, WhyNoStatus;
      if found.Ok? {
        ApplyStatusDoes(mode, s, paymentId, found.value.status, found.value.detail);
        forall i: nat, status | Matching(s, paymentId, reply, i) && Trims(reply.items[i].status, status)
          ensures Applied(s, Exec(mode, s, c), PlanOf(s, c).answer, paymentId, status, reply.items[i].detail)
        {
          SearchReports(s, paymentId, reply, i, status);
        }
      }
    }
  }

  lemma SyncPlans(mode: Mode, s: Store, paymentId: Id, reply: SearchReply)
    requires Safe(s) && paymentId in s.payments
    ensures var c := SyncStatus(paymentId, reply); var found := GetPaymentStatus(s.payments[paymentId], reply);
            match found
            case Err(e) => Refused(mode, s, c, e)
            case Ok(v) =>
              var apply := ApplyStatus(paymentId, v.status, v.detail);
              Exec(mode, s, c) == Exec(mode, s, apply) && PlanOf(s, c).answer == PlanOf(s, apply).answer
  {
    var c := SyncStatus(paymentId, reply);
    SameEverywhere(mode, s, c);
    var found := GetPaymentStatus(s.payments[paymentId], reply);
    if found.Ok? {
      var apply := ApplyStatus(paymentId, found.value.status, found.value.detail);
      SameEverywhere(mode, s, apply);
      assert PlanOf(s, c) == PlanOf(s, apply);
    }
    hide Safe, GetPaymentStatus, PlanApply;
  }
}
