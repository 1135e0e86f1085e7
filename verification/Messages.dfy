/** What other services receive: the messages on the queue after a command, by the names and
    members that travel. */
module Messages {
  import opened Wrappers
  import opened Words
  import opened Decimals
  import opened Billing
  import opened Gateway
  import opened Saga
  import opened CrashSafety
  import opened Deliveries
  import opened Commands

  function WordFor(k: Kind): string {
    match k
    case QuoteCreated => "QUOTE_CREATED"
    case QuoteApproved => "QUOTE_APPROVED"
    case QuoteCancelled(_) => "QUOTE_CANCELLED"
    case PreferenceCreated(_, _) => "PAYMENT_PREFERENCE_CREATED"
    case PaymentConfirmed(_) => "PAYMENT_CONFIRMED"
    case PaymentFailed(_, _) => "PAYMENT_FAILED"
  }

  /** The message has the event's name and id, its order twice, its quote, and whatever else
      the event says, and nothing more. */
  predicate Announces(b: Body, e: Event) {
    && Named(b, WordFor(e.kind)) && b.eventId == Some(e.eventId) && b.correlationId == Some(e.serviceOrderId)
    && b.hasOccurredAt && b.payload.Some? && b.payload.value.Dict?
    && b.payload.value.serviceOrderId == Some(e.serviceOrderId)
    && var others := b.payload.value.others;
    && "quote_id" in others && others["quote_id"] == e.quoteId
    && match e.kind
       case QuoteCreated => others.Keys == {"quote_id"}
       case QuoteApproved => others.Keys == {"quote_id"}
       case QuoteCancelled(why) => others.Keys == {"quote_id", "reason"} && others["reason"] == Given(why)
       case PreferenceCreated(paymentId, preferenceId) =>
         && others.Keys == {"quote_id", "payment_id", "preference_id"}
         && others["payment_id"] == paymentId && others["preference_id"] == Given(preferenceId)
       case PaymentConfirmed(paymentId) =>
         others.Keys == {"quote_id", "payment_id"} && others["payment_id"] == paymentId
       case PaymentFailed(paymentId, reason) =>
         && others.Keys == {"quote_id", "payment_id", "reason"}
         && others["payment_id"] == paymentId && others["reason"] == Given(reason)
  }

  lemma NamesDiffer()
    ensures "payment_id" != "quote_id" && "reason" != "quote_id" && "preference_id" != "quote_id"
    ensures "payment_id" != "reason" && "payment_id" != "preference_id"
  {
    assert |"payment_id"| == 10 && |"quote_id"| == 8 && |"reason"| == 6 && |"preference_id"| == 13;
  }

  lemma MembersAre(e: Event)
    ensures Announces(Encode(e), e)
  {
    NamesDiffer();
    TypesAreNamed(e.kind);
    var others := Members(e);
    match e.kind
    case QuoteCreated =>
    case QuoteApproved =>
    case QuoteCancelled(why) =>
    case PreferenceCreated(paymentId, preferenceId) =>
    case PaymentConfirmed(paymentId) =>
    case PaymentFailed(paymentId, reason) =>
  }

  lemma TypesAreNamed(k: Kind)
    ensures TypeName(TypeOf(k)) == WordFor(k)
  {
  }

  lemma WordsDiffer(j: Kind, k: Kind)
    requires WordFor(j) == WordFor(k)
    ensures TypeOf(j) == TypeOf(k)
  {
    TypesAreNamed(j);
    TypesAreNamed(k);
    TypeNamesRoundTrip(TypeOf(j));
    TypeNamesRoundTrip(TypeOf(k));
  }

  /** A message says exactly what its event says: no two events have the same message. */
  lemma EncodingLosesNothing(e: Event, f: Event)
    ensures Encode(e) == Encode(f) ==> e == f
  {
    if Encode(e) == Encode(f) {
      MembersAre(e);
      MembersAre(f);
      WordsDiffer(e.kind, f.kind);
      hide WordFor, Members;
    }
  }

  // ----- The messages of a command -----

  lemma ExecHistory(mode: Mode, s: Store, c: Command)
    ensures Exec(mode, s, c).history == s.history + Events(PlanOf(s, c).writes)
  {
    WritesAppendEvents(Before(mode, s, c), PlanOf(s, c).writes);
    hide PlanOf, PerformAll, Events;
  }

  lemma NewMessagesAreQueued(mode: Mode, s: Store, c: Command)
    ensures var t := Exec(mode, s, c);
            s.history <= t.history && NewMessages(s, t) == EncodeAll(Events(PlanOf(s, c).writes))
  {
    var t := Exec(mode, s, c);
    ExecHistory(mode, s, c);
    hide Exec, PlanOf, Events;
    assert t.history[|s.history|..] == Events(PlanOf(s, c).writes);
  }

  function NewMessages(s: Store, t: Store): seq<Body>
    requires s.history <= t.history
  {
    EncodeAll(t.history[|s.history|..])
  }

  /** Exactly one new message, about this. */
  predicate TellsOne(s: Store, t: Store, kind: Kind, quoteId: Id, serviceOrderId: string) {
    && s.history <= t.history && |NewMessages(s, t)| == 1
    && Announces(NewMessages(s, t)[0], Event(kind, quoteId, serviceOrderId, t.history[|s.history|].eventId))
  }

  predicate TellsNothing(s: Store, t: Store) {
    s.history <= t.history && NewMessages(s, t) == []
  }

  lemma OneNew(s: Store, t: Store, e: Event)
    requires t.history == s.history + [e]
    ensures TellsOne(s, t, e.kind, e.quoteId, e.serviceOrderId)
  {
    assert t.history[|s.history|..] == [e];
    MembersAre(e);
    hide Announces, Encode;
  }

  lemma NothingNew(s: Store, t: Store)
    requires t.history == s.history
    ensures TellsNothing(s, t)
  {
    assert t.history[|s.history|..] == [];
  }

  lemma CreationTells(mode: Mode, s: Store, serviceOrderId: string, items: seq<string>, amount: Decimal)
    requires Safe(s)
    ensures var c := CreateQuote(serviceOrderId, items, amount); var t := Exec(mode, s, c);
            if PlanOf(s, c).answer.Ok? then TellsOne(s, t, QuoteCreated, Uuid(s.next), serviceOrderId)
            else TellsNothing(s, t)
  {
    var c := CreateQuote(serviceOrderId, items, amount);
    var t := Exec(mode, s, c);
    CreateQuoteDoes(mode, s, serviceOrderId, items, amount);
    hide Exec, PlanOf, Safe, TellsOne, TellsNothing, HasText;
    if PlanOf(s, c).answer.Ok? { OneNew(s, t, t.history[|s.history|]); } else { NothingNew(s, t); }
  }

  /** Both messages of an approval, in this order. */
  predicate TellsApproval(s: Store, t: Store, quoteId: Id, serviceOrderId: string, paymentId: Id) {
    && s.history <= t.history && |NewMessages(s, t)| == 2 && paymentId in t.payments
    && t.payments[paymentId].preference.Some?
    && Announces(NewMessages(s, t)[0], Event(QuoteApproved, quoteId, serviceOrderId, t.history[|s.history|].eventId))
    && Announces(NewMessages(s, t)[1],
                 Event(PreferenceCreated(paymentId, t.payments[paymentId].preference.value.preferenceId),
                       quoteId, serviceOrderId, t.history[|s.history| + 1].eventId))
  }

  lemma TwoNew(s: Store, t: Store, a: Event, b: Event)
    requires t.history == s.history + [a, b]
    ensures NewMessages(s, t) == [Encode(a), Encode(b)]
    ensures Announces(Encode(a), a) && Announces(Encode(b), b)
  {
    assert t.history[|s.history|..] == [a, b];
    MembersAre(a);
    MembersAre(b);
    hide Announces, Encode;
  }

  lemma PaidTells(s: Store, t: Store, q: QuoteData, preference: Preference)
    requires Paid(s, t, q, preference)
    ensures TellsApproval(s, t, q.quoteId, q.serviceOrderId, Uuid(s.next + 1))
  {
    var paymentId := Uuid(s.next + 1);
    var a := Event(QuoteApproved, q.quoteId, q.serviceOrderId, Uuid(s.next));
    var b := Event(PreferenceCreated(paymentId, preference.preferenceId), q.quoteId, q.serviceOrderId,
                   Uuid(s.next + 2));
    assert t.history[|s.history|] == a && t.history[|s.history| + 1] == b;
    TwoNew(s, t, a, b);
    hide NewMessages, Announces, Encode;
  }

  lemma ApprovalTells(mode: Mode, s: Store, quoteId: Id, reply: PreferenceReply)
    requires Safe(s)
    ensures var c := ApproveQuote(quoteId, reply); var t := Exec(mode, s, c);
            if PlanOf(s, c).answer.Ok? then
              quoteId in s.quotes && TellsApproval(s, t, quoteId, s.quotes[quoteId].serviceOrderId, Uuid(s.next + 1))
            else TellsNothing(s, t)
  {
    var c := ApproveQuote(quoteId, reply);
    var t := Exec(mode, s, c);
    ApproveQuoteDoes(mode, s, quoteId, reply);
    SafeIsKeyed(s);
    hide Exec, PlanOf, Safe, TellsNothing, TellsApproval, Paid, CreateCheckoutPreference;
    if PlanOf(s, c).answer.Ok? {
      var q := s.quotes[quoteId];
      assert q.quoteId == quoteId;
      PaidTells(s, t, ApprovedOf(q), CreateCheckoutPreference(reply, q.serviceOrderId).value);
    } else {
      NothingNew(s, t);
    }
  }

  /** One message about the payment, if it settles, and none otherwise. */
  ghost predicate TellsSettling(s: Store, t: Store, id: Id, kind: Kind)
  {
    id in s.payments && TellsOne(s, t, kind, s.payments[id].quoteId, s.payments[id].serviceOrderId)
  }

  lemma SettledTells(s: Store, t: Store, id: Id, status: PaymentStatus, kind: Kind)
    requires Settled(s, t, id, status, kind)
    ensures TellsSettling(s, t, id, kind)
  {
    OneNew(s, t, t.history[|s.history|]);
    hide TellsOne;
  }

  lemma ConfirmationTells(mode: Mode, s: Store, paymentId: Id)
    requires Safe(s)
    ensures var c := ConfirmPayment(paymentId); var t := Exec(mode, s, c);
            if PlanOf(s, c).answer.Ok? then TellsSettling(s, t, paymentId, PaymentConfirmed(paymentId))
            else TellsNothing(s, t)
  {
    var c := ConfirmPayment(paymentId);
    var t := Exec(mode, s, c);
    ConfirmPaymentDoes(mode, s, paymentId);
    hide Exec, PlanOf, Safe, TellsSettling, TellsNothing, Settled;
    if PlanOf(s, c).answer.Ok? {
      SettledTells(s, t, paymentId, Confirmed, PaymentConfirmed(paymentId));
    } else {
      NothingNew(s, t);
    }
  }

  lemma FailureTells(mode: Mode, s: Store, paymentId: Id, reason: string)
    requires Safe(s)
    ensures var c := FailPayment(paymentId, reason); var t := Exec(mode, s, c);
            if PlanOf(s, c).answer.Ok? then TellsSettling(s, t, paymentId, PaymentFailed(paymentId, reason))
            else TellsNothing(s, t)
  {
    var c := FailPayment(paymentId, reason);
    var t := Exec(mode, s, c);
    FailPaymentDoes(mode, s, paymentId, reason);
    hide Exec, PlanOf, Safe, TellsSettling, TellsNothing, Settled;
    if PlanOf(s, c).answer.Ok? {
      SettledTells(s, t, paymentId, Failed, PaymentFailed(paymentId, reason));
    } else {
      NothingNew(s, t);
    }
  }

  /** What applying a status tells: of a pending payment that is approved or rejected. */
  ghost predicate TellsStatus(s: Store, t: Store, id: Id, status: string, detail: Option<string>) {
    if id in s.payments && s.payments[id].status.Pending? && ApprovedWord(status) then
      TellsSettling(s, t, id, PaymentConfirmed(id))
    else if id in s.payments && s.payments[id].status.Pending? && RejectedWord(status) then
      TellsSettling(s, t, id, PaymentFailed(id, ProviderReason(status, detail)))
    else TellsNothing(s, t)
  }

  lemma AppliedTells(s: Store, t: Store, answer: Result<Answer, Error>, id: Id, status: string, detail: Option<string>)
    requires Safe(s) && id in s.payments && Applied(s, t, answer, id, status, detail)
    ensures TellsStatus(s, t, id, status, detail)
  {
    assert KnownPayment(s, id);
    hide Safe, ApprovedWord, RejectedWord, PendingWord, Settled, TellsSettling, TellsNothing, ProviderReason;
    var reason := ProviderReason(status, detail);
    if t == s {
      NothingNew(s, t);
    }
    if Settled(s, t, id, Confirmed, PaymentConfirmed(id)) {
      SettledTells(s, t, id, Confirmed, PaymentConfirmed(id));
    }
    if Settled(s, t, id, Failed, PaymentFailed(id, reason)) {
      SettledTells(s, t, id, Failed, PaymentFailed(id, reason));
    }
  }

  lemma StatusTells(mode: Mode, s: Store, paymentId: Id, status: string, detail: Option<string>)
    requires Safe(s)
    ensures TellsStatus(s, Exec(mode, s, ApplyStatus(paymentId, status, detail)), paymentId, status, detail)
  {
    var c := ApplyStatus(paymentId, status, detail);
    ApplyStatusDoes(mode, s, paymentId, status, detail);
    hide Exec, PlanOf, TellsNothing, Applied;
    if paymentId in s.payments {
      AppliedTells(s, Exec(mode, s, c), PlanOf(s, c).answer, paymentId, status, detail);
    } else {
      NothingNew(s, Exec(mode, s, c));
    }
  }

  /** A sync tells what applying the matching record's status tells. */
  lemma SyncTells(mode: Mode, s: Store, paymentId: Id, reply: SearchReply)
    requires Safe(s)
    ensures var t := Exec(mode, s, SyncStatus(paymentId, reply));
            if paymentId in s.payments && exists i: nat :: Matching(s, paymentId, reply, i) then
              forall i: nat, status :: Matching(s, paymentId, reply, i) && Trims(reply.items[i].status, status) ==>
                TellsStatus(s, t, paymentId, status, reply.items[i].detail)
            else TellsNothing(s, t)
  {
    var c := SyncStatus(paymentId, reply);
    var t := Exec(mode, s, c);
    SyncStatusDoes(mode, s, paymentId, reply);
    hide Exec, PlanOf, TellsNothing, TellsStatus, Applied, Trims, WhyNoStatus;
    if paymentId in s.payments && exists i: nat :: Matching(s, paymentId, reply, i) {
      forall i: nat, status | Matching(s, paymentId, reply, i) && Trims(reply.items[i].status, status)
        ensures TellsStatus(s, t, paymentId, status, reply.items[i].detail)
      {
        AppliedTells(s, t, PlanOf(s, c).answer, paymentId, status, reply.items[i].detail);
      }
    } else {
      NothingNew(s, t);
    }
  }

  lemma DeliveryTells(mode: Mode, s: Store, b: Body, d: Defaults)
    requires Safe(s) && Read(b)
    ensures var c := Deliver(b, d); var t := Exec(mode, s, c);
            if PlanOf(s, c).answer == Ok(Processed) then
              && Complete(b) && b.payload.value.serviceOrderId.Some?
              && TellsOne(s, t, QuoteCreated, Uuid(s.next), b.payload.value.serviceOrderId.value)
            else TellsNothing(s, t)
  {
    var c := Deliver(b, d);
    var t := Exec(mode, s, c);
    DeliverDoes(mode, s, b, d);
    hide Exec, PlanOf, Safe, TellsOne, TellsNothing, HasText, Named, ParseType;
    if PlanOf(s, c).answer == Ok(Processed) { OneNew(s, t, t.history[|s.history|]); } else { NothingNew(s, t); }
  }
}
