/** Money and counters over completed runs, and what provider statuses lead to. */
module Settlement {
  import opened Wrappers
  import opened PyText
  import opened Words
  import opened Decimals
  import opened Billing
  import opened Gateway
  import opened Saga
  import opened CrashSafety
  import opened Lifecycle
  import A = Aliasing

  // ----- The transition counters of the routes -----

  /** The store together with the `confirmed` and `failed` transition counters. */
  datatype Service = Service(store: Store, confirmed: nat, failed: nat)

  /** Which counter a route adds to, given its use case's result. */
  function Bump(sv: Service, c: Command, answer: Result<Answer, Error>): Service {
    if answer.Err? then sv
    else
      match c
      case ConfirmPayment(_) => sv.(confirmed := sv.confirmed + 1)
      case FailPayment(_, _) => sv.(failed := sv.failed + 1)
      case ApplyStatus(_, _, _) => BumpAction(sv, answer.value)
      case SyncStatus(_, _) => BumpAction(sv, answer.value)
      case _ => sv
  }

  function BumpAction(sv: Service, answer: Answer): Service {
    if answer.StatusAnswer? && answer.action.ActionConfirmed? then sv.(confirmed := sv.confirmed + 1)
    else if answer.StatusAnswer? && answer.action.ActionFailed? then sv.(failed := sv.failed + 1)
    else sv
  }

  function Serve(mode: Mode, sv: Service, c: Command): Service {
    Bump(sv, c, PlanOf(sv.store, c).answer).(store := Exec(mode, sv.store, c))
  }

  function ServeAll(mode: Mode, cs: seq<Command>): Service {
    if cs == [] then Service(EMPTY, 0, 0) else Serve(mode, ServeAll(mode, cs[..|cs| - 1]), cs[|cs| - 1])
  }

  function ConfirmedEvents(h: seq<Event>): nat {
    if h == [] then 0
    else ConfirmedEvents(h[..|h| - 1]) + if h[|h| - 1].kind.PaymentConfirmed? then 1 else 0
  }

  function FailedEvents(h: seq<Event>): nat {
    if h == [] then 0
    else FailedEvents(h[..|h| - 1]) + if h[|h| - 1].kind.PaymentFailed? then 1 else 0
  }

  function PaymentsIn(s: Store, status: PaymentStatus): set<Id> {
    set id | id in s.payments && s.payments[id].status == status
  }

  /** A failure reported by hand for a payment that has already failed. */
  predicate RepeatsFailure(s: Store, c: Command) {
    c.FailPayment? && c.paymentId in s.payments && s.payments[c.paymentId].status.Failed?
  }

  function Repeats(mode: Mode, cs: seq<Command>): nat {
    if cs == [] then 0
    else
      var front := cs[..|cs| - 1];
      Repeats(mode, front) + if RepeatsFailure(ServeAll(mode, front).store, cs[|cs| - 1]) then 1 else 0
  }

  /** Exactly the settling commands count, and they count what they publish. */
  lemma BumpsAreSettlements(sv: Service, c: Command)
    requires Safe(sv.store)
    ensures var ws := PlanOf(sv.store, c).writes;
            Bump(sv, c, PlanOf(sv.store, c).answer) ==
            if !Settling(sv.store, ws) then sv
            else if ws[0].payment.status.Confirmed? then sv.(confirmed := sv.confirmed + 1)
            else sv.(failed := sv.failed + 1)
  {
    hide PlanConfirm, PlanFail, PlanClassified, PlanSync, Classify, Safe, Settling;
    var s := sv.store;
    match c
    case ConfirmPayment(id) => SettledByHand(s, id, "");
    case FailPayment(id, reason) => SettledByHand(s, id, reason);
    case ApplyStatus(id, status, detail) => BumpsOfStatus(sv, id, Classify(status), status, detail);
    case SyncStatus(id, reply) =>
      var status, detail := SyncApplies(s, id, reply);
      BumpsOfStatus(sv, id, Classify(status), status, detail);
      if PlanOf(s, c).writes == [] { NothingSettles(s, PlanOf(s, c)); }
    case _ => OthersSettleNothing(s, c);
  }

  lemma NothingSettles(s: Store, plan: Plan)
    requires |plan.writes| != 2
    ensures !Settling(s, plan.writes)
  {
  }

  lemma OthersSettleNothing(s: Store, c: Command)
    requires Safe(s) && (c.CreateQuote? || c.ApproveQuote? || c.Deliver?)
    ensures !Settling(s, PlanOf(s, c).writes)
  {
    SafeIsKeyed(s);
    match c
    case CreateQuote(_, _, _) =>
    case ApproveQuote(quoteId, reply) => ApproveKind(s, quoteId, reply);
    case Deliver(b, d) => DeliverKind(s, b, d);
  }

  lemma SettledByHand(s: Store, id: Id, reason: string)
    requires Safe(s)
    ensures var plan := PlanConfirm(s, id);
            (plan.answer.Ok? <==> Settling(s, plan.writes))
            && (plan.answer.Ok? ==> plan.writes[0].payment.status.Confirmed?)
    ensures var plan := PlanFail(s, id, reason);
            (plan.answer.Ok? <==> Settling(s, plan.writes))
            && (plan.answer.Ok? ==> plan.writes[0].payment.status.Failed? && plan.writes[0].payment.paymentId == id)
  {
    if id in s.payments { assert KnownPayment(s, id); }
  }

  lemma BumpsOfStatus(sv: Service, id: Id, meaning: StatusClass, status: string, detail: Option<string>)
    requires Safe(sv.store)
    ensures var plan := PlanClassified(sv.store, id, meaning, status, detail); var ws := plan.writes;
            (if plan.answer.Ok? then BumpAction(sv, plan.answer.value) else sv) ==
            if !Settling(sv.store, ws) then sv
            else if ws[0].payment.status.Confirmed? then sv.(confirmed := sv.confirmed + 1)
            else sv.(failed := sv.failed + 1)
  {
    var s := sv.store;
    SettledByHand(s, id, FailureReason(status, detail));
  }

  /** The counters, the history and the store agree. */
  ghost predicate Counted(sv: Service, repeats: nat) {
    && sv.confirmed == ConfirmedEvents(sv.store.history) == |PaymentsIn(sv.store, Confirmed)|
    && sv.failed == FailedEvents(sv.store.history) == |PaymentsIn(sv.store, Failed)| + repeats
  }

  lemma CountAppend(h: seq<Event>, e: Event)
    ensures ConfirmedEvents(h + [e]) == ConfirmedEvents(h) + if e.kind.PaymentConfirmed? then 1 else 0
    ensures FailedEvents(h + [e]) == FailedEvents(h) + if e.kind.PaymentFailed? then 1 else 0
  {
    assert (h + [e])[..|h + [e]| - 1] == h;
  }

  lemma PaymentsInAfterSave(s: Store, t: Store, p: PaymentData, status: PaymentStatus)
    requires t.payments == s.payments[p.paymentId := p]
    ensures var was := p.paymentId in s.payments && s.payments[p.paymentId].status == status;
            |PaymentsIn(t, status)| == |PaymentsIn(s, status)|
              + (if p.status == status then 1 else 0) - (if was then 1 else 0)
  {
    var rest := PaymentsIn(s, status) - {p.paymentId};
    assert PaymentsIn(t, status) == if p.status == status then rest + {p.paymentId} else rest;
    if p.paymentId in s.payments && s.payments[p.paymentId].status == status {
      assert PaymentsIn(s, status) == rest + {p.paymentId};
    } else {
      assert PaymentsIn(s, status) == rest;
    }
  }

  /** A failed payment is settled again exactly by a repeated failure. */
  lemma RepeatIsResettlement(s: Store, c: Command)
    requires Safe(s)
    ensures var ws := PlanOf(s, c).writes;
            RepeatsFailure(s, c) <==>
              Settling(s, ws) && ws[0].payment.status.Failed?
              && s.payments[ws[0].payment.paymentId].status.Failed?
  {
    var ws := PlanOf(s, c).writes;
    if c.FailPayment? {
      SettledByHand(s, c.paymentId, c.reason);
    } else if Settling(s, ws) {
      ProvidersSettlePending(s, c);
    }
  }

  lemma SettlingCounted(s: Store, t: Store, ws: seq<Write>)
    requires Safe(s) && Settling(s, ws)
    requires t.payments == s.payments[ws[0].payment.paymentId := ws[0].payment]
    requires t.history == s.history + [ws[1].event]
    ensures var confirmed := ws[0].payment.status.Confirmed?;
            var again := s.payments[ws[0].payment.paymentId].status.Failed?;
            && ConfirmedEvents(t.history) == ConfirmedEvents(s.history) + (if confirmed then 1 else 0)
            && |PaymentsIn(t, Confirmed)| == |PaymentsIn(s, Confirmed)| + (if confirmed then 1 else 0)
            && FailedEvents(t.history) == FailedEvents(s.history) + (if confirmed then 0 else 1)
            && |PaymentsIn(t, Failed)| == |PaymentsIn(s, Failed)| + (if confirmed || again then 0 else 1)
  {
    CountAppend(s.history, ws[1].event);
    PaymentsInAfterSave(s, t, ws[0].payment, Confirmed);
    PaymentsInAfterSave(s, t, ws[0].payment, Failed);
  }

  lemma OthersCounted(s: Store, c: Command)
    requires Safe(s) && !Settling(s, PlanOf(s, c).writes)
    ensures var t := Exec(Copying, s, c);
            && ConfirmedEvents(t.history) == ConfirmedEvents(s.history)
            && FailedEvents(t.history) == FailedEvents(s.history)
            && |PaymentsIn(t, Confirmed)| == |PaymentsIn(s, Confirmed)|
            && |PaymentsIn(t, Failed)| == |PaymentsIn(s, Failed)|
  {
    hide Safe, PlanOf, Exec, ConfirmedEvents, FailedEvents;
    StepEffect(s, c);
    var ws, t := PlanOf(s, c).writes, Exec(Copying, s, c);
    if Opening(s, ws) {
      CountAppend(s.history, ws[1].event);
    } else if Approving(s, ws) {
      CountAppend(s.history, ws[2].event);
      CountAppend(s.history + [ws[2].event], ws[3].event);
      PaymentsInAfterSave(s, t, ws[1].payment, Confirmed);
      PaymentsInAfterSave(s, t, ws[1].payment, Failed);
    }
    assert t.payments == s.payments ==> PaymentsIn(t, Confirmed) == PaymentsIn(s, Confirmed)
                                        && PaymentsIn(t, Failed) == PaymentsIn(s, Failed);
  }

  lemma CopyingCounted(sv: Service, c: Command, repeats: nat)
    requires Safe(sv.store) && Counted(sv, repeats)
    ensures Counted(Serve(Copying, sv, c), repeats + if RepeatsFailure(sv.store, c) then 1 else 0)
  {
    hide Safe, PlanOf, Exec, ConfirmedEvents, FailedEvents, PaymentsIn, RepeatsFailure;
    var s, ws := sv.store, PlanOf(sv.store, c).writes;
    BumpsAreSettlements(sv, c);
    RepeatIsResettlement(s, c);
    if Settling(s, ws) {
      StepEffect(s, c);
      SettlingCounted(s, Exec(Copying, s, c), ws);
    } else {
      OthersCounted(s, c);
    }
  }

  /** What is counted does not depend on the quotes. */
  lemma QuotesAreNotCounted(sv: Service, sw: Service, repeats: nat)
    requires Counted(sv, repeats) && sw.confirmed == sv.confirmed && sw.failed == sv.failed
    requires sw.store.payments == sv.store.payments && sw.store.history == sv.store.history
    ensures Counted(sw, repeats)
  {
    assert PaymentsIn(sw.store, Confirmed) == PaymentsIn(sv.store, Confirmed);
    assert PaymentsIn(sw.store, Failed) == PaymentsIn(sv.store, Failed);
  }

  lemma StepCounted(mode: Mode, sv: Service, c: Command, repeats: nat)
    requires Safe(sv.store) && Counted(sv, repeats)
    ensures Counted(Serve(mode, sv, c), repeats + if RepeatsFailure(sv.store, c) then 1 else 0)
  {
    hide Counted, PlanOf, Exec, RepeatsFailure, Bump;
    CopyingCounted(sv, c, repeats);
    SafeIsKeyed(sv.store);
    A.AliasingStep(sv.store, c);
    QuotesAreNotCounted(Serve(Copying, sv, c), Serve(mode, sv, c),
                        repeats + if RepeatsFailure(sv.store, c) then 1 else 0);
  }

  lemma {:induction false} ServiceRuns(mode: Mode, cs: seq<Command>)
    ensures ServeAll(mode, cs).store == Run(mode, cs)
  {
    if cs == [] {
    } else {
      ServiceRuns(mode, cs[..|cs| - 1]);
    }
  }

  /** Every uninterrupted run of the routes, over either kind of repository: the `confirmed`
      counter is the number of PAYMENT_CONFIRMED events and of confirmed payments; the
      `failed` counter is the number of PAYMENT_FAILED events, and exceeds the number of
      failed payments by exactly the number of repeated failures. */
  lemma {:induction false} CountersAgree(mode: Mode, cs: seq<Command>)
    ensures Counted(ServeAll(mode, cs), Repeats(mode, cs))
  {
    if cs != [] {
      var front := cs[..|cs| - 1];
      CountersAgree(mode, front);
      ServiceRuns(mode, front);
      A.RunsAreSafe(mode, front);
      StepCounted(mode, ServeAll(mode, front), cs[|cs| - 1], Repeats(mode, front));
    } else {
      assert PaymentsIn(EMPTY, Confirmed) == {} && PaymentsIn(EMPTY, Failed) == {};
    }
  }

  // ----- Provider statuses -----

  /** A payment that any run has stored can take any supported status, and can always be
      looked up at the provider by its own service order. */
  lemma StoredPaymentsAreReady(s: Store, paymentId: Id, status: string, detail: Option<string>)
    requires Safe(s) && paymentId in s.payments
    ensures PlanApply(s, paymentId, status, detail).answer.Ok? <==>
              ApprovedWord(status) || RejectedWord(status) || PendingWord(status)
    ensures var p := s.payments[paymentId];
            p.quoteId in s.quotes && SearchedBy(p, s.quotes[p.quoteId].serviceOrderId)
  {
    ClassifyMeans(status);
    hide ApprovedWord, RejectedWord, PendingWord, Classify;
    assert KnownPayment(s, paymentId);
    assert KnownQuote(s, s.payments[paymentId].quoteId);
  }

  /** A payment confirmed by a sync had exactly one record with the reference of its
      quote's order in the reply, for the quote's amount as a number and its currency, and the
      record's status says approved. */
  lemma SyncConfirmsSoundly(s: Store, paymentId: Id, reply: SearchReply) returns (i: nat)
    requires Safe(s)
    requires var answer := PlanSync(s, paymentId, reply).answer;
             answer.Ok? && answer.value.StatusAnswer? && answer.value.action.ActionConfirmed?
    ensures paymentId in s.payments && s.payments[paymentId].quoteId in s.quotes
    ensures reply.Results? && i < |reply.items|
    ensures var q, r := s.quotes[s.payments[paymentId].quoteId], reply.items[i];
            && SoleRecord(reply.items, q.serviceOrderId, i)
            && r.amount.Amount? && SameNumber(r.amount.value, q.total.amount) && r.currency == q.total.currency
            && ApprovedWord(r.status)
  {
    assert KnownPayment(s, paymentId);
    StoredPaymentsAreReady(s, paymentId, "", None);
    i := StatusIsSound(s.payments[paymentId], reply);
    var status := GetPaymentStatus(s.payments[paymentId], reply).value.status;
    ConfirmedMeansApproved(s, paymentId, Classify(status), status, reply.items[i].detail);
    ClassifyMeans(status);
    TrimmedWords(reply.items[i].status, status);
  }

  lemma ClassifiedAlike(padded: string, status: string)
    requires Trims(padded, status)
    ensures Classify(status) == Classify(padded)
  {
    StripIsTrimming(padded, status);
    StripOfStripped(IsSpace, status);
    hide Lower, Strip;
  }

  /** A word is said with or without the blanks around it. */
  lemma TrimmedWords(padded: string, status: string)
    requires Trims(padded, status)
    ensures ApprovedWord(status) <==> ApprovedWord(padded)
    ensures RejectedWord(status) <==> RejectedWord(padded)
    ensures PendingWord(status) <==> PendingWord(padded)
  {
    ClassifyMeans(status);
    ClassifyMeans(padded);
    ClassifiedAlike(padded, status);
    hide *;
  }

  lemma ConfirmedMeansApproved(s: Store, paymentId: Id, meaning: StatusClass, status: string, detail: Option<string>)
    requires var answer := PlanClassified(s, paymentId, meaning, status, detail).answer;
             answer.Ok? && answer.value.StatusAnswer? && answer.value.action.ActionConfirmed?
    ensures meaning.ApprovedLike?
  {
  }

  /** The order of the provider's records, and records for other orders, change neither
      the writes nor the result of a sync. */
  lemma SyncIgnoresOrderAndStrangers(s: Store, paymentId: Id, a: seq<ProviderItem>, b: seq<ProviderItem>)
    requires Safe(s) && paymentId in s.payments
    requires forall r: ProviderItem ::
               r.Record? && r.externalReference == s.payments[paymentId].serviceOrderId ==>
                 multiset(a)[r] == multiset(b)[r]
    ensures PlanSync(s, paymentId, Results(a)) == PlanSync(s, paymentId, Results(b))
  {
    assert KnownPayment(s, paymentId);
    StoredPaymentsAreReady(s, paymentId, "", None);
    StatusIgnoresOrderAndStrangers(s.payments[paymentId], a, b);
  }

  /** One provider notification after another. */
  datatype Notice = Notice(status: string, detail: Option<string>)

  function Feed(mode: Mode, s: Store, paymentId: Id, notices: seq<Notice>): Store
    decreases |notices|
  {
    if notices == [] then s
    else
      Feed(mode, Exec(mode, s, ApplyStatus(paymentId, notices[0].status, notices[0].detail)), paymentId, notices[1..])
  }

  /** Provider statuses ask no gateway, so both kinds of repository agree. */
  lemma NoticeIsTheSameEverywhere(mode: Mode, s: Store, paymentId: Id, n: Notice)
    requires Safe(s)
    ensures var c := ApplyStatus(paymentId, n.status, n.detail); Exec(mode, s, c) == Exec(Copying, s, c)
  {
    SafeIsKeyed(s);
    A.AliasingStep(s, ApplyStatus(paymentId, n.status, n.detail));
  }

  ghost predicate Decisive(n: Notice) {
    ApprovedWord(n.status) || RejectedWord(n.status)
  }

  /** The position of the first decisive notice, or the number of notices. */
  ghost function FirstDecisive(notices: seq<Notice>): (r: nat)
    ensures r <= |notices|
    ensures r < |notices| ==> Decisive(notices[r])
    ensures forall i :: 0 <= i < r ==> !Decisive(notices[i])
  {
    if notices == [] || Decisive(notices[0]) then 0 else 1 + FirstDecisive(notices[1..])
  }

  lemma QuietNotice(s: Store, paymentId: Id, n: Notice)
    requires Safe(s)
    requires paymentId in s.payments ==> !s.payments[paymentId].status.Pending? || !Decisive(n)
    ensures Exec(Copying, s, ApplyStatus(paymentId, n.status, n.detail)) == s
  {
    var c := ApplyStatus(paymentId, n.status, n.detail);
    StepEffect(s, c);
    if paymentId in s.payments { assert KnownPayment(s, paymentId); }
    ClassifyMeans(n.status);
    QuietPlan(s, paymentId, Classify(n.status), n.status, n.detail);
  }

  lemma QuietPlan(s: Store, paymentId: Id, meaning: StatusClass, status: string, detail: Option<string>)
    requires Safe(s)
    requires paymentId in s.payments && s.payments[paymentId].status.Pending? ==>
               !meaning.ApprovedLike? && !meaning.RejectedLike?
    ensures var plan := PlanClassified(s, paymentId, meaning, status, detail);
            plan.drawn == 0 && (plan.writes == [] || Resaving(s, plan.writes))
  {
    if paymentId in s.payments { assert KnownPayment(s, paymentId); }
  }

  lemma {:induction false} SettledIsDeaf(mode: Mode, s: Store, paymentId: Id, notices: seq<Notice>)
    requires Safe(s) && paymentId in s.payments
    requires !s.payments[paymentId].status.Pending?
    ensures Feed(mode, s, paymentId, notices) == s
    decreases |notices|
  {
    if notices == [] {
    } else {
      QuietNotice(s, paymentId, notices[0]);
      NoticeIsTheSameEverywhere(mode, s, paymentId, notices[0]);
      SettledIsDeaf(mode, s, paymentId, notices[1..]);
    }
  }

  lemma DecisivePlan(s: Store, paymentId: Id, meaning: StatusClass, status: string, detail: Option<string>)
    requires paymentId in s.payments && s.payments[paymentId].status.Pending?
    requires s.payments[paymentId].paymentId == paymentId
    requires meaning.ApprovedLike? || meaning.RejectedLike?
    ensures var ws := PlanClassified(s, paymentId, meaning, status, detail).writes;
            && Settling(s, ws)
            && ws[0].payment == s.payments[paymentId].(status := if meaning.ApprovedLike? then Confirmed else Failed)
            && ws[1].event.kind == if meaning.ApprovedLike? then PaymentConfirmed(paymentId)
                                   else PaymentFailed(paymentId, FailureReason(status, detail))
  {
  }

  lemma DecisiveSettles(s: Store, paymentId: Id, n: Notice)
    requires Safe(s) && paymentId in s.payments && s.payments[paymentId].status.Pending? && Decisive(n)
    ensures var t := Exec(Copying, s, ApplyStatus(paymentId, n.status, n.detail));
            var approved := ApprovedWord(n.status);
            && Safe(t) && t.quotes == s.quotes
            && t.payments ==
               s.payments[paymentId := s.payments[paymentId].(status := if approved then Confirmed else Failed)]
            && |t.history| == |s.history| + 1 && s.history <= t.history
            && t.history[|s.history|].kind ==
                 (if approved then PaymentConfirmed(paymentId)
                  else PaymentFailed(paymentId, FailureReason(n.status, n.detail)))
  {
    ClassifyMeans(n.status);
    hide Classify, FailureReason, PlanClassified, ApprovedWord, RejectedWord, PendingWord;
    var c := ApplyStatus(paymentId, n.status, n.detail);
    assert KnownPayment(s, paymentId);
    DecisivePlan(s, paymentId, Classify(n.status), n.status, n.detail);
    StepEffect(s, c);
    hide Safe, Exec;
  }

  /** Over either kind of repository and a pending payment, any sequence of notices, in any
      case or padding, has exactly the effect of its first decisive one: one terminal status,
      one terminal event. If none is decisive nothing changes at all. */
  lemma {:induction false} FirstDecisiveWins(mode: Mode, s: Store, paymentId: Id, notices: seq<Notice>)
    requires Safe(s) && paymentId in s.payments && s.payments[paymentId].status.Pending?
    ensures var i := FirstDecisive(notices); var t := Feed(mode, s, paymentId, notices);
            if i == |notices| then t == s
            else
              var approved := ApprovedWord(notices[i].status);
              && t == Exec(mode, s, ApplyStatus(paymentId, notices[i].status, notices[i].detail))
              && paymentId in t.payments && t.payments[paymentId].status == (if approved then Confirmed else Failed)
              && |t.history| == |s.history| + 1
    decreases |notices|
  {
    hide ApprovedWord, RejectedWord, Exec, Safe, FailureReason;
    if notices == [] {
    } else {
      var n := notices[0];
      NoticeIsTheSameEverywhere(mode, s, paymentId, n);
      if Decisive(n) {
        DecisiveSettles(s, paymentId, n);
        SettledIsDeaf(mode, Exec(mode, s, ApplyStatus(paymentId, n.status, n.detail)), paymentId, notices[1..]);
      } else {
        QuietNotice(s, paymentId, n);
        FirstDecisiveWins(mode, s, paymentId, notices[1..]);
      }
    }
  }
}
