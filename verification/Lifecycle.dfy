/** Completed runs over either kind of repository: the language of event traces, and the
    store as a replay of the published history. */
module Lifecycle {
  import opened Wrappers
  import opened Billing
  import opened Gateway
  import opened Saga
  import opened CrashSafety
  import opened Stranding
  import A = Aliasing

  /** What one completed command does to the store, by kind of write list. */
  lemma StepEffect(s: Store, c: Command)
    requires Safe(s)
    ensures var plan := PlanOf(s, c); var ws := plan.writes; var t := Exec(Copying, s, c);
            && Keyed(s) && KnownKind(s, plan)
            && Safe(t)
            && (ws == [] ==> t == Draw(s, plan))
            && (Opening(s, ws) ==>
                  && t.quotes == s.quotes[ws[0].quote.quoteId := ws[0].quote] && t.payments == s.payments
                  && t.history == s.history + [ws[1].event]
                  && ws[0].quote.quoteId !in s.quotes)
            && (Approving(s, ws) ==>
                  && t.quotes == s.quotes[ws[0].quote.quoteId := ws[0].quote]
                  && t.payments == s.payments[ws[1].payment.paymentId := ws[1].payment]
                  && t.history == s.history + [ws[2].event] + [ws[3].event]
                  && ws[1].payment.paymentId !in s.payments)
            && (Settling(s, ws) ==>
                  && t.quotes == s.quotes
                  && t.payments == s.payments[ws[0].payment.paymentId := ws[0].payment]
                  && t.history == s.history + [ws[1].event])
            && (Resaving(s, ws) ==> t == s)
  {
    SafeIsKeyed(s);
    KindOf(s, c);
    A.StepKeepsSafe(Copying, s, c);
    DrawnIdsAreFresh(s);
    EffectByKind(s, PlanOf(s, c));
  }

  lemma EffectByKind(s: Store, plan: Plan)
    requires KnownKind(s, plan)
    ensures var ws := plan.writes; var t := PerformAll(Draw(s, plan), ws);
            && (Opening(s, ws) ==>
                  && t.quotes == s.quotes[ws[0].quote.quoteId := ws[0].quote] && t.payments == s.payments
                  && t.history == s.history + [ws[1].event])
            && (Approving(s, ws) ==>
                  && t.quotes == s.quotes[ws[0].quote.quoteId := ws[0].quote]
                  && t.payments == s.payments[ws[1].payment.paymentId := ws[1].payment]
                  && t.history == s.history + [ws[2].event] + [ws[3].event])
            && (Settling(s, ws) ==>
                  && t.quotes == s.quotes
                  && t.payments == s.payments[ws[0].payment.paymentId := ws[0].payment]
                  && t.history == s.history + [ws[1].event])
            && (Resaving(s, ws) ==> t == Draw(s, plan))
  {
    var ws, t := plan.writes, Draw(s, plan);
    if Opening(s, ws) {
      OpeningEffect(s, t, ws);
    } else if Approving(s, ws) {
      ApprovingEffect(s, t, ws);
      assert s.history + [ws[2].event] + [ws[3].event] == s.history + [ws[2].event, ws[3].event];
    } else if Settling(s, ws) {
      SettlingEffect(s, t, ws);
    } else if Resaving(s, ws) {
      ResavingEffect(s, t, ws);
    }
  }

  // ----- The life of one quote, as an automaton over its events -----

  datatype Phase =
    | Unborn
    | Open
    | Agreed
    | Awaiting(paymentId: Id)
    | Paid(paymentId: Id)
    | Lost(paymentId: Id)
    | Broken

  function Advance(ph: Phase, k: Kind): Phase {
    match k
    case QuoteCreated => if ph.Unborn? then Open else Broken
    case QuoteApproved => if ph.Open? then Agreed else Broken
    case QuoteCancelled(_) => Broken
    case PreferenceCreated(id, _) => if ph.Agreed? then Awaiting(id) else Broken
    case PaymentConfirmed(id) => if ph == Awaiting(id) then Paid(id) else Broken
    case PaymentFailed(id, _) => if ph == Awaiting(id) || ph == Lost(id) then Lost(id) else Broken
  }

  function PhaseOf(h: seq<Event>, quoteId: Id): Phase {
    if h == [] then Unborn
    else
      var before, last := PhaseOf(h[..|h| - 1], quoteId), h[|h| - 1];
      if last.quoteId == quoteId then Advance(before, last.kind) else before
  }

  lemma PhaseOfAppend(h: seq<Event>, e: Event, quoteId: Id)
    ensures PhaseOf(h + [e], quoteId) ==
            if e.quoteId == quoteId then Advance(PhaseOf(h, quoteId), e.kind) else PhaseOf(h, quoteId)
  {
    assert (h + [e])[..|h + [e]| - 1] == h;
  }

  /** The store agrees with the phase that the published events lead to. A stranded quote was
      approved in memory before its approval failed: its events stop at its creation. */
  ghost predicate PhaseStored(s: Store, quoteId: Id, ph: Phase) {
    match ph
    case Unborn => quoteId !in s.quotes
    case Open => quoteId in s.quotes && (s.quotes[quoteId].status.Created? || Stranded(s, quoteId))
    case Awaiting(id) => PaymentIs(s, quoteId, id, Pending)
    case Paid(id) => PaymentIs(s, quoteId, id, Confirmed)
    case Lost(id) => PaymentIs(s, quoteId, id, Failed)
    case _ => false
  }

  ghost predicate PaymentIs(s: Store, quoteId: Id, paymentId: Id, status: PaymentStatus) {
    && quoteId in s.quotes && s.quotes[quoteId].status.Approved?
    && paymentId in s.payments && s.payments[paymentId].quoteId == quoteId
    && s.payments[paymentId].status == status
  }

  ghost predicate InStep(s: Store) {
    forall quoteId :: PhaseStored(s, quoteId, PhaseOf(s.history, quoteId))
  }

  lemma OpeningInStep(s: Store, t: Store, q: QuoteData, e: Event)
    requires InStep(s) && Safe(s)
    requires q.quoteId !in s.quotes && q.status.Created?
    requires e == QuoteEvent(q, QuoteCreated, e.eventId)
    requires t.quotes == s.quotes[q.quoteId := q] && t.payments == s.payments && t.history == s.history + [e]
    ensures InStep(t)
  {
    forall quoteId ensures PhaseStored(t, quoteId, PhaseOf(t.history, quoteId)) {
      PhaseOfAppend(s.history, e, quoteId);
      assert PhaseStored(s, quoteId, PhaseOf(s.history, quoteId));
    }
  }

  lemma ApprovingInStep(s: Store, t: Store, q: QuoteData, p: PaymentData, a: Event, b: Event)
    requires InStep(s) && Safe(s)
    requires q.quoteId in s.quotes && s.quotes[q.quoteId].status.Created? && q.status.Approved?
    requires p.paymentId !in s.payments && p.quoteId == q.quoteId && p.status.Pending?
    requires a == QuoteEvent(q, QuoteApproved, a.eventId)
    requires b.quoteId == q.quoteId && b.kind.PreferenceCreated? && b.kind.paymentId == p.paymentId
    requires t.quotes == s.quotes[q.quoteId := q] && t.payments == s.payments[p.paymentId := p]
    requires t.history == s.history + [a] + [b]
    ensures InStep(t)
  {
    forall quoteId ensures PhaseStored(t, quoteId, PhaseOf(t.history, quoteId)) {
      PhaseOfAppend(s.history, a, quoteId);
      PhaseOfAppend(s.history + [a], b, quoteId);
      assert PhaseStored(s, quoteId, PhaseOf(s.history, quoteId));
    }
  }

  lemma SettlingInStep(s: Store, t: Store, p: PaymentData, e: Event)
    requires InStep(s) && Safe(s)
    requires p.paymentId in s.payments && p == s.payments[p.paymentId].(status := p.status)
    requires e == PaymentEvent(p, e.kind, e.eventId)
    requires if p.status.Confirmed? then
               s.payments[p.paymentId].status.Pending? && e.kind == PaymentConfirmed(p.paymentId)
             else p.status.Failed? && !s.payments[p.paymentId].status.Confirmed?
                  && e.kind.PaymentFailed? && e.kind.paymentId == p.paymentId
    requires t.quotes == s.quotes && t.payments == s.payments[p.paymentId := p] && t.history == s.history + [e]
    ensures InStep(t)
  {
    assert KnownPayment(s, p.paymentId);
    forall quoteId ensures PhaseStored(t, quoteId, PhaseOf(t.history, quoteId)) {
      PhaseOfAppend(s.history, e, quoteId);
      assert PhaseStored(s, quoteId, PhaseOf(s.history, quoteId));
    }
  }

  /** An approval that failed at the gateway, over live objects. */
  lemma StrandingInStep(s: Store, t: Store, quoteId: Id)
    requires InStep(s) && Safe(s)
    requires quoteId in s.quotes && s.quotes[quoteId].status.Created?
    requires t.quotes == s.quotes[quoteId := s.quotes[quoteId].(status := Approved)]
    requires t.payments == s.payments && t.history == s.history
    ensures InStep(t) && Stranded(t, quoteId)
  {
    forall id | id in s.payments ensures s.payments[id].quoteId != quoteId { assert KnownPayment(s, id); }
    forall other ensures PhaseStored(t, other, PhaseOf(t.history, other)) {
      assert PhaseStored(s, other, PhaseOf(s.history, other));
    }
  }

  lemma CopyingStaysInStep(s: Store, c: Command)
    requires Safe(s) && InStep(s)
    ensures InStep(Exec(Copying, s, c))
  {
    StepEffect(s, c);
    var ws, t := PlanOf(s, c).writes, Exec(Copying, s, c);
    if Opening(s, ws) {
      OpeningInStep(s, t, ws[0].quote, ws[1].event);
    } else if Approving(s, ws) {
      ApprovingInStep(s, t, ws[0].quote, ws[1].payment, ws[2].event, ws[3].event);
    } else if Settling(s, ws) {
      SettlingInStep(s, t, ws[0].payment, ws[1].event);
    } else {
      SameStoreInStep(s, t);
    }
  }

  lemma StepStaysInStep(mode: Mode, s: Store, c: Command)
    requires Safe(s) && InStep(s)
    ensures InStep(Exec(mode, s, c))
  {
    CopyingStaysInStep(s, c);
    SafeIsKeyed(s);
    A.AliasingStep(s, c);
    if mode.Aliasing? && A.GatewayFails(s, c) {
      assert PlanOf(s, c).writes == [];
      StrandingInStep(s, Exec(mode, s, c), c.quoteId);
    }
  }

  lemma SameStoreInStep(s: Store, t: Store)
    requires InStep(s) && t.quotes == s.quotes && t.payments == s.payments && t.history == s.history
    ensures InStep(t)
  {
    forall quoteId ensures PhaseStored(t, quoteId, PhaseOf(t.history, quoteId)) {
      assert PhaseStored(s, quoteId, PhaseOf(s.history, quoteId));
    }
  }

  /** Every uninterrupted run, over either kind of repository. */
  lemma {:induction false} RunsStayInStep(mode: Mode, cs: seq<Command>)
    ensures Safe(Run(mode, cs)) && InStep(Run(mode, cs))
  {
    A.RunsAreSafe(mode, cs);
    if cs == [] {
    } else {
      RunsStayInStep(mode, cs[..|cs| - 1]);
      A.RunsAreSafe(mode, cs[..|cs| - 1]);
      StepStaysInStep(mode, Run(mode, cs[..|cs| - 1]), cs[|cs| - 1]);
    }
  }

  // ----- The trace language, stated without the automaton -----

  /** The kinds of the events about one quote, in order. */
  function Trace(h: seq<Event>, quoteId: Id): seq<Kind> {
    if h == [] then []
    else
      var last := h[|h| - 1];
      Trace(h[..|h| - 1], quoteId) + if last.quoteId == quoteId then [last.kind] else []
  }

  /** QUOTE_CREATED (QUOTE_APPROVED PAYMENT_PREFERENCE_CREATED (PAYMENT_CONFIRMED | PAYMENT_FAILED*))?
      or nothing, where all payment events are about the payment of the preference. */
  predicate Lifecycle(w: seq<Kind>) {
    w == [] || (w[0].QuoteCreated? && (|w| == 1 || AfterCreation(w[1..])))
  }

  predicate AfterCreation(w: seq<Kind>) {
    |w| >= 2 && w[0].QuoteApproved? && w[1].PreferenceCreated? && Ending(w[2..], w[1].paymentId)
  }

  predicate Ending(w: seq<Kind>, paymentId: Id) {
    || w == [PaymentConfirmed(paymentId)]
    || forall i :: 0 <= i < |w| ==> w[i].PaymentFailed? && w[i].paymentId == paymentId
  }

  function PhaseAfter(w: seq<Kind>): Phase {
    if w == [] then Unborn else Advance(PhaseAfter(w[..|w| - 1]), w[|w| - 1])
  }

  lemma {:induction false} PhaseOfIsPhaseAfterTrace(h: seq<Event>, quoteId: Id)
    ensures PhaseOf(h, quoteId) == PhaseAfter(Trace(h, quoteId))
  {
    if h == [] {
    } else {
      PhaseOfIsPhaseAfterTrace(h[..|h| - 1], quoteId);
      var w := Trace(h, quoteId);
      if h[|h| - 1].quoteId == quoteId {
        assert w[..|w| - 1] == Trace(h[..|h| - 1], quoteId);
      } else {
        assert w == Trace(h[..|h| - 1], quoteId);
      }
    }
  }

  /** The automaton's good phases spell out the words of the language. */
  ghost predicate Spells(w: seq<Kind>, ph: Phase) {
    match ph
    case Unborn => w == []
    case Open => w == [QuoteCreated]
    case Agreed => w == [QuoteCreated, QuoteApproved]
    case Awaiting(id) => SpellsPayment(w, id) && |w| == 3
    case Paid(id) => SpellsPayment(w, id) && w[3..] == [PaymentConfirmed(id)]
    case Lost(id) => SpellsPayment(w, id) && |w| > 3
                     && forall i :: 3 <= i < |w| ==> w[i].PaymentFailed? && w[i].paymentId == id
    case Broken => true
  }

  ghost predicate SpellsPayment(w: seq<Kind>, id: Id) {
    |w| >= 3 && w[0] == QuoteCreated && w[1] == QuoteApproved && w[2].PreferenceCreated? && w[2].paymentId == id
  }

  lemma {:induction false} PhaseSpells(w: seq<Kind>)
    ensures Spells(w, PhaseAfter(w))
  {
    if w == [] {
    } else {
      var front, last := w[..|w| - 1], w[|w| - 1];
      PhaseSpells(front);
      assert w == front + [last];
      assert forall i :: 0 <= i < |front| ==> w[i] == front[i];
    }
  }

  lemma SpelledIsLifecycle(w: seq<Kind>, ph: Phase)
    requires Spells(w, ph) && !ph.Agreed? && !ph.Broken?
    ensures Lifecycle(w)
  {
    if ph.Awaiting? || ph.Paid? || ph.Lost? {
      var rest := w[1..];
      assert rest[2..] == w[3..];
      assert rest[0] == w[1] && rest[1] == w[2];
    }
  }

  /** Every uninterrupted run, over either kind of repository: the events about a quote are a word of the language. */
  lemma TracesAreLifecycles(mode: Mode, cs: seq<Command>, quoteId: Id)
    ensures Lifecycle(Trace(Run(mode, cs).history, quoteId))
  {
    var s := Run(mode, cs);
    RunsStayInStep(mode, cs);
    assert PhaseStored(s, quoteId, PhaseOf(s.history, quoteId));
    PhaseOfIsPhaseAfterTrace(s.history, quoteId);
    PhaseSpells(Trace(s.history, quoteId));
    SpelledIsLifecycle(Trace(s.history, quoteId), PhaseOf(s.history, quoteId));
  }

  // ----- At most one failure, unless a failure is reported by hand -----

  ghost predicate FailsOnce(s: Store) {
    forall quoteId :: PhaseOf(s.history, quoteId).Lost? ==> |Trace(s.history, quoteId)| == 4
  }

  lemma TraceAppend(h: seq<Event>, e: Event, quoteId: Id)
    ensures Trace(h + [e], quoteId) == Trace(h, quoteId) + if e.quoteId == quoteId then [e.kind] else []
  {
    assert (h + [e])[..|h + [e]| - 1] == h;
  }

  lemma AppendFailsOnce(h: seq<Event>, e: Event, quoteId: Id)
    requires PhaseOf(h, quoteId).Lost? ==> |Trace(h, quoteId)| == 4
    requires e.quoteId == quoteId && PhaseOf(h, quoteId).Lost? ==> !e.kind.PaymentFailed?
    ensures PhaseOf(h + [e], quoteId).Lost? ==> |Trace(h + [e], quoteId)| == 4
  {
    PhaseOfAppend(h, e, quoteId);
    TraceAppend(h, e, quoteId);
    PhaseOfIsPhaseAfterTrace(h, quoteId);
    PhaseSpells(Trace(h, quoteId));
  }

  lemma ProvidersSettlePending(s: Store, c: Command)
    requires Safe(s) && !c.FailPayment? && Settling(s, PlanOf(s, c).writes)
    ensures s.payments[PlanOf(s, c).writes[0].payment.paymentId].status.Pending?
  {
    SafeIsKeyed(s);
    KindOf(s, c);
    var id := PlanOf(s, c).writes[0].payment.paymentId;
    assert KnownPayment(s, id);
    if c.ConfirmPayment? {
    } else if c.ApplyStatus? {
      ClassifiedSettlesPending(s, c.paymentId, Classify(c.status), c.status, c.detail);
    } else if c.SyncStatus? {
      var status, detail := SyncApplies(s, c.paymentId, c.searchReply);
      ClassifiedSettlesPending(s, c.paymentId, Classify(status), status, detail);
    }
  }

  lemma ClassifiedSettlesPending(s: Store, paymentId: Id, meaning: StatusClass, status: string, detail: Option<string>)
    requires Safe(s) && Settling(s, PlanClassified(s, paymentId, meaning, status, detail).writes)
    ensures s.payments[PlanClassified(s, paymentId, meaning, status,
      detail).writes[0].payment.paymentId].status.Pending?
  {
    if paymentId in s.payments { assert KnownPayment(s, paymentId); }
  }

  lemma CopyingFailsOnce(s: Store, c: Command)
    requires Safe(s) && InStep(s) && FailsOnce(s) && !c.FailPayment?
    ensures FailsOnce(Exec(Copying, s, c))
  {
    StepEffect(s, c);
    var ws, t := PlanOf(s, c).writes, Exec(Copying, s, c);
    if Settling(s, ws) { ProvidersSettlePending(s, c); }
    forall quoteId | PhaseOf(t.history, quoteId).Lost?
      ensures |Trace(t.history, quoteId)| == 4
    {
      if Opening(s, ws) {
        AppendFailsOnce(s.history, ws[1].event, quoteId);
      } else if Approving(s, ws) {
        AppendFailsOnce(s.history, ws[2].event, quoteId);
        AppendFailsOnce(s.history + [ws[2].event], ws[3].event, quoteId);
      } else if Settling(s, ws) {
        assert PhaseStored(s, quoteId, PhaseOf(s.history, quoteId));
        assert KnownPayment(s, ws[0].payment.paymentId);
        AppendFailsOnce(s.history, ws[1].event, quoteId);
      }
    }
  }

  lemma StepFailsOnce(mode: Mode, s: Store, c: Command)
    requires Safe(s) && InStep(s) && FailsOnce(s) && !c.FailPayment?
    ensures FailsOnce(Exec(mode, s, c))
  {
    CopyingFailsOnce(s, c);
    SafeIsKeyed(s);
    A.AliasingStep(s, c);
  }

  lemma {:induction false} RunsFailOnce(mode: Mode, cs: seq<Command>)
    requires forall i :: 0 <= i < |cs| ==> !cs[i].FailPayment?
    ensures FailsOnce(Run(mode, cs))
  {
    if cs == [] {
    } else {
      RunsStayInStep(mode, cs[..|cs| - 1]);
      RunsFailOnce(mode, cs[..|cs| - 1]);
      StepFailsOnce(mode, Run(mode, cs[..|cs| - 1]), cs[|cs| - 1]);
    }
  }

  lemma SpelledFailures(w: seq<Kind>, ph: Phase)
    requires Spells(w, ph) && !ph.Broken? && (ph.Lost? ==> |w| == 4)
    ensures forall i :: 0 <= i < |w| && w[i].PaymentFailed? ==> |w| == 4 && i == 3
  {
    if ph.Paid? {
      assert forall i :: 3 <= i < |w| ==> w[i] == w[3..][i - 3];
    }
  }

  /** When failures come only from provider statuses, a trace with a failure is exactly
      created, approved, preference, failed. */
  lemma ProviderFailuresComeOnce(mode: Mode, cs: seq<Command>, quoteId: Id)
    requires forall i :: 0 <= i < |cs| ==> !cs[i].FailPayment?
    ensures var w := Trace(Run(mode, cs).history, quoteId);
            forall i :: 0 <= i < |w| && w[i].PaymentFailed? ==> |w| == 4 && i == 3
  {
    var s := Run(mode, cs);
    RunsStayInStep(mode, cs);
    RunsFailOnce(mode, cs);
    assert PhaseStored(s, quoteId, PhaseOf(s.history, quoteId));
    PhaseOfIsPhaseAfterTrace(s.history, quoteId);
    PhaseSpells(Trace(s.history, quoteId));
    SpelledFailures(Trace(s.history, quoteId), PhaseOf(s.history, quoteId));
  }

  // ----- Replaying the log -----

  function ReplayQuote(m: map<Id, QuoteStatus>, e: Event): map<Id, QuoteStatus> {
    match e.kind
    case QuoteCreated => m[e.quoteId := Created]
    case QuoteApproved => m[e.quoteId := Approved]
    case QuoteCancelled(_) => m[e.quoteId := Cancelled]
    case _ => m
  }

  function ReplayPayment(m: map<Id, PaymentStatus>, e: Event): map<Id, PaymentStatus> {
    match e.kind
    case PreferenceCreated(id, _) => m[id := Pending]
    case PaymentConfirmed(id) => m[id := Confirmed]
    case PaymentFailed(id, _) => m[id := Failed]
    case _ => m
  }

  function ReplayedQuotes(h: seq<Event>): map<Id, QuoteStatus> {
    if h == [] then map[] else ReplayQuote(ReplayedQuotes(h[..|h| - 1]), h[|h| - 1])
  }

  function ReplayedPayments(h: seq<Event>): map<Id, PaymentStatus> {
    if h == [] then map[] else ReplayPayment(ReplayedPayments(h[..|h| - 1]), h[|h| - 1])
  }

  function QuoteStatuses(s: Store): map<Id, QuoteStatus> {
    map id | id in s.quotes :: s.quotes[id].status
  }

  function PaymentStatuses(s: Store): map<Id, PaymentStatus> {
    map id | id in s.payments :: s.payments[id].status
  }

  ghost predicate Replays(s: Store) {
    ReplayedQuotes(s.history) == QuoteStatuses(s) && ReplayedPayments(s.history) == PaymentStatuses(s)
  }

  lemma ReplayAppend(h: seq<Event>, e: Event)
    ensures ReplayedQuotes(h + [e]) == ReplayQuote(ReplayedQuotes(h), e)
    ensures ReplayedPayments(h + [e]) == ReplayPayment(ReplayedPayments(h), e)
  {
    assert (h + [e])[..|h + [e]| - 1] == h;
  }

  lemma OpeningReplays(s: Store, t: Store, q: QuoteData, e: Event)
    requires Replays(s) && q.status.Created? && e == QuoteEvent(q, QuoteCreated, e.eventId)
    requires t.quotes == s.quotes[q.quoteId := q] && t.payments == s.payments && t.history == s.history + [e]
    ensures Replays(t)
  {
    ReplayAppend(s.history, e);
  }

  lemma ApprovingReplays(s: Store, t: Store, q: QuoteData, p: PaymentData, a: Event, b: Event)
    requires Replays(s) && q.status.Approved? && p.status.Pending?
    requires a == QuoteEvent(q, QuoteApproved, a.eventId)
    requires b.kind.PreferenceCreated? && b.kind.paymentId == p.paymentId
    requires t.quotes == s.quotes[q.quoteId := q] && t.payments == s.payments[p.paymentId := p]
    requires t.history == s.history + [a] + [b]
    ensures Replays(t)
  {
    ReplayAppend(s.history, a);
    ReplayAppend(s.history + [a], b);
  }

  lemma SettlingReplays(s: Store, t: Store, p: PaymentData, e: Event)
    requires Replays(s)
    requires (p.status.Confirmed? && e.kind == PaymentConfirmed(p.paymentId))
             || (p.status.Failed? && e.kind.PaymentFailed? && e.kind.paymentId == p.paymentId)
    requires t.quotes == s.quotes && t.payments == s.payments[p.paymentId := p] && t.history == s.history + [e]
    ensures Replays(t)
  {
    ReplayAppend(s.history, e);
  }

  lemma StepReplays(s: Store, c: Command)
    requires Safe(s) && Replays(s)
    ensures Replays(Exec(Copying, s, c))
  {
    StepEffect(s, c);
    var ws, t := PlanOf(s, c).writes, Exec(Copying, s, c);
    if Opening(s, ws) {
      OpeningReplays(s, t, ws[0].quote, ws[1].event);
    } else if Approving(s, ws) {
      ApprovingReplays(s, t, ws[0].quote, ws[1].payment, ws[2].event, ws[3].event);
    } else if Settling(s, ws) {
      SettlingReplays(s, t, ws[0].payment, ws[1].event);
    }
  }

  /** Over rows, every uninterrupted run: folding the published history gives exactly the
      stored status of every quote and of every payment. */
  lemma {:induction false} RowsAreReplayed(cs: seq<Command>)
    ensures Replays(Run(Copying, cs))
  {
    if cs == [] {
    } else {
      RowsAreReplayed(cs[..|cs| - 1]);
      A.RunsAreSafe(Copying, cs[..|cs| - 1]);
      StepReplays(Run(Copying, cs[..|cs| - 1]), cs[|cs| - 1]);
    }
  }

  /** A quote whose events stop at its creation is replayed as created. */
  lemma {:induction false} OpenIsReplayedAsCreated(h: seq<Event>, quoteId: Id)
    ensures PhaseOf(h, quoteId).Open? ==> quoteId in ReplayedQuotes(h) && ReplayedQuotes(h)[quoteId].Created?
  {
    if h == [] {
    } else {
      OpenIsReplayedAsCreated(h[..|h| - 1], quoteId);
    }
  }

  /** A stranded quote is stored as approved, and replayed as created. */
  lemma StrandedIsNotReplayed(s: Store, quoteId: Id)
    requires InStep(s) && Stranded(s, quoteId)
    ensures !Replays(s)
  {
    assert PhaseStored(s, quoteId, PhaseOf(s.history, quoteId));
    OpenIsReplayedAsCreated(s.history, quoteId);
  }

  /** Every uninterrupted run, over either kind of repository: folding the published history
      gives exactly the stored status of every quote and of every payment, nothing missing
      and nothing extra, if and only if rows are stored or no approval of a created quote
      met a failing gateway. */
  lemma LogRebuildsStore(mode: Mode, cs: seq<Command>)
    ensures var s := Run(mode, cs);
            ReplayedQuotes(s.history) == QuoteStatuses(s) && ReplayedPayments(s.history) == PaymentStatuses(s)
            <==> mode.Copying? || A.GatewayFailsNowhere(cs)
  {
    RowsAreReplayed(cs);
    if mode.Aliasing? {
      if A.GatewayFailsNowhere(cs) {
        A.RepositoriesAgreeExactly(cs);
      } else {
        var quoteId := A.FailureDiverges(cs);
        RunsStayInStep(mode, cs);
        StrandedIsNotReplayed(Run(mode, cs), quoteId);
      }
    }
  }
}
