/** The converse of crash safety: which stored statuses lack their event after a crash. */
module Lags {
  import opened Billing
  import opened Saga
  import opened CrashSafety
  import opened Stranding

  predicate SaysQuote(e: Event, id: Id, status: QuoteStatus) {
    && e.quoteId == id
    && match status
       case Created => e.kind.QuoteCreated?
       case Approved => e.kind.QuoteApproved?
       case Cancelled => e.kind.QuoteCancelled?
  }

  predicate SaysPayment(e: Event, id: Id, status: PaymentStatus) {
    match status
    case WaitingPreference => false
    case Pending => e.kind.PreferenceCreated? && e.kind.paymentId == id
    case Confirmed => e.kind.PaymentConfirmed? && e.kind.paymentId == id
    case Failed => e.kind.PaymentFailed? && e.kind.paymentId == id
  }

  ghost predicate QuoteSaid(h: seq<Event>, id: Id, status: QuoteStatus) {
    exists i :: 0 <= i < |h| && SaysQuote(h[i], id, status)
  }

  ghost predicate PaymentSaid(h: seq<Event>, id: Id, status: PaymentStatus) {
    exists i :: 0 <= i < |h| && SaysPayment(h[i], id, status)
  }

  /** The stored status of the quote was never published. */
  ghost predicate QuoteLags(s: Store, id: Id) {
    id in s.quotes && !QuoteSaid(s.history, id, s.quotes[id].status)
  }

  /** The stored status of the payment was never published. */
  ghost predicate PaymentLags(s: Store, id: Id) {
    id in s.payments && !PaymentSaid(s.history, id, s.payments[id].status)
  }

  lemma SaidAppend(h: seq<Event>, e: Event, id: Id, q: QuoteStatus, p: PaymentStatus)
    ensures QuoteSaid(h + [e], id, q) <==> QuoteSaid(h, id, q) || SaysQuote(e, id, q)
    ensures PaymentSaid(h + [e], id, p) <==> PaymentSaid(h, id, p) || SaysPayment(e, id, p)
  {
    var longer := h + [e];
    assert longer[|h|] == e;
    if i :| 0 <= i < |h| && SaysQuote(h[i], id, q) { assert longer[i] == h[i]; }
    if i :| 0 <= i < |h| && SaysPayment(h[i], id, p) { assert longer[i] == h[i]; }
  }

  /** What has been said is stored. */
  lemma SaidIsStored(s: Store, id: Id)
    requires Safe(s)
    ensures QuoteSaid(s.history, id, Created) ==> id in s.quotes
    ensures QuoteSaid(s.history, id, Approved) ==> id in s.quotes && s.quotes[id].status.Approved?
    ensures PaymentSaid(s.history, id, Pending) ==> id in s.payments
    ensures PaymentSaid(s.history, id, Confirmed) ==> id in s.payments && s.payments[id].status.Confirmed?
    ensures PaymentSaid(s.history, id, Failed) ==> id in s.payments && s.payments[id].status.Failed?
  {
    forall i | 0 <= i < |s.history| ensures Claim(s, s.history[i]) {}
  }

  lemma {:induction false} EventsAppend(ws: seq<Write>, w: Write)
    ensures Events(ws + [w]) == Events(ws) + if w.Publish? then [w.event] else []
  {
    var longer := ws + [w];
    if ws == [] {
      assert longer[1..] == [];
    } else {
      var rest := ws[1..];
      assert longer[0] == ws[0] && longer[1..] == rest + [w];
      EventsAppend(rest, w);
      var head := if ws[0].Publish? then [ws[0].event] else [];
      var last := if w.Publish? then [w.event] else [];
      assert head + (Events(rest) + last) == (head + Events(rest)) + last;
    }
  }

  lemma EventsOfPrefix(ws: seq<Write>, k: nat)
    requires k < |ws|
    ensures Events(ws[..k + 1]) == Events(ws[..k]) + if ws[k].Publish? then [ws[k].event] else []
  {
    EventsAppend(ws[..k], ws[k]);
    assert ws[..k] + [ws[k]] == ws[..k + 1];
  }

  // ----- The surviving part of each kind of list -----

  lemma OpeningSurvives(s: Store, t: Store, ws: seq<Write>, k: nat)
    requires Opening(s, ws) && k <= |ws|
    ensures var t' := PerformAll(t, ws[..k]);
            && t'.quotes == (if k == 0 then t.quotes else t.quotes[ws[0].quote.quoteId := ws[0].quote])
            && t'.payments == t.payments
            && t'.history == t.history + (if k <= 1 then [] else [ws[1].event])
  {
    WritesAreLocal(t, ws[..k]);
    assert ws[..0] == [];
    if k >= 1 {
      EventsOfPrefix(ws, 0);
      QuotesNeedSaves(Perform(t, ws[0]), ws[..k][1..]);
    }
    if k >= 2 { EventsOfPrefix(ws, 1); }
    if k >= 3 { EventsOfPrefix(ws, 2); }
  }

  lemma ApprovingSurvives(s: Store, t: Store, ws: seq<Write>, k: nat)
    requires Approving(s, ws) && k <= |ws|
    ensures var t' := PerformAll(t, ws[..k]);
            && t'.quotes == (if k == 0 then t.quotes else t.quotes[ws[0].quote.quoteId := ws[0].quote])
            && t'.payments == (if k <= 1 then t.payments else t.payments[ws[1].payment.paymentId := ws[1].payment])
            && t'.history == t.history
              + (if k <= 2 then [] else if k == 3 then [ws[2].event] else [ws[2].event] + [ws[3].event])
  {
    ApprovingPrefix(s, t, ws, k);
    WritesAppendEvents(t, ws[..k]);
    assert ws[..0] == [];
    if k >= 1 { EventsOfPrefix(ws, 0); }
    if k >= 2 { EventsOfPrefix(ws, 1); }
    if k >= 3 { EventsOfPrefix(ws, 2); }
    if k >= 4 { EventsOfPrefix(ws, 3); }
  }

  lemma PaymentWritesSurvive(s: Store, t: Store, ws: seq<Write>, k: nat)
    requires (Settling(s, ws) || Resaving(s, ws)) && k <= |ws|
    ensures var t' := PerformAll(t, ws[..k]);
            && t'.quotes == t.quotes
            && t'.payments == (if k == 0 then t.payments else t.payments[ws[0].payment.paymentId := ws[0].payment])
            && t'.history == t.history + (if k <= 1 then [] else [ws[1].event])
  {
    PaymentPrefix(t, ws, k);
    WritesAppendEvents(t, ws[..k]);
    assert ws[..0] == [];
    if k >= 1 { EventsOfPrefix(ws, 0); }
    if k >= 2 { EventsOfPrefix(ws, 1); }
  }

  // ----- Which statuses lag -----

  predicate SavesQuote(ws: seq<Write>, id: Id) {
    ws != [] && ws[0].SaveQuote? && ws[0].quote.quoteId == id
  }

  predicate MakesPayment(ws: seq<Write>, id: Id) {
    |ws| == 4 && ws[1].SavePayment? && ws[1].payment.paymentId == id
  }

  predicate Settles(s: Store, ws: seq<Write>, id: Id) {
    Settling(s, ws) && ws[0].payment.paymentId == id
  }

  /** A quote's new status is saved first, and published second when it is created, third
      when it is approved. */
  ghost predicate QuoteLagsAfter(s: Store, ws: seq<Write>, k: nat, id: Id) {
    if SavesQuote(ws, id) && k > 0 then k < (if |ws| == 4 then 3 else 2) else QuoteLags(s, id)
  }

  /** A new payment is saved second and published fourth; a settled one is saved first and
      published second. A payment failed again lags only if no failure was published. */
  ghost predicate PaymentLagsAfter(s: Store, ws: seq<Write>, k: nat, id: Id) {
    if MakesPayment(ws, id) && k > 1 then k < 4
    else if Settles(s, ws, id) && k > 0 then k == 1 && (s.payments[id].status.Failed? ==> PaymentLags(s, id))
    else PaymentLags(s, id)
  }

  ghost predicate LagAlike(s: Store, t: Store) {
    s.quotes == t.quotes && s.payments == t.payments && s.history == t.history
  }

  lemma OpenedQuoteLags(s: Store, ws: seq<Write>, k: nat, id: Id, t: Store)
    requires Safe(s) && Opening(s, ws) && k <= |ws| && LagAlike(s, t)
    ensures QuoteLags(PerformAll(t, ws[..k]), id) <==> QuoteLagsAfter(s, ws, k, id)
  {
    DrawnIdsAreFresh(s);
    OpeningSurvives(s, t, ws, k);
    SaidIsStored(s, id);
    var t', e := PerformAll(t, ws[..k]), ws[1].event;
    hide Safe, PerformAll, Claim, QuoteSaid, PaymentSaid;
    if id in t'.quotes { SaidAppend(s.history, e, id, t'.quotes[id].status, Pending); }
    assert s.history + [] == s.history;
  }

  lemma OpenedPaymentLags(s: Store, ws: seq<Write>, k: nat, id: Id, t: Store)
    requires Opening(s, ws) && k <= |ws| && LagAlike(s, t)
    ensures PaymentLags(PerformAll(t, ws[..k]), id) <==> PaymentLagsAfter(s, ws, k, id)
  {
    OpeningSurvives(s, t, ws, k);
    var t', e := PerformAll(t, ws[..k]), ws[1].event;
    hide PerformAll, QuoteSaid, PaymentSaid;
    if id in t'.payments { SaidAppend(s.history, e, id, Created, t'.payments[id].status); }
    assert s.history + [] == s.history;
  }

  lemma ApprovedQuoteLags(s: Store, ws: seq<Write>, k: nat, id: Id, t: Store)
    requires Safe(s) && Approving(s, ws) && k <= |ws| && LagAlike(s, t)
    ensures QuoteLags(PerformAll(t, ws[..k]), id) <==> QuoteLagsAfter(s, ws, k, id)
  {
    ApprovingSurvives(s, t, ws, k);
    SaidIsStored(s, id);
    var t', a, b := PerformAll(t, ws[..k]), ws[2].event, ws[3].event;
    hide Safe, PerformAll, Claim, QuoteSaid, PaymentSaid;
    if id in t'.quotes {
      SaidAppend(s.history, a, id, t'.quotes[id].status, Pending);
      SaidAppend(s.history + [a], b, id, t'.quotes[id].status, Pending);
    }
    assert s.history + [] == s.history;
    assert s.history + ([a] + [b]) == s.history + [a] + [b];
  }

  lemma ApprovedPaymentLags(s: Store, ws: seq<Write>, k: nat, id: Id, t: Store)
    requires Safe(s) && Approving(s, ws) && k <= |ws| && LagAlike(s, t)
    ensures PaymentLags(PerformAll(t, ws[..k]), id) <==> PaymentLagsAfter(s, ws, k, id)
  {
    DrawnIdsAreFresh(s);
    ApprovingSurvives(s, t, ws, k);
    SaidIsStored(s, id);
    var t', a, b := PerformAll(t, ws[..k]), ws[2].event, ws[3].event;
    hide Safe, PerformAll, Claim, QuoteSaid, PaymentSaid;
    if id in t'.payments {
      SaidAppend(s.history, a, id, Created, t'.payments[id].status);
      SaidAppend(s.history + [a], b, id, Created, t'.payments[id].status);
    }
    assert s.history + [] == s.history;
    assert s.history + ([a] + [b]) == s.history + [a] + [b];
  }

  lemma SettledQuoteLags(s: Store, ws: seq<Write>, k: nat, id: Id, t: Store)
    requires Settling(s, ws) && k <= |ws| && LagAlike(s, t)
    ensures QuoteLags(PerformAll(t, ws[..k]), id) <==> QuoteLagsAfter(s, ws, k, id)
  {
    PaymentWritesSurvive(s, t, ws, k);
    var t' := PerformAll(t, ws[..k]);
    hide PerformAll, QuoteSaid;
    if id in t'.quotes { SaidAppend(s.history, ws[1].event, id, t'.quotes[id].status, Pending); }
    assert s.history + [] == s.history;
  }

  lemma SettledPaymentLags(s: Store, ws: seq<Write>, k: nat, id: Id, t: Store)
    requires Safe(s) && Settling(s, ws) && k <= |ws| && LagAlike(s, t)
    ensures PaymentLags(PerformAll(t, ws[..k]), id) <==> PaymentLagsAfter(s, ws, k, id)
  {
    PaymentWritesSurvive(s, t, ws, k);
    var t' := PerformAll(t, ws[..k]);
    if k > 0 && id in s.payments {
      var p, e := ws[0].payment, ws[1].event;
      SaidIsStored(s, id);
      hide Safe, PerformAll, PaymentSaid;
      SaidAppend(s.history, e, id, Created, t'.payments[id].status);
      assert SaysPayment(e, id, t'.payments[id].status) <==> id == p.paymentId by {
        if id != p.paymentId { assert e.kind.paymentId == p.paymentId; }
      }
      hide Settling, SaysPayment;
      assert s.history + [] == s.history;
    } else {
      hide PerformAll, PaymentSaid;
      assert s.history + [] == s.history;
      if k > 0 { assert ws[0].payment.paymentId in s.payments; }
    }
  }

  lemma ResavedLags(s: Store, ws: seq<Write>, k: nat, id: Id, t: Store)
    requires Resaving(s, ws) && k <= |ws| && LagAlike(s, t)
    ensures QuoteLags(PerformAll(t, ws[..k]), id) <==> QuoteLagsAfter(s, ws, k, id)
    ensures PaymentLags(PerformAll(t, ws[..k]), id) <==> PaymentLagsAfter(s, ws, k, id)
  {
    PaymentWritesSurvive(s, t, ws, k);
    assert s.history + [] == s.history;
    hide PerformAll, QuoteSaid, PaymentSaid;
  }

  lemma NothingLags(s: Store, t: Store, id: Id)
    requires LagAlike(s, t)
    ensures QuoteLags(t, id) <==> QuoteLagsAfter(s, [], 0, id)
    ensures PaymentLags(t, id) <==> PaymentLagsAfter(s, [], 0, id)
  {
  }

  /** Dying after the last write is not dying at all. */
  lemma BeyondTheEnd(s: Store, ws: seq<Write>, k: nat, id: Id)
    requires k >= |ws| && (ws == [] || Opening(s, ws) || Approving(s, ws) || Settling(s, ws) || Resaving(s, ws))
    ensures QuoteLagsAfter(s, ws, k, id) <==> QuoteLagsAfter(s, ws, |ws|, id)
    ensures PaymentLagsAfter(s, ws, k, id) <==> PaymentLagsAfter(s, ws, |ws|, id)
  {
    hide QuoteLags, PaymentLags;
  }

  lemma KindLags(s: Store, plan: Plan, k: nat, id: Id)
    requires Safe(s) && KnownKind(s, plan) && k <= |plan.writes|
    ensures QuoteLags(PerformAll(Draw(s, plan), plan.writes[..k]), id) <==> QuoteLagsAfter(s, plan.writes, k, id)
    ensures PaymentLags(PerformAll(Draw(s, plan), plan.writes[..k]), id) <==> PaymentLagsAfter(s, plan.writes, k, id)
  {
    hide Safe, PerformAll, QuoteLags, PaymentLags, QuoteLagsAfter, PaymentLagsAfter, Opening, Approving, Settling,
      Resaving;
    var ws, t := plan.writes, Draw(s, plan);
    if ws == [] {
      PerformNone(t, ws[..k]);
      NothingLags(s, t, id);
    } else if Opening(s, ws) {
      OpenedQuoteLags(s, ws, k, id, t);
      OpenedPaymentLags(s, ws, k, id, t);
    } else if Approving(s, ws) {
      ApprovedQuoteLags(s, ws, k, id, t);
      ApprovedPaymentLags(s, ws, k, id, t);
    } else if Settling(s, ws) {
      SettledQuoteLags(s, ws, k, id, t);
      SettledPaymentLags(s, ws, k, id, t);
    } else {
      ResavedLags(s, ws, k, id, t);
    }
  }

  lemma CrashIsPrefix(s: Store, c: Command, k: nat)
    requires Safe(s)
    ensures var plan := PlanOf(s, c);
            && KnownKind(s, plan)
            && Crash(s, c, k)
               == PerformAll(Draw(s, plan), plan.writes[..if k <= |plan.writes| then k else |plan.writes|])
  {
    SafeIsKeyed(s);
    KindOf(s, c);
  }

  /** After a crash a stored status lacks its event exactly when this very command saved it
      and died before publishing it, or when it lacked it before. */
  lemma LagsExactly(s: Store, c: Command, k: nat, id: Id)
    requires Safe(s)
    ensures QuoteLags(Crash(s, c, k), id) <==> QuoteLagsAfter(s, PlanOf(s, c).writes, k, id)
    ensures PaymentLags(Crash(s, c, k), id) <==> PaymentLagsAfter(s, PlanOf(s, c).writes, k, id)
  {
    CrashIsPrefix(s, c, k);
    var plan := PlanOf(s, c);
    hide *;
    if k <= |plan.writes| {
      KindLags(s, plan, k, id);
    } else {
      KindLags(s, plan, |plan.writes|, id);
      PlanHasKind(s, plan);
      BeyondTheEnd(s, plan.writes, k, id);
    }
  }

  lemma PlanHasKind(s: Store, plan: Plan)
    requires KnownKind(s, plan)
    ensures var ws := plan.writes; ws == [] || Opening(s, ws) || Approving(s, ws) || Settling(s, ws) || Resaving(s, ws)
  {
  }

  lemma PerformNone(t: Store, ws: seq<Write>)
    requires ws == []
    ensures PerformAll(t, ws) == t
  {
  }

  /** Completed commands leave no new gap between what is stored and what was published. */
  lemma CompletionNeverLags(s: Store, c: Command, id: Id)
    requires Safe(s)
    ensures QuoteLags(Crash(s, c, 4), id) ==> QuoteLags(s, id)
    ensures PaymentLags(Crash(s, c, 4), id) ==> PaymentLags(s, id)
  {
    LagsExactly(s, c, 4, id);
  }
}
