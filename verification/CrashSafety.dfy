/** What holds after every write, and hence after a crash anywhere. */
module CrashSafety {
  import opened Wrappers
  import opened Billing
  import opened Saga

  // ----- The invariant -----

  ghost predicate KnownQuote(s: Store, id: Id)
    requires id in s.quotes
  {
    var q := s.quotes[id];
    && id.Uuid? && id.n < s.next && q.quoteId == id
    && !q.status.Cancelled? && q.serviceOrderId != "" && q.items != []
  }

  /** A payment belongs to an approved quote and copies its order and total; it has been
      given a preference that refers to the order. */
  ghost predicate Backed(s: Store, p: PaymentData) {
    && p.quoteId in s.quotes
    && s.quotes[p.quoteId].status.Approved?
    && p.serviceOrderId == s.quotes[p.quoteId].serviceOrderId
    && p.total == s.quotes[p.quoteId].total
    && !p.status.WaitingPreference?
    && p.preference.Some? && p.preference.value.externalReference == Some(p.serviceOrderId)
  }

  ghost predicate KnownPayment(s: Store, id: Id)
    requires id in s.payments
  {
    id.Uuid? && id.n < s.next && s.payments[id].paymentId == id && Backed(s, s.payments[id])
  }

  ghost predicate OnePaymentPerQuote(s: Store) {
    forall a, b :: a in s.payments && b in s.payments && s.payments[a].quoteId == s.payments[b].quoteId
                   ==> a == b
  }

  /** What an event asserts, read off the store. No use case cancels a quote. */
  ghost predicate Claim(s: Store, e: Event) {
    && e.quoteId in s.quotes && e.serviceOrderId == s.quotes[e.quoteId].serviceOrderId
    && match e.kind
       case QuoteCreated => true
       case QuoteApproved => s.quotes[e.quoteId].status.Approved?
       case QuoteCancelled(_) => false
       case PreferenceCreated(id, preferenceId) =>
         && id in s.payments && s.payments[id].quoteId == e.quoteId
         && s.payments[id].preference.Some?
         && s.payments[id].preference.value.preferenceId == preferenceId
       case PaymentConfirmed(id) =>
         id in s.payments && s.payments[id].quoteId == e.quoteId && s.payments[id].status.Confirmed?
       case PaymentFailed(id, _) =>
         id in s.payments && s.payments[id].quoteId == e.quoteId && s.payments[id].status.Failed?
  }

  /** `later` may not follow `earlier`: a confirmation is final, and nothing that failed
      is confirmed. */
  predicate Conflict(earlier: Kind, later: Kind) {
    || (earlier.PaymentConfirmed? && later == earlier)
    || (earlier.PaymentConfirmed? && later.PaymentFailed? && later.paymentId == earlier.paymentId)
    || (earlier.PaymentFailed? && later.PaymentConfirmed? && later.paymentId == earlier.paymentId)
  }

  ghost predicate NoConflicts(h: seq<Event>) {
    forall i, j :: 0 <= i < j < |h| ==> !Conflict(h[i].kind, h[j].kind)
  }

  ghost predicate Announced(h: seq<Event>, quoteId: Id) {
    exists i :: 0 <= i < |h| && h[i].kind.QuoteCreated? && h[i].quoteId == quoteId
  }

  ghost predicate Safe(s: Store) {
    && (forall id :: id in s.quotes ==> KnownQuote(s, id))
    && (forall id :: id in s.payments ==> KnownPayment(s, id))
    && OnePaymentPerQuote(s)
    && (forall i :: 0 <= i < |s.history| ==> Claim(s, s.history[i]))
    && NoConflicts(s.history)
    && (forall id :: id in s.processed ==>
          s.processed[id] in s.quotes && Announced(s.history, s.processed[id]))
  }

  // ----- Writes that keep it -----

  ghost predicate AllowedQuote(s: Store, q: QuoteData) {
    if q.quoteId in s.quotes then q == s.quotes[q.quoteId].(status := Approved)
    else q.quoteId.Uuid? && q.quoteId.n < s.next && q.status.Created? && q.serviceOrderId != "" && q.items != []
  }

  /** A payment's status moves only from pending to a terminal status. */
  predicate Moves(before: PaymentStatus, after: PaymentStatus) {
    before == after || (before.Pending? && (after.Confirmed? || after.Failed?))
  }

  ghost predicate AllowedPayment(s: Store, p: PaymentData) {
    if p.paymentId in s.payments then
      var stored := s.payments[p.paymentId];
      p == stored.(status := p.status) && Moves(stored.status, p.status)
    else
      && p.paymentId.Uuid? && p.paymentId.n < s.next && p.status.Pending? && Backed(s, p)
      && forall id :: id in s.payments ==> s.payments[id].quoteId != p.quoteId
  }

  ghost predicate AllowedEvent(s: Store, e: Event) {
    Claim(s, e) && forall i :: 0 <= i < |s.history| ==> !Conflict(s.history[i].kind, e.kind)
  }

  ghost predicate Allowed(s: Store, w: Write) {
    match w
    case SaveQuote(q) => AllowedQuote(s, q)
    case SavePayment(p) => AllowedPayment(s, p)
    case Publish(e) => AllowedEvent(s, e)
    case Mark(_, quoteId) => quoteId in s.quotes && Announced(s.history, quoteId)
  }

  /** Nothing already claimed or stored is lost by an allowed write. */
  lemma ClaimsPersist(s: Store, w: Write, e: Event)
    requires Safe(s) && Allowed(s, w) && Claim(s, e)
    ensures Claim(Perform(s, w), e)
  {
  }

  lemma AllowedQuoteKeepsSafe(s: Store, q: QuoteData)
    requires Safe(s) && AllowedQuote(s, q)
    ensures Safe(Perform(s, SaveQuote(q)))
  {
    var s' := Perform(s, SaveQuote(q));
    forall id | id in s'.quotes ensures KnownQuote(s', id) {
      if id != q.quoteId { assert KnownQuote(s, id); }
      else if id in s.quotes { assert KnownQuote(s, id); }
    }
    forall id | id in s'.payments ensures KnownPayment(s', id) {
      assert KnownPayment(s, id);
    }
    forall i | 0 <= i < |s'.history| ensures Claim(s', s'.history[i]) {
      ClaimsPersist(s, SaveQuote(q), s.history[i]);
    }
  }

  lemma AllowedPaymentKeepsSafe(s: Store, p: PaymentData)
    requires Safe(s) && AllowedPayment(s, p)
    ensures Safe(Perform(s, SavePayment(p)))
  {
    var s' := Perform(s, SavePayment(p));
    forall id | id in s'.payments ensures KnownPayment(s', id) {
      if id in s.payments { assert KnownPayment(s, id); }
    }
    forall id | id in s'.quotes ensures KnownQuote(s', id) {
      assert KnownQuote(s, id);
    }
    forall i | 0 <= i < |s'.history| ensures Claim(s', s'.history[i]) {
      ClaimsPersist(s, SavePayment(p), s.history[i]);
    }
  }

  lemma AnnouncedPersists(h: seq<Event>, e: Event, quoteId: Id)
    requires Announced(h, quoteId)
    ensures Announced(h + [e], quoteId)
  {
    var i :| 0 <= i < |h| && h[i].kind.QuoteCreated? && h[i].quoteId == quoteId;
    assert (h + [e])[i] == h[i];
  }

  lemma AllowedEventKeepsSafe(s: Store, e: Event)
    requires Safe(s) && AllowedEvent(s, e)
    ensures Safe(Perform(s, Publish(e)))
  {
    var s' := Perform(s, Publish(e));
    forall id | id in s'.quotes ensures KnownQuote(s', id) { assert KnownQuote(s, id); }
    forall id | id in s'.payments ensures KnownPayment(s', id) { assert KnownPayment(s, id); }
    forall i | 0 <= i < |s'.history| ensures Claim(s', s'.history[i]) {
      if i < |s.history| { ClaimsPersist(s, Publish(e), s.history[i]); }
    }
    forall id | id in s'.processed ensures Announced(s'.history, s'.processed[id]) {
      AnnouncedPersists(s.history, e, s.processed[id]);
    }
  }

  lemma AllowedKeepsSafe(s: Store, w: Write)
    requires Safe(s) && Allowed(s, w)
    ensures Safe(Perform(s, w))
  {
    match w
    case SaveQuote(q) => AllowedQuoteKeepsSafe(s, q);
    case SavePayment(p) => AllowedPaymentKeepsSafe(s, p);
    case Publish(e) => AllowedEventKeepsSafe(s, e);
    case Mark(_, _) =>
      var s' := Perform(s, w);
      forall id | id in s'.quotes ensures KnownQuote(s', id) { assert KnownQuote(s, id); }
      forall id | id in s'.payments ensures KnownPayment(s', id) { assert KnownPayment(s, id); }
      forall i | 0 <= i < |s'.history| ensures Claim(s', s'.history[i]) { ClaimsPersist(s, w, s.history[i]); }
  }

  ghost predicate AllowedAll(s: Store, ws: seq<Write>)
    decreases |ws|
  {
    ws == [] || (Allowed(s, ws[0]) && AllowedAll(Perform(s, ws[0]), ws[1..]))
  }

  lemma {:induction false} EveryPrefixIsSafe(s: Store, ws: seq<Write>, k: nat)
    requires Safe(s) && AllowedAll(s, ws) && k <= |ws|
    ensures Safe(PerformAll(s, ws[..k]))
    decreases |ws|
  {
    if k == 0 {
    } else {
      AllowedKeepsSafe(s, ws[0]);
      EveryPrefixIsSafe(Perform(s, ws[0]), ws[1..], k - 1);
      assert ws[..k][1..] == ws[1..][..k - 1];
    }
  }

  lemma {:induction false} ConcatAllowed(s: Store, a: seq<Write>, b: seq<Write>)
    requires AllowedAll(s, a)
    ensures PerformAll(s, a + b) == PerformAll(PerformAll(s, a), b)
    ensures AllowedAll(PerformAll(s, a), b) ==> AllowedAll(s, a + b)
    decreases |a|
  {
    if a == [] {
      assert a + b == b;
    } else {
      ConcatAllowed(Perform(s, a[0]), a[1..], b);
      assert (a + b)[1..] == a[1..] + b;
    }
  }

  lemma AllowedTwo(s: Store, a: Write, b: Write)
    requires Allowed(s, a) && Allowed(Perform(s, a), b)
    ensures AllowedAll(s, [a, b])
  {
    assert [a, b][1..] == [b];
    assert [b][1..] == [];
  }

  lemma AllowedFour(s: Store, a: Write, b: Write, c: Write, d: Write)
    requires Allowed(s, a) && Allowed(Perform(s, a), b)
    requires Allowed(Perform(Perform(s, a), b), c) && Allowed(Perform(Perform(Perform(s, a), b), c), d)
    ensures AllowedAll(s, [a, b, c, d])
  {
    AllowedTwo(Perform(Perform(s, a), b), c, d);
    AllowedTwo(s, a, b);
    PerformTwo(s, a, b);
    ConcatAllowed(s, [a, b], [c, d]);
    assert [a, b] + [c, d] == [a, b, c, d];
  }

  // ----- Every use case makes allowed writes only -----

  lemma DrawKeepsSafe(s: Store, plan: Plan)
    requires Safe(s)
    ensures Safe(Draw(s, plan))
  {
    var s' := Draw(s, plan);
    forall id | id in s'.quotes ensures KnownQuote(s', id) { assert KnownQuote(s, id); }
    forall id | id in s'.payments ensures KnownPayment(s', id) { assert KnownPayment(s, id); }
    forall i | 0 <= i < |s'.history| ensures Claim(s', s'.history[i]) { assert Claim(s, s.history[i]); }
  }

  lemma DrawnIdsAreFresh(s: Store)
    requires Safe(s)
    ensures forall n :: s.next <= n ==> Uuid(n) !in s.quotes && Uuid(n) !in s.payments
  {
    forall n | s.next <= n
      ensures Uuid(n) !in s.quotes && Uuid(n) !in s.payments
    {
      assert Uuid(n) in s.quotes ==> KnownQuote(s, Uuid(n));
      assert Uuid(n) in s.payments ==> KnownPayment(s, Uuid(n));
    }
  }

  lemma OpeningIsAllowed(s: Store, t: Store, ws: seq<Write>)
    requires Safe(s) && t == s.(next := s.next + 2) && Opening(s, ws)
    ensures AllowedAll(t, ws)
  {
    DrawnIdsAreFresh(s);
    AllowedTwo(t, ws[0], ws[1]);
    if |ws| == 3 {
      PerformTwo(t, ws[0], ws[1]);
      var after := PerformAll(t, [ws[0], ws[1]]);
      assert after.history[|s.history|] == ws[1].event;
      assert AllowedAll(after, [ws[2]]) by { assert [ws[2]][1..] == []; }
      ConcatAllowed(t, [ws[0], ws[1]], [ws[2]]);
      assert ws == [ws[0], ws[1]] + [ws[2]];
    } else {
      assert ws == [ws[0], ws[1]];
    }
  }

  lemma ApprovingIsAllowed(s: Store, t: Store, ws: seq<Write>)
    requires Safe(s) && t == s.(next := s.next + 3) && Approving(s, ws)
    ensures AllowedAll(t, ws)
  {
    var q, p := ws[0].quote, ws[1].payment;
    var t1 := Perform(t, ws[0]);
    var t2 := Perform(t1, ws[1]);
    DrawnIdsAreFresh(s);
    assert KnownQuote(s, q.quoteId);
    forall id | id in s.payments ensures s.payments[id].quoteId != q.quoteId { assert KnownPayment(s, id); }
    assert Backed(t1, p);
    assert Claim(t2, ws[2].event);
    assert Claim(Perform(t2, ws[2]), ws[3].event);
    AllowedFour(t, ws[0], ws[1], ws[2], ws[3]);
    assert ws == [ws[0], ws[1], ws[2], ws[3]];
  }

  lemma SettlingIsAllowed(s: Store, t: Store, ws: seq<Write>)
    requires Safe(s) && t == s.(next := s.next + 1) && Settling(s, ws)
    ensures AllowedAll(t, ws)
  {
    var p, e := ws[0].payment, ws[1].event;
    assert KnownPayment(s, p.paymentId);
    assert Claim(Perform(t, ws[0]), e);
    forall i | 0 <= i < |s.history| ensures !Conflict(s.history[i].kind, e.kind) {
      assert Claim(s, s.history[i]);
    }
    AllowedTwo(t, ws[0], ws[1]);
    assert ws == [ws[0], ws[1]];
  }

  lemma SafeIsKeyed(s: Store)
    requires Safe(s)
    ensures Keyed(s)
  {
    forall id | id in s.quotes ensures s.quotes[id].quoteId == id { assert KnownQuote(s, id); }
    forall id | id in s.payments ensures s.payments[id].paymentId == id { assert KnownPayment(s, id); }
  }

  lemma KnownKindIsAllowed(s: Store, plan: Plan)
    requires Safe(s) && KnownKind(s, plan)
    ensures AllowedAll(Draw(s, plan), plan.writes)
  {
    var t, ws := Draw(s, plan), plan.writes;
    if ws == [] {
    } else if Opening(s, ws) {
      OpeningIsAllowed(s, t, ws);
    } else if Approving(s, ws) {
      ApprovingIsAllowed(s, t, ws);
    } else if Settling(s, ws) {
      SettlingIsAllowed(s, t, ws);
    } else {
      assert KnownPayment(s, ws[0].payment.paymentId);
      assert ws[1..] == [];
    }
  }

  lemma PlanIsAllowed(s: Store, c: Command)
    requires Safe(s)
    ensures AllowedAll(Draw(s, PlanOf(s, c)), PlanOf(s, c).writes)
  {
    SafeIsKeyed(s);
    KindOf(s, c);
    KnownKindIsAllowed(s, PlanOf(s, c));
  }

  // ----- Main results -----

  lemma CrashKeepsSafe(s: Store, c: Command, k: nat)
    requires Safe(s)
    ensures Safe(Crash(s, c, k))
  {
    var plan := PlanOf(s, c);
    DrawKeepsSafe(s, plan);
    PlanIsAllowed(s, c);
    EveryPrefixIsSafe(Draw(s, plan), plan.writes, if k < |plan.writes| then k else |plan.writes|);
  }

  /** However the commands are cut short, the store and the history stay consistent. */
  lemma {:induction false} CrashRunsAreSafe(attempts: seq<Attempt>)
    ensures Safe(CrashRun(attempts))
  {
    if attempts == [] {
    } else {
      var last := attempts[|attempts| - 1];
      CrashRunsAreSafe(attempts[..|attempts| - 1]);
      CrashKeepsSafe(CrashRun(attempts[..|attempts| - 1]), last.command, last.survived);
    }
  }

  /** What was published stays published, and what it claims stays stored, through
      every later crash or completion. */
  lemma {:induction false} PublishedClaimsPersist(earlier: seq<Attempt>, later: seq<Attempt>)
    ensures CrashRun(earlier).history <= CrashRun(earlier + later).history
    ensures forall i :: 0 <= i < |CrashRun(earlier).history| ==>
              Claim(CrashRun(earlier + later), CrashRun(earlier).history[i])
  {
    var all := earlier + later;
    CrashRunsAreSafe(all);
    if later != [] {
      var last, before := later[|later| - 1], CrashRun(all[..|all| - 1]);
      assert all[..|all| - 1] == earlier + later[..|later| - 1];
      PublishedClaimsPersist(earlier, later[..|later| - 1]);
      var plan := PlanOf(before, last.command);
      var n := if last.survived < |plan.writes| then last.survived else |plan.writes|;
      WritesAreLocal(Draw(before, plan), plan.writes[..n]);
    } else {
      assert all == earlier;
    }
    forall i | 0 <= i < |CrashRun(earlier).history|
      ensures Claim(CrashRun(all), CrashRun(earlier).history[i])
    {
      assert CrashRun(all).history[i] == CrashRun(earlier).history[i];
    }
  }

  // ----- What an id stands for never changes -----

  /** Nothing is deleted, and only statuses change. */
  ghost predicate Continues(s: Store, t: Store) {
    && (forall id :: id in s.quotes ==>
          id in t.quotes && t.quotes[id] == s.quotes[id].(status := t.quotes[id].status))
    && (forall id :: id in s.payments ==>
          id in t.payments && t.payments[id] == s.payments[id].(status := t.payments[id].status))
  }

  lemma AllowedContinues(s: Store, w: Write)
    requires Safe(s) && Allowed(s, w)
    ensures Continues(s, Perform(s, w))
  {
    if w.SaveQuote? && w.quote.quoteId in s.quotes { assert KnownQuote(s, w.quote.quoteId); }
    if w.SavePayment? && w.payment.paymentId in s.payments { assert KnownPayment(s, w.payment.paymentId); }
  }

  lemma ContinuesIsTransitive(s: Store, t: Store, u: Store)
    requires Continues(s, t) && Continues(t, u)
    ensures Continues(s, u)
  {
  }

  lemma {:induction false} WritesContinue(s: Store, ws: seq<Write>, k: nat)
    requires Safe(s) && AllowedAll(s, ws) && k <= |ws|
    ensures Continues(s, PerformAll(s, ws[..k]))
    decreases |ws|
  {
    if k == 0 {
    } else {
      AllowedKeepsSafe(s, ws[0]);
      WritesContinue(Perform(s, ws[0]), ws[1..], k - 1);
      assert ws[..k][1..] == ws[1..][..k - 1];
      AllowedContinues(s, ws[0]);
      ContinuesIsTransitive(s, Perform(s, ws[0]), PerformAll(s, ws[..k]));
    }
  }

  /** Over rows, through every later crash or completion, an id keeps its order, items, total
      and preference. */
  lemma {:induction false} IdentitiesPersist(earlier: seq<Attempt>, later: seq<Attempt>)
    ensures Continues(CrashRun(earlier), CrashRun(earlier + later))
  {
    var all := earlier + later;
    if later != [] {
      var last, before := later[|later| - 1], CrashRun(all[..|all| - 1]);
      assert all[..|all| - 1] == earlier + later[..|later| - 1];
      IdentitiesPersist(earlier, later[..|later| - 1]);
      CrashRunsAreSafe(all[..|all| - 1]);
      var plan := PlanOf(before, last.command);
      DrawKeepsSafe(before, plan);
      PlanIsAllowed(before, last.command);
      WritesContinue(Draw(before, plan), plan.writes,
                     if last.survived < |plan.writes| then last.survived else |plan.writes|);
    } else {
      assert all == earlier;
    }
  }
}
