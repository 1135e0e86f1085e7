/** Events that a crash has lost, and which of them are ever published later. */
module Losses {
  import opened Billing
  import opened Saga
  import opened CrashSafety
  import opened Lags
  import opened Settlement

  /** A status that a quote or a payment has taken on, and that has an event of its own. */
  datatype Fact = QuoteFact(id: Id, quoteStatus: QuoteStatus) | PaymentFact(id: Id, paymentStatus: PaymentStatus)

  /** A stored quote has been created, a stored payment has been pending; other statuses show. */
  predicate Reached(s: Store, f: Fact) {
    match f
    case QuoteFact(id, status) => id in s.quotes && (status.Created? || s.quotes[id].status == status)
    case PaymentFact(id, status) => id in s.payments && (status.Pending? || s.payments[id].status == status)
  }

  ghost predicate Said(h: seq<Event>, f: Fact) {
    match f
    case QuoteFact(id, status) => QuoteSaid(h, id, status)
    case PaymentFact(id, status) => PaymentSaid(h, id, status)
  }

  predicate Says(e: Event, f: Fact) {
    match f
    case QuoteFact(id, status) => SaysQuote(e, id, status)
    case PaymentFact(id, status) => SaysPayment(e, id, status)
  }

  /** The status was taken on, and its event was never published. */
  ghost predicate Lost(s: Store, f: Fact) {
    Reached(s, f) && !Said(s.history, f)
  }

  predicate IsFailure(f: Fact) {
    f.PaymentFact? && f.paymentStatus.Failed?
  }

  lemma SaidOneMore(h: seq<Event>, e: Event, f: Fact)
    ensures Said(h + [e], f) <==> Said(h, f) || Says(e, f)
  {
    match f
    case QuoteFact(id, status) => SaidAppend(h, e, id, status, Pending);
    case PaymentFact(id, status) => SaidAppend(h, e, id, Created, status);
  }

  // ----- What one attempt loses -----

  /** The attempt dies between the save that takes the status on and its announcement. */
  predicate Loses(s: Store, ws: seq<Write>, k: nat, f: Fact) {
    && !Reached(s, f)
    && match f
       case QuoteFact(id, status) =>
         SavesQuote(ws, id) && ws[0].quote.status == status && 1 <= k < (if |ws| == 4 then 3 else 2)
       case PaymentFact(id, status) =>
         || (MakesPayment(ws, id) && status.Pending? && 2 <= k < 4)
         || (Settles(s, ws, id) && ws[0].payment.status == status && k == 1)
  }

  /** A failed payment is failed again, and this time the event gets out. */
  predicate Repairs(s: Store, ws: seq<Write>, k: nat, f: Fact) {
    IsFailure(f) && Settles(s, ws, f.id) && k >= 2
  }

  ghost predicate LostAfter(s: Store, ws: seq<Write>, k: nat, f: Fact) {
    Loses(s, ws, k, f) || (Lost(s, f) && !Repairs(s, ws, k, f))
  }

  lemma SaidIsReached(s: Store, f: Fact)
    requires Safe(s) && Said(s.history, f)
    ensures Reached(s, f)
  {
    SaidIsStored(s, f.id);
    hide Safe;
    if f.QuoteFact? && f.quoteStatus.Cancelled? { CancelsAreUnheardOf(s, f.id); }
  }

  lemma CancelsAreUnheardOf(s: Store, id: Id)
    requires Safe(s)
    ensures !QuoteSaid(s.history, id, Cancelled)
  {
    forall i | 0 <= i < |s.history| ensures Claim(s, s.history[i]) {}
  }

  lemma OpeningLoses(s: Store, ws: seq<Write>, k: nat, f: Fact, t: Store)
    requires Safe(s) && Opening(s, ws) && k <= |ws| && LagAlike(s, t)
    ensures Lost(PerformAll(t, ws[..k]), f) <==> LostAfter(s, ws, k, f)
  {
    DrawnIdsAreFresh(s);
    OpeningSurvives(s, t, ws, k);
    SaidOneMore(s.history, ws[1].event, f);
    if Said(s.history, f) { SaidIsReached(s, f); }
    hide Safe, PerformAll, Said;
    assert s.history + [] == s.history;
  }

  lemma ApprovingIsSaid(s: Store, ws: seq<Write>, k: nat, f: Fact, t: Store)
    requires Approving(s, ws) && k <= |ws| && LagAlike(s, t)
    ensures Said(PerformAll(t, ws[..k]).history, f) <==>
            || Said(s.history, f)
            || (f == QuoteFact(ws[0].quote.quoteId, Approved) && k >= 3)
            || (f == PaymentFact(ws[1].payment.paymentId, Pending) && k >= 4)
  {
    ApprovingSurvives(s, t, ws, k);
    var a, b := ws[2].event, ws[3].event;
    SaidOneMore(s.history, a, f);
    SaidOneMore(s.history + [a], b, f);
    hide PerformAll, Said;
    assert s.history + [] == s.history;
    assert s.history + ([a] + [b]) == s.history + [a] + [b];
  }

  lemma ApprovingLoses(s: Store, ws: seq<Write>, k: nat, f: Fact, t: Store)
    requires Safe(s) && Approving(s, ws) && k <= |ws| && LagAlike(s, t)
    ensures Lost(PerformAll(t, ws[..k]), f) <==> LostAfter(s, ws, k, f)
  {
    DrawnIdsAreFresh(s);
    ApprovingSurvives(s, t, ws, k);
    ApprovingIsSaid(s, ws, k, f, t);
    if Said(s.history, f) { SaidIsReached(s, f); }
    hide Safe, PerformAll, Said;
  }

  lemma SettlingIsSaid(s: Store, ws: seq<Write>, k: nat, f: Fact, t: Store)
    requires Settling(s, ws) && k <= |ws| && LagAlike(s, t)
    ensures Said(PerformAll(t, ws[..k]).history, f) <==>
            || Said(s.history, f)
            || (f == PaymentFact(ws[0].payment.paymentId, ws[0].payment.status) && k == 2)
  {
    PaymentWritesSurvive(s, t, ws, k);
    SaidOneMore(s.history, ws[1].event, f);
    hide PerformAll, Said;
    assert s.history + [] == s.history;
  }

  lemma SettlingLoses(s: Store, ws: seq<Write>, k: nat, f: Fact, t: Store)
    requires Safe(s) && Settling(s, ws) && k <= |ws| && LagAlike(s, t)
    ensures Lost(PerformAll(t, ws[..k]), f) <==> LostAfter(s, ws, k, f)
  {
    PaymentWritesSurvive(s, t, ws, k);
    SettlingIsSaid(s, ws, k, f, t);
    assert KnownPayment(s, ws[0].payment.paymentId);
    if Said(s.history, f) { SaidIsReached(s, f); }
    hide Safe, PerformAll, Said;
  }

  lemma ResavingLoses(s: Store, ws: seq<Write>, k: nat, f: Fact, t: Store)
    requires Resaving(s, ws) && k <= |ws| && LagAlike(s, t)
    ensures Lost(PerformAll(t, ws[..k]), f) <==> LostAfter(s, ws, k, f)
  {
    PaymentWritesSurvive(s, t, ws, k);
    hide PerformAll, Said;
    assert s.history + [] == s.history;
  }

  lemma NothingLoses(s: Store, f: Fact, t: Store)
    requires LagAlike(s, t)
    ensures Lost(t, f) <==> LostAfter(s, [], 0, f)
  {
  }

  lemma WritesLose(s: Store, plan: Plan, k: nat, f: Fact)
    requires Safe(s) && KnownKind(s, plan) && k <= |plan.writes|
    ensures Lost(PerformAll(Draw(s, plan), plan.writes[..k]), f) <==> LostAfter(s, plan.writes, k, f)
  {
    var ws, t := plan.writes, Draw(s, plan);
    hide Safe, PerformAll, Lost, LostAfter;
    if ws == [] {
      PerformNone(t, ws[..k]);
      NothingLoses(s, f, t);
    } else if Opening(s, ws) {
      OpeningLoses(s, ws, k, f, t);
    } else if Approving(s, ws) {
      ApprovingLoses(s, ws, k, f, t);
    } else if Settling(s, ws) {
      SettlingLoses(s, ws, k, f, t);
    } else {
      ResavingLoses(s, ws, k, f, t);
    }
  }

  lemma NothingLeftToLose(s: Store, plan: Plan, k: nat, f: Fact)
    requires KnownKind(s, plan) && k >= |plan.writes|
    ensures LostAfter(s, plan.writes, k, f) <==> LostAfter(s, plan.writes, |plan.writes|, f)
  {
    hide Lost;
  }

  lemma StepLoses(s: Store, c: Command, k: nat, f: Fact)
    requires Safe(s)
    ensures Lost(Crash(s, c, k), f) <==> LostAfter(s, PlanOf(s, c).writes, k, f)
  {
    var plan := PlanOf(s, c);
    CrashIsPrefix(s, c, k);
    hide *;
    if k <= |plan.writes| {
      WritesLose(s, plan, k, f);
    } else {
      WritesLose(s, plan, |plan.writes|, f);
      NothingLeftToLose(s, plan, k, f);
    }
  }

  // ----- What is lost for good -----

  /** The attempt fails the payment by hand and completes. */
  predicate FailsByHand(a: Attempt, f: Fact) {
    IsFailure(f) && a.command.FailPayment? && a.command.paymentId == f.id && a.survived >= 2
  }

  lemma RepairIsByHand(s: Store, a: Attempt, f: Fact)
    requires Safe(s) && Reached(s, f)
    ensures Repairs(s, PlanOf(s, a.command).writes, a.survived, f) <==> FailsByHand(a, f)
  {
    if IsFailure(f) {
      var c := a.command;
      RepeatIsResettlement(s, c);
      if c.FailPayment? { SettledByHand(s, c.paymentId, c.reason); }
      hide PlanOf, Safe;
    }
  }

  /** An event is missing after a run exactly when some attempt died between taking the status
      on and announcing it, and, if it is a failure, nobody has failed the payment by hand
      since: whatever else is lost is lost for good. */
  lemma {:induction false} LostExactly(attempts: seq<Attempt>, f: Fact)
    ensures Lost(CrashRun(attempts), f) <==> LostIn(attempts, f)
  {
    if attempts == [] {
    } else {
      var n := |attempts| - 1;
      var front, last := attempts[..n], attempts[n];
      var s := CrashRun(front);
      LostExactly(front, f);
      CrashRunsAreSafe(front);
      StepLoses(s, last.command, last.survived, f);
      if Reached(s, f) { RepairIsByHand(s, last, f); }
      LostInStep(attempts, f);
    }
  }

  /** The i-th attempt takes the status on and dies before announcing it. */
  predicate LosesAt(attempts: seq<Attempt>, i: nat, f: Fact)
    requires i < |attempts|
  {
    var s, a := CrashRun(attempts[..i]), attempts[i];
    Loses(s, PlanOf(s, a.command).writes, a.survived, f)
  }

  predicate NeverByHand(attempts: seq<Attempt>, from: nat, f: Fact) {
    forall j :: from <= j < |attempts| ==> !FailsByHand(attempts[j], f)
  }

  predicate LostFrom(attempts: seq<Attempt>, i: nat, f: Fact)
    requires i < |attempts|
  {
    LosesAt(attempts, i, f) && NeverByHand(attempts, i + 1, f)
  }

  ghost predicate LostIn(attempts: seq<Attempt>, f: Fact) {
    exists i :: 0 <= i < |attempts| && LostFrom(attempts, i, f)
  }

  lemma LosesInFront(attempts: seq<Attempt>, i: nat, f: Fact)
    requires i < |attempts| - 1
    ensures LosesAt(attempts, i, f) <==> LosesAt(attempts[..|attempts| - 1], i, f)
  {
    hide Loses, CrashRun, PlanOf;
    assert attempts[..i] == attempts[..|attempts| - 1][..i];
  }

  lemma NeverInFront(attempts: seq<Attempt>, from: nat, f: Fact)
    requires from < |attempts|
    ensures var n := |attempts| - 1;
            NeverByHand(attempts, from, f) <==> NeverByHand(attempts[..n], from, f) && !FailsByHand(attempts[n], f)
  {
    hide FailsByHand;
    var front := attempts[..|attempts| - 1];
    forall j | from <= j < |front| ensures front[j] == attempts[j] {}
  }

  lemma LostInFront(attempts: seq<Attempt>, i: nat, f: Fact)
    requires i < |attempts|
    ensures var n := |attempts| - 1;
            LostFrom(attempts, i, f) <==>
              if i == n then LosesAt(attempts, n, f)
              else LostFrom(attempts[..n], i, f) && !FailsByHand(attempts[n], f)
  {
    hide LosesAt, FailsByHand;
    if i < |attempts| - 1 {
      LosesInFront(attempts, i, f);
      NeverInFront(attempts, i + 1, f);
    }
  }

  lemma LostInStep(attempts: seq<Attempt>, f: Fact)
    requires attempts != []
    ensures var n := |attempts| - 1;
            LostIn(attempts, f) <==>
              LosesAt(attempts, n, f) || (LostIn(attempts[..n], f) && !FailsByHand(attempts[n], f))
  {
    var n := |attempts| - 1;
    LostInFront(attempts, n, f);
    forall i | 0 <= i < n { LostInFront(attempts, i, f); }
    var front, byHand := attempts[..n], FailsByHand(attempts[n], f);
    hide LosesAt, LostFrom, FailsByHand, NeverByHand, CrashRun, PlanOf;
    if LostIn(front, f) && !byHand {
      var i :| 0 <= i < |front| && LostFrom(front, i, f);
      assert LostFrom(attempts, i, f);
    }
  }

  // ----- What is reached stays reached -----

  lemma AllowedKeepsReached(s: Store, w: Write, f: Fact)
    requires Safe(s) && Allowed(s, w) && Reached(s, f)
    ensures Reached(Perform(s, w), f)
  {
    match f
    case QuoteFact(id, _) => assert KnownQuote(s, id);
    case PaymentFact(id, _) => assert KnownPayment(s, id);
  }

  lemma {:induction false} WritesKeepReached(s: Store, ws: seq<Write>, k: nat, f: Fact)
    requires Safe(s) && AllowedAll(s, ws) && k <= |ws| && Reached(s, f)
    ensures Reached(PerformAll(s, ws[..k]), f)
    decreases |ws|
  {
    hide Safe, Allowed, Reached, Perform;
    if k == 0 {
    } else {
      AllowedKeepsSafe(s, ws[0]);
      AllowedKeepsReached(s, ws[0], f);
      WritesKeepReached(Perform(s, ws[0]), ws[1..], k - 1, f);
      assert ws[..k][1..] == ws[1..][..k - 1];
    }
  }

  lemma DrawKeepsReached(s: Store, plan: Plan, f: Fact)
    ensures Reached(Draw(s, plan), f) <==> Reached(s, f)
  {
  }

  lemma StepKeepsReached(s: Store, c: Command, k: nat, f: Fact)
    requires Safe(s) && Reached(s, f)
    ensures Reached(Crash(s, c, k), f)
  {
    hide Safe, Reached, AllowedAll, PlanOf, PerformAll, Draw;
    var plan := PlanOf(s, c);
    DrawKeepsSafe(s, plan);
    DrawKeepsReached(s, plan, f);
    PlanIsAllowed(s, c);
    WritesKeepReached(Draw(s, plan), plan.writes, if k < |plan.writes| then k else |plan.writes|, f);
  }

  lemma FrontOfConcat(a: seq<Attempt>, b: seq<Attempt>)
    requires b != []
    ensures var all, n, m := a + b, |a + b| - 1, |b| - 1; all != [] && all[..n] == a + b[..m] && all[n] == b[m]
  {
  }

  lemma LastAttempt(earlier: seq<Attempt>, later: seq<Attempt>)
    requires later != []
    ensures var n := |later| - 1; var s := CrashRun(earlier + later[..n]);
            Safe(s) && CrashRun(earlier + later) == Crash(s, later[n].command, later[n].survived)
  {
    FrontOfConcat(earlier, later);
    CrashRunsAreSafe(earlier + later[..|later| - 1]);
    hide Crash, Safe, PlanOf;
  }

  /** A status once taken on is never left, but for the ones that lead on from it. */
  lemma {:induction false} StatusesStand(earlier: seq<Attempt>, later: seq<Attempt>, f: Fact)
    requires Reached(CrashRun(earlier), f)
    ensures Reached(CrashRun(earlier + later), f)
  {
    if later != [] {
      var n := |later| - 1;
      StatusesStand(earlier, later[..n], f);
      LastAttempt(earlier, later);
      StepKeepsReached(CrashRun(earlier + later[..n]), later[n].command, later[n].survived, f);
    } else {
      assert earlier + later == earlier;
    }
  }

  lemma StepLeavesLost(s: Store, a: Attempt, f: Fact)
    requires Safe(s) && Reached(s, f)
    ensures Lost(Crash(s, a.command, a.survived), f) <==> Lost(s, f) && !FailsByHand(a, f)
  {
    StepLoses(s, a.command, a.survived, f);
    RepairIsByHand(s, a, f);
  }

  /** What is lost stays lost through everything that follows, unless it is a failure and the
      payment is failed again by hand. */
  lemma {:induction false} LostForGood(earlier: seq<Attempt>, later: seq<Attempt>, f: Fact)
    requires Lost(CrashRun(earlier), f)
    ensures Lost(CrashRun(earlier + later), f) <==> NeverByHand(later, 0, f)
  {
    if later != [] {
      var n := |later| - 1;
      LostForGood(earlier, later[..n], f);
      StatusesStand(earlier, later[..n], f);
      LastAttempt(earlier, later);
      StepLeavesLost(CrashRun(earlier + later[..n]), later[n], f);
      NeverInFront(later, 0, f);
      hide *;
    } else {
      assert earlier + later == earlier;
    }
  }
}
