/** Where the money of approved quotes is, in every state a run can reach. */
module Conservation {
  import opened Decimals
  import opened Billing
  import opened Saga
  import opened CrashSafety
  import opened Stranding
  import A = Aliasing

  /** An amount counts towards its own currency only. */
  function Share(m: Money, currency: string): real {
    if m.currency == currency then Value(m.amount) else 0.0
  }

  // ----- Sums over drawn ids -----

  /** What the approved quotes with ids below `n` amount to. */
  function ApprovedTotal(s: Store, currency: string, n: nat): real {
    if n == 0 then 0.0
    else
      var id := Uuid(n - 1);
      ApprovedTotal(s, currency, n - 1)
      + if id in s.quotes && s.quotes[id].status.Approved? then Share(s.quotes[id].total, currency) else 0.0
  }

  /** The part of it that belongs to quotes without a payment. */
  ghost function StrandedTotal(s: Store, currency: string, n: nat): real {
    if n == 0 then 0.0
    else
      var id := Uuid(n - 1);
      StrandedTotal(s, currency, n - 1) + if Stranded(s, id) then Share(s.quotes[id].total, currency) else 0.0
  }

  function PaymentTotal(s: Store, currency: string, n: nat): real {
    if n == 0 then 0.0
    else
      var id := Uuid(n - 1);
      PaymentTotal(s, currency, n - 1) + if id in s.payments then Share(s.payments[id].total, currency) else 0.0
  }

  /** The payments in one status. */
  function StatusTotal(s: Store, status: PaymentStatus, currency: string, n: nat): real {
    if n == 0 then 0.0
    else
      var id := Uuid(n - 1);
      StatusTotal(s, status, currency, n - 1)
      + if id in s.payments && s.payments[id].status == status then Share(s.payments[id].total, currency) else 0.0
  }

  /** Every id in use has been drawn, so sums up to `next` are sums over everything. */
  ghost predicate Balanced(s: Store, currency: string) {
    ApprovedTotal(s, currency, s.next) == PaymentTotal(s, currency, s.next) + StrandedTotal(s, currency, s.next)
  }

  // ----- How each total reacts to a change at one id -----

  lemma {:induction false} ApprovedTotalChange(s: Store, t: Store, currency: string, n: nat, k: nat)
    requires forall i: nat :: i != k ==>
               (Uuid(i) in t.quotes <==> Uuid(i) in s.quotes)
               && (Uuid(i) in s.quotes ==> t.quotes[Uuid(i)] == s.quotes[Uuid(i)])
    requires Uuid(k) in s.quotes ==> !s.quotes[Uuid(k)].status.Approved?
    ensures ApprovedTotal(t, currency, n) == ApprovedTotal(s, currency, n)
            + if k < n && Uuid(k) in t.quotes && t.quotes[Uuid(k)].status.Approved?
              then Share(t.quotes[Uuid(k)].total, currency) else 0.0
  {
    if n == 0 {
    } else {
      ApprovedTotalChange(s, t, currency, n - 1, k);
    }
  }

  lemma {:induction false} PaymentTotalChange(s: Store, t: Store, currency: string, n: nat, k: nat)
    requires forall i: nat :: i != k ==>
               (Uuid(i) in t.payments <==> Uuid(i) in s.payments)
               && (Uuid(i) in s.payments ==> t.payments[Uuid(i)] == s.payments[Uuid(i)])
    requires Uuid(k) !in s.payments && Uuid(k) in t.payments
    ensures PaymentTotal(t, currency, n) == PaymentTotal(s, currency, n)
            + if k < n then Share(t.payments[Uuid(k)].total, currency) else 0.0
  {
    if n == 0 {
    } else {
      PaymentTotalChange(s, t, currency, n - 1, k);
    }
  }

  /** What the totals count: one more approved quote or payment adds its value in its own
      currency, and nothing in any other; without any, they are zero. */
  lemma TotalsCount(s: Store, q: QuoteData, p: PaymentData, currency: string, n: nat, k: nat)
    requires Uuid(k) !in s.quotes && Uuid(k) !in s.payments && k < n
    ensures var t := s.(quotes := s.quotes[Uuid(k) := q], payments := s.payments[Uuid(k) := p]);
            && ApprovedTotal(t, currency, n) == ApprovedTotal(s, currency, n)
              + (if q.status.Approved? && q.total.currency == currency then Value(q.total.amount) else 0.0)
            && PaymentTotal(t, currency, n) == PaymentTotal(s, currency, n)
              + (if p.total.currency == currency then Value(p.total.amount) else 0.0)
    ensures ApprovedTotal(EMPTY, currency, n) == PaymentTotal(EMPTY, currency, n) == 0.0
  {
    var t := s.(quotes := s.quotes[Uuid(k) := q], payments := s.payments[Uuid(k) := p]);
    ApprovedTotalChange(s, t, currency, n, k);
    PaymentTotalChange(s, t, currency, n, k);
    NothingCounts(currency, n);
    hide ApprovedTotal, PaymentTotal, Value;
  }

  lemma {:induction false} NothingCounts(currency: string, n: nat)
    ensures ApprovedTotal(EMPTY, currency, n) == PaymentTotal(EMPTY, currency, n) == 0.0
  {
    if n > 0 { NothingCounts(currency, n - 1); }
  }

  /** From `s` to `t` the quote `k` becomes stranded and nothing else changes. */
  lemma {:induction false} StrandedTotalChange(s: Store, t: Store, currency: string, n: nat, k: nat)
    requires forall i: nat :: i != k ==> (Stranded(t, Uuid(i)) <==> Stranded(s, Uuid(i)))
    requires forall i: nat :: Stranded(s, Uuid(i)) ==>
               Uuid(i) in t.quotes && t.quotes[Uuid(i)].total == s.quotes[Uuid(i)].total
    requires !Stranded(s, Uuid(k)) && Stranded(t, Uuid(k))
    ensures StrandedTotal(t, currency, n) == StrandedTotal(s, currency, n)
            + if k < n then Share(t.quotes[Uuid(k)].total, currency) else 0.0
  {
    if n == 0 {
    } else {
      StrandedTotalChange(s, t, currency, n - 1, k);
    }
  }

  lemma {:induction false} SameTotals(s: Store, t: Store, currency: string, n: nat)
    requires forall i: nat :: (Stranded(t, Uuid(i)) <==> Stranded(s, Uuid(i)))
    requires forall i: nat :: Approves(t, Uuid(i)) <==> Approves(s, Uuid(i))
    requires forall i: nat :: Approves(s, Uuid(i)) ==>
               Uuid(i) in t.quotes && t.quotes[Uuid(i)].total == s.quotes[Uuid(i)].total
    requires forall i: nat :: (Uuid(i) in t.payments <==> Uuid(i) in s.payments)
               && (Uuid(i) in s.payments ==> t.payments[Uuid(i)].total == s.payments[Uuid(i)].total)
    ensures ApprovedTotal(t, currency, n) == ApprovedTotal(s, currency, n)
    ensures PaymentTotal(t, currency, n) == PaymentTotal(s, currency, n)
    ensures StrandedTotal(t, currency, n) == StrandedTotal(s, currency, n)
  {
    if n == 0 {
    } else {
      SameTotals(s, t, currency, n - 1);
      assert Approves(t, Uuid(n - 1)) <==> Approves(s, Uuid(n - 1));
      assert Stranded(t, Uuid(n - 1)) <==> Stranded(s, Uuid(n - 1));
    }
  }

  predicate Approves(s: Store, id: Id) {
    id in s.quotes && s.quotes[id].status.Approved?
  }

  /** Ids not yet drawn contribute nothing. */
  lemma {:induction false} NothingBeyondNext(s: Store, currency: string, n: nat)
    requires Safe(s) && s.next <= n
    ensures ApprovedTotal(s, currency, n) == ApprovedTotal(s, currency, s.next)
    ensures PaymentTotal(s, currency, n) == PaymentTotal(s, currency, s.next)
    ensures StrandedTotal(s, currency, n) == StrandedTotal(s, currency, s.next)
    decreases n
  {
    if n > s.next {
      NothingBeyondNext(s, currency, n - 1);
      DrawnIdsAreFresh(s);
    }
  }

  // ----- Allowed writes keep the balance -----

  lemma SavedQuoteIsKnown(s: Store, q: QuoteData)
    requires Safe(s) && Allowed(s, SaveQuote(q))
    ensures q.quoteId.Uuid? && q.quoteId.n < s.next
    ensures q.quoteId in s.quotes ==> KnownQuote(s, q.quoteId)
    ensures q.quoteId in s.quotes && s.quotes[q.quoteId].status.Created? ==> Unpaid(s, q.quoteId)
  {
    if q.quoteId in s.quotes && s.quotes[q.quoteId].status.Created? {
      forall id | id in s.payments ensures s.payments[id].quoteId != q.quoteId { assert KnownPayment(s, id); }
    }
  }

  lemma ApprovalBalances(s: Store, q: QuoteData, currency: string)
    requires Safe(s) && Allowed(s, SaveQuote(q)) && Balanced(s, currency)
    requires q.quoteId in s.quotes && s.quotes[q.quoteId].status.Created?
    ensures Balanced(Perform(s, SaveQuote(q)), currency)
  {
    hide ApprovedTotal, PaymentTotal, StrandedTotal, Share;
    var t := Perform(s, SaveQuote(q));
    SavedQuoteIsKnown(s, q);
    hide Safe;
    forall i: nat ensures Unpaid(t, Uuid(i)) <==> Unpaid(s, Uuid(i)) {}
    ApprovedTotalChange(s, t, currency, s.next, q.quoteId.n);
    StrandedTotalChange(s, t, currency, s.next, q.quoteId.n);
    SamePayments(s, t, currency, s.next);
  }

  lemma QuoteSaveBalances(s: Store, q: QuoteData, currency: string)
    requires Safe(s) && Allowed(s, SaveQuote(q)) && Balanced(s, currency)
    ensures Balanced(Perform(s, SaveQuote(q)), currency)
  {
    hide ApprovedTotal, PaymentTotal, StrandedTotal, Share;
    var t := Perform(s, SaveQuote(q));
    SavedQuoteIsKnown(s, q);
    hide Safe;
    if q.quoteId in s.quotes && s.quotes[q.quoteId].status.Created? {
      ApprovalBalances(s, q, currency);
    } else {
      SaveApprovesNothing(s, q);
      forall i: nat ensures Unpaid(t, Uuid(i)) <==> Unpaid(s, Uuid(i)) {}
      hide Allowed, AllowedQuote;
      SameTotals(s, t, currency, s.next);
    }
  }

  lemma SaveApprovesNothing(s: Store, q: QuoteData)
    requires Safe(s) && Allowed(s, SaveQuote(q))
    requires q.quoteId in s.quotes ==> !s.quotes[q.quoteId].status.Created?
    ensures var t := Perform(s, SaveQuote(q));
            forall i: nat :: (Approves(t, Uuid(i)) <==> Approves(s, Uuid(i)))
              && (Approves(s, Uuid(i)) ==> t.quotes[Uuid(i)].total == s.quotes[Uuid(i)].total)
  {
    SavedQuoteIsKnown(s, q);
    hide Safe;
  }

  lemma {:induction false} SamePayments(s: Store, t: Store, currency: string, n: nat)
    requires s.payments == t.payments
    ensures PaymentTotal(t, currency, n) == PaymentTotal(s, currency, n)
  {
    if n == 0 {
    } else {
      SamePayments(s, t, currency, n - 1);
    }
  }

  lemma {:induction false} SameQuotes(s: Store, t: Store, currency: string, n: nat)
    requires s.quotes == t.quotes
    ensures ApprovedTotal(t, currency, n) == ApprovedTotal(s, currency, n)
  {
    if n == 0 {
    } else {
      SameQuotes(s, t, currency, n - 1);
    }
  }

  lemma ResaveBalances(s: Store, p: PaymentData, currency: string)
    requires Safe(s) && Allowed(s, SavePayment(p)) && Balanced(s, currency) && p.paymentId in s.payments
    ensures Balanced(Perform(s, SavePayment(p)), currency)
  {
    hide ApprovedTotal, PaymentTotal, StrandedTotal, Share, Safe;
    var t := Perform(s, SavePayment(p));
    forall i: nat ensures Unpaid(t, Uuid(i)) <==> Unpaid(s, Uuid(i)) {
      forall id | id in s.payments ensures id in t.payments && t.payments[id].quoteId == s.payments[id].quoteId {}
    }
    SameTotals(s, t, currency, s.next);
  }

  lemma NewPaymentBalances(s: Store, p: PaymentData, currency: string)
    requires Safe(s) && Allowed(s, SavePayment(p)) && Balanced(s, currency) && p.paymentId !in s.payments
    ensures Balanced(Perform(s, SavePayment(p)), currency)
  {
    hide ApprovedTotal, PaymentTotal, StrandedTotal, Share, Claim;
    var t := Perform(s, SavePayment(p));
    assert KnownQuote(s, p.quoteId);
    hide Safe;
    forall i: nat | i != p.quoteId.n ensures Unpaid(t, Uuid(i)) <==> Unpaid(s, Uuid(i)) {
      forall id | id in s.payments ensures id in t.payments && t.payments[id].quoteId == s.payments[id].quoteId {}
    }
    assert Stranded(s, p.quoteId);
    assert !Stranded(t, p.quoteId) by { assert p.paymentId in t.payments; }
    StrandedTotalChange(t, s, currency, s.next, p.quoteId.n);
    PaymentTotalChange(s, t, currency, s.next, p.paymentId.n);
    SameQuotes(s, t, currency, s.next);
  }

  lemma WriteBalances(s: Store, w: Write, currency: string)
    requires Safe(s) && Allowed(s, w) && Balanced(s, currency)
    ensures Balanced(Perform(s, w), currency)
  {
    match w
    case SaveQuote(q) => QuoteSaveBalances(s, q, currency);
    case SavePayment(p) =>
      if p.paymentId in s.payments { ResaveBalances(s, p, currency); } else { NewPaymentBalances(s, p, currency); }
    case _ => SameTotals(s, Perform(s, w), currency, s.next);
  }

  lemma {:induction false} PrefixBalances(s: Store, ws: seq<Write>, k: nat, currency: string)
    requires Safe(s) && AllowedAll(s, ws) && k <= |ws| && Balanced(s, currency)
    ensures Balanced(PerformAll(s, ws[..k]), currency)
    decreases |ws|
  {
    if k == 0 {
    } else {
      WriteBalances(s, ws[0], currency);
      AllowedKeepsSafe(s, ws[0]);
      PrefixBalances(Perform(s, ws[0]), ws[1..], k - 1, currency);
      assert ws[..k][1..] == ws[1..][..k - 1];
    }
  }

  lemma CrashBalances(s: Store, c: Command, k: nat, currency: string)
    requires Safe(s) && Balanced(s, currency)
    ensures Balanced(Crash(s, c, k), currency)
  {
    var plan := PlanOf(s, c);
    var t := Draw(s, plan);
    DrawKeepsSafe(s, plan);
    SameTotals(s, t, currency, t.next);
    NothingBeyondNext(s, currency, t.next);
    PlanIsAllowed(s, c);
    PrefixBalances(t, plan.writes, if k < |plan.writes| then k else |plan.writes|, currency);
  }

  /** However the commands are cut short, what the approved quotes amount to is what the
      payments amount to, plus the totals of the quotes a crash has stranded. */
  lemma {:induction false} MoneyIsConserved(attempts: seq<Attempt>, currency: string)
    ensures Balanced(CrashRun(attempts), currency)
  {
    if attempts == [] {
    } else {
      var front, last := attempts[..|attempts| - 1], attempts[|attempts| - 1];
      MoneyIsConserved(front, currency);
      CrashRunsAreSafe(front);
      CrashBalances(CrashRun(front), last.command, last.survived, currency);
    }
  }

  // ----- Uninterrupted runs -----

  lemma StepBalances(mode: Mode, s: Store, c: Command, currency: string)
    requires Safe(s) && Balanced(s, currency)
    ensures Balanced(Exec(mode, s, c), currency)
  {
    SafeIsKeyed(s);
    CrashBalances(s, c, |PlanOf(s, c).writes|, currency);
    A.CompletionIsLastPrefix(s, c);
    A.AliasingStep(s, c);
    if mode.Aliasing? && A.GatewayFails(s, c) {
      A.StepKeepsSafe(Copying, s, c);
      assert KnownQuote(s, c.quoteId);
      assert PlanOf(s, c).writes == [];
      QuoteSaveBalances(Exec(Copying, s, c), s.quotes[c.quoteId].(status := Approved), currency);
    }
  }

  /** The same balance in uninterrupted runs over either kind of repository. */
  lemma {:induction false} RunsBalance(mode: Mode, cs: seq<Command>, currency: string)
    ensures Balanced(Run(mode, cs), currency)
  {
    if cs == [] {
    } else {
      var front := cs[..|cs| - 1];
      RunsBalance(mode, front, currency);
      A.RunsAreSafe(mode, front);
      StepBalances(mode, Run(mode, front), cs[|cs| - 1], currency);
    }
  }

  lemma {:induction false} RowsStrandNothing(cs: seq<Command>, quoteId: Id)
    ensures !Stranded(Run(Copying, cs), quoteId)
  {
    if cs == [] {
    } else {
      var front := cs[..|cs| - 1];
      RowsStrandNothing(front, quoteId);
      A.RunsAreSafe(Copying, front);
      A.StepStrands(Run(Copying, front), cs[|cs| - 1], quoteId);
    }
  }

  ghost predicate EveryApprovedIsPaid(s: Store) {
    forall q :: Approves(s, q) ==> !Stranded(s, q)
  }

  /** Every approved quote has a payment exactly when rows are stored or no approval of a
      created quote met a failing gateway. */
  lemma ApprovedQuotesArePaid(mode: Mode, cs: seq<Command>)
    ensures var s := Run(mode, cs);
            EveryApprovedIsPaid(s) <==> mode.Copying? || A.GatewayFailsNowhere(cs)
  {
    forall q ensures !Stranded(Run(Copying, cs), q) { RowsStrandNothing(cs, q); }
    if mode.Aliasing? {
      if A.GatewayFailsNowhere(cs) {
        A.RepositoriesAgreeExactly(cs);
      } else {
        var q := A.FailureDiverges(cs);
        assert Approves(Run(mode, cs), q);
      }
    }
  }

  /** Over either kind of repository every payment belongs to an approved quote of its own,
      with equal order and total. */
  lemma PaymentsAreBacked(mode: Mode, cs: seq<Command>)
    ensures var s := Run(mode, cs);
            && (forall p :: p in s.payments ==>
                  && Approves(s, s.payments[p].quoteId)
                  && s.payments[p].total == s.quotes[s.payments[p].quoteId].total
                  && s.payments[p].serviceOrderId == s.quotes[s.payments[p].quoteId].serviceOrderId)
            && OnePaymentPerQuote(s)
  {
    var s := Run(mode, cs);
    A.RunsAreSafe(mode, cs);
    forall p | p in s.payments
      ensures Approves(s, s.payments[p].quoteId)
              && s.payments[p].total == s.quotes[s.payments[p].quoteId].total
              && s.payments[p].serviceOrderId == s.quotes[s.payments[p].quoteId].serviceOrderId
    {
      assert KnownPayment(s, p);
    }
  }

  lemma {:induction false} NoneStranded(s: Store, currency: string, n: nat)
    requires EveryApprovedIsPaid(s)
    ensures StrandedTotal(s, currency, n) == 0.0
  {
    if n == 0 {
    } else {
      NoneStranded(s, currency, n - 1);
      assert Approves(s, Uuid(n - 1)) ==> !Stranded(s, Uuid(n - 1));
    }
  }

  lemma {:induction false} StatusesPartition(s: Store, currency: string, n: nat)
    requires Safe(s)
    ensures PaymentTotal(s, currency, n) ==
            StatusTotal(s, Pending, currency, n) + StatusTotal(s, Confirmed, currency, n)
            + StatusTotal(s, Failed, currency, n)
  {
    if n == 0 {
    } else {
      StatusesPartition(s, currency, n - 1);
      if Uuid(n - 1) in s.payments { assert KnownPayment(s, Uuid(n - 1)); }
    }
  }

  /** Every uninterrupted run, over either kind of repository, in each currency: the pending,
      confirmed and failed payments and the stranded quotes add up to the approved quotes;
      nothing is stranded over rows, or while the gateway answers. */
  lemma PaymentsAddUpToApprovedQuotes(mode: Mode, cs: seq<Command>, currency: string)
    ensures var s := Run(mode, cs);
            && ApprovedTotal(s, currency, s.next) ==
               StatusTotal(s, Pending, currency, s.next) + StatusTotal(s, Confirmed, currency, s.next)
               + StatusTotal(s, Failed, currency, s.next) + StrandedTotal(s, currency, s.next)
            && (mode.Copying? || A.GatewayFailsNowhere(cs) ==> StrandedTotal(s, currency, s.next) == 0.0)
  {
    var s := Run(mode, cs);
    RunsBalance(mode, cs, currency);
    A.RunsAreSafe(mode, cs);
    StatusesPartition(s, currency, s.next);
    ApprovedQuotesArePaid(mode, cs);
    if mode.Copying? || A.GatewayFailsNowhere(cs) {
      NoneStranded(s, currency, s.next);
    }
  }
}
