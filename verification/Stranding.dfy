/** What a crash, or a gateway failure over in-memory repositories, can lose for good. */
module Stranding {
  import opened Wrappers
  import opened Billing
  import opened Saga
  import opened CrashSafety

  ghost predicate Unpaid(s: Store, quoteId: Id) {
    forall id :: id in s.payments ==> s.payments[id].quoteId != quoteId
  }

  /** An approved quote without a payment: it can be neither approved again nor paid. */
  ghost predicate Stranded(s: Store, quoteId: Id) {
    quoteId in s.quotes && s.quotes[quoteId].status.Approved? && Unpaid(s, quoteId)
  }

  lemma {:induction false} ApprovingPrefix(s: Store, t: Store, ws: seq<Write>, k: nat)
    requires Approving(s, ws) && k <= |ws|
    ensures PerformAll(t, ws[..k]).quotes == (if k == 0 then t.quotes else t.quotes[ws[0].quote.quoteId := ws[0].quote])
    ensures PerformAll(t, ws[..k]).payments
            == (if k <= 1 then t.payments else t.payments[ws[1].payment.paymentId := ws[1].payment])
  {
    if k >= 1 {
      var t1, rest := Perform(t, ws[0]), ws[..k][1..];
      WritesAreLocal(t1, rest);
      if k >= 2 { WritesAreLocal(Perform(t1, ws[1]), rest[1..]); }
    }
  }

  lemma ApprovalStrands(s: Store, t: Store, ws: seq<Write>, k: nat, quoteId: Id)
    requires Safe(s) && t.quotes == s.quotes && t.payments == s.payments
    requires Approving(s, ws) && k <= |ws|
    ensures Stranded(PerformAll(t, ws[..k]), quoteId) <==>
            (if ws[0].quote.quoteId == quoteId then k == 1 else Stranded(s, quoteId))
  {
    hide PerformAll, Perform, Claim;
    var t', q, p := PerformAll(t, ws[..k]), ws[0].quote.quoteId, ws[1].payment.paymentId;
    DrawnIdsAreFresh(s);
    ApprovingPrefix(s, t, ws, k);
    forall id | id in s.payments
      ensures s.payments[id].quoteId != q && id in t'.payments && t'.payments[id] == s.payments[id]
    {
      assert KnownPayment(s, id);
    }
    if k >= 2 { assert p in t'.payments && t'.payments[p].quoteId == q; }
  }

  lemma OpeningStrands(s: Store, t: Store, ws: seq<Write>, k: nat, quoteId: Id)
    requires Safe(s) && t.quotes == s.quotes && t.payments == s.payments
    requires Opening(s, ws) && k <= |ws|
    ensures Stranded(PerformAll(t, ws[..k]), quoteId) <==> Stranded(s, quoteId)
  {
    DrawnIdsAreFresh(s);
    WritesAreLocal(t, ws[..k]);
    if k >= 1 { WritesAreLocal(Perform(t, ws[0]), ws[..k][1..]); }
  }

  lemma PaymentPrefix(t: Store, ws: seq<Write>, k: nat)
    requires ws != [] && ws[0].SavePayment? && (forall i :: 1 <= i < |ws| ==> ws[i].Publish?) && k <= |ws|
    ensures var t' := PerformAll(t, ws[..k]);
            && t'.quotes == t.quotes
            && t'.payments == (if k == 0 then t.payments else t.payments[ws[0].payment.paymentId := ws[0].payment])
  {
    if k >= 1 { WritesAreLocal(Perform(t, ws[0]), ws[..k][1..]); }
  }

  lemma PaymentStrands(s: Store, t: Store, ws: seq<Write>, k: nat, quoteId: Id)
    requires t.quotes == s.quotes && t.payments == s.payments
    requires (Resaving(s, ws) || Settling(s, ws)) && k <= |ws|
    ensures Stranded(PerformAll(t, ws[..k]), quoteId) <==> Stranded(s, quoteId)
  {
    var t' := PerformAll(t, ws[..k]);
    PaymentPrefix(t, ws, k);
    forall id ensures id in t'.payments <==> id in s.payments {}
    forall id | id in s.payments
      ensures id in t'.payments && t'.payments[id].quoteId == s.payments[id].quoteId {}
  }

  lemma PrefixStrands(s: Store, plan: Plan, k: nat, quoteId: Id)
    requires Safe(s) && KnownKind(s, plan) && k <= |plan.writes|
    ensures Stranded(PerformAll(Draw(s, plan), plan.writes[..k]), quoteId) <==>
            (if |plan.writes| == 4 && plan.writes[0].quote.quoteId == quoteId then k == 1 else Stranded(s, quoteId))
  {
    var ws, t := plan.writes, Draw(s, plan);
    if ws == [] {
      assert ws[..k] == [];
    } else if Opening(s, ws) {
      OpeningStrands(s, t, ws, k, quoteId);
    } else if Approving(s, ws) {
      ApprovalStrands(s, t, ws, k, quoteId);
    } else {
      PaymentStrands(s, t, ws, k, quoteId);
    }
  }

  lemma StrandedIsNotCreated(s: Store, plan: Plan, quoteId: Id)
    requires Safe(s) && KnownKind(s, plan) && Stranded(s, quoteId)
    ensures |plan.writes| == 4 ==> plan.writes[0].quote.quoteId != quoteId
  {
  }

  /** A quote is stranded by a crash exactly when an approval of it that would have
      succeeded dies after its first write; and once stranded it stays so for ever. */
  lemma StrandedExactly(s: Store, c: Command, k: nat, quoteId: Id)
    requires Safe(s)
    ensures Stranded(Crash(s, c, k), quoteId) <==>
            || Stranded(s, quoteId)
            || (c.ApproveQuote? && c.quoteId == quoteId && PlanOf(s, c).answer.Ok? && k == 1)
  {
    var plan := PlanOf(s, c);
    SafeIsKeyed(s);
    KindOf(s, c);
    PrefixStrands(s, plan, if k < |plan.writes| then k else |plan.writes|, quoteId);
    if Stranded(s, quoteId) { StrandedIsNotCreated(s, plan, quoteId); }
  }

  lemma {:induction false} StrandedForever(earlier: seq<Attempt>, later: seq<Attempt>, quoteId: Id)
    requires Stranded(CrashRun(earlier), quoteId)
    ensures Stranded(CrashRun(earlier + later), quoteId)
  {
    var all := earlier + later;
    if later != [] {
      var last := later[|later| - 1];
      assert all[..|all| - 1] == earlier + later[..|later| - 1];
      StrandedForever(earlier, later[..|later| - 1], quoteId);
      CrashRunsAreSafe(all[..|all| - 1]);
      StrandedExactly(CrashRun(all[..|all| - 1]), last.command, last.survived, quoteId);
    } else {
      assert all == earlier;
    }
  }
}
