/** In-memory repositories hand out the stored object; SQL repositories hand out copies.
    When can a client tell the two services apart? */
module Aliasing {
  import opened Wrappers
  import opened PyText
  import opened Decimals
  import opened Billing
  import opened Gateway
  import opened Saga
  import opened CrashSafety
  import opened Stranding

  /** An approval of a created quote whose gateway call raises. */
  predicate GatewayFails(s: Store, c: Command) {
    && c.ApproveQuote?
    && c.quoteId in s.quotes
    && s.quotes[c.quoteId].status.Created?
    && CreateCheckoutPreference(c.preferenceReply, s.quotes[c.quoteId].serviceOrderId).Err?
  }

  lemma CompletionIsLastPrefix(s: Store, c: Command)
    ensures Exec(Copying, s, c) == Crash(s, c, |PlanOf(s, c).writes|)
  {
    var ws := PlanOf(s, c).writes;
    assert ws[..|ws|] == ws;
  }

  lemma TouchByKind(s: Store, plan: Plan)
    requires Keyed(s) && KnownKind(s, plan) && plan.writes != []
    ensures var t := Draw(s, plan);
            && (plan.writes[0].SavePayment? ==>
                  PerformAll(Draw(Perform(s, plan.writes[0]), plan), plan.writes) == PerformAll(t, plan.writes))
            && (Approving(s, plan.writes) ==>
                  PerformAll(Draw(Perform(s, plan.writes[0]), plan), plan.writes) == PerformAll(t, plan.writes))
  {
    var ws, t := plan.writes, Draw(s, plan);
    var touched := Draw(Perform(s, ws[0]), plan);
    if Approving(s, ws) {
      ApprovingEffect(s, t, ws);
      ApprovingEffect(s, touched, ws);
    } else if Settling(s, ws) {
      SettlingEffect(s, t, ws);
      SettlingEffect(s, touched, ws);
    } else if Resaving(s, ws) {
      assert touched.payments == s.payments;
      assert touched == t;
    }
  }

  /** In one step the repositories differ only when the gateway fails: the stored quote
      has then been approved in place, and nothing undoes it. */
  lemma AliasingStep(s: Store, c: Command)
    requires Keyed(s)
    ensures Exec(Aliasing, s, c) ==
            if GatewayFails(s, c)
            then Perform(Exec(Copying, s, c), SaveQuote(s.quotes[c.quoteId].(status := Approved)))
            else Exec(Copying, s, c)
  {
    KindOf(s, c);
    var plan := PlanOf(s, c);
    if plan.writes != [] {
      TouchByKind(s, plan);
    }
  }

  lemma StepKeepsSafe(mode: Mode, s: Store, c: Command)
    requires Safe(s)
    ensures Safe(Exec(mode, s, c))
  {
    SafeIsKeyed(s);
    CompletionIsLastPrefix(s, c);
    CrashKeepsSafe(s, c, |PlanOf(s, c).writes|);
    AliasingStep(s, c);
    if mode.Aliasing? && GatewayFails(s, c) {
      assert KnownQuote(s, c.quoteId);
      assert PlanOf(s, c).writes == [];
      AllowedKeepsSafe(Exec(Copying, s, c), SaveQuote(s.quotes[c.quoteId].(status := Approved)));
    }
  }

  /** Uninterrupted runs are safe over either kind of repository. */
  lemma {:induction false} RunsAreSafe(mode: Mode, cs: seq<Command>)
    ensures Safe(Run(mode, cs))
  {
    if cs == [] {
    } else {
      RunsAreSafe(mode, cs[..|cs| - 1]);
      StepKeepsSafe(mode, Run(mode, cs[..|cs| - 1]), cs[|cs| - 1]);
    }
  }

  lemma CopyingContinues(s: Store, c: Command)
    requires Safe(s)
    ensures Continues(s, Exec(Copying, s, c))
  {
    hide Safe, PlanOf;
    var plan := PlanOf(s, c);
    DrawKeepsSafe(s, plan);
    PlanIsAllowed(s, c);
    WritesContinue(Draw(s, plan), plan.writes, |plan.writes|);
    CompletionIsLastPrefix(s, c);
  }

  lemma StepContinues(mode: Mode, s: Store, c: Command)
    requires Safe(s)
    ensures Continues(s, Exec(mode, s, c))
  {
    var t := Exec(Copying, s, c);
    CopyingContinues(s, c);
    SafeIsKeyed(s);
    AliasingStep(s, c);
    if mode.Aliasing? && GatewayFails(s, c) {
      hide Safe;
      assert t.quotes[c.quoteId] == s.quotes[c.quoteId].(status := t.quotes[c.quoteId].status);
    }
  }

  /** In uninterrupted runs over either kind of repository nothing is deleted, and only
      statuses change. */
  lemma {:induction false} IdentitiesPersistInRuns(mode: Mode, earlier: seq<Command>, later: seq<Command>)
    ensures Continues(Run(mode, earlier), Run(mode, earlier + later))
  {
    var all := earlier + later;
    if later == [] {
      assert all == earlier;
    } else {
      var front := all[..|all| - 1];
      assert front == earlier + later[..|later| - 1];
      IdentitiesPersistInRuns(mode, earlier, later[..|later| - 1]);
      RunsAreSafe(mode, front);
      StepContinues(mode, Run(mode, front), all[|all| - 1]);
      ContinuesIsTransitive(Run(mode, earlier), Run(mode, front), Run(mode, all));
    }
  }

  /** Over rows, completed commands strand nothing; over objects, what is stranded
      stays stranded. */
  lemma StepStrands(s: Store, c: Command, quoteId: Id)
    requires Safe(s)
    ensures Stranded(Exec(Copying, s, c), quoteId) <==> Stranded(s, quoteId)
    ensures Stranded(s, quoteId) ==> Stranded(Exec(Aliasing, s, c), quoteId)
  {
    SafeIsKeyed(s);
    KindOf(s, c);
    CompletionIsLastPrefix(s, c);
    StrandedExactly(s, c, |PlanOf(s, c).writes|, quoteId);
    AliasingStep(s, c);
  }

  /** The results of the commands, in order. */
  function Answers(mode: Mode, cs: seq<Command>): seq<Result<Answer, Error>> {
    if cs == [] then []
    else
      var front := cs[..|cs| - 1];
      Answers(mode, front) + [PlanOf(Run(mode, front), cs[|cs| - 1]).answer]
  }

  predicate FailsAt(cs: seq<Command>, k: nat)
    requires k < |cs|
  {
    GatewayFails(Run(Copying, cs[..k]), cs[k])
  }

  ghost predicate GatewayFailsNowhere(cs: seq<Command>) {
    forall k :: 0 <= k < |cs| ==> !FailsAt(cs, k)
  }

  lemma FrontFailures(cs: seq<Command>)
    requires cs != []
    ensures GatewayFailsNowhere(cs) <==> GatewayFailsNowhere(cs[..|cs| - 1]) && !FailsAt(cs, |cs| - 1)
  {
    var front := cs[..|cs| - 1];
    forall k | 0 <= k < |front| ensures FailsAt(front, k) <==> FailsAt(cs, k) {
      assert front[..k] == cs[..k];
    }
  }

  lemma {:induction false} NoFailureNoDifference(cs: seq<Command>)
    requires GatewayFailsNowhere(cs)
    ensures Run(Aliasing, cs) == Run(Copying, cs)
    ensures Answers(Aliasing, cs) == Answers(Copying, cs)
  {
    if cs == [] {
    } else {
      var front := cs[..|cs| - 1];
      FrontFailures(cs);
      NoFailureNoDifference(front);
      RunsAreSafe(Copying, front);
      SafeIsKeyed(Run(Copying, front));
      AliasingStep(Run(Copying, front), cs[|cs| - 1]);
    }
  }

  /** One side has lost the quote's payment for good, the other has not. */
  ghost predicate Diverged(a: Store, c: Store, quoteId: Id) {
    Stranded(a, quoteId) && quoteId in c.quotes && !Stranded(c, quoteId)
  }

  lemma DivergenceStays(a: Store, c: Store, command: Command, quoteId: Id)
    requires Safe(a) && Safe(c) && Diverged(a, c, quoteId)
    ensures Diverged(Exec(Aliasing, a, command), Exec(Copying, c, command), quoteId)
  {
    StepStrands(a, command, quoteId);
    StepStrands(c, command, quoteId);
    QuotesStay(c, command, quoteId);
  }

  lemma {:induction false} FailureDiverges(cs: seq<Command>) returns (quoteId: Id)
    requires !GatewayFailsNowhere(cs)
    ensures Diverged(Run(Aliasing, cs), Run(Copying, cs), quoteId)
  {
    var front, last := cs[..|cs| - 1], cs[|cs| - 1];
    FrontFailures(cs);
    RunsAreSafe(Aliasing, front);
    RunsAreSafe(Copying, front);
    if GatewayFailsNowhere(front) {
      quoteId := last.quoteId;
      NoFailureNoDifference(front);
      GatewayFailureStrands(Run(Copying, front), last);
    } else {
      quoteId := FailureDiverges(front);
      DivergenceStays(Run(Aliasing, front), Run(Copying, front), last, quoteId);
    }
  }

  lemma QuotesStay(s: Store, c: Command, quoteId: Id)
    requires Safe(s) && quoteId in s.quotes
    ensures quoteId in Exec(Copying, s, c).quotes
  {
    var plan := PlanOf(s, c);
    QuotesOnlyGrow(Draw(s, plan), plan.writes);
  }

  lemma {:induction false} QuotesOnlyGrow(s: Store, ws: seq<Write>)
    ensures s.quotes.Keys <= PerformAll(s, ws).quotes.Keys
    decreases |ws|
  {
    if ws == [] {
    } else {
      QuotesOnlyGrow(Perform(s, ws[0]), ws[1..]);
    }
  }

  lemma GatewayFailureStrands(s: Store, c: Command)
    requires Safe(s) && GatewayFails(s, c)
    ensures Diverged(Exec(Aliasing, s, c), Exec(Copying, s, c), c.quoteId)
  {
    SafeIsKeyed(s);
    AliasingStep(s, c);
    assert PlanOf(s, c).writes == [];
    forall id | id in s.payments ensures s.payments[id].quoteId != c.quoteId {
      assert KnownPayment(s, id);
    }
  }

  /** For every sequence of commands, rejected ones included: the service over in-memory
      repositories ends with the same quotes, payments and history as the service over
      row-copying ones exactly when no approval of a created quote meets a failing
      gateway; in that case every result on the way is the same too. */
  lemma RepositoriesAgreeExactly(cs: seq<Command>)
    ensures Run(Aliasing, cs) == Run(Copying, cs) <==> GatewayFailsNowhere(cs)
    ensures GatewayFailsNowhere(cs) ==> Answers(Aliasing, cs) == Answers(Copying, cs)
  {
    if GatewayFailsNowhere(cs) {
      NoFailureNoDifference(cs);
    } else {
      var quoteId := FailureDiverges(cs);
    }
  }

  /** For instance: approving the first quote while the provider answers 502. */
  lemma RepositoriesCanDiffer()
    ensures var cs := [CreateQuote("so-1", ["inspection"], Decimal(false, 100, 0)),
                       ApproveQuote(Uuid(0), PreferenceRefused(502))];
            && Run(Aliasing, cs) != Run(Copying, cs)
            && Run(Copying, cs).quotes.Keys == {Uuid(0)} && Run(Copying, cs).quotes[Uuid(0)].status.Created?
  {
    var create := CreateQuote("so-1", ["inspection"], Decimal(false, 100, 0));
    var approve := ApproveQuote(Uuid(0), PreferenceRefused(502));
    var cs := [create, approve];
    FirstQuote("so-1", ["inspection"], Decimal(false, 100, 0));
    assert cs[..1] == [create];
    assert Run(Copying, cs) == Exec(Copying, Run(Copying, [create]), approve);
    assert FailsAt(cs, 1);
    RepositoriesAgreeExactly(cs);
  }

  lemma FirstQuote(serviceOrderId: string, items: seq<string>, amount: Decimal)
    requires serviceOrderId != "" && !IsSpace(serviceOrderId[0]) && items != [] && Positive(amount)
    ensures var s := Run(Copying, [CreateQuote(serviceOrderId, items, amount)]);
            && s.quotes.Keys == {Uuid(0)} && s.quotes[Uuid(0)].status.Created?
            && s.quotes[Uuid(0)].serviceOrderId == serviceOrderId && s.payments == map[] && s.next == 2
  {
    var c := CreateQuote(serviceOrderId, items, amount);
    assert [c][..0] == [];
    assert !IsSpace(DEFAULT_CURRENCY[0]);
    assert Run(Copying, [c]) == Exec(Copying, EMPTY, c);
    var ws := PlanOf(EMPTY, c).writes;
    PerformTwo(Draw(EMPTY, PlanOf(EMPTY, c)), ws[0], ws[1]);
  }
}
