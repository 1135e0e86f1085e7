/** Runs in which something is lost or counted twice, step by step. */
module Instances {
  import opened Wrappers
  import opened PyText
  import opened Decimals
  import opened Billing
  import opened Gateway
  import opened Saga
  import opened CrashSafety
  import opened Stranding
  import opened Lags
  import opened Settlement
  import A = Aliasing

  const CREATE := CreateQuote("so-1", ["inspection"], Decimal(false, 100, 0))
  const APPROVE := ApproveQuote(Uuid(0), PreferenceResponse("p", "u", ""))
  const FAIL := FailPayment(Uuid(3), "no funds")

  lemma AnswerIsGood(serviceOrderId: string)
    ensures CreateCheckoutPreference(APPROVE.preferenceReply, serviceOrderId)
            == Ok(Preference("p", "u", Some(serviceOrderId)))
  {
    StripOfStripped(IsSpace, "p");
  }

  lemma AfterCreate()
    ensures var s := Run(Copying, [CREATE]);
            && s.quotes.Keys == {Uuid(0)} && s.quotes[Uuid(0)].status.Created? && s.payments == map[] && s.next == 2
  {
    A.FirstQuote("so-1", ["inspection"], Decimal(false, 100, 0));
  }

  /** A quote is created, and its approval dies after its first save. */
  lemma CrashCanStrand()
    ensures Stranded(CrashRun([Attempt(CREATE, 2), Attempt(APPROVE, 1)]), Uuid(0))
  {
    var attempts := [Attempt(CREATE, 2), Attempt(APPROVE, 1)];
    var first := attempts[..1];
    assert first == [Attempt(CREATE, 2)] && first[..0] == [];
    AfterCreate();
    A.CompletionIsLastPrefix(EMPTY, CREATE);
    assert [CREATE][..0] == [];
    assert CrashRun(first) == Crash(EMPTY, CREATE, 2);
    assert |PlanOf(EMPTY, CREATE).writes| <= 2;
    assert CrashRun(first) == Run(Copying, [CREATE]);
    CrashRunsAreSafe(first);
    AnswerIsGood(CrashRun(first).quotes[Uuid(0)].serviceOrderId);
    StrandedExactly(CrashRun(first), APPROVE, 1, Uuid(0));
  }

  /** A quote is saved, and its creation dies before it is announced. */
  lemma CrashCanSilence()
    ensures QuoteLags(CrashRun([Attempt(CREATE, 1)]), Uuid(0))
  {
    var attempts := [Attempt(CREATE, 1)];
    assert attempts[..0] == [];
    assert !IsSpace("so-1"[0]) && !IsSpace(DEFAULT_CURRENCY[0]);
    CrashRunsAreSafe([]);
    LagsExactly(EMPTY, CREATE, 1, Uuid(0));
  }

  lemma AfterApprove()
    ensures var s := Run(Copying, [CREATE, APPROVE]);
            s.payments.Keys == {Uuid(3)} && s.payments[Uuid(3)].status.Pending?
  {
    var cs := [CREATE, APPROVE];
    assert cs[..1] == [CREATE];
    var s := Run(Copying, [CREATE]);
    AfterCreate();
    AnswerIsGood(s.quotes[Uuid(0)].serviceOrderId);
    var plan := PlanOf(s, APPROVE);
    var ws := plan.writes;
    assert ws == [ws[0], ws[1], ws[2], ws[3]];
    PerformFour(Draw(s, plan), ws[0], ws[1], ws[2], ws[3]);
  }

  lemma Failing(s: Store)
    requires Uuid(3) in s.payments && s.payments[Uuid(3)].paymentId == Uuid(3) && !s.payments[Uuid(3)].status.Confirmed?
    ensures var t := Exec(Copying, s, FAIL);
            t.payments == s.payments[Uuid(3) := s.payments[Uuid(3)].(status := Failed)]
  {
    var plan := PlanOf(s, FAIL);
    PerformTwo(Draw(s, plan), plan.writes[0], plan.writes[1]);
  }

  lemma StoresOfRun()
    ensures Run(Copying, [CREATE]).payments == map[]
    ensures var s := Run(Copying, [CREATE, APPROVE]);
            Uuid(3) in s.payments && s.payments[Uuid(3)].status.Pending?
    ensures var s := Run(Copying, [CREATE, APPROVE, FAIL]);
            Uuid(3) in s.payments && s.payments[Uuid(3)].status.Failed?
  {
    var two, three := [CREATE, APPROVE], [CREATE, APPROVE, FAIL];
    assert three[..2] == two;
    AfterCreate();
    AfterApprove();
    A.RunsAreSafe(Copying, two);
    assert KnownPayment(Run(Copying, two), Uuid(3));
    Failing(Run(Copying, two));
  }

  lemma RepeatsOf(cs: seq<Command>)
    requires cs != []
    ensures var front := cs[..|cs| - 1];
            Repeats(Copying, cs)
            == Repeats(Copying, front) + if RepeatsFailure(Run(Copying, front), cs[|cs| - 1]) then 1 else 0
  {
    ServiceRuns(Copying, cs[..|cs| - 1]);
  }

  /** A payment is failed by hand twice: the counter says two, and one payment has failed. */
  lemma FailedCanExceed()
    ensures var sv := ServeAll(Copying, [CREATE, APPROVE, FAIL, FAIL]);
            sv.failed == |PaymentsIn(sv.store, Failed)| + 1
  {
    var two, three, four := [CREATE, APPROVE], [CREATE, APPROVE, FAIL], [CREATE, APPROVE, FAIL, FAIL];
    assert four[..3] == three && three[..2] == two && two[..1] == [CREATE] && [CREATE][..0] == [];
    StoresOfRun();
    hide Exec, Serve, PlanOf, Safe, Run, ServeAll, Repeats;
    RepeatsOf([CREATE]);
    RepeatsOf(two);
    RepeatsOf(three);
    RepeatsOf(four);
    NoRepeats();
    CountersAgree(Copying, four);
  }

  lemma NoRepeats()
    ensures Repeats(Copying, []) == 0
  {
  }
}
