/** The payment gateway: what the adapter makes of whatever the provider replies. */
module Gateway {
  import opened Wrappers
  import opened PyText
  import opened Words
  import opened Decimals
  import opened Billing

  // ----- Checkout preferences -----

  /** A reply to "create preference". The id is taken after `str(...)`, "" when it is absent.
      An URL is "" when it is absent or falsy, and `str(...)` of the value otherwise, which is
      never empty for a decoded JSON value. */
  datatype PreferenceReply =
    | PreferenceRefused(statusCode: int)
    | PreferenceResponse(id: string, initPoint: string, sandboxInitPoint: string)

  /** A created preference always refers to the service order it was asked for. */
  function CreateCheckoutPreference(reply: PreferenceReply, serviceOrderId: string)
    : (r: Result<Preference, Error>)
    ensures r.Ok? ==> r.value.externalReference == Some(serviceOrderId)
    ensures r.Ok? ==> r.value.preferenceId != "" && r.value.checkoutUrl != ""
  {
    match reply
    case PreferenceRefused(code) => Err(GatewayError(code))
    case PreferenceResponse(id, initPoint, sandbox) =>
      var url := if initPoint != "" then initPoint else sandbox;
      if Strip(id) == "" then Err(PreferenceWithoutId)
      else if url == "" then Err(PreferenceWithoutUrl)
      else Ok(Preference(Strip(id), url, Some(serviceOrderId)))
  }

  /** What a preference says: the trimmed id of the reply, the production address if there is
      one and the sandbox address otherwise. */
  lemma PreferenceOutcome(reply: PreferenceReply, serviceOrderId: string)
    ensures var made := CreateCheckoutPreference(reply, serviceOrderId);
            match reply
            case PreferenceRefused(code) => made == Err(GatewayError(code))
            case PreferenceResponse(id, initPoint, sandbox) =>
              if !HasText(id) then made == Err(PreferenceWithoutId)
              else if initPoint == "" && sandbox == "" then made == Err(PreferenceWithoutUrl)
              else
                && made.Ok? && Trims(id, made.value.preferenceId)
                && made.value.externalReference == Some(serviceOrderId)
                && (initPoint != "" ==> made.value.checkoutUrl == initPoint)
                && (initPoint == "" ==> made.value.checkoutUrl == sandbox)
  {
    if reply.PreferenceResponse? {
      BlankHasNoText(reply.id);
      StripTrims(reply.id);
    }
  }

  // ----- Payment status search -----

  datatype AmountField = AmountAbsent | AmountGarbled | AmountNotFinite | Amount(value: Decimal)

  datatype ProviderItem =
    | NotAnObject
    | Record(externalReference: string, amount: AmountField, currency: string,
             id: string, status: string, detail: Option<string>)

  datatype SearchReply =
    | SearchRefused(statusCode: int)
    | NotAList
    | Results(items: seq<ProviderItem>)

  datatype ProviderStatus = ProviderStatus(providerPaymentId: string, status: string,
                                           detail: Option<string>)

  predicate Refers(item: ProviderItem, reference: string) {
    item.Record? && item.externalReference == reference
  }

  function Matches(items: seq<ProviderItem>, reference: string): (r: seq<ProviderItem>)
    ensures forall m :: m in r ==> Refers(m, reference)
  {
    if items == [] then []
    else
      var last := items[|items| - 1];
      Matches(items[..|items| - 1], reference) + if Refers(last, reference) then [last] else []
  }

  predicate SameAmount(field: AmountField, amount: Decimal) {
    field.Amount? && Value(field.value) == Value(amount)
  }

  /** The checks on the one matching record. */
  function ReadRecord(record: ProviderItem, total: Money): Result<ProviderStatus, Error>
    requires record.Record?
  {
    if record.amount.AmountGarbled? then Err(AmountUnreadable)
    else if !SameAmount(record.amount, total.amount) then Err(GatewayError(409))
    else if record.currency != total.currency then Err(GatewayError(409))
    else if Strip(record.id) == "" || Strip(record.status) == "" then Err(GatewayError(502))
    else Ok(ProviderStatus(Strip(record.id), Strip(record.status), record.detail))
  }

  /** The reference to search by; a missing or empty one is an error. */
  function ReferenceOf(p: PaymentData): Option<string> {
    if p.preference.None? then None
    else
      var reference := p.preference.value.externalReference;
      if reference.Some? && reference.value == "" then None else reference
  }

  /** There must be exactly one match. */
  function ReadMatches(found: seq<ProviderItem>, total: Money): Result<ProviderStatus, Error>
    requires forall m :: m in found ==> m.Record?
  {
    if found == [] then Err(GatewayError(404))
    else if |found| > 1 then Err(GatewayError(409))
    else assert found[0] in found; ReadRecord(found[0], total)
  }

  function GetPaymentStatus(p: PaymentData, reply: SearchReply): Result<ProviderStatus, Error> {
    match ReferenceOf(p)
    case None => Err(GatewayError(422))
    case Some(reference) =>
      match reply
      case SearchRefused(code) => Err(GatewayError(code))
      case NotAList => Err(GatewayError(502))
      case Results(items) => ReadMatches(Matches(items, reference), p.total)
  }

  lemma {:induction false} MatchesCount(items: seq<ProviderItem>, reference: string, r: ProviderItem)
    ensures multiset(Matches(items, reference))[r] == if Refers(r, reference) then multiset(items)[r] else 0
  {
    if items == [] {
    } else {
      var front := items[..|items| - 1];
      assert items == front + [items[|items| - 1]];
      MatchesCount(front, reference, r);
    }
  }

  lemma SameElements<T>(a: seq<T>, b: seq<T>)
    requires multiset(a) == multiset(b)
    ensures |a| == |b|
    ensures forall m :: m in b ==> m in a
    ensures |a| == 1 ==> a[0] == b[0]
  {
    assert |a| == |multiset(a)| == |multiset(b)| == |b|;
    forall m | m in b ensures m in a {
      assert m in multiset(b);
    }
    if |a| == 1 {
      assert b[0] in a;
    }
  }

  lemma MatchesAgree(a: seq<ProviderItem>, b: seq<ProviderItem>, reference: string)
    requires forall r :: Refers(r, reference) ==> multiset(a)[r] == multiset(b)[r]
    ensures multiset(Matches(a, reference)) == multiset(Matches(b, reference))
  {
    forall r ensures multiset(Matches(a, reference))[r] == multiset(Matches(b, reference))[r] {
      MatchesCount(a, reference, r);
      MatchesCount(b, reference, r);
    }
  }

  /** The outcome, error kind included, depends only on how often each record with the
      payment's own reference occurs: neither the order of the reply nor records with
      other references matter. */
  lemma StatusIgnoresOrderAndStrangers(p: PaymentData, a: seq<ProviderItem>, b: seq<ProviderItem>)
    requires forall reference, r: ProviderItem ::
               SearchedBy(p, reference) && r.Record? && r.externalReference == reference ==>
                 multiset(a)[r] == multiset(b)[r]
    ensures GetPaymentStatus(p, Results(a)) == GetPaymentStatus(p, Results(b))
  {
    if ReferenceOf(p).Some? {
      var reference := ReferenceOf(p).value;
      assert SearchedBy(p, reference);
      MatchesAgree(a, b, reference);
      SameElements(Matches(a, reference), Matches(b, reference));
    }
  }

  /** The statuses the service accepts from the provider: exactly one record carries the
      payment's reference, and that record agrees on amount and currency. */
  lemma StatusIsSound(p: PaymentData, reply: SearchReply) returns (i: nat)
    requires GetPaymentStatus(p, reply).Ok?
    ensures exists reference :: SearchedBy(p, reference) && reply.Results? && SoleRecord(reply.items, reference, i)
    ensures Agrees(reply.items[i], p.total)
    ensures var found := GetPaymentStatus(p, reply).value;
            && Trims(reply.items[i].id, found.providerPaymentId) && Trims(reply.items[i].status, found.status)
            && found.detail == reply.items[i].detail
  {
    i := UniqueMatch(reply.items, ReferenceOf(p).value);
    var record := reply.items[i];
    assert SearchedBy(p, ReferenceOf(p).value) && SoleRecord(reply.items, ReferenceOf(p).value, i);
    AmountIsNumber(record.amount, p.total.amount);
    BlankHasNoText(record.id);
    BlankHasNoText(record.status);
    StripTrims(record.id);
    StripTrims(record.status);
  }

  /** The payment's preference refers to the text `reference`. */
  predicate SearchedBy(p: PaymentData, reference: string) {
    p.preference.Some? && p.preference.value.externalReference == Some(reference) && reference != ""
  }

  lemma AmountIsNumber(field: AmountField, amount: Decimal)
    ensures SameAmount(field, amount) <==> field.Amount? && SameNumber(field.value, amount)
  {
    if field.Amount? { SameNumberIsSameValue(field.value, amount); }
  }

  lemma {:induction false} UniqueMatch(items: seq<ProviderItem>, reference: string) returns (i: nat)
    requires |Matches(items, reference)| == 1
    ensures i < |items| && items[i] == Matches(items, reference)[0]
    ensures Refers(items[i], reference)
    ensures forall j :: 0 <= j < |items| && j != i ==> !Refers(items[j], reference)
  {
    var front, last := items[..|items| - 1], items[|items| - 1];
    if Refers(last, reference) {
      i := |items| - 1;
      NoMatches(front, reference);
    } else {
      i := UniqueMatch(front, reference);
    }
  }

  lemma {:induction false} NoMatches(items: seq<ProviderItem>, reference: string)
    requires Matches(items, reference) == []
    ensures forall j :: 0 <= j < |items| ==> !Refers(items[j], reference)
  {
    if items == [] {
    } else {
      NoMatches(items[..|items| - 1], reference);
    }
  }

  /** The record at `i` is the only one with the reference. */
  ghost predicate SoleRecord(items: seq<ProviderItem>, reference: string, i: nat) {
    && i < |items| && items[i].Record? && items[i].externalReference == reference
    && forall j :: 0 <= j < |items| && j != i ==> !(items[j].Record? && items[j].externalReference == reference)
  }

  /** A complete record for the amount, as a number, and the currency of the payment. */
  predicate Agrees(item: ProviderItem, total: Money) {
    && item.Record? && item.amount.Amount? && SameNumber(item.amount.value, total.amount)
    && item.currency == total.currency && HasText(item.id) && HasText(item.status)
  }

  lemma {:induction false} SoleRecordIsTheMatch(items: seq<ProviderItem>, reference: string, i: nat)
    requires SoleRecord(items, reference, i)
    ensures Matches(items, reference) == [items[i]]
  {
    var front := items[..|items| - 1];
    if i == |items| - 1 {
      NothingRefers(front, reference);
    } else {
      assert SoleRecord(front, reference, i);
      SoleRecordIsTheMatch(front, reference, i);
    }
  }

  lemma {:induction false} NothingRefers(items: seq<ProviderItem>, reference: string)
    requires forall j :: 0 <= j < |items| ==> !Refers(items[j], reference)
    ensures Matches(items, reference) == []
  {
    if items == [] {
    } else {
      NothingRefers(items[..|items| - 1], reference);
    }
  }

  lemma NothingFound(items: seq<ProviderItem>, reference: string)
    ensures Matches(items, reference) == [] <==>
            forall j :: 0 <= j < |items| ==> !(items[j].Record? && items[j].externalReference == reference)
  {
    if Matches(items, reference) == [] { NoMatches(items, reference); }
    if forall j :: 0 <= j < |items| ==> !Refers(items[j], reference) { NothingRefers(items, reference); }
  }

  lemma OneFound(items: seq<ProviderItem>, reference: string)
    ensures |Matches(items, reference)| == 1 <==> exists i: nat :: SoleRecord(items, reference, i)
  {
    if |Matches(items, reference)| == 1 {
      var i := UniqueMatch(items, reference);
      assert SoleRecord(items, reference, i);
    }
    if i: nat :| SoleRecord(items, reference, i) { SoleRecordIsTheMatch(items, reference, i); }
  }

  /** Every outcome of a search. It succeeds exactly when the payment has a reference, exactly
      one record has that reference, and that record is complete and agrees with the payment's
      total; every other case has its own error. */
  lemma SearchSucceedsExactly(p: PaymentData, reply: SearchReply, reference: string)
    ensures (forall r :: !SearchedBy(p, r)) ==> GetPaymentStatus(p, reply) == Err(GatewayError(422))
    ensures SearchedBy(p, reference) ==>
              match reply
              case SearchRefused(code) => GetPaymentStatus(p, reply) == Err(GatewayError(code))
              case NotAList => GetPaymentStatus(p, reply) == Err(GatewayError(502))
              case Results(items) =>
                var found := GetPaymentStatus(p, reply);
                && (found.Ok? <==> exists i: nat :: SoleRecord(items, reference, i) && Agrees(items[i], p.total))
                && (found == Err(GatewayError(404)) <==>
                      forall j :: 0 <= j < |items| ==> !(items[j].Record? && items[j].externalReference == reference))
                && (found == Err(GatewayError(502)) <==>
                      exists i: nat :: SoleRecord(items, reference, i) && Incomplete(items[i], p.total))
                && (found == Err(AmountUnreadable) <==>
                      exists i: nat :: SoleRecord(items, reference, i) && items[i].amount.AmountGarbled?)
                && (found.Err? ==>
                      found.error in {GatewayError(404), GatewayError(502), AmountUnreadable, GatewayError(409)})
  {
    if SearchedBy(p, reference) && reply.Results? {
      var items := reply.items;
      NothingFound(items, reference);
      OneFound(items, reference);
      if i: nat :| SoleRecord(items, reference, i) {
        SoleRecordIsTheMatch(items, reference, i);
        RecordOutcome(items[i], p.total);
        forall j: nat | SoleRecord(items, reference, j) ensures j == i {}
      }
      hide SameNumber, HasText, Matches, ReadRecord;
    } else if forall r :: !SearchedBy(p, r) {
      if ReferenceOf(p).Some? { assert SearchedBy(p, ReferenceOf(p).value); }
    }
  }

  /** The right amount and currency, but no id or no status. */
  predicate Incomplete(item: ProviderItem, total: Money) {
    && item.Record? && item.amount.Amount? && SameNumber(item.amount.value, total.amount)
    && item.currency == total.currency && !(HasText(item.id) && HasText(item.status))
  }

  lemma RecordOutcome(record: ProviderItem, total: Money)
    requires record.Record?
    ensures var r := ReadRecord(record, total);
            && (r.Ok? <==> Agrees(record, total))
            && (r == Err(GatewayError(502)) <==> Incomplete(record, total))
            && (r == Err(AmountUnreadable) <==> record.amount.AmountGarbled?)
            && (r.Err? ==> r.error in {GatewayError(502), AmountUnreadable, GatewayError(409)})
  {
    AmountIsNumber(record.amount, total.amount);
    BlankHasNoText(record.id);
    BlankHasNoText(record.status);
  }

  // ----- What a provider status means -----

  datatype StatusClass = ApprovedLike | RejectedLike | PendingLike | Unsupported

  function Classify(status: string): StatusClass {
    var normalized := Lower(Strip(status));
    if normalized in {"approved", "accredited"} then ApprovedLike
    else if normalized in {"rejected", "cancelled", "refunded", "charged_back", "expired", "failure"}
    then RejectedLike
    else if normalized in {"pending", "in_process"} then PendingLike
    else Unsupported
  }

  /** What the words mean, in any case and padding. */
  ghost predicate ApprovedWord(status: string) {
    Says(status, "approved") || Says(status, "accredited")
  }

  ghost predicate RejectedWord(status: string) {
    || Says(status, "rejected") || Says(status, "cancelled") || Says(status, "refunded")
    || Says(status, "charged_back") || Says(status, "expired") || Says(status, "failure")
  }

  ghost predicate PendingWord(status: string) {
    Says(status, "pending") || Says(status, "in_process")
  }

  lemma ApprovedMeans(status: string)
    ensures Lower(Strip(status)) in {"approved", "accredited"} <==> ApprovedWord(status)
  {
    LowerStripSays(status, "approved");
    LowerStripSays(status, "accredited");
    hide Says, Lower, Strip;
  }

  lemma RejectedMeans(status: string)
    ensures Lower(Strip(status)) in {"rejected", "cancelled", "refunded", "charged_back", "expired", "failure"}
            <==> RejectedWord(status)
  {
    LowerStripSays(status, "rejected");
    LowerStripSays(status, "cancelled");
    LowerStripSays(status, "refunded");
    LowerStripSays(status, "charged_back");
    LowerStripSays(status, "expired");
    LowerStripSays(status, "failure");
    hide Says, Lower, Strip;
  }

  lemma PendingMeans(status: string)
    ensures Lower(Strip(status)) in {"pending", "in_process"} <==> PendingWord(status)
  {
    LowerStripSays(status, "pending");
    LowerStripSays(status, "in_process");
    hide Says, Lower, Strip;
  }

  lemma WordsAreDifferent(word: string)
    ensures word in {"approved", "accredited"} ==>
              word !in {"rejected", "cancelled", "refunded", "charged_back", "expired", "failure"}
              && word !in {"pending", "in_process"}
    ensures word in {"rejected", "cancelled", "refunded", "charged_back", "expired", "failure"} ==>
              word !in {"pending", "in_process"}
  {
  }

  lemma ClassifyMeans(status: string)
    ensures Classify(status).ApprovedLike? <==> ApprovedWord(status)
    ensures Classify(status).RejectedLike? <==> RejectedWord(status)
    ensures Classify(status).PendingLike? <==> PendingWord(status)
    ensures Classify(status).Unsupported? <==> !ApprovedWord(status) && !RejectedWord(status) && !PendingWord(status)
  {
    ApprovedMeans(status);
    RejectedMeans(status);
    PendingMeans(status);
    WordsAreDifferent(Lower(Strip(status)));
    hide ApprovedWord, RejectedWord, PendingWord, Lower, Strip;
  }
}
