/** Quotes and payments as database rows: every column a text, some of them JSON. */
module Rows {
  import opened Wrappers
  import opened Decimals
  import opened Billing
  import J = Json

  /** `items` is a JSON array. */
  datatype QuoteRow = QuoteRow(quoteId: Id, serviceOrderId: string, items: string, amount: string,
                               currency: string, status: string)

  /** `preference` is a JSON object, or `null`. */
  datatype PaymentRow = PaymentRow(paymentId: Id, quoteId: Id, serviceOrderId: string, amount: string,
                                   currency: string, status: string, preference: string)

  function QuoteStatusText(s: QuoteStatus): string {
    match s
    case Created => "CREATED"
    case Approved => "APPROVED"
    case Cancelled => "CANCELLED"
  }

  function QuoteStatusOf(text: string): Result<QuoteStatus, Error> {
    if text == "CREATED" then Ok(Created)
    else if text == "APPROVED" then Ok(Approved)
    else if text == "CANCELLED" then Ok(Cancelled)
    else Err(BadRow)
  }

  function PaymentStatusText(s: PaymentStatus): string {
    match s
    case WaitingPreference => "WAITING_PREFERENCE"
    case Pending => "PENDING"
    case Confirmed => "CONFIRMED"
    case Failed => "FAILED"
  }

  function PaymentStatusOf(text: string): Result<PaymentStatus, Error> {
    if text == "WAITING_PREFERENCE" then Ok(WaitingPreference)
    else if text == "PENDING" then Ok(Pending)
    else if text == "CONFIRMED" then Ok(Confirmed)
    else if text == "FAILED" then Ok(Failed)
    else Err(BadRow)
  }

  /** `Money(Decimal(amount), currency)`: a stored amount must still be a valid one. */
  function MoneyOf(amount: string, currency: string): Result<Money, Error> {
    match FromText(amount)
    case None => Err(AmountUnreadable)
    case Some(d) => MakeMoney(d, currency)
  }

  // ----- JSON columns -----

  /** The text of a JSON text. */
  function TextOf(v: J.Json): Result<string, Error> {
    if v.Text? && J.FromPoints(v.points).Some? then Ok(J.FromPoints(v.points).value) else Err(BadRow)
  }

  function TextsOf(vs: seq<J.Json>): Result<seq<string>, Error> {
    if vs == [] then Ok([])
    else
      var first :- TextOf(vs[0]);
      var rest :- TextsOf(vs[1..]);
      Ok([first] + rest)
  }

  function EncodeItems(items: seq<string>): string {
    J.Dumps(J.AllPoints(items), J.Spaced)
  }

  function DecodeItems(column: string): Result<seq<string>, Error> {
    match J.Loads(column)
    case Some(Array(items)) => TextsOf(items)
    case _ => Err(BadRow)
  }

  /** The last member of a name, as in a Python dictionary. */
  function Member(members: seq<(J.Points, J.Json)>, name: string): Option<J.Json> {
    if members == [] then None
    else
      var last := members[|members| - 1];
      if last.0 == J.ToPoints(name) then Some(last.1) else Member(members[..|members| - 1], name)
  }

  function OptionalText(v: Option<J.Json>): Result<Option<string>, Error> {
    if v.None? || v.value.Null? then Ok(None)
    else
      var text :- TextOf(v.value);
      Ok(Some(text))
  }

  function RequiredText(v: Option<J.Json>): Result<string, Error> {
    if v.None? then Err(BadRow) else TextOf(v.value)
  }

  function PreferenceMembers(p: Preference): J.Members {
    [(J.ToPoints("preference_id"), Some(J.ToPoints(p.preferenceId))),
     (J.ToPoints("checkout_url"), Some(J.ToPoints(p.checkoutUrl))),
     (J.ToPoints("external_reference"),
      if p.externalReference.None? then None else Some(J.ToPoints(p.externalReference.value)))]
  }

  function EncodePreference(p: Option<Preference>): string {
    if p.None? then "null" else J.DumpObject(PreferenceMembers(p.value), J.Spaced)
  }

  function PreferenceOf(members: seq<(J.Points, J.Json)>): Result<Preference, Error> {
    var preferenceId :- RequiredText(Member(members, "preference_id"));
    var checkoutUrl :- RequiredText(Member(members, "checkout_url"));
    var externalReference :- OptionalText(Member(members, "external_reference"));
    Ok(Preference(preferenceId, checkoutUrl, externalReference))
  }

  function DecodePreference(column: string): Result<Option<Preference>, Error> {
    match J.Loads(column)
    case Some(Null) => Ok(None)
    case Some(Object(members)) =>
      var preference :- PreferenceOf(members);
      Ok(Some(preference))
    case _ => Err(BadRow)
  }

  // ----- Rows -----

  function EncodeQuote(q: QuoteData): QuoteRow {
    QuoteRow(q.quoteId, q.serviceOrderId, EncodeItems(q.items), ToText(q.total.amount), q.total.currency,
             QuoteStatusText(q.status))
  }

  function DecodeQuote(row: QuoteRow): Result<QuoteData, Error> {
    var items :- DecodeItems(row.items);
    var total :- MoneyOf(row.amount, row.currency);
    var status :- QuoteStatusOf(row.status);
    Ok(QuoteData(row.quoteId, row.serviceOrderId, items, total, status))
  }

  function EncodePayment(p: PaymentData): PaymentRow {
    PaymentRow(p.paymentId, p.quoteId, p.serviceOrderId, ToText(p.total.amount), p.total.currency,
               PaymentStatusText(p.status), EncodePreference(p.preference))
  }

  function DecodePayment(row: PaymentRow): Result<PaymentData, Error> {
    var preference :- DecodePreference(row.preference);
    var total :- MoneyOf(row.amount, row.currency);
    var status :- PaymentStatusOf(row.status);
    Ok(PaymentData(row.paymentId, row.quoteId, row.serviceOrderId, total, status, preference))
  }

  /** The columns of a row, as anyone reading the table finds them. */
  lemma RowsSpeakPlainly(q: QuoteData, p: PaymentData)
    ensures var row := EncodeQuote(q);
            && row.quoteId == q.quoteId && row.serviceOrderId == q.serviceOrderId && row.currency == q.total.currency
            && FromText(row.amount) == Some(q.total.amount)
            && (row.status == "CREATED" <==> q.status == Created)
            && (row.status == "APPROVED" <==> q.status == Approved)
            && (row.status == "CANCELLED" <==> q.status == Cancelled)
    ensures var row := EncodePayment(p);
            && row.paymentId == p.paymentId && row.quoteId == p.quoteId && row.serviceOrderId == p.serviceOrderId
            && row.currency == p.total.currency && FromText(row.amount) == Some(p.total.amount)
            && (row.status == "WAITING_PREFERENCE" <==> p.status == WaitingPreference)
            && (row.status == "PENDING" <==> p.status == Pending)
            && (row.status == "CONFIRMED" <==> p.status == Confirmed)
            && (row.status == "FAILED" <==> p.status == Failed)
    ensures EncodePayment(p.(preference := None)).preference == "null"
  {
    TextRoundTrip(q.total.amount);
    TextRoundTrip(p.total.amount);
    StatusTextsRoundTrip(q.status, p.status);
    StatusTextsRoundTrip(Created, WaitingPreference);
    StatusTextsRoundTrip(Approved, Pending);
    StatusTextsRoundTrip(Cancelled, Confirmed);
    StatusTextsRoundTrip(Cancelled, Failed);
    hide FromText, ToText, EncodeItems, QuoteStatusOf, PaymentStatusOf;
  }

  lemma NamesArePlain()
    ensures J.AllPlain(["preference_id", "checkout_url", "external_reference"])
  {
    assert J.NeedsNoEscape("preference_id") && J.NeedsNoEscape("checkout_url") && J.NeedsNoEscape("external_reference");
    hide J.NeedsNoEscape;
  }

  /** The two JSON columns of plain texts, as they are stored. */
  lemma ColumnsSpeakPlainly(items: seq<string>, p: Preference)
    requires J.AllPlain(items) && p.externalReference.Some?
    requires J.AllPlain([p.preferenceId, p.checkoutUrl, p.externalReference.value])
    ensures EncodeItems(items) == "[" + (J.Listed(items, ", ") + "]")
    ensures EncodePreference(Some(p))
            == "{" + (J.Quoted("preference_id") + (": " + (J.Quoted(p.preferenceId) + (", "
               + (J.Quoted("checkout_url") + (": " + (J.Quoted(p.checkoutUrl) + (", "
               + (J.Quoted("external_reference") + (": " + (J.Quoted(p.externalReference.value) + "}")))))))))))
  {
    J.PlainListsAreWrittenPlainly(items);
    var names := ["preference_id", "checkout_url", "external_reference"];
    NamesArePlain();
    hide J.DumpObject, J.Quoted, J.NeedsNoEscape, J.ToPoints, J.Dumps;
    J.PlainObjectIsWritten(names, [p.preferenceId, p.checkoutUrl, p.externalReference.value]);
  }

  lemma StatusTextsRoundTrip(q: QuoteStatus, p: PaymentStatus)
    ensures QuoteStatusOf(QuoteStatusText(q)) == Ok(q)
    ensures PaymentStatusOf(PaymentStatusText(p)) == Ok(p)
  {
  }

  lemma MoneyRoundTrip(m: Money)
    ensures MoneyOf(ToText(m.amount), m.currency) == Ok(m)
  {
    TextRoundTrip(m.amount);
  }

  lemma TextComesBack(text: string)
    ensures J.Join(J.ToPoints(text)) == J.ToPoints(text)
    ensures TextOf(J.Text(J.ToPoints(text))) == Ok(text)
  {
    J.FileTextIsJoined(text);
    J.JoinIsIdentity(J.ToPoints(text));
    J.FileTextRoundTrip(text);
  }

  lemma {:induction false} TextsComeBack(items: seq<string>)
    ensures TextsOf(J.Texts(J.AllPoints(items))) == Ok(items)
  {
    if items == [] {
    } else {
      var points, texts := J.AllPoints(items), J.Texts(J.AllPoints(items));
      TextComesBack(items[0]);
      TextsComeBack(items[1..]);
      assert points[1..] == J.AllPoints(items[1..]);
      assert texts[0] == J.Text(J.ToPoints(items[0])) && texts[1..] == J.Texts(points[1..]);
      assert items == [items[0]] + items[1..];
    }
  }

  /** The items column: printed with the default separators and read back. */
  lemma ItemsRoundTrip(items: seq<string>)
    ensures DecodeItems(EncodeItems(items)) == Ok(items)
  {
    J.DumpsReadsBack(J.AllPoints(items), J.Spaced);
    TextsComeBack(items);
  }

  lemma ThreeMembers(a: (J.Points, Option<J.Points>), b: (J.Points, Option<J.Points>), c: (J.Points, Option<J.Points>))
    ensures J.MembersOf([a, b, c])
            == [(J.Join(a.0), J.ScalarOf(a.1)), (J.Join(b.0), J.ScalarOf(b.1)), (J.Join(c.0), J.ScalarOf(c.1))]
  {
    var abc := [a, b, c];
    var bc := abc[1..];
    var last := bc[1..];
    assert last[1..] == [];
    assert J.MembersOf(last) == [(J.Join(c.0), J.ScalarOf(c.1))];
    assert J.MembersOf(bc) == [(J.Join(b.0), J.ScalarOf(b.1))] + J.MembersOf(last);
  }

  lemma MemberOfThree(names: seq<string>, values: seq<J.Json>)
    requires |names| == |values| == 3 && names[0] != names[1] && names[0] != names[2] && names[1] != names[2]
    ensures var ms := [(J.ToPoints(names[0]), values[0]), (J.ToPoints(names[1]), values[1]),
      (J.ToPoints(names[2]), values[2])];
            forall i :: 0 <= i < 3 ==> Member(ms, names[i]) == Some(values[i])
  {
    forall i, j | 0 <= i < 3 && 0 <= j < 3 && J.ToPoints(names[i]) == J.ToPoints(names[j])
      ensures names[i] == names[j]
    {
      J.FileTextRoundTrip(names[i]);
      J.FileTextRoundTrip(names[j]);
    }
    var ms := [(J.ToPoints(names[0]), values[0]), (J.ToPoints(names[1]), values[1]), (J.ToPoints(names[2]), values[2])];
    var two := ms[..2];
    var one := two[..1];
    assert two[1] == ms[1] && one[0] == ms[0];
    assert Member(one, names[0]) == Some(values[0]);
    assert Member(two, names[1]) == Some(values[1]) && Member(two, names[0]) == Some(values[0]);
  }

  lemma ScalarComesBack(v: Option<string>)
    ensures var scalar := J.ScalarOf(if v.None? then None else Some(J.ToPoints(v.value)));
            OptionalText(Some(scalar)) == Ok(v) && (v.Some? ==> TextOf(scalar) == Ok(v.value))
  {
    if v.Some? { TextComesBack(v.value); }
  }

  /** The preference column: an object with its three members, or `null`. */
  lemma PreferenceRoundTrip(p: Option<Preference>)
    ensures DecodePreference(EncodePreference(p)) == Ok(p)
  {
    hide J.Loads, J.DumpObject, J.MembersOf, PreferenceMembers, PreferenceOf;
    if p.None? {
      J.NullReadsBack();
    } else {
      var ms := PreferenceMembers(p.value);
      J.ObjectReadsBack(ms, J.Spaced);
      PreferenceComesBack(p.value);
    }
  }

  lemma PreferenceComesBack(p: Preference)
    ensures PreferenceOf(J.MembersOf(PreferenceMembers(p))) == Ok(p)
  {
    hide J.Join, J.FromPoints, J.ToPoints, TextOf;
    var ms := PreferenceMembers(p);
    var names := ["preference_id", "checkout_url", "external_reference"];
    ThreeMembers(ms[0], ms[1], ms[2]);
    TextComesBack(names[0]);
    TextComesBack(names[1]);
    TextComesBack(names[2]);
    ScalarComesBack(Some(p.preferenceId));
    ScalarComesBack(Some(p.checkoutUrl));
    ScalarComesBack(p.externalReference);
    assert |names[0]| != |names[1]| && |names[0]| != |names[2]| && |names[1]| != |names[2]|;
    MemberOfThree(names, [J.ScalarOf(ms[0].1), J.ScalarOf(ms[1].1), J.ScalarOf(ms[2].1)]);
  }

  /** Reading back a saved quote gives the same quote, items and amount digits and all. */
  lemma QuoteRoundTrip(q: QuoteData)
    ensures DecodeQuote(EncodeQuote(q)) == Ok(q)
  {
    hide DecodeItems, EncodeItems, MoneyOf, ToText;
    ItemsRoundTrip(q.items);
    MoneyRoundTrip(q.total);
    StatusTextsRoundTrip(q.status, Pending);
  }

  lemma DecodeFromParts(row: PaymentRow, total: Money, status: PaymentStatus, preference: Option<Preference>)
    requires MoneyOf(row.amount, row.currency) == Ok(total)
    requires PaymentStatusOf(row.status) == Ok(status)
    requires DecodePreference(row.preference) == Ok(preference)
    ensures DecodePayment(row)
            == Ok(PaymentData(row.paymentId, row.quoteId, row.serviceOrderId, total, status, preference))
  {
  }

  /** Reading back a saved payment gives the same payment, preference and all. */
  lemma PaymentRoundTrip(p: PaymentData)
    ensures DecodePayment(EncodePayment(p)) == Ok(p)
  {
    hide DecodePreference, EncodePreference, MoneyOf, ToText, PaymentStatusOf, PaymentStatusText;
    MoneyRoundTrip(p.total);
    StatusTextsRoundTrip(Created, p.status);
    PreferenceRoundTrip(p.preference);
    DecodeFromParts(EncodePayment(p), p.total, p.status, p.preference);
  }
}
