/** The two kinds of repositories behind each port. In-memory ones keep and hand out the
    objects themselves; SQL ones keep encoded rows and build a new object on each read. */
module Repositories {
  import opened Wrappers
  import opened Billing
  import opened Tables
  import opened Rows
  import opened Entities
  import opened Saga

  /** Every write the service makes, in order, and the whole store right after each; exists for
      the proofs. */
  class Journal {
    ghost var writes: seq<Write>
    ghost var stages: seq<Store>

    constructor ()
      ensures writes == [] && stages == []
    {
      writes, stages := [], [];
    }
  }

  // ----- Rows -----

  /** One row per id, every row decodes, to something stored under that id. */
  ghost predicate ValidRows<R, D>(rows: Table<R>, decode: R -> Result<D, Error>, idOf: D -> Id) {
    UniqueIds(rows) && forall i :: 0 <= i < |rows| ==> DecodesTo(rows[i].value, rows[i].id, decode, idOf)
  }

  predicate DecodesTo<R, D>(row: R, id: Id, decode: R -> Result<D, Error>, idOf: D -> Id) {
    decode(row).Ok? && idOf(decode(row).value) == id
  }

  /** What the readable rows say. */
  ghost function RowsView<R, D>(rows: Table<R>, decode: R -> Result<D, Error>): map<Id, D> {
    map id | id in Ids(rows) && decode(Lookup(rows, id).value).Ok? :: decode(Lookup(rows, id).value).value
  }

  lemma UpsertRow<R, D>(rows: Table<R>, row: R, data: D, decode: R -> Result<D, Error>, idOf: D -> Id)
    requires ValidRows(rows, decode, idOf) && decode(row) == Ok(data)
    ensures var rows' := Upsert(rows, idOf(data), row);
            ValidRows(rows', decode, idOf) && RowsView(rows', decode) == RowsView(rows, decode)[idOf(data) := data]
  {
    UpsertKeeps(rows, idOf(data), row, (r: R, id: Id) => DecodesTo(r, id, decode, idOf));
    LookupsOfUpsert(rows, idOf(data), row);
  }

  lemma RowFound<R, D>(rows: Table<R>, p: nat, decode: R -> Result<D, Error>, idOf: D -> Id)
    requires ValidRows(rows, decode, idOf) && p < |rows|
    ensures DecodesTo(rows[p].value, rows[p].id, decode, idOf)
    ensures rows[p].id in RowsView(rows, decode) && RowsView(rows, decode)[rows[p].id] == decode(rows[p].value).value
  {
    PositionIs(rows, rows[p].id, p);
    assert rows[p].id in Ids(rows);
    assert DecodesTo(rows[p].value, rows[p].id, decode, idOf);
  }

  // ----- Quotes -----

  function QuoteKey(d: QuoteData): Id {
    d.quoteId
  }

  ghost predicate ValidQuotes(entries: Table<Quote>) {
    UniqueIds(entries) && forall i :: 0 <= i < |entries| ==> entries[i].value.quoteId == entries[i].id
  }

  ghost function QuotesView(entries: Table<Quote>): map<Id, QuoteData>
    reads Values(entries)
  {
    map id | id in Ids(entries) :: LookupIsValue(entries, id); Lookup(entries, id).value.Data()
  }

  lemma UpsertQuoteView(entries: Table<Quote>, quote: Quote)
    requires ValidQuotes(entries)
    ensures var entries' := Upsert(entries, quote.quoteId, quote);
            && ValidQuotes(entries')
            && QuotesView(entries') == QuotesView(entries)[quote.quoteId := quote.Data()]
            && Values(entries') <= Values(entries) + {quote} && quote in Values(entries')
  {
    UpsertKeeps(entries, quote.quoteId, quote, (o: Quote, id: Id) => o.quoteId == id);
    UpsertValues(entries, quote.quoteId, quote);
    LookupsOfUpsert(entries, quote.quoteId, quote);
    QuotesViewUpdate(entries, Upsert(entries, quote.quoteId, quote), quote);
  }

  lemma QuotesViewUpdate(before: Table<Quote>, after: Table<Quote>, quote: Quote)
    requires Ids(after) == Ids(before) + {quote.quoteId}
    requires forall x :: x in Ids(after) ==>
               Lookup(after, x) == if x == quote.quoteId then Some(quote) else Lookup(before, x)
    ensures QuotesView(after) == QuotesView(before)[quote.quoteId := quote.Data()]
  {
  }

  lemma QuoteIsLookedUp(entries: Table<Quote>, quote: Quote)
    requires ValidQuotes(entries) && quote in Values(entries)
    ensures quote.quoteId in Ids(entries) && Lookup(entries, quote.quoteId) == Some(quote)
  {
    var i :| 0 <= i < |entries| && entries[i].value == quote;
    PositionIs(entries, quote.quoteId, i);
    assert entries[i].id in Ids(entries);
  }

  /** Saving a held object again leaves the entries as they are; a new id goes last. */
  lemma SaveQuoteExtends(entries: Table<Quote>, quote: Quote)
    requires ValidQuotes(entries) && (quote in Values(entries) || quote.quoteId !in Ids(entries))
    ensures entries <= Upsert(entries, quote.quoteId, quote)
  {
    if quote in Values(entries) { QuoteIsLookedUp(entries, quote); }
    UpsertExtends(entries, quote.quoteId, quote);
  }

  /** The entry of the order that was inserted first. */
  function FirstQuoteOf(entries: Table<Quote>, serviceOrderId: string): (r: Option<Quote>)
    ensures r.Some? ==> r.value in Values(entries) && r.value.serviceOrderId == serviceOrderId
  {
    var p := FirstMatch(entries, (quote: Quote) => quote.serviceOrderId == serviceOrderId);
    if p < |entries| then Some(entries[p].value) else None
  }

  lemma FirstQuoteStays(entries: Table<Quote>, longer: Table<Quote>, serviceOrderId: string)
    requires entries <= longer && FirstQuoteOf(entries, serviceOrderId).Some?
    ensures FirstQuoteOf(longer, serviceOrderId) == FirstQuoteOf(entries, serviceOrderId)
  {
    FirstMatchStays(entries, longer, (quote: Quote) => quote.serviceOrderId == serviceOrderId);
  }

  class InMemoryQuoteRepository {
    var entries: Table<Quote>
    ghost const journal: Journal

    ghost function Objects(): set<Quote>
      reads this
    {
      Values(entries)
    }

    /** Each object is stored once, under its own id. */
    ghost predicate Valid()
      reads this
    {
      ValidQuotes(entries)
    }

    ghost function View(): map<Id, QuoteData>
      reads this, Objects()
    {
      QuotesView(entries)
    }

    constructor (journal: Journal)
      ensures Valid() && View() == map[] && Objects() == {} && this.journal == journal
    {
      entries := [];
      this.journal := journal;
    }

    /** `dict` assignment: a new id goes last, a known id keeps its place. */
    method Save(quote: Quote)
      requires Valid()
      modifies this, journal`writes
      ensures Valid() && entries == Upsert(old(entries), quote.quoteId, quote)
      ensures View() == old(View())[quote.quoteId := quote.Data()]
      ensures Objects() <= old(Objects()) + {quote} && quote in Objects()
      ensures journal.writes == old(journal.writes) + [SaveQuote(quote.Data())]
    {
      hide QuotesView, ValidQuotes, Values, Ids;
      UpsertQuoteView(entries, quote);
      var p := Position(entries, quote.quoteId);
      if p < |entries| {
        entries := entries[p := Entry(quote.quoteId, quote)];
      } else {
        entries := entries + [Entry(quote.quoteId, quote)];
      }
      journal.writes := journal.writes + [SaveQuote(quote.Data())];
    }

    method Get(id: Id) returns (r: Result<Quote, Error>)
      requires Valid()
      ensures id !in View() ==> r == Err(QuoteNotFound(id))
      ensures id in View() ==> r.Ok? && r.value in Objects() && r.value.quoteId == id && r.value.Data() == View()[id]
    {
      var p := Position(entries, id);
      if p < |entries| {
        assert entries[p].id in Ids(entries);
        return Ok(entries[p].value);
      }
      return Err(QuoteNotFound(id));
    }

    /** The first entry of the order, in insertion order. */
    method GetByServiceOrderId(serviceOrderId: string) returns (r: Option<Quote>)
      requires Valid()
      ensures r == FirstQuoteOf(entries, serviceOrderId)
      ensures r.None? ==> forall j :: 0 <= j < |entries| ==> entries[j].value.serviceOrderId != serviceOrderId
      ensures r.Some? ==> exists i :: 0 <= i < |entries| && entries[i].value == r.value
                                      && forall j :: 0 <= j < i ==> entries[j].value.serviceOrderId != serviceOrderId
      ensures r.Some? ==> r.value.quoteId in View() && r.value.Data() == View()[r.value.quoteId]
    {
      ghost var wanted := (quote: Quote) => quote.serviceOrderId == serviceOrderId;
      var i := 0;
      while i < |entries|
        invariant i <= |entries|
        invariant forall j :: 0 <= j < i ==> entries[j].value.serviceOrderId != serviceOrderId
      {
        if entries[i].value.serviceOrderId == serviceOrderId {
          FirstMatchIs(entries, wanted, i);
          QuoteIsLookedUp(entries, entries[i].value);
          return Some(entries[i].value);
        }
        i := i + 1;
      }
      assert FirstMatch(entries, wanted) == |entries|;
      return None;
    }
  }

  class SqlQuoteRepository {
    var rows: Table<QuoteRow>
    ghost const journal: Journal

    ghost predicate Valid()
      reads this
    {
      ValidRows(rows, DecodeQuote, QuoteKey)
    }

    ghost function View(): map<Id, QuoteData>
      reads this
    {
      RowsView(rows, DecodeQuote)
    }

    constructor (journal: Journal)
      ensures Valid() && View() == map[] && this.journal == journal
    {
      rows := [];
      this.journal := journal;
    }

    /** Update the row if the id exists, insert one otherwise. */
    method Save(quote: Quote)
      requires Valid()
      modifies this, journal`writes
      ensures Valid() && rows == Upsert(old(rows), quote.quoteId, EncodeQuote(quote.Data()))
      ensures View() == old(View())[quote.quoteId := quote.Data()]
      ensures journal.writes == old(journal.writes) + [SaveQuote(quote.Data())]
    {
      var row := EncodeQuote(QuoteData(quote.quoteId, quote.serviceOrderId, quote.items, quote.total, quote.status));
      QuoteRoundTrip(quote.Data());
      UpsertRow(rows, row, quote.Data(), DecodeQuote, QuoteKey);
      var p := Position(rows, quote.quoteId);
      if p < |rows| {
        rows := rows[p := Entry(quote.quoteId, row)];
      } else {
        rows := rows + [Entry(quote.quoteId, row)];
      }
      journal.writes := journal.writes + [SaveQuote(quote.Data())];
    }

    method Get(id: Id) returns (r: Result<Quote, Error>)
      requires Valid()
      ensures id !in View() ==> r == Err(QuoteNotFound(id))
      ensures id in View() ==> r.Ok? && fresh(r.value) && r.value.quoteId == id && r.value.Data() == View()[id]
    {
      var p := Position(rows, id);
      if p < |rows| {
        RowFound(rows, p, DecodeQuote, QuoteKey);
        var d := DecodeQuote(rows[p].value).value;
        var quote := new Quote(d.quoteId, d.serviceOrderId, d.items, d.total, d.status);
        return Ok(quote);
      }
      return Err(QuoteNotFound(id));
    }
  }

  /** The port the use cases are given. */
  datatype QuotePort = MemoryQuotes(memory: InMemoryQuoteRepository) | TableQuotes(table: SqlQuoteRepository)
  {
    ghost function Journal(): Journal {
      if MemoryQuotes? then memory.journal else table.journal
    }

    /** The repository itself, without the objects it may hold. */
    ghost function Repository(): object {
      if MemoryQuotes? then memory else table
    }

    /** The stored objects in insertion order; nothing when rows are stored. */
    ghost function Entries(): Table<Quote>
      reads Repository()
    {
      if MemoryQuotes? then memory.entries else []
    }

    ghost function Objects(): set<Quote>
      reads Repository()
    {
      if MemoryQuotes? then memory.Objects() else {}
    }

    ghost predicate Valid()
      reads Repository()
    {
      if MemoryQuotes? then memory.Valid() else table.Valid()
    }

    ghost function View(): map<Id, QuoteData>
      reads Repository(), Objects()
    {
      if MemoryQuotes? then memory.View() else table.View()
    }

    method Save(quote: Quote)
      requires Valid()
      modifies Repository(), Journal()`writes
      ensures old(quote in Objects() || quote.quoteId !in View()) ==> old(Entries()) <= Entries()
      ensures Valid() && View() == old(View())[quote.quoteId := quote.Data()]
      ensures Objects() <= old(Objects()) + {quote} && (MemoryQuotes? ==> quote in Objects())
      ensures Journal().writes == old(Journal().writes) + [SaveQuote(quote.Data())]
    {
      match this
      case MemoryQuotes(memory) =>
        if quote in Values(memory.entries) || quote.quoteId !in Ids(memory.entries) {
          SaveQuoteExtends(memory.entries, quote);
        }
        memory.Save(quote);
      case TableQuotes(table) => table.Save(quote);
    }

    method Get(id: Id) returns (r: Result<Quote, Error>)
      requires Valid()
      ensures id !in View() ==> r == Err(QuoteNotFound(id))
      ensures id in View() ==> r.Ok? && r.value.quoteId == id && r.value.Data() == View()[id]
      ensures r.Ok? && MemoryQuotes? ==> r.value in Objects()
      ensures r.Ok? && TableQuotes? ==> fresh(r.value)
    {
      match this
      case MemoryQuotes(memory) => r := memory.Get(id);
      case TableQuotes(table) => r := table.Get(id);
    }
  }

  /** A repository that is left alone, with all its objects, shows what it showed. */
  twostate lemma QuotesUntouched(port: QuotePort)
    requires unchanged(port.Repository())
    requires forall o :: o in old(port.Objects()) ==> unchanged(o)
    ensures port.Objects() == old(port.Objects())
    ensures port.Valid() == old(port.Valid())
    ensures port.View() == old(port.View())
  {
    if port.MemoryQuotes? {
      forall id | id in Ids(port.memory.entries)
        ensures Lookup(port.memory.entries, id).value in port.Objects()
      {
        LookupIsValue(port.memory.entries, id);
      }
    }
  }

  twostate lemma QuotesViewTouched(entries: Table<Quote>, new quote: Quote)
    requires ValidQuotes(entries)
    requires forall o :: o in Values(entries) - {quote} ==> unchanged(o)
    ensures QuotesView(entries) ==
            if quote in Values(entries) then old(QuotesView(entries))[quote.quoteId := quote.Data()]
            else old(QuotesView(entries))
  {
    if quote in Values(entries) {
      QuoteIsLookedUp(entries, quote);
    }
    forall id | id in Ids(entries)
      ensures var o := Lookup(entries, id).value;
              if id == quote.quoteId && quote in Values(entries) then o == quote
              else o in Values(entries) - {quote} && o.Data() == old(o.Data())
    {
      LookupIsValue(entries, id);
      var o := Lookup(entries, id).value;
      if o != quote { assert o in Values(entries) - {quote}; }
    }
  }

  /** Changing one object shows in the repository exactly when the repository holds it. */
  twostate lemma QuoteTouched(port: QuotePort, new quote: Quote)
    requires unchanged(port.Repository())
    requires forall o :: o in old(port.Objects()) - {quote} ==> unchanged(o)
    ensures port.Objects() == old(port.Objects()) && port.Valid() == old(port.Valid())
    ensures old(port.Valid()) ==>
              port.View() ==
              if quote in port.Objects() then old(port.View())[quote.quoteId := quote.Data()] else old(port.View())
  {
    hide QuotesView, ValidQuotes;
    if port.MemoryQuotes? && port.Valid() {
      forall o | o in Values(port.memory.entries) - {quote} ensures unchanged(o) {
        assert o in old(port.Objects()) - {quote};
      }
      QuotesViewTouched(port.memory.entries, quote);
    }
  }

  // ----- Payments -----

  function PaymentKey(d: PaymentData): Id {
    d.paymentId
  }

  ghost predicate ValidPayments(entries: Table<Payment>) {
    UniqueIds(entries) && forall i :: 0 <= i < |entries| ==> entries[i].value.paymentId == entries[i].id
  }

  ghost function PaymentsView(entries: Table<Payment>): map<Id, PaymentData>
    reads Values(entries)
  {
    map id | id in Ids(entries) :: LookupIsValue(entries, id); Lookup(entries, id).value.Data()
  }

  lemma UpsertPaymentView(entries: Table<Payment>, payment: Payment)
    requires ValidPayments(entries)
    ensures var entries' := Upsert(entries, payment.paymentId, payment);
            && ValidPayments(entries')
            && PaymentsView(entries') == PaymentsView(entries)[payment.paymentId := payment.Data()]
            && Values(entries') <= Values(entries) + {payment} && payment in Values(entries')
  {
    UpsertKeeps(entries, payment.paymentId, payment, (o: Payment, id: Id) => o.paymentId == id);
    UpsertValues(entries, payment.paymentId, payment);
    LookupsOfUpsert(entries, payment.paymentId, payment);
    PaymentsViewUpdate(entries, Upsert(entries, payment.paymentId, payment), payment);
  }

  lemma PaymentsViewUpdate(before: Table<Payment>, after: Table<Payment>, payment: Payment)
    requires Ids(after) == Ids(before) + {payment.paymentId}
    requires forall x :: x in Ids(after) ==>
               Lookup(after, x) == if x == payment.paymentId then Some(payment) else Lookup(before, x)
    ensures PaymentsView(after) == PaymentsView(before)[payment.paymentId := payment.Data()]
  {
  }

  lemma PaymentIsLookedUp(entries: Table<Payment>, payment: Payment)
    requires ValidPayments(entries) && payment in Values(entries)
    ensures payment.paymentId in Ids(entries) && Lookup(entries, payment.paymentId) == Some(payment)
  {
    var i :| 0 <= i < |entries| && entries[i].value == payment;
    PositionIs(entries, payment.paymentId, i);
    assert entries[i].id in Ids(entries);
  }

  /** Saving a held object again leaves the entries as they are; a new id goes last. */
  lemma SavePaymentExtends(entries: Table<Payment>, payment: Payment)
    requires ValidPayments(entries) && (payment in Values(entries) || payment.paymentId !in Ids(entries))
    ensures entries <= Upsert(entries, payment.paymentId, payment)
  {
    if payment in Values(entries) { PaymentIsLookedUp(entries, payment); }
    UpsertExtends(entries, payment.paymentId, payment);
  }

  /** The entry of the order that was inserted first. */
  function FirstPaymentOf(entries: Table<Payment>, serviceOrderId: string): (r: Option<Payment>)
    ensures r.Some? ==> r.value in Values(entries) && r.value.serviceOrderId == serviceOrderId
  {
    var p := FirstMatch(entries, (payment: Payment) => payment.serviceOrderId == serviceOrderId);
    if p < |entries| then Some(entries[p].value) else None
  }

  lemma FirstPaymentStays(entries: Table<Payment>, longer: Table<Payment>, serviceOrderId: string)
    requires entries <= longer && FirstPaymentOf(entries, serviceOrderId).Some?
    ensures FirstPaymentOf(longer, serviceOrderId) == FirstPaymentOf(entries, serviceOrderId)
  {
    FirstMatchStays(entries, longer, (payment: Payment) => payment.serviceOrderId == serviceOrderId);
  }

  class InMemoryPaymentRepository {
    var entries: Table<Payment>
    ghost const journal: Journal

    ghost function Objects(): set<Payment>
      reads this
    {
      Values(entries)
    }

    /** Each object is stored once, under its own id. */
    ghost predicate Valid()
      reads this
    {
      ValidPayments(entries)
    }

    ghost function View(): map<Id, PaymentData>
      reads this, Objects()
    {
      PaymentsView(entries)
    }

    constructor (journal: Journal)
      ensures Valid() && View() == map[] && Objects() == {} && this.journal == journal
    {
      entries := [];
      this.journal := journal;
    }

    /** `dict` assignment: a new id goes last, a known id keeps its place. */
    method Save(payment: Payment)
      requires Valid()
      modifies this, journal`writes
      ensures Valid() && entries == Upsert(old(entries), payment.paymentId, payment)
      ensures View() == old(View())[payment.paymentId := payment.Data()]
      ensures Objects() <= old(Objects()) + {payment} && payment in Objects()
      ensures journal.writes == old(journal.writes) + [SavePayment(payment.Data())]
    {
      hide PaymentsView, ValidPayments, Values, Ids;
      UpsertPaymentView(entries, payment);
      var p := Position(entries, payment.paymentId);
      if p < |entries| {
        entries := entries[p := Entry(payment.paymentId, payment)];
      } else {
        entries := entries + [Entry(payment.paymentId, payment)];
      }
      journal.writes := journal.writes + [SavePayment(payment.Data())];
    }

    method Get(id: Id) returns (r: Result<Payment, Error>)
      requires Valid()
      ensures id !in View() ==> r == Err(PaymentNotFound(id))
      ensures id in View() ==> r.Ok? && r.value in Objects() && r.value.paymentId == id && r.value.Data() == View()[id]
    {
      var p := Position(entries, id);
      if p < |entries| {
        assert entries[p].id in Ids(entries);
        return Ok(entries[p].value);
      }
      return Err(PaymentNotFound(id));
    }

    /** The first entry of the order, in insertion order. */
    method GetByServiceOrderId(serviceOrderId: string) returns (r: Option<Payment>)
      requires Valid()
      ensures r == FirstPaymentOf(entries, serviceOrderId)
      ensures r.None? ==> forall j :: 0 <= j < |entries| ==> entries[j].value.serviceOrderId != serviceOrderId
      ensures r.Some? ==> exists i :: 0 <= i < |entries| && entries[i].value == r.value
                                      && forall j :: 0 <= j < i ==> entries[j].value.serviceOrderId != serviceOrderId
      ensures r.Some? ==> r.value.paymentId in View() && r.value.Data() == View()[r.value.paymentId]
    {
      ghost var wanted := (payment: Payment) => payment.serviceOrderId == serviceOrderId;
      var i := 0;
      while i < |entries|
        invariant i <= |entries|
        invariant forall j :: 0 <= j < i ==> entries[j].value.serviceOrderId != serviceOrderId
      {
        if entries[i].value.serviceOrderId == serviceOrderId {
          FirstMatchIs(entries, wanted, i);
          PaymentIsLookedUp(entries, entries[i].value);
          return Some(entries[i].value);
        }
        i := i + 1;
      }
      assert FirstMatch(entries, wanted) == |entries|;
      return None;
    }
  }

  class SqlPaymentRepository {
    var rows: Table<PaymentRow>
    ghost const journal: Journal

    ghost predicate Valid()
      reads this
    {
      ValidRows(rows, DecodePayment, PaymentKey)
    }

    ghost function View(): map<Id, PaymentData>
      reads this
    {
      RowsView(rows, DecodePayment)
    }

    constructor (journal: Journal)
      ensures Valid() && View() == map[] && this.journal == journal
    {
      rows := [];
      this.journal := journal;
    }

    /** Update the row if the id exists, insert one otherwise. */
    method Save(payment: Payment)
      requires Valid()
      modifies this, journal`writes
      ensures Valid() && rows == Upsert(old(rows), payment.paymentId, EncodePayment(payment.Data()))
      ensures View() == old(View())[payment.paymentId := payment.Data()]
      ensures journal.writes == old(journal.writes) + [SavePayment(payment.Data())]
    {
      var row := EncodePayment(payment.Data());
      PaymentRoundTrip(payment.Data());
      UpsertRow(rows, row, payment.Data(), DecodePayment, PaymentKey);
      var p := Position(rows, payment.paymentId);
      if p < |rows| {
        rows := rows[p := Entry(payment.paymentId, row)];
      } else {
        rows := rows + [Entry(payment.paymentId, row)];
      }
      journal.writes := journal.writes + [SavePayment(payment.Data())];
    }

    method Get(id: Id) returns (r: Result<Payment, Error>)
      requires Valid()
      ensures id !in View() ==> r == Err(PaymentNotFound(id))
      ensures id in View() ==> r.Ok? && fresh(r.value) && r.value.paymentId == id && r.value.Data() == View()[id]
    {
      var p := Position(rows, id);
      if p < |rows| {
        RowFound(rows, p, DecodePayment, PaymentKey);
        var d := DecodePayment(rows[p].value).value;
        var payment := new Payment(d.paymentId, d.quoteId, d.serviceOrderId, d.total, d.status, d.preference);
        return Ok(payment);
      }
      return Err(PaymentNotFound(id));
    }
  }

  /** The port the use cases are given. */
  datatype PaymentPort = MemoryPayments(memory: InMemoryPaymentRepository) | TablePayments(table: SqlPaymentRepository)
  {
    ghost function Journal(): Journal {
      if MemoryPayments? then memory.journal else table.journal
    }

    /** The repository itself, without the objects it may hold. */
    ghost function Repository(): object {
      if MemoryPayments? then memory else table
    }

    /** The stored objects in insertion order; nothing when rows are stored. */
    ghost function Entries(): Table<Payment>
      reads Repository()
    {
      if MemoryPayments? then memory.entries else []
    }

    ghost function Objects(): set<Payment>
      reads Repository()
    {
      if MemoryPayments? then memory.Objects() else {}
    }

    ghost predicate Valid()
      reads Repository()
    {
      if MemoryPayments? then memory.Valid() else table.Valid()
    }

    ghost function View(): map<Id, PaymentData>
      reads Repository(), Objects()
    {
      if MemoryPayments? then memory.View() else table.View()
    }

    method Save(payment: Payment)
      requires Valid()
      modifies Repository(), Journal()`writes
      ensures old(payment in Objects() || payment.paymentId !in View()) ==> old(Entries()) <= Entries()
      ensures Valid() && View() == old(View())[payment.paymentId := payment.Data()]
      ensures Objects() <= old(Objects()) + {payment} && (MemoryPayments? ==> payment in Objects())
      ensures Journal().writes == old(Journal().writes) + [SavePayment(payment.Data())]
    {
      match this
      case MemoryPayments(memory) =>
        if payment in Values(memory.entries) || payment.paymentId !in Ids(memory.entries) {
          SavePaymentExtends(memory.entries, payment);
        }
        memory.Save(payment);
      case TablePayments(table) => table.Save(payment);
    }

    method Get(id: Id) returns (r: Result<Payment, Error>)
      requires Valid()
      ensures id !in View() ==> r == Err(PaymentNotFound(id))
      ensures id in View() ==> r.Ok? && r.value.paymentId == id && r.value.Data() == View()[id]
      ensures r.Ok? && MemoryPayments? ==> r.value in Objects()
      ensures r.Ok? && TablePayments? ==> fresh(r.value)
    {
      match this
      case MemoryPayments(memory) => r := memory.Get(id);
      case TablePayments(table) => r := table.Get(id);
    }
  }

  /** A repository that is left alone, with all its objects, shows what it showed. */
  twostate lemma PaymentsUntouched(port: PaymentPort)
    requires unchanged(port.Repository())
    requires forall o :: o in old(port.Objects()) ==> unchanged(o)
    ensures port.Objects() == old(port.Objects())
    ensures port.Valid() == old(port.Valid())
    ensures port.View() == old(port.View())
  {
    if port.MemoryPayments? {
      forall id | id in Ids(port.memory.entries)
        ensures Lookup(port.memory.entries, id).value in port.Objects()
      {
        LookupIsValue(port.memory.entries, id);
      }
    }
  }

  twostate lemma PaymentsViewTouched(entries: Table<Payment>, new payment: Payment)
    requires ValidPayments(entries)
    requires forall o :: o in Values(entries) - {payment} ==> unchanged(o)
    ensures PaymentsView(entries) ==
            if payment in Values(entries) then old(PaymentsView(entries))[payment.paymentId := payment.Data()]
            else old(PaymentsView(entries))
  {
    if payment in Values(entries) {
      PaymentIsLookedUp(entries, payment);
    }
    forall id | id in Ids(entries)
      ensures var o := Lookup(entries, id).value;
              if id == payment.paymentId && payment in Values(entries) then o == payment
              else o in Values(entries) - {payment} && o.Data() == old(o.Data())
    {
      LookupIsValue(entries, id);
      var o := Lookup(entries, id).value;
      if o != payment { assert o in Values(entries) - {payment}; }
    }
  }

  /** Changing one object shows in the repository exactly when the repository holds it. */
  twostate lemma PaymentTouched(port: PaymentPort, new payment: Payment)
    requires unchanged(port.Repository())
    requires forall o :: o in old(port.Objects()) - {payment} ==> unchanged(o)
    ensures port.Objects() == old(port.Objects()) && port.Valid() == old(port.Valid())
    ensures old(port.Valid()) ==>
              port.View() ==
              if payment in port.Objects() then old(port.View())[payment.paymentId := payment.Data()]
              else old(port.View())
  {
    hide PaymentsView, ValidPayments;
    if port.MemoryPayments? && port.Valid() {
      forall o | o in Values(port.memory.entries) - {payment} ensures unchanged(o) {
        assert o in old(port.Objects()) - {payment};
      }
      PaymentsViewTouched(port.memory.entries, payment);
    }
  }
}
