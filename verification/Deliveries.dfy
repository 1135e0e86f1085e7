/** The queue worker: what a stream of deliveries does, and why the queue drains although
    the service's own events come back to it. */
module Deliveries {
  import opened Wrappers
  import opened Decimals
  import opened PyText
  import opened Billing
  import opened Saga
  import opened CrashSafety
  import A = Aliasing

  /** The payload's members besides the service order: identifiers and other texts. */
  function Members(e: Event): map<string, Id> {
    match e.kind
    case QuoteCreated => map["quote_id" := e.quoteId]
    case QuoteApproved => map["quote_id" := e.quoteId]
    case QuoteCancelled(why) => map["quote_id" := e.quoteId, "reason" := Given(why)]
    case PreferenceCreated(paymentId, preferenceId) =>
      map["quote_id" := e.quoteId, "payment_id" := paymentId, "preference_id" := Given(preferenceId)]
    case PaymentConfirmed(paymentId) => map["quote_id" := e.quoteId, "payment_id" := paymentId]
    case PaymentFailed(paymentId, reason) =>
      map["quote_id" := e.quoteId, "payment_id" := paymentId, "reason" := Given(reason)]
  }

  /** `event_to_message`, as the queue sees it. */
  function Encode(e: Event): (b: Body) {
    Fields(Some(e.eventId), Some(TypeOf(e.kind)), Some(e.serviceOrderId), true,
           Some(Dict(Some(e.serviceOrderId), Members(e))))
  }

  predicate AsksForQuote(b: Body) {
    b.Fields? && b.eventType == Some(OsOpened)
  }

  /** Own events are valid messages, and none asks for a quote. */
  lemma OwnEventsAreValid(e: Event)
    ensures ValidBody(Encode(e)) && !AsksForQuote(Encode(e))
  {
  }

  /** An OS_OPENED message the handler can act on. */
  predicate Acceptable(b: Body, d: Defaults) {
    && ValidBody(b) && AsksForQuote(b)
    && b.payload.value.serviceOrderId.Some? && !Blank(b.payload.value.serviceOrderId.value)
    && d.items != [] && Positive(d.amount)
  }

  predicate Due(s: Store, b: Body, d: Defaults) {
    Acceptable(b, d) && b.eventId.value !in s.processed
  }

  function Handle(s: Store, b: Body, d: Defaults): Store {
    Exec(Copying, s, Deliver(b, d))
  }

  /** Whatever is not due leaves no trace: repeats, other types, bad messages. */
  lemma UndueIsQuiet(s: Store, b: Body, d: Defaults)
    requires !Due(s, b, d)
    ensures PlanDeliver(s, b, d).writes == []
    ensures Handle(s, b, d) == s
  {
  }

  /** A due message makes one quote, announces it, and is marked. */
  lemma DueOpens(s: Store, b: Body, d: Defaults)
    requires Safe(s) && Due(s, b, d)
    ensures var ws := PlanDeliver(s, b, d).writes; var t := Handle(s, b, d);
            && Safe(t)
            && Opening(s, ws) && |ws| == 3
            && t.processed.Keys == s.processed.Keys + {b.eventId.value}
            && |t.quotes| == |s.quotes| + 1
            && t.history == s.history + [ws[1].event]
  {
    var plan := PlanDeliver(s, b, d);
    A.StepKeepsSafe(Copying, s, Deliver(b, d));
    DueKind(s, b, d);
    OpenedStore(s, Draw(s, plan), plan.writes);
  }

  lemma DefaultCurrencyIsValid()
    ensures !Blank(DEFAULT_CURRENCY)
  {
    assert !IsSpace(DEFAULT_CURRENCY[0]);
  }

  lemma OpenedStore(s: Store, drawn: Store, ws: seq<Write>)
    requires Safe(s) && Opening(s, ws) && |ws| == 3
    requires drawn == s.(next := drawn.next)
    ensures var t := PerformAll(drawn, ws);
            && t.processed.Keys == s.processed.Keys + {ws[2].eventId}
            && |t.quotes| == |s.quotes| + 1
            && t.history == s.history + [ws[1].event]
  {
    DrawnIdsAreFresh(s);
    OpeningEffect(s, drawn, ws);
  }

  lemma DueKind(s: Store, b: Body, d: Defaults)
    requires Safe(s) && Due(s, b, d)
    ensures Opening(s, PlanDeliver(s, b, d).writes) && |PlanDeliver(s, b, d).writes| == 3
    ensures PlanDeliver(s, b, d).writes[2].eventId == b.eventId.value
  {
    DefaultCurrencyIsValid();
  }

  // ----- A stream of deliveries -----

  function HandleAll(s: Store, stream: seq<Body>, d: Defaults): Store
    decreases |stream|
  {
    if stream == [] then s else HandleAll(Handle(s, stream[0], d), stream[1..], d)
  }

  /** The first acceptable OS_OPENED of each event id not seen before. */
  function Reduced(seen: set<Id>, stream: seq<Body>, d: Defaults): seq<Body>
    decreases |stream|
  {
    if stream == [] then []
    else if Acceptable(stream[0], d) && stream[0].eventId.value !in seen then
      [stream[0]] + Reduced(seen + {stream[0].eventId.value}, stream[1..], d)
    else Reduced(seen, stream[1..], d)
  }

  /** Repeats, unknown types and bad messages make no difference: the store, the processed
      ids and the history are those of the reduced stream. */
  lemma {:induction false} StreamIsItsReduction(s: Store, stream: seq<Body>, d: Defaults)
    requires Safe(s)
    ensures HandleAll(s, stream, d) == HandleAll(s, Reduced(s.processed.Keys, stream, d), d)
    decreases |stream|
  {
    if stream == [] {
    } else {
      var b, rest := stream[0], stream[1..];
      if Due(s, b, d) {
        DueOpens(s, b, d);
        var t := Handle(s, b, d);
        StreamIsItsReduction(t, rest, d);
        var reduced := Reduced(s.processed.Keys, stream, d);
        assert reduced[0] == b && reduced[1..] == Reduced(t.processed.Keys, rest, d);
      } else {
        UndueIsQuiet(s, b, d);
        StreamIsItsReduction(s, rest, d);
      }
    }
  }

  predicate Wanted(seen: set<Id>, b: Body, d: Defaults) {
    Acceptable(b, d) && b.eventId.value !in seen
  }

  /** The event ids a stream asks to process that have not been seen. */
  function NewIds(seen: set<Id>, stream: seq<Body>, d: Defaults): set<Id> {
    set i | 0 <= i < |stream| && Wanted(seen, stream[i], d) :: stream[i].eventId.value
  }

  lemma NewIdsOfStep(seen: set<Id>, b: Body, rest: seq<Body>, d: Defaults)
    ensures if Wanted(seen, b, d)
            then var later := NewIds(seen + {b.eventId.value}, rest, d);
                 NewIds(seen, [b] + rest, d) == later + {b.eventId.value} && b.eventId.value !in later
            else NewIds(seen, [b] + rest, d) == NewIds(seen, rest, d)
  {
    var stream := [b] + rest;
    var seen' := if Wanted(seen, b, d) then seen + {b.eventId.value} else seen;
    var head := if Wanted(seen, b, d) then {b.eventId.value} else {};
    forall id ensures id in NewIds(seen, stream, d) <==> id in NewIds(seen', rest, d) + head {
      if id in NewIds(seen, stream, d) && id !in head {
        var i :| 0 <= i < |stream| && Wanted(seen, stream[i], d) && stream[i].eventId.value == id;
        assert rest[i - 1] == stream[i] && Wanted(seen', rest[i - 1], d);
      }
      if id in NewIds(seen', rest, d) {
        var i :| 0 <= i < |rest| && Wanted(seen', rest[i], d) && rest[i].eventId.value == id;
        assert stream[i + 1] == rest[i] && Wanted(seen, stream[i + 1], d);
      }
      if id in head { assert stream[0] == b; }
    }
  }

  lemma NewIdsCount(seen: set<Id>, b: Body, rest: seq<Body>, d: Defaults)
    ensures var wanted := Wanted(seen, b, d);
            var seen' := if wanted then seen + {b.eventId.value} else seen;
            && |NewIds(seen, [b] + rest, d)| == |NewIds(seen', rest, d)| + (if wanted then 1 else 0)
            && seen + NewIds(seen, [b] + rest, d) == seen' + NewIds(seen', rest, d)
  {
    NewIdsOfStep(seen, b, rest, d);
  }

  /** The parts of the store that count quotes. */
  lemma HandleCounts(s: Store, b: Body, d: Defaults)
    requires Safe(s)
    ensures var t := Handle(s, b, d);
            && Safe(t)
            && (if Wanted(s.processed.Keys, b, d)
                then t.processed.Keys == s.processed.Keys + {b.eventId.value} && |t.quotes| == |s.quotes| + 1
                else t == s)
  {
    if Due(s, b, d) { DueOpens(s, b, d); } else { UndueIsQuiet(s, b, d); }
  }

  /** Distinct wanted ids in, as many quotes out. */
  lemma {:induction false} QuotesPerId(s: Store, stream: seq<Body>, d: Defaults)
    requires Safe(s)
    ensures var t := HandleAll(s, stream, d);
            && Safe(t)
            && |t.quotes| == |s.quotes| + |NewIds(s.processed.Keys, stream, d)|
            && t.processed.Keys == s.processed.Keys + NewIds(s.processed.Keys, stream, d)
    decreases |stream|
  {
    if stream == [] {
    } else {
      var b, rest := stream[0], stream[1..];
      var t := Handle(s, b, d);
      assert stream == [b] + rest;
      NewIdsCount(s.processed.Keys, b, rest, d);
      HandleCounts(s, b, d);
      QuotesPerId(t, rest, d);
    }
  }

  // ----- The loopback queue -----

  function Weight(b: Body): nat {
    if AsksForQuote(b) then 2 else 1
  }

  /** Two deliveries at most for a message that asks for a quote, one for any other. */
  function Load(queue: seq<Body>): nat {
    if queue == [] then 0 else Weight(queue[0]) + Load(queue[1..])
  }

  lemma {:induction false} LoadOfAppend(queue: seq<Body>, b: Body)
    ensures Load(queue + [b]) == Load(queue) + Weight(b)
  {
    if queue != [] {
      LoadOfAppend(queue[1..], b);
      assert (queue + [b])[1..] == queue[1..] + [b];
    } else {
      assert ([b])[1..] == [];
    }
  }

  /** What the service publishes while it handles a message goes to the back of the very
      queue the message came from. */
  function Echo(s: Store, b: Body, d: Defaults): seq<Body> {
    if Due(s, b, d) then [Encode(QuoteEvent(QuoteOf(s, b, d), QuoteCreated, Uuid(s.next + 1)))] else []
  }

  function QuoteOf(s: Store, b: Body, d: Defaults): QuoteData
    requires Due(s, b, d)
  {
    NewQuote(Uuid(s.next), b.payload.value.serviceOrderId.value, d.items, QuoteTotal(d.amount))
  }

  function QuoteTotal(amount: Decimal): Money
    requires Positive(amount)
  {
    DefaultCurrencyIsValid();
    RawMoney(amount, DEFAULT_CURRENCY)
  }

  function EncodeAll(es: seq<Event>): seq<Body> {
    seq(|es|, i requires 0 <= i < |es| => Encode(es[i]))
  }

  lemma EventsOfOpening(s: Store, ws: seq<Write>)
    requires Opening(s, ws) && |ws| == 3
    ensures Events(ws) == [ws[1].event]
  {
    var w1 := ws[1..];
    var w2 := w1[1..];
    assert w1[0] == ws[1] && w2[0] == ws[2] && w2[1..] == [];
    assert Events(w2) == [];
    assert Events(w1) == [ws[1].event] + Events(w2);
  }

  /** The echo is what the handler publishes. */
  lemma EchoIsPublished(s: Store, b: Body, d: Defaults)
    requires Safe(s)
    ensures Echo(s, b, d) == EncodeAll(Events(PlanDeliver(s, b, d).writes))
  {
    if Due(s, b, d) {
      var ws := PlanDeliver(s, b, d).writes;
      DueKind(s, b, d);
      EventsOfOpening(s, ws);
      assert EncodeAll([ws[1].event]) == [Encode(ws[1].event)];
    } else {
      UndueIsQuiet(s, b, d);
    }
  }

  lemma EchoesAreFew(s: Store, b: Body, d: Defaults)
    ensures var echo := Echo(s, b, d);
            if Due(s, b, d) then |echo| == 1 && AsksForQuote(b) && !AsksForQuote(echo[0]) else echo == []
  {
  }

  lemma EchoLightens(s: Store, queue: seq<Body>, d: Defaults)
    requires queue != []
    ensures Load(queue[1..] + Echo(s, queue[0], d)) < Load(queue)
  {
    var echo := Echo(s, queue[0], d);
    EchoesAreFew(s, queue[0], d);
    LoadOfEcho(queue[1..], echo);
  }

  lemma LoadOfEcho(rest: seq<Body>, echo: seq<Body>)
    requires |echo| <= 1 && (echo != [] ==> !AsksForQuote(echo[0]))
    ensures Load(rest + echo) == Load(rest) + |echo|
  {
    if echo == [] {
      assert rest + echo == rest;
    } else {
      assert echo == [echo[0]];
      LoadOfAppend(rest, echo[0]);
    }
  }

  /** Consuming until the queue is empty: the final store and the number of deliveries. */
  function Drain(s: Store, queue: seq<Body>, d: Defaults): (Store, nat)
    decreases Load(queue)
  {
    if queue == [] then (s, 0)
    else
      EchoLightens(s, queue, d);
      var (t, n) := Drain(Handle(s, queue[0], d), queue[1..] + Echo(s, queue[0], d), d);
      (t, n + 1)
  }

  lemma {:induction false} EchoesAreDeaf(s: Store, stream: seq<Body>, b: Body, d: Defaults)
    requires !AsksForQuote(b)
    ensures HandleAll(s, stream + [b], d) == HandleAll(s, stream, d)
    decreases |stream|
  {
    var longer := stream + [b];
    if stream == [] {
      assert longer == [b] && longer[1..] == [];
      UndueIsQuiet(s, b, d);
    } else {
      assert longer[1..] == stream[1..] + [b];
      EchoesAreDeaf(Handle(s, stream[0], d), stream[1..], b, d);
    }
  }

  lemma EchoesAreUnwanted(seen: set<Id>, stream: seq<Body>, b: Body, d: Defaults)
    requires !AsksForQuote(b)
    ensures NewIds(seen, stream + [b], d) == NewIds(seen, stream, d)
  {
    var longer := stream + [b];
    assert forall i :: 0 <= i < |stream| ==> longer[i] == stream[i];
    forall id ensures id in NewIds(seen, longer, d) <==> id in NewIds(seen, stream, d) {
      if id in NewIds(seen, stream, d) {
        var i :| 0 <= i < |stream| && Wanted(seen, stream[i], d) && stream[i].eventId.value == id;
        assert longer[i] == stream[i];
      }
    }
  }

  /** Draining ends; the result is that of the messages initially queued; there is one
      delivery per initial message and one per quote made; and there is one quote per
      distinct, acceptable, not yet processed event id. */
  lemma {:induction false} QueueDrains(s: Store, queue: seq<Body>, d: Defaults)
    requires Safe(s)
    ensures var (t, n) := Drain(s, queue, d);
            && t == HandleAll(s, queue, d)
            && n == |queue| + |NewIds(s.processed.Keys, queue, d)|
            && |t.quotes| == |s.quotes| + |NewIds(s.processed.Keys, queue, d)|
            && t.processed.Keys == s.processed.Keys + NewIds(s.processed.Keys, queue, d)
    decreases Load(queue)
  {
    QuotesPerId(s, queue, d);
    if queue == [] {
    } else {
      var b, rest, t := queue[0], queue[1..], Handle(s, queue[0], d);
      assert queue == [b] + rest;
      NewIdsOfStep(s.processed.Keys, b, rest, d);
      HandleCounts(s, b, d);
      EchoLightens(s, queue, d);
      EchoesAreFew(s, b, d);
      QueueDrains(t, rest + Echo(s, b, d), d);
      if Due(s, b, d) {
        var echo := Echo(s, b, d)[0];
        assert Echo(s, b, d) == [echo];
        EchoesAreDeaf(t, rest, echo, d);
        EchoesAreUnwanted(t.processed.Keys, rest, echo, d);
      } else {
        assert rest + Echo(s, b, d) == rest;
      }
    }
  }

  // ----- Messages that arrive meanwhile -----

  /** The worker runs on: other services' messages arrive, and deliveries are made, in any
      order. A delivery from an empty queue is a wait. */
  datatype Moment = Arrives(body: Body) | Delivers

  function Arrivals(moments: seq<Moment>): seq<Body> {
    if moments == [] then []
    else (if moments[0].Arrives? then [moments[0].body] else []) + Arrivals(moments[1..])
  }

  /** The store and the queue after the given moments. */
  function Live(s: Store, queue: seq<Body>, moments: seq<Moment>, d: Defaults): (Store, seq<Body>)
    decreases |moments|
  {
    if moments == [] then (s, queue)
    else
      match moments[0]
      case Arrives(b) => Live(s, queue + [b], moments[1..], d)
      case Delivers =>
        if queue == [] then Live(s, queue, moments[1..], d)
        else Live(Handle(s, queue[0], d), queue[1..] + Echo(s, queue[0], d), moments[1..], d)
  }

  lemma {:induction false} HandleAllSplits(s: Store, a: seq<Body>, b: seq<Body>, d: Defaults)
    ensures HandleAll(s, a + b, d) == HandleAll(HandleAll(s, a, d), b, d)
    decreases |a|
  {
    if a == [] {
      assert a + b == b;
    } else {
      assert (a + b)[1..] == a[1..] + b;
      HandleAllSplits(Handle(s, a[0], d), a[1..], b, d);
    }
  }

  lemma EchoInside(s: Store, a: seq<Body>, echo: seq<Body>, b: seq<Body>, d: Defaults)
    requires |echo| <= 1 && (echo != [] ==> !AsksForQuote(echo[0]))
    ensures HandleAll(s, (a + echo) + b, d) == HandleAll(s, a + b, d)
  {
    if echo == [] {
      assert a + echo == a;
    } else {
      assert echo == [echo[0]];
      EchoesAreDeaf(s, a, echo[0], d);
      HandleAllSplits(s, a + echo, b, d);
      HandleAllSplits(s, a, b, d);
    }
  }

  /** At any moment, what has been handled and what is still queued come to what handling
      the initial queue and all arrivals would: nothing is lost, and the service's own
      announcements make no difference wherever they stand. */
  lemma {:induction false} LiveQueueLosesNothing(s: Store, queue: seq<Body>, moments: seq<Moment>, d: Defaults)
    ensures var (t, left) := Live(s, queue, moments, d);
            HandleAll(t, left, d) == HandleAll(s, queue + Arrivals(moments), d)
    decreases |moments|
  {
    if moments == [] {
      assert queue + Arrivals(moments) == queue;
    } else {
      var rest := moments[1..];
      match moments[0]
      case Arrives(b) =>
        LiveQueueLosesNothing(s, queue + [b], rest, d);
        assert (queue + [b]) + Arrivals(rest) == queue + Arrivals(moments);
      case Delivers =>
        assert Arrivals(moments) == Arrivals(rest);
        if queue == [] {
          LiveQueueLosesNothing(s, queue, rest, d);
        } else {
          var t, echo := Handle(s, queue[0], d), Echo(s, queue[0], d);
          EchoesAreFew(s, queue[0], d);
          LiveQueueLosesNothing(t, queue[1..] + echo, rest, d);
          EchoInside(t, queue[1..], echo, Arrivals(rest), d);
          assert (queue + Arrivals(rest))[1..] == queue[1..] + Arrivals(rest);
        }
    }
  }

  /** Enough deliveries in a row empty the queue. */
  lemma {:induction false} EnoughDeliveries(s: Store, queue: seq<Body>, n: nat, d: Defaults)
    requires Load(queue) <= n
    ensures Live(s, queue, seq(n, _ => Delivers), d).1 == []
    decreases n
  {
    var moments := seq(n, _ => Delivers);
    if queue != [] {
      EchoLightens(s, queue, d);
      assert moments[1..] == seq(n - 1, _ => Delivers);
      EnoughDeliveries(Handle(s, queue[0], d), queue[1..] + Echo(s, queue[0], d), n - 1, d);
    } else if n > 0 {
      assert moments[1..] == seq(n - 1, _ => Delivers);
      EnoughDeliveries(s, queue, n - 1, d);
    }
  }

  /** Once the queue is empty, there is one quote for each distinct, acceptable, not yet
      processed event id among all the messages that were queued or have arrived. */
  lemma ServedArrivals(s: Store, queue: seq<Body>, moments: seq<Moment>, d: Defaults)
    requires Safe(s) && Live(s, queue, moments, d).1 == []
    ensures var t, all := Live(s, queue, moments, d).0, queue + Arrivals(moments);
            && t == HandleAll(s, Reduced(s.processed.Keys, all, d), d)
            && |t.quotes| == |s.quotes| + |NewIds(s.processed.Keys, all, d)|
            && t.processed.Keys == s.processed.Keys + NewIds(s.processed.Keys, all, d)
  {
    LiveQueueLosesNothing(s, queue, moments, d);
    StreamIsItsReduction(s, queue + Arrivals(moments), d);
    QuotesPerId(s, queue + Arrivals(moments), d);
  }

  // ----- Redelivery after a crash -----

  /** A delivery that dies and is made again leads to a second quote exactly when it died
      after the first quote was saved and before the message was marked. */
  lemma RedeliveryAfterCrash(s: Store, b: Body, d: Defaults, k: nat)
    requires Safe(s) && Due(s, b, d)
    ensures var t := Handle(Crash(s, Deliver(b, d), k), b, d);
            |t.quotes| == |s.quotes| + if k == 1 || k == 2 then 2 else 1
  {
    var died := Crash(s, Deliver(b, d), k);
    CrashKeepsSafe(s, Deliver(b, d), k);
    CrashedDelivery(s, b, d, k);
    if k <= 2 {
      DueOpens(died, b, d);
    } else {
      UndueIsQuiet(died, b, d);
    }
  }

  /** For instance: the first message ever, delivered twice around a crash. */
  lemma RedeliveryCanMakeTwoQuotes()
    ensures var b := Fields(Some(Given("e-1")), Some(OsOpened), Some("so-1"), true, Some(Dict(Some("so-1"), map[])));
            var d := Defaults(["inspection"], Decimal(false, 100, 0));
            |Handle(Crash(EMPTY, Deliver(b, d), 1), b, d).quotes| == 2
  {
    var b := Fields(Some(Given("e-1")), Some(OsOpened), Some("so-1"), true, Some(Dict(Some("so-1"), map[])));
    var d := Defaults(["inspection"], Decimal(false, 100, 0));
    CrashRunsAreSafe([]);
    assert !IsSpace("so-1"[0]);
    RedeliveryAfterCrash(EMPTY, b, d, 1);
  }

  lemma CrashedDelivery(s: Store, b: Body, d: Defaults, k: nat)
    requires Safe(s) && Due(s, b, d)
    ensures var died := Crash(s, Deliver(b, d), k);
            && |died.quotes| == |s.quotes| + (if k == 0 then 0 else 1)
            && (Due(died, b, d) <==> k <= 2)
  {
    var ws := PlanDeliver(s, b, d).writes;
    DueKind(s, b, d);
    DrawnIdsAreFresh(s);
    OpeningPrefix(s, Draw(s, PlanDeliver(s, b, d)), ws, if k < |ws| then k else |ws|);
  }

  lemma OpeningPrefix(s: Store, t: Store, ws: seq<Write>, k: nat)
    requires Opening(s, ws) && |ws| == 3 && k <= 3
    ensures var t' := PerformAll(t, ws[..k]);
            && t'.quotes == (if k == 0 then t.quotes else t.quotes[ws[0].quote.quoteId := ws[0].quote])
            && t'.processed == (if k < 3 then t.processed else t.processed[ws[2].eventId := ws[2].quoteId])
  {
    if k == 3 {
      assert ws[..3] == ws;
      OpeningEffect(s, t, ws);
    } else {
      WritesAreLocal(t, ws[..k]);
      if k >= 1 { WritesAreLocal(Perform(t, ws[0]), ws[..k][1..]); }
    }
  }
}
