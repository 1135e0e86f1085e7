/** The queue worker when it may die in the middle of a delivery: how many quotes it makes. */
module Redeliveries {
  import opened Wrappers
  import opened Billing
  import opened Saga
  import opened CrashSafety
  import opened Deliveries

  /** Besides arrivals and deliveries, the process may die after the first `survived` writes of
      a delivery. The message was not acknowledged, so it is the next one to be delivered. */
  datatype Incident = Passes(moment: Moment) | Dies(survived: nat)

  /** What arrives with the incident. */
  function ArrivalOf(x: Incident): seq<Body> {
    if x.Passes? && x.moment.Arrives? then [x.moment.body] else []
  }

  function ArrivalsAmong(incidents: seq<Incident>): seq<Body> {
    if incidents == [] then []
    else
      ArrivalOf(incidents[0]) + ArrivalsAmong(incidents[1..])
  }

  /** The writes that a delivery has made when it dies. */
  function Survivors(s: Store, b: Body, d: Defaults, k: nat): seq<Write> {
    var ws := PlanDeliver(s, b, d).writes;
    ws[..if k < |ws| then k else |ws|]
  }

  /** One incident: the store, and the queue with what was published before the end. */
  function Happens(s: Store, queue: seq<Body>, x: Incident, d: Defaults): (Store, seq<Body>) {
    match x
    case Passes(Arrives(b)) => (s, queue + [b])
    case Passes(Delivers) =>
      if queue == [] then (s, queue) else (Handle(s, queue[0], d), queue[1..] + Echo(s, queue[0], d))
    case Dies(k) =>
      if queue == [] then (s, queue)
      else (Crash(s, Deliver(queue[0], d), k), queue + EncodeAll(Events(Survivors(s, queue[0], d, k))))
  }

  function Endure(s: Store, queue: seq<Body>, incidents: seq<Incident>, d: Defaults): (Store, seq<Body>)
    decreases |incidents|
  {
    if incidents == [] then (s, queue)
    else
      var (t, left) := Happens(s, queue, incidents[0], d);
      Endure(t, left, incidents[1..], d)
  }

  /** The worker dies after it has saved the quote of a due message and before it marks it. */
  predicate Doubles(s: Store, queue: seq<Body>, x: Incident, d: Defaults) {
    x.Dies? && queue != [] && Due(s, queue[0], d) && (x.survived == 1 || x.survived == 2)
  }

  function Doublings(s: Store, queue: seq<Body>, incidents: seq<Incident>, d: Defaults): nat
    decreases |incidents|
  {
    if incidents == [] then 0
    else
      var (t, left) := Happens(s, queue, incidents[0], d);
      (if Doubles(s, queue, incidents[0], d) then 1 else 0) + Doublings(t, left, incidents[1..], d)
  }

  // ----- Wanted ids of a queue with announcements in it -----

  predicate Deaf(bs: seq<Body>) {
    forall i :: 0 <= i < |bs| ==> !AsksForQuote(bs[i])
  }

  lemma NewIdsOfConcat(seen: set<Id>, a: seq<Body>, b: seq<Body>, d: Defaults)
    ensures NewIds(seen, a + b, d) == NewIds(seen, a, d) + NewIds(seen, b, d)
  {
    var ab := a + b;
    forall id | id in NewIds(seen, a, d) ensures id in NewIds(seen, ab, d) {
      var i :| 0 <= i < |a| && Wanted(seen, a[i], d) && a[i].eventId.value == id;
      assert ab[i] == a[i];
    }
    forall id | id in NewIds(seen, b, d) ensures id in NewIds(seen, ab, d) {
      var i :| 0 <= i < |b| && Wanted(seen, b[i], d) && b[i].eventId.value == id;
      assert ab[|a| + i] == b[i];
    }
    forall id | id in NewIds(seen, ab, d) ensures id in NewIds(seen, a, d) + NewIds(seen, b, d) {
      var i :| 0 <= i < |ab| && Wanted(seen, ab[i], d) && ab[i].eventId.value == id;
      if i < |a| { assert a[i] == ab[i]; } else { assert b[i - |a|] == ab[i]; }
    }
  }

  lemma DeafAddsNothing(seen: set<Id>, a: seq<Body>, echo: seq<Body>, b: seq<Body>, d: Defaults)
    requires Deaf(echo)
    ensures NewIds(seen, (a + echo) + b, d) == NewIds(seen, a + b, d)
  {
    NewIdsOfConcat(seen, a + echo, b, d);
    NewIdsOfConcat(seen, a, echo, d);
    NewIdsOfConcat(seen, a, b, d);
    assert NewIds(seen, echo, d) == {};
  }

  lemma OwnEventsAreDeaf(es: seq<Event>)
    ensures Deaf(EncodeAll(es))
  {
  }

  // ----- What stays the same -----

  /** The quotes that are stored, and those that the messages will still add. */
  function Outlook(s: Store, all: seq<Body>, d: Defaults): nat {
    |s.quotes| + |NewIds(s.processed.Keys, all, d)|
  }

  /** The ids that are marked, and those that the messages will still mark. */
  function Marked(s: Store, all: seq<Body>, d: Defaults): set<Id> {
    s.processed.Keys + NewIds(s.processed.Keys, all, d)
  }

  lemma DeafIsNoProspect(s: Store, a: seq<Body>, echo: seq<Body>, b: seq<Body>, d: Defaults)
    requires Deaf(echo)
    ensures Outlook(s, a + echo + b, d) == Outlook(s, a + b, d) && Marked(s, a + echo + b, d) == Marked(s, a + b, d)
  {
    DeafAddsNothing(s.processed.Keys, a, echo, b, d);
  }

  lemma HandledHead(s: Store, b: Body, rest: seq<Body>, d: Defaults)
    requires Safe(s)
    ensures var t := Handle(s, b, d);
            && Safe(t)
            && Outlook(t, rest, d) == Outlook(s, [b] + rest, d) && Marked(t, rest, d) == Marked(s, [b] + rest, d)
  {
    HandleCounts(s, b, d);
    NewIdsCount(s.processed.Keys, b, rest, d);
  }

  lemma OpenedPrefix(t: Store, s: Store, ws: seq<Write>, k: nat)
    requires Opening(s, ws) && |ws| == 3
    ensures var t' := PerformAll(t, ws[..if k < |ws| then k else |ws|]);
            && t'.quotes == (if k == 0 then t.quotes else t.quotes[ws[0].quote.quoteId := ws[0].quote])
            && t'.processed.Keys == t.processed.Keys + (if k <= 2 then {} else {ws[2].eventId})
  {
    OpeningPrefix(s, t, ws, if k < |ws| then k else |ws|);
    hide PerformAll, Opening;
  }

  lemma MarkedByCrash(s: Store, b: Body, d: Defaults, k: nat)
    requires Safe(s) && Due(s, b, d)
    ensures var died := Crash(s, Deliver(b, d), k);
            && |died.quotes| == |s.quotes| + (if k == 0 then 0 else 1)
            && died.processed.Keys == s.processed.Keys + (if k <= 2 then {} else {b.eventId.value})
  {
    var plan := PlanDeliver(s, b, d);
    DueKind(s, b, d);
    CrashedDelivery(s, b, d, k);
    OpenedPrefix(Draw(s, plan), s, plan.writes, k);
    hide PlanDeliver, PerformAll, Opening, Safe, Due;
  }

  lemma DueIsWanted(s: Store, b: Body, d: Defaults)
    ensures Due(s, b, d) <==> Wanted(s.processed.Keys, b, d)
    ensures Due(s, b, d) ==> b.Fields? && b.eventId.Some?
  {
  }

  /** A wanted head that has been marked is not wanted any more; nothing else changes. */
  lemma MarkedHead(seen: set<Id>, b: Body, rest: seq<Body>, d: Defaults)
    requires Wanted(seen, b, d)
    ensures var seen', all := seen + {b.eventId.value}, [b] + rest;
            && |NewIds(seen', all, d)| == |NewIds(seen, all, d)| - 1
            && seen' + NewIds(seen', all, d) == seen + NewIds(seen, all, d)
  {
    var seen' := seen + {b.eventId.value};
    NewIdsCount(seen, b, rest, d);
    NewIdsCount(seen', b, rest, d);
    assert !Wanted(seen', b, d);
    hide NewIds, Wanted;
  }

  lemma DueHeadCounts(s: Store, t: Store, b: Body, rest: seq<Body>, d: Defaults, marked: bool)
    requires Wanted(s.processed.Keys, b, d)
    requires t.processed.Keys == s.processed.Keys + if marked then {b.eventId.value} else {}
    ensures |NewIds(t.processed.Keys, [b] + rest, d)|
            == |NewIds(s.processed.Keys, [b] + rest, d)| - (if marked then 1 else 0)
    ensures Marked(t, [b] + rest, d) == Marked(s, [b] + rest, d)
  {
    hide NewIds;
    if marked {
      MarkedHead(s.processed.Keys, b, rest, d);
      hide Wanted;
    } else {
      assert t.processed.Keys == s.processed.Keys;
      hide Wanted;
    }
  }

  lemma UndueSurvives(s: Store, b: Body, d: Defaults, k: nat)
    requires !Due(s, b, d)
    ensures Crash(s, Deliver(b, d), k) == s
  {
    UndueIsQuiet(s, b, d);
  }

  /** A death leaves the head where it is; it adds a quote to what is to come exactly when it
      falls between the save and the mark. */
  lemma DeadHead(s: Store, b: Body, rest: seq<Body>, d: Defaults, k: nat)
    requires Safe(s)
    ensures var t, all := Crash(s, Deliver(b, d), k), [b] + rest;
            && Safe(t)
            && Outlook(t, all, d) == Outlook(s, all, d) + (if Due(s, b, d) && (k == 1 || k == 2) then 1 else 0)
            && Marked(t, all, d) == Marked(s, all, d)
  {
    CrashKeepsSafe(s, Deliver(b, d), k);
    var t := Crash(s, Deliver(b, d), k);
    DueIsWanted(s, b, d);
    if Due(s, b, d) {
      hide Crash;
      MarkedByCrash(s, b, d, k);
      hide Due, Wanted, Safe, NewIds, Marked;
      DueHeadCounts(s, t, b, rest, d, k > 2);
    } else {
      UndueSurvives(s, b, d, k);
      hide Safe, Crash, NewIds, Due, Wanted, Marked;
    }
  }

  // ----- One incident -----

  /** Nothing that stands on the queue or is still to come gets lost from sight. */
  ghost predicate KeepsOutlook(s: Store, before: seq<Body>, t: Store, after: seq<Body>, d: Defaults, extra: nat) {
    Safe(t) && Outlook(t, after, d) == Outlook(s, before, d) + extra && Marked(t, after, d) == Marked(s, before, d)
  }

  lemma IncidentKeepsOutlook(s: Store, queue: seq<Body>, x: Incident, later: seq<Body>, d: Defaults)
    requires Safe(s)
    ensures var (t, left) := Happens(s, queue, x, d);
            KeepsOutlook(s, queue + (ArrivalOf(x) + later), t, left + later, d,
                         if Doubles(s, queue, x, d) then 1 else 0)
  {
    match x
    case Passes(Arrives(b)) =>
      assert (queue + [b]) + later == queue + (ArrivalOf(x) + later);
    case Passes(Delivers) =>
      assert ArrivalOf(x) + later == later;
      if queue != [] {
        DeliveryKeepsOutlook(s, queue[0], queue[1..], later, d);
        assert queue == [queue[0]] + queue[1..];
      }
      hide Handle, Echo, Outlook, Marked, Safe, Due;
    case Dies(k) =>
      assert ArrivalOf(x) + later == later;
      if queue != [] {
        DeathKeepsOutlook(s, queue, Events(Survivors(s, queue[0], d, k)), later, d, k);
      }
      hide Crash, Survivors, EncodeAll, Outlook, Marked, Safe, Due;
  }

  lemma DeliveryKeepsOutlook(s: Store, b: Body, rest: seq<Body>, later: seq<Body>, d: Defaults)
    requires Safe(s)
    ensures var t, left := Handle(s, b, d), rest + Echo(s, b, d);
            && Safe(t)
            && Outlook(t, left + later, d) == Outlook(s, [b] + rest + later, d)
            && Marked(t, left + later, d) == Marked(s, [b] + rest + later, d)
  {
    HandledHead(s, b, rest + later, d);
    EchoesAreFew(s, b, d);
    DeafIsNoProspect(Handle(s, b, d), rest, Echo(s, b, d), later, d);
    hide *;
    assert [b] + rest + later == [b] + (rest + later);
  }

  lemma DeathKeepsOutlook(s: Store, queue: seq<Body>, said: seq<Event>, later: seq<Body>, d: Defaults, k: nat)
    requires Safe(s) && queue != []
    ensures var t, left := Crash(s, Deliver(queue[0], d), k), queue + EncodeAll(said);
            && Safe(t)
            && Outlook(t, left + later, d)
               == Outlook(s, queue + later, d) + (if Due(s, queue[0], d) && (k == 1 || k == 2) then 1 else 0)
            && Marked(t, left + later, d) == Marked(s, queue + later, d)
  {
    var all, b := queue + later, queue[0];
    assert all == [b] + all[1..];
    DeadHead(s, b, all[1..], d, k);
    OwnEventsAreDeaf(said);
    DeafIsNoProspect(Crash(s, Deliver(b, d), k), queue, EncodeAll(said), later, d);
    hide *;
  }

  // ----- Whole runs -----

  /** At any moment, through any deaths: the quotes made and those still to be made are one
      for each distinct wanted id among all messages, and one more for each death between a
      save and its mark. */
  lemma {:induction false} QuotesThroughDeaths(s: Store, queue: seq<Body>, incidents: seq<Incident>, d: Defaults)
    requires Safe(s)
    ensures var (t, left) := Endure(s, queue, incidents, d); var all := queue + ArrivalsAmong(incidents);
            && Safe(t)
            && Outlook(t, left, d) == Outlook(s, all, d) + Doublings(s, queue, incidents, d)
            && Marked(t, left, d) == Marked(s, all, d)
    decreases |incidents|
  {
    hide Safe, Happens, Outlook, Marked, Doubles;
    if incidents == [] {
      assert queue + ArrivalsAmong(incidents) == queue;
    } else {
      var x, rest := incidents[0], incidents[1..];
      var (t, left) := Happens(s, queue, x, d);
      IncidentKeepsOutlook(s, queue, x, ArrivalsAmong(rest), d);
      QuotesThroughDeaths(t, left, rest, d);
    }
  }

  lemma NothingToCome(t: Store, d: Defaults)
    ensures Outlook(t, [], d) == |t.quotes| && Marked(t, [], d) == t.processed.Keys
  {
    assert NewIds(t.processed.Keys, [], d) == {};
  }

  /** Once the queue is empty, these are the quotes made and the ids marked. */
  lemma ServedThroughDeaths(s: Store, queue: seq<Body>, incidents: seq<Incident>, d: Defaults)
    requires Safe(s) && Endure(s, queue, incidents, d).1 == []
    ensures var t, all := Endure(s, queue, incidents, d).0, queue + ArrivalsAmong(incidents);
            && |t.quotes| == |s.quotes| + |NewIds(s.processed.Keys, all, d)| + Doublings(s, queue, incidents, d)
            && t.processed.Keys == s.processed.Keys + NewIds(s.processed.Keys, all, d)
  {
    QuotesThroughDeaths(s, queue, incidents, d);
    var (t, left) := Endure(s, queue, incidents, d);
    NothingToCome(t, d);
    hide Safe, Endure, Doublings, ArrivalsAmong, NewIds;
  }

  function MomentsOf(incidents: seq<Incident>): seq<Moment>
    requires forall i :: 0 <= i < |incidents| ==> incidents[i].Passes?
  {
    seq(|incidents|, i requires 0 <= i < |incidents| => incidents[i].moment)
  }

  /** Without deaths this is the worker as it runs. */
  lemma {:induction false} WithoutDeaths(s: Store, queue: seq<Body>, incidents: seq<Incident>, d: Defaults)
    requires forall i :: 0 <= i < |incidents| ==> incidents[i].Passes?
    ensures Endure(s, queue, incidents, d) == Live(s, queue, MomentsOf(incidents), d)
    ensures ArrivalsAmong(incidents) == Arrivals(MomentsOf(incidents))
    ensures Doublings(s, queue, incidents, d) == 0
    decreases |incidents|
  {
    hide Handle, Echo;
    if incidents != [] {
      var (t, left) := Happens(s, queue, incidents[0], d);
      assert MomentsOf(incidents)[1..] == MomentsOf(incidents[1..]);
      WithoutDeaths(t, left, incidents[1..], d);
    }
  }
}
