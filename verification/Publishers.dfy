/** Publishing: the two publishers, the broker's queue, and the processed-event store. */
module Publishers {
  import opened Billing
  import opened Saga
  import opened Deliveries
  import opened Repositories

  lemma EncodeAllAppend(es: seq<Event>, e: Event)
    ensures EncodeAll(es + [e]) == EncodeAll(es) + [Encode(e)]
  {
  }

  /** What has been drained and what is still pending are the encoded history, in order. */
  ghost predicate LosesNothing(drained: seq<Body>, pending: seq<Body>, history: seq<Event>) {
    drained + pending == EncodeAll(history)
  }

  class InMemoryEventPublisher {
    var events: seq<Event>
    var messages: seq<Body>
    ghost const journal: Journal
    ghost var history: seq<Event>
    ghost var drained: seq<Body>

    /** The two lists stay in step, and nothing is lost or repeated. */
    ghost predicate Valid()
      reads this
    {
      messages == EncodeAll(events) && LosesNothing(drained, messages, history)
    }

    constructor (journal: Journal)
      ensures Valid() && history == [] && this.journal == journal
    {
      events, messages, history, drained := [], [], [], [];
      this.journal := journal;
    }

    method Publish(event: Event)
      requires Valid()
      modifies this, journal`writes
      ensures Valid() && history == old(history) + [event] && drained == old(drained)
      ensures journal.writes == old(journal.writes) + [Saga.Publish(event)]
    {
      EncodeAllAppend(events, event);
      EncodeAllAppend(history, event);
      OwnEventsAreValid(event);
      events := events + [event];
      messages := messages + [Encode(event)];
      history := history + [event];
      journal.writes := journal.writes + [Saga.Publish(event)];
    }

    method PublishedMessages() returns (r: seq<Body>)
      requires Valid()
      ensures r == messages && drained + r == EncodeAll(history)
    {
      r := messages;
    }

    /** Hands over every pending message and forgets it. */
    method Drain() returns (r: seq<Body>)
      requires Valid()
      modifies this
      ensures Valid() && messages == [] && events == []
      ensures history == old(history) && drained == old(drained) + r
      ensures r == old(messages)
    {
      r := PublishedMessages();
      drained := drained + messages;
      events := [];
      messages := [];
    }
  }

  /** The queue that the worker consumes; the publisher's binding feeds the same queue. */
  class Broker {
    var queue: seq<Body>

    constructor ()
      ensures queue == []
    {
      queue := [];
    }

    method BasicPublish(b: Body)
      modifies this
      ensures queue == old(queue) + [b]
    {
      queue := queue + [b];
    }

    /** The next delivery; whether it is acknowledged or not, it does not come back. */
    method Take() returns (b: Body)
      requires queue != []
      modifies this
      ensures b == old(queue[0]) && queue == old(queue[1..])
    {
      b := queue[0];
      queue := queue[1..];
    }
  }

  class RabbitMqBlockingEventPublisher {
    var messages: seq<Body>
    const broker: Broker
    ghost const journal: Journal
    ghost var history: seq<Event>
    ghost var drained: seq<Body>

    ghost predicate Valid()
      reads this
    {
      LosesNothing(drained, messages, history)
    }

    constructor (broker: Broker, journal: Journal)
      ensures Valid() && history == [] && this.broker == broker && this.journal == journal
    {
      messages, history, drained := [], [], [];
      this.broker, this.journal := broker, journal;
    }

    /** Sent to the broker first, remembered afterwards. */
    method Publish(event: Event)
      requires Valid()
      modifies this, broker, journal`writes
      ensures Valid() && history == old(history) + [event] && drained == old(drained)
      ensures broker.queue == old(broker.queue) + [Encode(event)]
      ensures journal.writes == old(journal.writes) + [Saga.Publish(event)]
    {
      EncodeAllAppend(history, event);
      OwnEventsAreValid(event);
      broker.BasicPublish(Encode(event));
      messages := messages + [Encode(event)];
      history := history + [event];
      journal.writes := journal.writes + [Saga.Publish(event)];
    }

    method PublishedMessages() returns (r: seq<Body>)
      requires Valid()
      ensures r == messages && drained + r == EncodeAll(history)
    {
      r := messages;
    }

    method Drain() returns (r: seq<Body>)
      requires Valid()
      modifies this
      ensures Valid() && messages == []
      ensures history == old(history) && drained == old(drained) + r
      ensures r == old(messages)
    {
      r := messages;
      drained := drained + messages;
      messages := [];
    }
  }

  /** The port the use cases are given. */
  datatype PublisherPort = Local(local: InMemoryEventPublisher) | Rabbit(rabbit: RabbitMqBlockingEventPublisher)
  {
    ghost function Journal(): Journal {
      if Local? then local.journal else rabbit.journal
    }

    ghost function Objects(): set<object> {
      if Local? then {local} else {rabbit, rabbit.broker}
    }

    ghost predicate Valid()
      reads Objects()
    {
      if Local? then local.Valid() else rabbit.Valid()
    }

    ghost function History(): seq<Event>
      reads Objects()
    {
      if Local? then local.history else rabbit.history
    }

    /** What the broker has queued; nothing is queued in memory mode. */
    ghost function Queue(): seq<Body>
      reads Objects()
    {
      if Local? then [] else rabbit.broker.queue
    }

    /** What publishing an event adds to the queue. */
    function Copies(event: Event): seq<Body> {
      if Local? then [] else [Encode(event)]
    }

    method Publish(event: Event)
      requires Valid()
      modifies Objects(), Journal()`writes
      ensures Valid() && History() == old(History()) + [event]
      ensures Queue() == old(Queue()) + Copies(event)
      ensures Journal().writes == old(Journal().writes) + [Saga.Publish(event)]
    {
      match this
      case Local(local) => local.Publish(event);
      case Rabbit(rabbit) => rabbit.Publish(event);
    }
  }

  class ProcessedEventRepository {
    var events: set<Id>
    /** Which quote was made for each event; not kept by the service. */
    ghost var origin: map<Id, Id>
    ghost const journal: Journal

    ghost predicate Valid()
      reads this
    {
      origin.Keys == events
    }

    constructor (journal: Journal)
      ensures Valid() && origin == map[] && this.journal == journal
    {
      events, origin := {}, map[];
      this.journal := journal;
    }

    method IsProcessed(eventId: Id) returns (r: bool)
      requires Valid()
      ensures r <==> eventId in origin
    {
      r := eventId in events;
    }

    method MarkProcessed(eventId: Id, ghost quoteId: Id)
      requires Valid()
      modifies this, journal`writes
      ensures Valid() && origin == old(origin)[eventId := quoteId]
      ensures journal.writes == old(journal.writes) + [Mark(eventId, quoteId)]
    {
      events := events + {eventId};
      origin := origin[eventId := quoteId];
      journal.writes := journal.writes + [Mark(eventId, quoteId)];
    }
  }
}
