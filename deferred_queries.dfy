/**
 * RepositoryQuery: a runnable that holds an optional success consumer and an
 * optional error consumer. Each setter overwrites its own slot and returns the
 * same instance; each notifier reaches its consumer only when one is set.
 */
module DeferredQueries {
  import opened Wrappers
  import opened Types

  /** The consumer notifications `doOnSuccess` / `doOnError` produce for a slot. */
  function Notify(slot: Option<ConsumerRef>, item: Item): (events: seq<Event>)
    ensures |events| <= 1
    ensures |events| == 1 <==> slot.Some?
    ensures forall e :: e in events ==> e == Accepted(slot.value, item)
  {
    if slot.Some? then [Accepted(slot.value, item)] else []
  }

  class RepositoryQuery {
    var successConsumer: Option<ConsumerRef>
    var errorConsumer: Option<ConsumerRef>
    /** The consumer notifications made so far, in order. */
    var events: seq<Event>

    constructor ()
      ensures successConsumer.None? && errorConsumer.None? && events == []
    {
      successConsumer := None;
      errorConsumer := None;
      events := [];
    }

    /** `onSuccess(consumer)`: store the consumer, return the same instance. */
    method OnSuccess(consumer: ConsumerRef) returns (self: RepositoryQuery)
      modifies this`successConsumer
      ensures self == this && successConsumer == Some(consumer)
    {
      successConsumer := Some(consumer);
      self := this;
    }

    /** `onError(consumer)`: store the consumer, return the same instance. */
    method OnError(consumer: ConsumerRef) returns (self: RepositoryQuery)
      modifies this`errorConsumer
      ensures self == this && errorConsumer == Some(consumer)
    {
      errorConsumer := Some(consumer);
      self := this;
    }

    /** `doOnSuccess(data)`. */
    method DoOnSuccess(data: Payload)
      modifies this`events
      ensures events == old(events) + Notify(successConsumer, Data(data))
    {
      if successConsumer.Some? {
        events := events + [Accepted(successConsumer.value, Data(data))];
      }
    }

    /** `doOnError(throwable)`. */
    method DoOnError(throwable: Throwable)
      modifies this`events
      ensures events == old(events) + Notify(errorConsumer, Thrown(throwable))
    {
      if errorConsumer.Some? {
        events := events + [Accepted(errorConsumer.value, Thrown(throwable))];
      }
    }
  }

  /**
   * A client of the class: setting a slot twice keeps the last consumer, the
   * other slot is untouched, and one notification reaches exactly that consumer.
   */
  method SetTwiceKeepsLast(q: RepositoryQuery, first: ConsumerRef, second: ConsumerRef, data: Payload)
    modifies q
    ensures q.successConsumer == Some(second) && q.errorConsumer == old(q.errorConsumer)
    ensures q.events == old(q.events) + [Accepted(second, Data(data))]
  {
    var self := q.OnSuccess(first);
    self := self.OnSuccess(second);
    q.DoOnSuccess(data);
  }
}
