/** events/event.go: the immutable event value. */
module EventValues {

  /** An event identifier; any two equal strings denote the same event class. */
  type EventId = string

  /** An event: the identifier it was made with and an opaque payload.
      The payload type is a parameter, standing for Go's `any`. */
  datatype Event<P> = Event(id: EventId, data: P) {

    /** The payload, read through a value receiver: the event is not changed. */
    function Get(): (d: P)
    {
      data
    }
  }

  /** `Make` builds an event from any identifier and payload; it cannot fail. */
  function Make<P>(id: EventId, data: P): (e: Event<P>)
    ensures e.id == id
    ensures e.Get() == data
  {
    Event(id, data)
  }
}
