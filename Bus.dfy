/**
 * The publishing side of the event bus (app/core/event_bus.py), as the agents
 * see it: every publish appends one (channel, message) pair to a log.
 * Subscription, delivery and the Redis transport are not part of this model.
 */
module Bus {
  import opened Domain

  /** One call of `publish(channel, message)`. */
  datatype Publication = Publication(channel: string, message: SwarmMessage)

  class EventBus {
    /** Every publication so far, oldest first. */
    var published: seq<Publication>

    constructor ()
      ensures published == []
    {
      published := [];
    }

    method Publish(channel: string, message: SwarmMessage)
      modifies this
      ensures published == old(published) + [Publication(channel, message)]
    {
      published := published + [Publication(channel, message)];
    }
  }
}
