/**
 * The message tracker the bridge consults (MessageTracker). Its own code
 * lives outside this model; only the three calls the relay makes are
 * modelled, over a map from message id to entry, with no eviction.
 */
module Tracker {
  /** What the tracker remembers about a relayed message. */
  datatype TrackedEntry = TrackedEntry(from: string, to: string, text: string, channel: int, forwarded: bool)

  class MessageTracker {
    var entries: map<int, TrackedEntry>

    constructor ()
      ensures entries == map[]
    {
      entries := map[];
    }

    /** has_seen: whether the id was recorded before. */
    predicate HasSeen(id: int)
      reads this
    {
      id in entries
    }

    /** add_message: record a new message, not yet forwarded. */
    method AddMessage(id: int, from: string, to: string, text: string, channel: int)
      modifies this
      ensures entries == old(entries)[id := TrackedEntry(from, to, text, channel, false)]
    {
      entries := entries[id := TrackedEntry(from, to, text, channel, false)];
    }

    /** mark_forwarded: flag a recorded message as forwarded; an unknown id changes nothing. */
    method MarkForwarded(id: int)
      modifies this
      ensures id in old(entries) ==> entries == old(entries)[id := old(entries)[id].(forwarded := true)]
      ensures id !in old(entries) ==> entries == old(entries)
    {
      if id in entries {
        entries := entries[id := entries[id].(forwarded := true)];
      }
    }
  }
}
