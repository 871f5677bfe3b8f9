/**
  The broadcast channel shared by all connections, seen as one log of published
  strings in global publish order. A subscriber is a position in that log.
*/
module Broadcast {

  class Hub {
    var log: seq<string>

    /** A channel on which nothing has been published yet. */
    constructor ()
      ensures log == []
    {
      log := [];
    }

    /** Publish one item; it becomes the last entry of the log. */
    method Publish(item: string)
      modifies this
      ensures log == old(log) + [item]
    {
      log := log + [item];
    }
  }

  /**
    When the log grows from `before` to `after`, a subscriber at position `k`
    still has its old pending items, followed by everything published since.
  */
  lemma PendingAfterGrowth(before: seq<string>, after: seq<string>, k: nat)
    requires before <= after && k <= |before|
    ensures after[k..] == before[k..] + after[|before|..]
  {
    assert after == before + after[|before|..];
  }
}
