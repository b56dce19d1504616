// The slice of the shared query cache the chat client reads and writes:
// the cached message list of every thread, the per-artist thread lists,
// and the optimistic `['recentThreads']` entry, plus a log of every
// operation so that the order of cancel, write and invalidate is visible.
module QueryCache {
  import opened Wrappers
  import opened ChatTypes

  /** Cache operations in the order they were issued. */
  datatype CacheEvent =
    | CancelMessages(threadId: string)
    | WriteMessages(threadId: string)
    | RemoveMessages(threadId: string)
    | WriteRecentThreadStamps
    | WriteRecentThreads(artistId: string)
    | InvalidateRecentThreads

  class QueryClient {
    /** `['messages', threadId]` for every cached thread. */
    var messages: map<string, seq<Message>>
    /** `['recentThreads', artistId]`: each artist's thread list in key order. */
    var recentThreads: map<string, seq<ThreadDetailsWithId>>
    /** `['recentThreads']`: the lastMessageAt stamp written per thread by a send. */
    var recentThreadStamps: map<string, string>
    var log: seq<CacheEvent>

    constructor ()
      ensures messages == map[] && recentThreads == map[] && recentThreadStamps == map[] && log == []
    {
      messages := map[];
      recentThreads := map[];
      recentThreadStamps := map[];
      log := [];
    }

    /** A thread's cached list, `[]` when nothing is cached (the updaters' `old = []` default). */
    function MessagesOf(threadId: string): seq<Message>
      reads this
    {
      if threadId in messages then messages[threadId] else []
    }

    /** Every cached thread except `threadId`. */
    function OtherThreads(threadId: string): map<string, seq<Message>>
      reads this
    {
      map t | t in messages && t != threadId :: messages[t]
    }

    /** An artist's cached thread list, `{}` when nothing is cached. */
    function ThreadsOf(artistId: string): seq<ThreadDetailsWithId>
      reads this
    {
      if artistId in recentThreads then recentThreads[artistId] else []
    }

    /** `cancelQueries(['messages', threadId])`: in-flight fetches are dropped; cached data stays. */
    method CancelMessageQueries(threadId: string)
      modifies this
      ensures log == old(log) + [CancelMessages(threadId)]
      ensures messages == old(messages) && recentThreads == old(recentThreads)
      ensures recentThreadStamps == old(recentThreadStamps)
    {
      log := log + [CancelMessages(threadId)];
    }

    /** `setQueryData(['messages', threadId], ...)` with the updater's result. */
    method SetMessages(threadId: string, list: seq<Message>)
      modifies this
      ensures messages == old(messages)[threadId := list]
      ensures log == old(log) + [WriteMessages(threadId)]
      ensures recentThreads == old(recentThreads) && recentThreadStamps == old(recentThreadStamps)
    {
      messages := messages[threadId := list];
      log := log + [WriteMessages(threadId)];
    }

    /** `removeQueries(['messages', threadId])`. */
    method RemoveMessageQueries(threadId: string)
      modifies this
      ensures messages == old(messages) - {threadId}
      ensures log == old(log) + [RemoveMessages(threadId)]
      ensures recentThreads == old(recentThreads) && recentThreadStamps == old(recentThreadStamps)
    {
      messages := messages - {threadId};
      log := log + [RemoveMessages(threadId)];
    }

    /** `setQueryData(['recentThreads'], ...)`. */
    method SetRecentThreadStamps(stamps: map<string, string>)
      modifies this
      ensures recentThreadStamps == stamps
      ensures log == old(log) + [WriteRecentThreadStamps]
      ensures messages == old(messages) && recentThreads == old(recentThreads)
    {
      recentThreadStamps := stamps;
      log := log + [WriteRecentThreadStamps];
    }

    /** `setQueryData(['recentThreads', artistId], ...)`. */
    method SetRecentThreads(artistId: string, threads: seq<ThreadDetailsWithId>)
      modifies this
      ensures recentThreads == old(recentThreads)[artistId := threads]
      ensures log == old(log) + [WriteRecentThreads(artistId)]
      ensures messages == old(messages) && recentThreadStamps == old(recentThreadStamps)
    {
      recentThreads := recentThreads[artistId := threads];
      log := log + [WriteRecentThreads(artistId)];
    }

    /** `invalidateQueries(['recentThreads'])`: marks the lists stale; the refetch is not modelled. */
    method InvalidateRecentThreadQueries()
      modifies this
      ensures log == old(log) + [InvalidateRecentThreads]
      ensures messages == old(messages) && recentThreads == old(recentThreads)
      ensures recentThreadStamps == old(recentThreadStamps)
    {
      log := log + [InvalidateRecentThreads];
    }
  }
}
