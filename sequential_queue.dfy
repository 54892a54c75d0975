/** The persisted sequential request queue: the waiting requests, in execution order,
    and a single slot for the request currently in flight. */
module Network {
  import opened OnyxRequest
  import opened ConflictResolution

  class SequentialQueue {
    /** The persisted requests still waiting to be sent, head first. */
    var persistedRequests: seq<Request>
    /** The request being sent, held apart so that no resolver can see or target it. */
    var ongoingRequest: Option<Request>

    /** Every request not yet finished, in the order they are sent: the one in flight
        first, then the waiting ones. */
    function AllRequests(): (all: seq<Request>)
      reads this
      ensures |all| == |persistedRequests| + (if ongoingRequest.Some? then 1 else 0)
      ensures ongoingRequest.Some? ==> all[0] == ongoingRequest.value
      ensures ongoingRequest.None? ==> all == persistedRequests
      ensures ongoingRequest.Some? ==> all[1..] == persistedRequests
    {
      (if ongoingRequest.Some? then [ongoingRequest.value] else []) + persistedRequests
    }

    /** An empty queue, as after clearing storage. */
    constructor ()
      ensures persistedRequests == [] && ongoingRequest == None
      ensures GetLength() == 0
    {
      persistedRequests := [];
      ongoingRequest := None;
    }

    /** Resolves `request` against the waiting requests (never the one in flight), then
        appends it, overwrites the waiting request the resolver named, or drops it. */
    method Push(request: Request)
      modifies this
      ensures persistedRequests == PushPending(old(persistedRequests), request)
      ensures ongoingRequest == old(ongoingRequest)
      ensures GetLength() == old(GetLength()) + (if Decide(request, old(persistedRequests)).Push? then 1 else 0)
    {
      var action := Decide(request, persistedRequests);
      match action
      case Push =>
        persistedRequests := persistedRequests + [request];
      case Replace(index) =>
        persistedRequests := persistedRequests[index := request];
      case NoAction =>
    }

    /** The processing step: when nothing is in flight, the head of the waiting list
        becomes the request in flight. The order of sending and the length are kept. */
    method StartProcessing()
      modifies this
      ensures old(ongoingRequest).None? && old(persistedRequests) != [] ==>
                ongoingRequest == Some(old(persistedRequests)[0]) &&
                persistedRequests == old(persistedRequests)[1..]
      ensures old(ongoingRequest).Some? || old(persistedRequests) == [] ==>
                ongoingRequest == old(ongoingRequest) && persistedRequests == old(persistedRequests)
      ensures AllRequests() == old(AllRequests())
      ensures GetLength() == old(GetLength())
    {
      if ongoingRequest.None? && persistedRequests != [] {
        ongoingRequest := Some(persistedRequests[0]);
        persistedRequests := persistedRequests[1..];
      }
    }

    /** The number of requests not yet finished: the waiting ones and the one in flight. */
    function GetLength(): (n: nat)
      reads this
      ensures n == |AllRequests()|
    {
      |persistedRequests| + (if ongoingRequest.Some? then 1 else 0)
    }
  }
}
