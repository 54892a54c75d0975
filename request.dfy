/** The shapes of a queued write request and of a conflict resolver's answer. */
module OnyxRequest {

  datatype Option<T> = None | Some(value: T)

  /** One declarative local-state update, applied once the request's outcome is known.
      The queue never looks inside it. */
  datatype OnyxUpdate = OnyxUpdate(key: string, onyxMethod: string, value: map<string, int>)

  /** What a resolver asks the queue to do with the new request. */
  datatype ConflictAction =
    | Push              // append the new request at the tail
    | Replace(index: int) // overwrite the waiting request at `index`
    | NoAction          // drop the new request

  datatype ConflictActionData = ConflictActionData(conflictAction: ConflictAction)

  /** The conflict resolvers a request can carry. A resolver is a callback over the
      waiting requests; each callback the model knows is one variant here, and
      `ConflictResolution.Resolve` gives its meaning. */
  datatype ConflictResolver =
    | ReplaceFirstReconnectApp // replace the first waiting ReconnectApp, else push
    | AlwaysPush
    | AlwaysNoAction

  /** A queued write request. `data` is the caller's payload; every optional field of the
      record is `None` when the caller leaves it out. */
  datatype Request = Request(
    command: string,
    data: Option<map<string, int>>,
    successData: Option<seq<OnyxUpdate>>,
    failureData: Option<seq<OnyxUpdate>>,
    checkAndFixConflictingRequest: Option<ConflictResolver>)
}
