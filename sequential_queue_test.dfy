/** The scenarios of the sequential queue's unit test, each as a method that runs the
    pushes on a fresh queue and states the length and the contents it must end with. */
module SequentialQueueScenarios {
  import opened OnyxRequest
  import opened ConflictResolution
  import opened Network

  /** A ReconnectApp request without a resolver. */
  const request: Request := Request(
    RECONNECT_APP,
    None,
    Some([OnyxUpdate("userMetadata", "set", map["accountID" := 1234])]),
    Some([OnyxUpdate("userMetadata", "set", map[])]),
    None)

  /** A ReconnectApp request with new data and the given resolver, and no success or
      failure updates. */
  function WithConflictResolution(resolver: ConflictResolver): Request {
    Request(RECONNECT_APP, Some(map["accountID" := 56789]), None, None, Some(resolver))
  }

  method PushOneRequestPersistsOne() returns (length: nat, persisted: seq<Request>)
    ensures length == 1 && persisted == [request]
  {
    var queue := new SequentialQueue();
    queue.Push(request);
    length, persisted := queue.GetLength(), queue.persistedRequests;
  }

  method PushTwoRequestsPersistsTwo() returns (length: nat, persisted: seq<Request>)
    ensures length == 2 && persisted == [request, request]
  {
    var queue := new SequentialQueue();
    queue.Push(request);
    queue.Push(request);
    length, persisted := queue.GetLength(), queue.persistedRequests;
  }

  /** The second ReconnectApp replaces the first: one request, carrying the new data. */
  method PushWithConflictResolutionReplaces() returns (length: nat, persisted: seq<Request>)
    ensures length == 1
    ensures persisted == [WithConflictResolution(ReplaceFirstReconnectApp)]
  {
    var queue := new SequentialQueue();
    queue.Push(request);
    queue.Push(WithConflictResolution(ReplaceFirstReconnectApp));
    length, persisted := queue.GetLength(), queue.persistedRequests;
  }

  /** A resolver that always pushes appends beside the waiting ReconnectApp. */
  method PushWithConflictResolutionPushes() returns (length: nat, persisted: seq<Request>)
    ensures length == 2
    ensures persisted == [request, WithConflictResolution(AlwaysPush)]
  {
    var queue := new SequentialQueue();
    queue.Push(request);
    queue.Push(WithConflictResolution(AlwaysPush));
    length, persisted := queue.GetLength(), queue.persistedRequests;
  }

  /** A resolver that answers noAction drops the new request: the first one stays. */
  method PushWithConflictResolutionNoAction() returns (length: nat, persisted: seq<Request>)
    ensures length == 1
    ensures persisted == [request]
  {
    var queue := new SequentialQueue();
    queue.Push(request);
    queue.Push(WithConflictResolution(AlwaysNoAction));
    length, persisted := queue.GetLength(), queue.persistedRequests;
  }

  /** With the first ReconnectApp in flight the resolver finds no waiting ReconnectApp,
      so the new one is appended and the in-flight one is untouched. */
  method AddNewRequestWhileSimilarOngoing() returns (length: nat, persisted: seq<Request>, ongoing: Option<Request>)
    ensures length == 2
    ensures ongoing == Some(request)
    ensures persisted == [WithConflictResolution(ReplaceFirstReconnectApp)]
  {
    var queue := new SequentialQueue();
    queue.Push(request);
    queue.StartProcessing();
    queue.Push(WithConflictResolution(ReplaceFirstReconnectApp));
    length, persisted, ongoing := queue.GetLength(), queue.persistedRequests, queue.ongoingRequest;
  }

  /** With the first ReconnectApp in flight, the first resolver push is appended and the
      second replaces it in the waiting list: one waiting, one in flight. */
  method ReplaceRequestWhileSimilarOngoing() returns (length: nat, persisted: seq<Request>, ongoing: Option<Request>)
    ensures length == 2
    ensures ongoing == Some(request)
    ensures |persisted| == 1 && persisted[0] == WithConflictResolution(ReplaceFirstReconnectApp)
  {
    var queue := new SequentialQueue();
    queue.Push(request);
    queue.StartProcessing();
    var requestWithConflictResolution := WithConflictResolution(ReplaceFirstReconnectApp);
    var requestWithConflictResolution2 := WithConflictResolution(ReplaceFirstReconnectApp);
    queue.Push(requestWithConflictResolution);
    queue.Push(requestWithConflictResolution2);
    length, persisted, ongoing := queue.GetLength(), queue.persistedRequests, queue.ongoingRequest;
  }
}
