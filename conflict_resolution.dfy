/** Conflict resolution: how a resolver's answer is computed from the waiting
    requests, and how that answer changes the waiting list. */
module ConflictResolution {
  import opened OnyxRequest

  const RECONNECT_APP: string := "ReconnectApp"

  /** `Array.prototype.findIndex`: the first position whose element satisfies `p`, or -1. */
  function FindIndex(s: seq<Request>, p: Request -> bool): (i: int)
    ensures -1 <= i < |s|
    ensures i == -1 <==> forall j :: 0 <= j < |s| ==> !p(s[j])
    ensures 0 <= i ==> p(s[i]) && forall j :: 0 <= j < i ==> !p(s[j])
  {
    if |s| == 0 then -1
    else if p(s[0]) then 0
    else
      var k := FindIndex(s[1..], p);
      assert forall j :: 0 < j < |s| ==> s[j] == s[1..][j - 1];
      if k == -1 then -1 else k + 1
  }

  predicate IsReconnectApp(r: Request) {
    r.command == RECONNECT_APP
  }

  /** The resolver of the test: there should be one ReconnectApp, so find the first
      waiting one and replace it; push when there is none. */
  function ReconnectAppResolver(persistedRequests: seq<Request>): (d: ConflictActionData)
    ensures d.conflictAction.Push? || d.conflictAction.Replace?
    ensures d.conflictAction.Push? <==>
              forall j :: 0 <= j < |persistedRequests| ==> persistedRequests[j].command != RECONNECT_APP
    ensures d.conflictAction.Replace? ==>
              var i := d.conflictAction.index;
              0 <= i < |persistedRequests| && persistedRequests[i].command == RECONNECT_APP &&
              forall j :: 0 <= j < i ==> persistedRequests[j].command != RECONNECT_APP
  {
    var index := FindIndex(persistedRequests, IsReconnectApp);
    if index == -1 then ConflictActionData(Push) else ConflictActionData(Replace(index))
  }

  /** A `Replace` answer is usable only when its index names a waiting request. */
  predicate Applicable(action: ConflictAction, pending: seq<Request>) {
    action.Replace? ==> 0 <= action.index < |pending|
  }

  /** Runs a resolver against the waiting requests only; the new request itself is not
      among them. Every resolver of the model answers with a usable index. */
  function Resolve(resolver: ConflictResolver, persistedRequests: seq<Request>): (d: ConflictActionData)
    ensures Applicable(d.conflictAction, persistedRequests)
    ensures resolver.ReplaceFirstReconnectApp? ==> d == ReconnectAppResolver(persistedRequests)
    ensures resolver.AlwaysPush? ==> d.conflictAction.Push?
    ensures resolver.AlwaysNoAction? ==> d.conflictAction.NoAction?
  {
    match resolver
    case ReplaceFirstReconnectApp => ReconnectAppResolver(persistedRequests)
    case AlwaysPush => ConflictActionData(Push)
    case AlwaysNoAction => ConflictActionData(NoAction)
  }

  /** The decision for `request`: its own resolver's answer, or `Push` when it has none. */
  function Decide(request: Request, persistedRequests: seq<Request>): ConflictAction {
    match request.checkAndFixConflictingRequest
    case None => Push
    case Some(resolver) => Resolve(resolver, persistedRequests).conflictAction
  }

  /** The waiting list after carrying out `action` for `request`. */
  function ApplyAction(pending: seq<Request>, request: Request, action: ConflictAction): (next: seq<Request>)
    requires Applicable(action, pending)
    ensures |next| == if action.Push? then |pending| + 1 else |pending|
    ensures action.Push? ==> next[|pending|] == request
    ensures action.Replace? ==> next[action.index] == request
    ensures forall j :: 0 <= j < |pending| && !(action.Replace? && j == action.index) ==> next[j] == pending[j]
  {
    match action
    case Push => pending + [request]
    case Replace(index) => pending[index := request]
    case NoAction => pending
  }

  /** The waiting list after pushing `request`: resolve against it, then apply. */
  function PushPending(pending: seq<Request>, request: Request): seq<Request> {
    ApplyAction(pending, request, Decide(request, pending))
  }

  /** The waiting list after pushing every request of `requests`, one after another. */
  function PushEach(pending: seq<Request>, requests: seq<Request>): seq<Request>
    decreases |requests|
  {
    if requests == [] then pending else PushEach(PushPending(pending, requests[0]), requests[1..])
  }

  /** A request whose push always appends: no resolver, or one that always pushes. */
  predicate AlwaysAppends(request: Request) {
    request.checkAndFixConflictingRequest.None? ||
    request.checkAndFixConflictingRequest == Some(AlwaysPush)
  }

  /** Pushes that never merge keep every request, in push order: n such pushes add n. */
  lemma {:induction false} PushEachAppends(pending: seq<Request>, requests: seq<Request>)
    requires forall k :: 0 <= k < |requests| ==> AlwaysAppends(requests[k])
    ensures PushEach(pending, requests) == pending + requests
    ensures |PushEach(pending, requests)| == |pending| + |requests|
    decreases |requests|
  {
    if requests != [] {
      PushEachAppends(pending + [requests[0]], requests[1..]);
      assert pending + [requests[0]] + requests[1..] == pending + requests;
    }
  }

  /** How many waiting requests carry `command`. */
  function CountCommand(s: seq<Request>, command: string): nat {
    if s == [] then 0
    else (if s[0].command == command then 1 else 0) + CountCommand(s[1..], command)
  }

  lemma {:induction false} CountZero(s: seq<Request>, command: string)
    ensures CountCommand(s, command) == 0 <==> forall j :: 0 <= j < |s| ==> s[j].command != command
  {
    if s != [] {
      CountZero(s[1..], command);
      assert forall j :: 0 < j < |s| ==> s[j] == s[1..][j - 1];
    }
  }

  lemma {:induction false} CountAppend(s: seq<Request>, r: Request, command: string)
    ensures CountCommand(s + [r], command) == CountCommand(s, command) + (if r.command == command then 1 else 0)
  {
    if s != [] {
      CountAppend(s[1..], r, command);
      assert (s + [r])[1..] == s[1..] + [r];
    }
  }

  lemma {:induction false} CountReplaceSame(s: seq<Request>, i: nat, r: Request, command: string)
    requires i < |s| && s[i].command == r.command
    ensures CountCommand(s[i := r], command) == CountCommand(s, command)
  {
    if i > 0 {
      CountReplaceSame(s[1..], i - 1, r, command);
      assert s[i := r][1..] == s[1..][i - 1 := r];
    }
  }

  /** ReconnectApp requests collapse: pushing one with the ReconnectApp resolver adds a
      ReconnectApp only when none is waiting, so at most one ever waits. */
  lemma {:induction false} ReconnectAppCollapses(pending: seq<Request>, request: Request)
    requires request.command == RECONNECT_APP
    requires request.checkAndFixConflictingRequest == Some(ReplaceFirstReconnectApp)
    ensures var n := CountCommand(pending, RECONNECT_APP);
            CountCommand(PushPending(pending, request), RECONNECT_APP) == if n == 0 then 1 else n
    ensures CountCommand(pending, RECONNECT_APP) <= 1 ==> CountCommand(PushPending(pending, request), RECONNECT_APP) == 1
  {
    var action := ReconnectAppResolver(pending).conflictAction;
    CountZero(pending, RECONNECT_APP);
    if action.Push? {
      CountAppend(pending, request, RECONNECT_APP);
    } else {
      CountReplaceSame(pending, action.index, request, RECONNECT_APP);
    }
  }

  /** Over any run of such pushes onto a list holding at most one ReconnectApp, exactly
      one ReconnectApp ends up waiting. */
  lemma {:induction false} ReconnectAppStaysSingle(pending: seq<Request>, requests: seq<Request>)
    requires CountCommand(pending, RECONNECT_APP) <= 1
    requires requests != []
    requires forall k :: 0 <= k < |requests| ==>
               requests[k].command == RECONNECT_APP &&
               requests[k].checkAndFixConflictingRequest == Some(ReplaceFirstReconnectApp)
    ensures CountCommand(PushEach(pending, requests), RECONNECT_APP) == 1
    decreases |requests|
  {
    ReconnectAppCollapses(pending, requests[0]);
    if |requests| > 1 {
      ReconnectAppStaysSingle(PushPending(pending, requests[0]), requests[1..]);
    }
  }
}
