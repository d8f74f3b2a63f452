/**
 * The custom-resource handler that attaches a KMS key and a retention period
 * to a CloudWatch Logs log group (lib/cfn/logs.js).
 *
 * CloudFormation invokes the handler once per lifecycle event of the
 * resource.  The handler calls the CloudWatch Logs API and then reports the
 * result with a single `cfn.send`.  Here the API is a `Provider`: a total
 * function from a call to the way its promise settles.  An invocation is a
 * `Run`: the calls in the order they were made, and the response sent, if any.
 */
module LogHandler {
  import opened Props

  /** A CloudWatch Logs API call; a `None` argument is `undefined`. */
  datatype Call =
    | CreateLogGroup(logGroupName: Option<Value>, kmsKeyId: Option<Value>)
    | PutRetentionPolicy(logGroupName: Option<Value>, retentionInDays: Option<Value>)
    | DeleteLogGroup(logGroupName: Option<Value>)

  /** How the promise returned by a call settles. */
  datatype Outcome = Resolved(value: Value) | Rejected(reason: Value)

  /** The CloudWatch Logs client: each call either resolves or rejects. */
  type Provider = Call -> Outcome

  datatype Status = SUCCESS | FAILED

  /** The response data object: `{}`, `{ data }` or `{ reason }`. */
  datatype ResponseData = NoData | DataOf(data: Value) | ReasonOf(reason: Value)

  datatype Response = Response(status: Status, data: ResponseData, physicalResourceId: Option<Value>)

  /** The request; `None` stands for a request without ResourceProperties. */
  datatype Event = Event(requestType: string, resourceProperties: Option<Object>)

  /** The request's ResourceProperties, for a request that has them. */
  function Properties(event: Event): Object
    requires event.resourceProperties.Some?
  {
    event.resourceProperties.value
  }

  /** One invocation: the provider calls in order, then the one response it sent, if it sent one. */
  datatype Run = Run(calls: seq<Call>, response: Option<Response>)

  /** A promise chain of provider calls: the calls made and how the chain settles. */
  datatype Chain = Chain(calls: seq<Call>, outcome: Outcome)

  /** The IAM action that authorises a call. */
  function Action(c: Call): string
  {
    match c
    case CreateLogGroup(_, _) => "logs:CreateLogGroup"
    case PutRetentionPolicy(_, _) => "logs:PutRetentionPolicy"
    case DeleteLogGroup(_) => "logs:DeleteLogGroup"
  }

  /** `create`: createLogGroup, and only once it resolves, putRetentionPolicy on the same group. */
  function Create(logs: Provider, props: Object): (c: Chain)
    ensures 1 <= |c.calls| <= 2
    ensures c.calls[0] == CreateLogGroup(Get(props, "LogGroupName"), Get(props, "KmsKeyId"))
    ensures |c.calls| == 2 <==> logs(c.calls[0]).Resolved?
    ensures |c.calls| == 2 ==> c.calls[1] == PutRetentionPolicy(Get(props, "LogGroupName"), Get(props, "Retention"))
    ensures c.outcome == logs(c.calls[|c.calls| - 1])
  {
    var name := Get(props, "LogGroupName");
    var createGroup := CreateLogGroup(name, Get(props, "KmsKeyId"));
    match logs(createGroup)
    case Rejected(reason) => Chain([createGroup], Rejected(reason))
    case Resolved(_) =>
      var putRetention := PutRetentionPolicy(name, Get(props, "Retention"));
      Chain([createGroup, putRetention], logs(putRetention))
  }

  /** `remove`: deleteLogGroup only when the removal policy is "destroy"; otherwise resolves with true. */
  function Remove(logs: Provider, props: Object): (c: Chain)
    ensures Get(props, "RemovalPolicy") != Some(DESTROY) ==> c == Chain([], Resolved(Bool(true)))
    ensures Get(props, "RemovalPolicy") == Some(DESTROY) ==>
      c.calls == [DeleteLogGroup(Get(props, "LogGroupName"))] && c.outcome == logs(c.calls[0])
  {
    if Get(props, "RemovalPolicy") != Some(DESTROY) then Chain([], Resolved(Bool(true)))
    else
      var deleteGroup := DeleteLogGroup(Get(props, "LogGroupName"));
      Chain([deleteGroup], logs(deleteGroup))
  }

  /** `.then(data => send(SUCCESS, { data })).catch(reason => send(FAILED, { reason }))`. */
  function Settle(outcome: Outcome, id: Option<Value>): Response
  {
    match outcome
    case Resolved(data) => Response(SUCCESS, DataOf(data), id)
    case Rejected(reason) => Response(FAILED, ReasonOf(reason), id)
  }

  /**
   * `handler`: the switch on RequestType; a type matching no case falls through without
   * a response.  Destructuring a missing ResourceProperties throws before anything is done.
   */
  function Handler(logs: Provider, event: Event): (run: Run)
    ensures |run.calls| <= 2
    ensures run.response.Some? ==>
      event.resourceProperties.Some? &&
      run.response.value.physicalResourceId == Get(Properties(event), "LogGroupName")
  {
    if event.resourceProperties.None? then Run([], None)
    else
    var props := Properties(event);
    var id := Get(props, "LogGroupName");
    if event.requestType == "Create" then
      var chain := Create(logs, props);
      Run(chain.calls, Some(Settle(chain.outcome, id)))
    else if event.requestType == "Update" then
      Run([], Some(Response(SUCCESS, NoData, id)))
    else if event.requestType == "Delete" then
      var chain := Remove(logs, props);
      Run(chain.calls, Some(Settle(chain.outcome, id)))
    else
      Run([], None)
  }

  predicate IsLifecycleType(requestType: string)
  {
    requestType == "Create" || requestType == "Update" || requestType == "Delete"
  }

  /** Create: createLogGroup(LogGroupName, KmsKeyId) first, then putRetentionPolicy(LogGroupName, Retention) only if it resolved. */
  lemma CreateOrder(logs: Provider, event: Event)
    requires event.resourceProperties.Some?
    requires event.requestType == "Create"
    ensures var run, props := Handler(logs, event), Properties(event);
      var createGroup := CreateLogGroup(Get(props, "LogGroupName"), Get(props, "KmsKeyId"));
      var putRetention := PutRetentionPolicy(Get(props, "LogGroupName"), Get(props, "Retention"));
      && (logs(createGroup).Resolved? ==>
            run.calls == [createGroup, putRetention] && run.response == Some(Settle(logs(putRetention), Get(props, "LogGroupName"))))
      && (logs(createGroup).Rejected? ==>
            run.calls == [createGroup] &&
            run.response == Some(Response(FAILED, ReasonOf(logs(createGroup).reason), Get(props, "LogGroupName"))))
  {
  }

  /** Across every kind of event, a retention call is made only right after a createLogGroup for the same group resolved. */
  lemma RetentionOnlyAfterCreate(logs: Provider, event: Event, i: nat)
    requires i < |Handler(logs, event).calls|
    requires Handler(logs, event).calls[i].PutRetentionPolicy?
    ensures var calls := Handler(logs, event).calls;
      i == 1 && calls[0].CreateLogGroup? && logs(calls[0]).Resolved? &&
      calls[0].logGroupName == calls[i].logGroupName
  {
  }

  /** Update makes no call and succeeds with empty data. */
  lemma UpdateIsNoOp(logs: Provider, event: Event)
    requires event.resourceProperties.Some?
    requires event.requestType == "Update"
    ensures Handler(logs, event) ==
      Run([], Some(Response(SUCCESS, NoData, Get(Properties(event), "LogGroupName"))))
  {
  }

  /** Delete calls deleteLogGroup exactly when the removal policy is "destroy"; otherwise it succeeds with { data: true }. */
  lemma DeleteOnlyOnDestroy(logs: Provider, event: Event)
    requires event.resourceProperties.Some?
    requires event.requestType == "Delete"
    ensures var run, props := Handler(logs, event), Properties(event);
      var id := Get(props, "LogGroupName");
      && (Get(props, "RemovalPolicy") == Some(DESTROY) ==>
            run.calls == [DeleteLogGroup(id)] && run.response == Some(Settle(logs(DeleteLogGroup(id)), id)))
      && (Get(props, "RemovalPolicy") != Some(DESTROY) ==>
            run.calls == [] && run.response == Some(Response(SUCCESS, DataOf(Bool(true)), id)))
  {
  }

  /** No event of any kind deletes the log group unless it is a Delete whose removal policy is "destroy". */
  lemma DeletionNeedsDestroy(logs: Provider, event: Event)
    ensures (exists i :: 0 <= i < |Handler(logs, event).calls| && Handler(logs, event).calls[i].DeleteLogGroup?) <==>
      event.requestType == "Delete" && event.resourceProperties.Some? &&
      Get(Properties(event), "RemovalPolicy") == Some(DESTROY)
  {
    var run := Handler(logs, event);
    if event.requestType == "Delete" && event.resourceProperties.Some? &&
       Get(Properties(event), "RemovalPolicy") == Some(DESTROY) {
      assert run.calls[0].DeleteLogGroup?;
    }
  }

  /**
   * Exactly one response for Create, Update and Delete, none for any other type and none when
   * ResourceProperties is missing; the response's id is always LogGroupName.
   */
  lemma OneResponse(logs: Provider, event: Event)
    ensures var run := Handler(logs, event);
      && (run.response.Some? <==> event.resourceProperties.Some? && IsLifecycleType(event.requestType))
      && (run.response.Some? ==> run.response.value.physicalResourceId == Get(Properties(event), "LogGroupName"))
      && (run.response.None? ==> run.calls == [])
  {
  }

  /** The response is FAILED exactly when a call was rejected; it carries the reason of that call, which was the last one. */
  lemma FailedIffRejected(logs: Provider, event: Event)
    requires event.resourceProperties.Some?
    requires IsLifecycleType(event.requestType)
    ensures var run := Handler(logs, event);
      && run.response.Some?
      && (run.response.value.status == FAILED <==> exists i :: 0 <= i < |run.calls| && logs(run.calls[i]).Rejected?)
      && (run.response.value.status == FAILED ==>
            run.response.value.data == ReasonOf(logs(run.calls[|run.calls| - 1]).reason))
  {
    var run := Handler(logs, event);
    if event.requestType == "Create" {
      var chain := Create(logs, Properties(event));
      assert forall i :: 0 <= i < |run.calls| - 1 ==> logs(run.calls[i]).Resolved?;
    }
  }
}
