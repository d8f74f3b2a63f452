/**
 * The encrypted log-group construct (lib/logs.ts).  CloudFormation cannot
 * attach a KMS key to a log group, so the construct deploys the handler of
 * module LogHandler as a Lambda function with a role allowed to manage log
 * groups, and a custom resource whose properties the handler receives.
 */
module Logs {
  import opened Props
  import opened Iam
  import LogHandler

  /** The handler Lambda's fixed settings. */
  const HandlerTimeoutSeconds: nat := 300
  const HandlerRuntime: string := "nodejs12.x"
  const HandlerEntry: string := "index.handler"
  const BasicExecutionRole: string := "service-role/AWSLambdaBasicExecutionRole"

  /**
   * The custom resource's properties: `const { kmsKey, ...other } = props` and then
   * `{ region, kmsKeyId: kmsKey.keyArn, ...other }`.  The spread comes last, so a
   * `region` or `kmsKeyId` in the caller's props (LogGroupProps declares neither) wins.
   */
  function CustomResourceProperties(props: Object, region: Value): (r: Object)
    requires HoldsKey(props, "kmsKey")
    ensures "kmsKey" !in r
    ensures Get(r, "region") == Some(if "region" in props then props["region"] else region)
    ensures Get(r, "kmsKeyId") == Some(if "kmsKeyId" in props then props["kmsKeyId"] else Str(props["kmsKey"].key.keyArn))
    ensures forall k :: k != "kmsKey" && k != "region" && k != "kmsKeyId" ==> Get(r, k) == Get(props, k)
  {
    var other := Strip(props, {"kmsKey"});
    Spread(map["region" := region, "kmsKeyId" := Str(props["kmsKey"].key.keyArn)], other)
  }

  /** allowLogGroup: the handler role's statement. */
  function AllowLogGroup(): Statement
  {
    Statement(Allow, [], ["logs:Create*", "logs:PutRetentionPolicy", "logs:Delete*"], ["*"], [])
  }

  /** Which actions each of the role's three patterns matches. */
  lemma AllowLogGroupPatterns(action: string)
    ensures Glob("logs:Create*", action) <==> "logs:Create" <= action
    ensures Glob("logs:PutRetentionPolicy", action) <==> action == "logs:PutRetentionPolicy"
    ensures Glob("logs:Delete*", action) <==> "logs:Delete" <= action
  {
    assert "logs:Create*" == "logs:Create" + "*";
    GlobLiteralPrefix("logs:Create", action);
    GlobLiteral("logs:PutRetentionPolicy", action);
    assert "logs:Delete*" == "logs:Delete" + "*";
    GlobLiteralPrefix("logs:Delete", action);
  }

  /** The role may perform exactly logs:Create*, logs:PutRetentionPolicy and logs:Delete*, on any resource. */
  lemma {:induction false} AllowLogGroupScope(req: Request)
    ensures Evaluate([AllowLogGroup()], req) == Allowed <==>
      "logs:Create" <= req.action || req.action == "logs:PutRetentionPolicy" || "logs:Delete" <= req.action
  {
    var st := AllowLogGroup();
    GlobAny(req.resource);
    assert ResourceMatches(st, req.resource) by { assert Glob(st.resources[0], req.resource); }
    AllowLogGroupPatterns(req.action);
    assert ActionMatches(st, req.action) <==>
      Glob(st.actions[0], req.action) || Glob(st.actions[1], req.action) || Glob(st.actions[2], req.action);
    assert Evaluate([st], req) == Allowed <==> Grants(st, req);
  }

  /** The role allows each of the three API calls the handler makes. */
  lemma {:induction false} RoleAllowsEveryCall(c: LogHandler.Call, req: Request)
    requires req.action == LogHandler.Action(c)
    ensures Evaluate([AllowLogGroup()], req) == Allowed
  {
    AllowLogGroupScope(req);
    match c
    case CreateLogGroup(_, _) =>
      var rest := "LogGroup";
      assert req.action == "logs:Create" + rest;
    case PutRetentionPolicy(_, _) =>
    case DeleteLogGroup(_) =>
      var rest := "LogGroup";
      assert req.action == "logs:Delete" + rest;
  }

  /** Every call the handler can make is allowed by the role the construct gives it. */
  lemma {:induction false} RoleCoversHandler(logs: LogHandler.Provider, event: LogHandler.Event, i: nat, req: Request)
    requires i < |LogHandler.Handler(logs, event).calls|
    requires req.action == LogHandler.Action(LogHandler.Handler(logs, event).calls[i])
    ensures Evaluate([AllowLogGroup()], req) == Allowed
  {
    RoleAllowsEveryCall(LogHandler.Handler(logs, event).calls[i], req);
  }

  /**
   * RemovalPolicy.DESTROY is the only removal policy that deletes the log group: the
   * construct forwards the caller's removalPolicy, and a Delete event carrying it under
   * RemovalPolicy (the framework's rename of the key) deletes exactly when it is "destroy".
   */
  lemma {:induction false} DestroyReachesHandler(props: Object, region: Value, logs: LogHandler.Provider, event: LogHandler.Event)
    requires HoldsKey(props, "kmsKey")
    requires event.requestType == "Delete" && event.resourceProperties.Some?
    requires Get(LogHandler.Properties(event), "RemovalPolicy") == Get(CustomResourceProperties(props, region), "removalPolicy")
    requires Get(LogHandler.Properties(event), "LogGroupName") == Get(CustomResourceProperties(props, region), "logGroupName")
    ensures LogHandler.Handler(logs, event).calls ==
      if Get(props, "removalPolicy") == Some(DESTROY) then [LogHandler.DeleteLogGroup(Get(props, "logGroupName"))] else []
  {
    LogHandler.DeleteOnlyOnDestroy(logs, event);
  }

  /** An IAM role whose policy is extended in place. */
  class Role {
    const assumedBy: Principal
    var statements: seq<Statement>
    var managedPolicies: seq<string>

    constructor (assumedBy: Principal)
      ensures this.assumedBy == assumedBy
      ensures statements == [] && managedPolicies == []
    {
      this.assumedBy := assumedBy;
      statements, managedPolicies := [], [];
    }

    /** addToPolicy */
    method AddToPolicy(st: Statement)
      modifies this
      ensures statements == old(statements) + [st]
      ensures managedPolicies == old(managedPolicies)
    {
      statements := statements + [st];
    }

    /** addManagedPolicy */
    method AddManagedPolicy(name: string)
      modifies this
      ensures managedPolicies == old(managedPolicies) + [name]
      ensures statements == old(statements)
    {
      managedPolicies := managedPolicies + [name];
    }
  }

  /** The LogGroup construct: its name, the handler's role and settings, and the custom resource's properties. */
  class LogGroup {
    const logGroupName: Option<Value>
    const role: Role
    const timeoutSeconds: nat
    const runtime: string
    const handler: string
    const properties: Object

    constructor (props: Object, region: string)
      requires HoldsKey(props, "kmsKey")
      ensures logGroupName == Get(props, "logGroupName")
      ensures fresh(role) && role.assumedBy == ServicePrincipal("lambda." + region + ".amazonaws.com")
      ensures role.statements == [AllowLogGroup()] && role.managedPolicies == [BasicExecutionRole]
      ensures timeoutSeconds == HandlerTimeoutSeconds && runtime == HandlerRuntime && handler == HandlerEntry
      ensures properties == CustomResourceProperties(props, Str(region))
    {
      logGroupName := Get(props, "logGroupName");
      role := new Role(ServicePrincipal("lambda." + region + ".amazonaws.com"));
      timeoutSeconds := HandlerTimeoutSeconds;
      runtime := HandlerRuntime;
      handler := HandlerEntry;
      properties := CustomResourceProperties(props, Str(region));
      new;
      role.AddToPolicy(AllowLogGroup());
      role.AddManagedPolicy(BasicExecutionRole);
    }

    /** The construct as a value inside another construct's props. */
    function Ref(): Value
    {
      LogGroupRef(logGroupName)
    }
  }
}
