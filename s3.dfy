/**
 * The encrypted S3 bucket (lib/s3.ts): public access is always blocked, the
 * bucket is encrypted with SSE-KMS under the caller's key alias, and a bucket
 * policy denies every request on the bucket's objects that does not use TLS.
 * Requests on the bucket itself (its ARN without `/<key>`) are outside that
 * statement.
 */
module S3 {
  import opened Props
  import opened Iam

  /** s3.BlockPublicAccess.BLOCK_ALL */
  const BLOCK_ALL: Value := Enum("BlockPublicAccess.BLOCK_ALL")

  /** The props the base bucket receives: `{ blockPublicAccess: BLOCK_ALL, ...other }` without kmsKey and blockPublicAccess. */
  function BucketBaseProps(props: Object): (r: Object)
    ensures Get(r, "blockPublicAccess") == Some(BLOCK_ALL)
    ensures "kmsKey" !in r
    ensures forall k :: k != "kmsKey" && k != "blockPublicAccess" ==> Get(r, k) == Get(props, k)
  {
    var other := Strip(props, {"kmsKey", "blockPublicAccess"});
    Spread(map["blockPublicAccess" := BLOCK_ALL], other)
  }

  /** The caller's blockPublicAccess and kmsKey have no influence on the base props. */
  lemma {:induction false} BlockPublicAccessIgnoresCaller(a: Object, b: Object)
    requires forall k :: k != "kmsKey" && k != "blockPublicAccess" ==> Get(a, k) == Get(b, k)
    ensures BucketBaseProps(a) == BucketBaseProps(b)
  {
    var ra, rb := BucketBaseProps(a), BucketBaseProps(b);
    forall k
      ensures Get(ra, k) == Get(rb, k)
    {
    }
    SameProperties(ra, rb);
  }

  const SecureTransport: string := "aws:SecureTransport"

  /** The statement of the `${id}Policy` bucket policy: deny everything on the bucket's objects without TLS. */
  function TlsOnlyStatement(bucketArn: string): Statement
  {
    Statement(Deny, [AnyPrincipal], ["*"], [bucketArn + "/*"], [BoolCondition(SecureTransport, false)])
  }

  /** Any principal, any action on any object of the bucket, without TLS: denied, whatever else the policy says. */
  lemma {:induction false} InsecureAccessDenied(bucketArn: string, key: string, req: Request, others: seq<Statement>)
    requires req.resource == bucketArn + "/" + key
    requires SecureTransport in req.context && !req.context[SecureTransport]
    ensures Evaluate([TlsOnlyStatement(bucketArn)] + others, req) == ExplicitDeny
  {
    var st := TlsOnlyStatement(bucketArn);
    GlobAny(req.action);
    assert ActionMatches(st, req.action) by { assert Glob(st.actions[0], req.action); }
    GlobPrefix(bucketArn + "/", key);
    assert (bucketArn + "/") + "*" == bucketArn + "/*";
    assert (bucketArn + "/") + key == req.resource;
    assert ResourceMatches(st, req.resource) by { assert Glob(st.resources[0], req.resource); }
    assert PrincipalMatches(st, req.principal) by { assert st.principals[0] == AnyPrincipal; }
    assert ConditionsHold(st, req.context);
    assert ([st] + others)[0] == st;
  }

  /** A request made over TLS is decided by the rest of the policy as if the statement were not there. */
  lemma {:induction false} SecureAccessUnaffected(bucketArn: string, req: Request, others: seq<Statement>)
    requires SecureTransport in req.context && req.context[SecureTransport]
    ensures Evaluate([TlsOnlyStatement(bucketArn)] + others, req) == Evaluate(others, req)
  {
    var st := TlsOnlyStatement(bucketArn);
    assert !ConditionHolds(st.conditions[0], req.context);
    assert !Applies(st, req);
    assert ([st] + others)[1..] == others;
  }

  /**
   * The statement names only the objects, `${bucketArn}/<key>`: a request on the bucket itself,
   * such as s3:ListBucket or s3:PutBucketPolicy on the bucket's ARN, is decided by the
   * rest of the policy whether or not it uses TLS.
   */
  lemma {:induction false} BucketLevelRequestsUncovered(bucketArn: string, req: Request, others: seq<Statement>)
    requires Literal(bucketArn)
    requires req.resource == bucketArn
    ensures Evaluate([TlsOnlyStatement(bucketArn)] + others, req) == Evaluate(others, req)
  {
    var st := TlsOnlyStatement(bucketArn);
    var dir := bucketArn + "/";
    assert Literal(dir) by {
      assert forall c :: c in dir ==> c in bucketArn || c == '/';
    }
    GlobLiteralPrefix(dir, req.resource);
    assert dir + "*" == st.resources[0];
    assert !(dir <= req.resource) by { assert |dir| > |req.resource|; }
    assert !ResourceMatches(st, req.resource);
    assert !Applies(st, req);
    assert ([st] + others)[1..] == others;
  }

  /** A bucket policy whose document is extended in place. */
  class BucketPolicy {
    const id: string
    var statements: seq<Statement>

    constructor (id: string)
      ensures this.id == id && statements == []
    {
      this.id := id;
      statements := [];
    }

    /** document.addStatements */
    method AddStatements(st: Statement)
      modifies this
      ensures statements == old(statements) + [st]
    {
      statements := statements + [st];
    }
  }

  /** A default server-side encryption rule of the bucket. */
  datatype SseRule = SseRule(sseAlgorithm: string, kmsMasterKeyId: string)

  /** The Bucket construct: its base props, its TLS-only policy and its encryption configuration. */
  class Bucket {
    const baseProps: Object
    const policy: BucketPolicy
    var bucketEncryption: seq<SseRule>

    constructor (id: string, props: Object, bucketArn: string)
      requires HoldsKey(props, "kmsKey")
      ensures baseProps == BucketBaseProps(props)
      ensures fresh(policy) && policy.id == id + "Policy"
      ensures policy.statements == [TlsOnlyStatement(bucketArn)]
      ensures bucketEncryption == [SseRule("aws:kms", props["kmsKey"].key.aliasName)]
    {
      baseProps := BucketBaseProps(props);
      policy := new BucketPolicy(id + "Policy");
      bucketEncryption := [];
      new;
      policy.AddStatements(TlsOnlyStatement(bucketArn));
      bucketEncryption := [SseRule("aws:kms", props["kmsKey"].key.aliasName)];
    }
  }
}
