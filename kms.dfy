/**
 * The symmetric KMS key wrapper (lib/kms.ts): key rotation, account trust and
 * retention are pinned whatever the caller passes, the alias defaults to the
 * construct id, and CloudWatch Logs can be granted the use of the key.
 */
module Kms {
  import opened Props
  import opened Iam

  /** The properties symmetricKeyProps takes out of the caller's props and pins. */
  const Pinned: set<string> := {"enableKeyRotation", "trustAccountIdentities", "removalPolicy"}

  /** symmetricKeyProps: rotation on, account identities trusted, key retained; every other property kept. */
  function SymmetricKeyProps(props: Object): (r: Object)
    ensures Get(r, "enableKeyRotation") == Some(Bool(true))
    ensures Get(r, "trustAccountIdentities") == Some(Bool(true))
    ensures Get(r, "removalPolicy") == Some(RETAIN)
    ensures forall k :: k !in Pinned ==> Get(r, k) == Get(props, k)
  {
    var rest := Strip(props, Pinned);
    Spread(map["enableKeyRotation" := Bool(true), "trustAccountIdentities" := Bool(true), "removalPolicy" := RETAIN], rest)
  }

  /** Whatever the caller passed for the pinned properties, the result is the same. */
  lemma {:induction false} PinnedIgnoreCaller(a: Object, b: Object)
    requires forall k :: k !in Pinned ==> Get(a, k) == Get(b, k)
    ensures SymmetricKeyProps(a) == SymmetricKeyProps(b)
  {
    var ra, rb := SymmetricKeyProps(a), SymmetricKeyProps(b);
    forall k
      ensures Get(ra, k) == Get(rb, k)
    {
      if k in Pinned {
        assert k == "enableKeyRotation" || k == "trustAccountIdentities" || k == "removalPolicy";
      }
    }
    SameProperties(ra, rb);
  }

  /** symmetricKeyProps is idempotent. */
  lemma {:induction false} SymmetricKeyPropsIdempotent(props: Object)
    ensures SymmetricKeyProps(SymmetricKeyProps(props)) == SymmetricKeyProps(props)
  {
    PinnedIgnoreCaller(SymmetricKeyProps(props), props);
  }

  /** The props the SymmetricKey constructor hands to kms.Key: symmetricKeyProps({ alias: alias || id, ...other }). */
  function KeyProps(id: string, props: Object): (r: Object)
    ensures Truthy(Get(props, "alias")) ==> Get(r, "alias") == Get(props, "alias")
    ensures !Truthy(Get(props, "alias")) ==> Get(r, "alias") == Some(Str(id))
    ensures Get(r, "enableKeyRotation") == Some(Bool(true))
    ensures Get(r, "trustAccountIdentities") == Some(Bool(true))
    ensures Get(r, "removalPolicy") == Some(RETAIN)
    ensures forall k :: k !in Pinned && k != "alias" ==> Get(r, k) == Get(props, k)
  {
    var other := Strip(props, {"alias"});
    SymmetricKeyProps(Spread(map["alias" := Or(Get(props, "alias"), Str(id))], other))
  }

  /** The five action patterns granted to CloudWatch Logs, and the prefixes they stand for. */
  const LogsActions: seq<string> := ["kms:Encrypt*", "kms:Decrypt*", "kms:ReEncrypt*", "kms:GenerateDataKey*", "kms:Describe*"]
  const LogsActionPrefixes: seq<string> := ["kms:Encrypt", "kms:Decrypt", "kms:ReEncrypt", "kms:GenerateDataKey", "kms:Describe"]

  /** The CloudWatch Logs service principal of a region. */
  function LogsService(region: string): Principal
  {
    ServicePrincipal("logs." + region + ".amazonaws.com")
  }

  /** The key-policy statement that grantEncryptDecryptLogs adds. */
  function LogsGrant(region: string): Statement
  {
    Statement(Allow, [LogsService(region)], LogsActions, ["*"], [])
  }

  /**
   * The grant lets exactly the regional CloudWatch Logs service perform exactly the actions
   * that start with kms:Encrypt, kms:Decrypt, kms:ReEncrypt, kms:GenerateDataKey or kms:Describe.
   */
  lemma {:induction false} LogsGrantScope(region: string, req: Request)
    ensures Evaluate([LogsGrant(region)], req) == Allowed <==>
      req.principal == LogsService(region) &&
      exists i :: 0 <= i < |LogsActionPrefixes| && LogsActionPrefixes[i] <= req.action
  {
    var st := LogsGrant(region);
    GlobAny(req.resource);
    assert ResourceMatches(st, req.resource) by { assert Glob(st.resources[0], req.resource); }
    forall i | 0 <= i < |LogsActions|
      ensures Glob(LogsActions[i], req.action) <==> LogsActionPrefixes[i] <= req.action
    {
      assert LogsActions[i] == LogsActionPrefixes[i] + "*";
      GlobLiteralPrefix(LogsActionPrefixes[i], req.action);
    }
    if req.principal == LogsService(region) {
      assert st.principals[0] == req.principal;
    }
    if PrincipalMatches(st, req.principal) {
      var i :| 0 <= i < |st.principals| && (st.principals[i] == AnyPrincipal || st.principals[i] == req.principal);
      assert i == 0;
    }
  }

  /** A SymmetricKey construct: its key properties and the statements it adds to its key policy. */
  class SymmetricKey {
    const props: Object
    var policy: seq<Statement>

    constructor (id: string, props: Object)
      ensures this.props == KeyProps(id, props)
      ensures policy == []
    {
      this.props := KeyProps(id, props);
      policy := [];
    }

    /** grantEncryptDecryptLogs: appends the CloudWatch Logs grant to the key policy. */
    method GrantEncryptDecryptLogs(region: string)
      modifies this
      ensures policy == old(policy) + [LogsGrant(region)]
    {
      policy := policy + [LogsGrant(region)];
    }
  }
}
