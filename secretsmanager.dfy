/**
 * The Secrets Manager secret (lib/secretsmanager.ts): the secret is
 * encrypted under the caller's key alias.
 */
module SecretsManager {
  import opened Props

  /** `const { kmsKey, ...other } = props`: the props of the base secret. */
  function SecretBaseProps(props: Object): (r: Object)
    ensures "kmsKey" !in r
    ensures forall k :: k != "kmsKey" ==> Get(r, k) == Get(props, k)
  {
    Strip(props, {"kmsKey"})
  }

  /** The Secret construct: its base props and the field it overwrites on its CfnSecret. */
  class Secret {
    const baseProps: Object
    var kmsKeyId: Option<string>

    constructor (props: Object)
      requires HoldsKey(props, "kmsKey")
      ensures baseProps == SecretBaseProps(props)
      ensures kmsKeyId == Some(props["kmsKey"].key.aliasName)
    {
      baseProps := SecretBaseProps(props);
      new;
      kmsKeyId := Some(props["kmsKey"].key.aliasName);
    }
  }
}
