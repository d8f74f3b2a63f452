/**
 * The encrypted RDS database instance (lib/rds.ts): storage is always
 * encrypted, under the caller's key alias.
 */
module Rds {
  import opened Props

  const Stripped: set<string> := {"storageEncrypted", "kmsKey"}

  /** `const { storageEncrypted, kmsKey, ...other } = props`: the props of the base instance. */
  function InstanceBaseProps(props: Object): (r: Object)
    ensures "storageEncrypted" !in r && "kmsKey" !in r
    ensures forall k :: k !in Stripped ==> Get(r, k) == Get(props, k)
  {
    Strip(props, Stripped)
  }

  /** The DatabaseInstance construct: its base props and the two fields it overwrites on its CfnDBInstance. */
  class DatabaseInstance {
    const baseProps: Object
    var storageEncrypted: Option<bool>
    var kmsKeyId: Option<string>

    constructor (props: Object)
      requires HoldsKey(props, "kmsKey")
      ensures baseProps == InstanceBaseProps(props)
      ensures storageEncrypted == Some(true)
      ensures kmsKeyId == Some(props["kmsKey"].key.aliasName)
    {
      baseProps := InstanceBaseProps(props);
      new;
      storageEncrypted := Some(true);
      kmsKeyId := Some(props["kmsKey"].key.aliasName);
    }
  }
}
