/**
 * The encrypted EFS file system (lib/efs.ts): the caller must name a KMS key,
 * and the synthesized file system is always encrypted with it.
 */
module Efs {
  import opened Props

  /** The properties taken out of the caller's props before the base file system sees them. */
  const Stripped: set<string> := {"encrypted", "kmsKey", "kmsKeyId"}

  /** `const { encrypted, kmsKey, kmsKeyId, ...other } = props`: the props of the base file system. */
  function FileSystemBaseProps(props: Object): (r: Object)
    ensures "encrypted" !in r && "kmsKey" !in r && "kmsKeyId" !in r
    ensures forall k :: k !in Stripped ==> Get(r, k) == Get(props, k)
  {
    Strip(props, Stripped)
  }

  /** CryptoFileSystemProps declares kmsKeyId as a required string. */
  predicate HoldsKeyId(props: Object)
  {
    "kmsKeyId" in props && props["kmsKeyId"].Str?
  }

  /** The CryptoFileSystem construct: its base props and the two fields it overwrites on its CfnFileSystem. */
  class CryptoFileSystem {
    const baseProps: Object
    var encrypted: Option<bool>
    var kmsKeyId: Option<string>

    constructor (props: Object)
      requires HoldsKeyId(props)
      ensures baseProps == FileSystemBaseProps(props)
      ensures encrypted == Some(true)
      ensures kmsKeyId == Some(props["kmsKeyId"].s)
    {
      baseProps := FileSystemBaseProps(props);
      new;
      encrypted := Some(true);
      kmsKeyId := Some(props["kmsKeyId"].s);
    }
  }
}
