/**
 * The encrypted DynamoDB table (lib/dynamodb.ts): the table is always
 * encrypted with a customer-managed key, the caller's.
 */
module DynamoDb {
  import opened Props

  /** ddb.TableEncryption.CUSTOMER_MANAGED */
  const CUSTOMER_MANAGED: Value := Enum("TableEncryption.CUSTOMER_MANAGED")

  /**
   * `{ ...other, encryption: CUSTOMER_MANAGED, encryptionKey: kmsKey }` after taking kmsKey out.
   * The pinned properties follow the spread, so they win even over an encryption or
   * encryptionKey smuggled into the caller's props.
   */
  function TableProps(props: Object): (r: Object)
    requires HoldsKey(props, "kmsKey")
    ensures Get(r, "encryption") == Some(CUSTOMER_MANAGED)
    ensures Get(r, "encryptionKey") == Some(props["kmsKey"])
    ensures "kmsKey" !in r
    ensures forall k :: k != "kmsKey" && k != "encryption" && k != "encryptionKey" ==> Get(r, k) == Get(props, k)
  {
    var other := Strip(props, {"kmsKey"});
    Spread(other, map["encryption" := CUSTOMER_MANAGED, "encryptionKey" := props["kmsKey"]])
  }

  /** Two callers with the same key and the same other props get the same table, whatever encryption they asked for. */
  lemma {:induction false} EncryptionIgnoresCaller(a: Object, b: Object)
    requires HoldsKey(a, "kmsKey") && HoldsKey(b, "kmsKey") && a["kmsKey"] == b["kmsKey"]
    requires forall k :: k != "encryption" && k != "encryptionKey" ==> Get(a, k) == Get(b, k)
    ensures TableProps(a) == TableProps(b)
  {
    var ra, rb := TableProps(a), TableProps(b);
    forall k
      ensures Get(ra, k) == Get(rb, k)
    {
    }
    SameProperties(ra, rb);
  }
}
