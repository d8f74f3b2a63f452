/**
 * JavaScript property bags as the compliance wrappers handle them.
 *
 * Every wrapper receives a props object, pulls some properties out with a
 * destructuring pattern (`const { a, b, ...rest } = props`) and builds a new
 * object with an object literal and a spread (`{ x: 1, ...rest }`).  Here an
 * object is a finite map from property names to values; a missing key is
 * `undefined`.  The order of a literal's parts matters: a later property or
 * spread overrides an earlier one, which `Spread` makes explicit.
 */
module Props {

  datatype Option<+T> = None | Some(value: T)

  /** A KMS key or alias: the wrappers read only its alias name and its ARN. */
  datatype KmsKey = KmsKey(aliasName: string, keyArn: string)

  /** The zero-trust access policy of an auto-scaling group (lib/zerotrust.ts). */
  datatype AccessPolicy = AccessPolicy(
    policyName: string,
    gateway: string,
    account: Option<string>,
    audit: Option<bool>)

  /** The values that occur as properties of the wrappers' props. */
  datatype Value =
    | Str(s: string)
    | Num(n: int)
    | Bool(b: bool)
    | Enum(name: string)                     // a named constant of the framework, e.g. BlockPublicAccess.BLOCK_ALL
    | Key(key: KmsKey)                       // a KMS key or alias object
    | Policy(policy: AccessPolicy)           // a zero-trust access policy document
    | LogGroupRef(logGroupName: Option<Value>) // a c3 LogGroup construct, of which only logGroupName is read
    | Opaque(id: nat)                        // any other object (SDK results, errors, VPCs, ...)

  type Object = map<string, Value>

  /** The framework's RemovalPolicy enumeration: its members are these strings. */
  const DESTROY: Value := Str("destroy")
  const RETAIN: Value := Str("retain")

  /** Property access `o.name`; `None` is `undefined`. */
  function Get(o: Object, name: string): (r: Option<Value>)
    ensures r.Some? <==> name in o
    ensures name in o ==> r.value == o[name]
  {
    if name in o then Some(o[name]) else None
  }

  /** The rest object of `const { n1, ..., nk, ...rest } = o`, where names = {n1, ..., nk}. */
  function Strip(o: Object, names: set<string>): (rest: Object)
    ensures rest.Keys == o.Keys - names
    ensures forall k :: k in rest ==> rest[k] == o[k]
  {
    map k | k in o && k !in names :: o[k]
  }

  /** The object literal `{ ...a, ...b }`: every property of b overrides the one of a. */
  function Spread(a: Object, b: Object): (r: Object)
    ensures r.Keys == a.Keys + b.Keys
    ensures forall k :: k in b ==> r[k] == b[k]
    ensures forall k :: k in a && k !in b ==> r[k] == a[k]
  {
    a + b
  }

  /** JavaScript truthiness of a possibly undefined value. */
  predicate Truthy(v: Option<Value>)
  {
    match v
    case None => false
    case Some(Str(s)) => s != ""
    case Some(Num(n)) => n != 0
    case Some(Bool(b)) => b
    case Some(_) => true
  }

  /** The expression `v || fallback`. */
  function Or(v: Option<Value>, fallback: Value): (r: Value)
    ensures Truthy(v) ==> v == Some(r)
    ensures !Truthy(v) ==> r == fallback
  {
    if Truthy(v) then v.value else fallback
  }

  /** A property that holds a KMS key object, as the wrappers' `kmsKey` must. */
  predicate HoldsKey(o: Object, name: string)
  {
    name in o && o[name].Key?
  }

  /** Two objects with the same properties are the same object. */
  lemma {:induction false} SameProperties(a: Object, b: Object)
    requires forall k :: Get(a, k) == Get(b, k)
    ensures a == b
  {
    forall k
      ensures k in a <==> k in b
    {
      assert Get(a, k).Some? <==> Get(b, k).Some?;
    }
    forall k | k in a
      ensures a[k] == b[k]
    {
      assert Get(a, k) == Get(b, k);
    }
  }
}
