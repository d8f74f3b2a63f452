/**
 * The zero-trust auto-scaling group (lib/zerotrust.ts).  The SSH key name of
 * the launch configuration is replaced by the access policy's name, and the
 * policy is published as EC2 tags that the access gateway reads.
 */
module ZeroTrust {
  import opened Props

  const DefaultAccount: string := "ec2-user"
  const PrincipalsTag: string := "privx-ssh-principals"
  const ExtenderTag: string := "privx-extender"
  const AuditTag: string := "privx-enable-auditing"

  /** `account || 'ec2-user'`: the account on the target host. */
  function SshAccount(p: AccessPolicy): (a: string)
    ensures a != ""
    ensures p.account.Some? && p.account.value != "" ==> a == p.account.value
    ensures p.account == None || p.account == Some("") ==> a == DefaultAccount
  {
    if p.account.Some? && p.account.value != "" then p.account.value else DefaultAccount
  }

  /** The tags the constructor adds for a policy. */
  function PolicyTags(p: AccessPolicy): (tags: map<string, string>)
    ensures PrincipalsTag in tags && tags[PrincipalsTag] == SshAccount(p) + "=" + p.policyName
    ensures ExtenderTag in tags && tags[ExtenderTag] == p.gateway
    ensures AuditTag in tags <==> p.audit == Some(true)
    ensures AuditTag in tags ==> tags[AuditTag] == "yes"
    ensures tags.Keys <= {PrincipalsTag, ExtenderTag, AuditTag}
  {
    var tags := map[PrincipalsTag := SshAccount(p) + "=" + p.policyName, ExtenderTag := p.gateway];
    if p.audit == Some(true) then tags[AuditTag := "yes"] else tags
  }

  /** Reads an `account=policy` tag value back, splitting it at its first '='. */
  function SplitAtEquals(s: string): (r: Option<(string, string)>)
    ensures r.Some? <==> '=' in s
    ensures r.Some? ==> '=' !in r.value.0 && r.value.0 + "=" + r.value.1 == s
  {
    if s == [] then None
    else if s[0] == '=' then Some(([], s[1..]))
    else match SplitAtEquals(s[1..])
      case None => None
      case Some(parts) => Some(([s[0]] + parts.0, parts.1))
  }

  /** An account name without '=' and a policy name are recovered from the principals tag. */
  lemma {:induction false} PrincipalsRoundTrip(account: string, policyName: string)
    requires '=' !in account
    ensures SplitAtEquals(account + "=" + policyName) == Some((account, policyName))
  {
    var s := account + "=" + policyName;
    if account == [] {
      assert s[0] == '=' && s[1..] == policyName;
    } else {
      assert s[0] == account[0] && s[1..] == account[1..] + "=" + policyName;
      assert '=' !in account[1..] by {
        assert forall c :: c in account[1..] ==> c in account;
      }
      PrincipalsRoundTrip(account[1..], policyName);
      assert [account[0]] + account[1..] == account;
    }
  }

  /** The principals tag of a policy whose account has no '=' names that account and the policy. */
  lemma PrincipalsTagReadsBack(p: AccessPolicy)
    requires '=' !in SshAccount(p)
    ensures SplitAtEquals(PolicyTags(p)[PrincipalsTag]) == Some((SshAccount(p), p.policyName))
  {
    PrincipalsRoundTrip(SshAccount(p), p.policyName);
  }

  /** A props object that carries its access policy, as AutoScalingGroupProps requires. */
  predicate HoldsPolicy(props: Object)
  {
    "zeroTrustAccessPolicy" in props && props["zeroTrustAccessPolicy"].Policy?
  }

  /** `{ ...other, keyName: policyName }` after taking zeroTrustAccessPolicy out. */
  function LaunchProps(props: Object): (r: Object)
    requires HoldsPolicy(props)
    ensures Get(r, "keyName") == Some(Str(props["zeroTrustAccessPolicy"].policy.policyName))
    ensures "zeroTrustAccessPolicy" !in r
    ensures forall k :: k != "keyName" && k != "zeroTrustAccessPolicy" ==> Get(r, k) == Get(props, k)
  {
    var other := Strip(props, {"zeroTrustAccessPolicy"});
    Spread(other, map["keyName" := Str(props["zeroTrustAccessPolicy"].policy.policyName)])
  }

  /** The AutoScalingGroup construct: the props its base receives and the tags added to it. */
  class AutoScalingGroup {
    const launchProps: Object
    var tags: map<string, string>

    constructor (props: Object)
      requires HoldsPolicy(props)
      ensures launchProps == LaunchProps(props)
      ensures tags == PolicyTags(props["zeroTrustAccessPolicy"].policy)
    {
      var policy := props["zeroTrustAccessPolicy"].policy;
      launchProps := LaunchProps(props);
      tags := map[];
      new;
      var sshAccount := SshAccount(policy);
      AddTag(PrincipalsTag, sshAccount + "=" + policy.policyName);
      AddTag(ExtenderTag, policy.gateway);
      if policy.audit == Some(true) {
        AddTag(AuditTag, "yes");
      }
    }

    /** Tag.add */
    method AddTag(key: string, value: string)
      modifies this
      ensures tags == old(tags)[key := value]
    {
      tags := tags[key := value];
    }
  }
}
