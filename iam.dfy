/**
 * The fragment of AWS IAM policy evaluation that the wrappers' policy
 * statements rely on: action and resource patterns with the wildcards `*`
 * and `?`, principals, `Bool` conditions, and "an explicit deny overrides
 * every allow".
 */
module Iam {

  /** IAM pattern matching: `*` matches any run of characters, `?` exactly one. */
  predicate Glob(pattern: string, s: string)
    decreases |pattern| + |s|
  {
    if pattern == [] then s == []
    else if pattern[0] == '*' then Glob(pattern[1..], s) || (s != [] && Glob(pattern, s[1..]))
    else s != [] && (pattern[0] == '?' || pattern[0] == s[0]) && Glob(pattern[1..], s[1..])
  }

  /** A pattern without wildcards. */
  predicate Literal(p: string)
  {
    '*' !in p && '?' !in p
  }

  /** `*` matches everything. */
  lemma {:induction false} GlobAny(s: string)
    ensures Glob("*", s)
  {
    if s != [] {
      GlobAny(s[1..]);
    }
  }

  /** A pattern `p*` matches every string that starts with p, even when p has wildcards itself. */
  lemma {:induction false} GlobPrefix(p: string, rest: string)
    ensures Glob(p + "*", p + rest)
  {
    if p == [] {
      assert p + "*" == "*" && p + rest == rest;
      GlobAny(rest);
    } else {
      var pat, s := p + "*", p + rest;
      assert pat[0] == p[0] && pat[1..] == p[1..] + "*";
      assert s[0] == p[0] && s[1..] == p[1..] + rest;
      GlobPrefix(p[1..], rest);
      if p[0] == '*' {
        assert Glob(pat, s[1..]);
      }
    }
  }

  /** For a literal p, the pattern `p*` matches exactly the strings that start with p. */
  lemma {:induction false} GlobLiteralPrefix(p: string, s: string)
    requires Literal(p)
    ensures Glob(p + "*", s) <==> p <= s
  {
    if p == [] {
      assert p + "*" == "*";
      GlobAny(s);
    } else {
      var pat := p + "*";
      assert pat[0] == p[0] && pat[1..] == p[1..] + "*";
      assert p[0] != '*' && p[0] != '?';
      assert Literal(p[1..]) by {
        assert forall c :: c in p[1..] ==> c in p;
      }
      if s != [] {
        GlobLiteralPrefix(p[1..], s[1..]);
        assert p <= s <==> p[0] == s[0] && p[1..] <= s[1..];
      }
    }
  }

  /** A literal pattern matches only itself. */
  lemma {:induction false} GlobLiteral(p: string, s: string)
    requires Literal(p)
    ensures Glob(p, s) <==> p == s
  {
    if p != [] {
      assert p[0] != '*' && p[0] != '?';
      assert Literal(p[1..]) by {
        assert forall c :: c in p[1..] ==> c in p;
      }
      if s != [] {
        GlobLiteral(p[1..], s[1..]);
        assert p == s <==> p[0] == s[0] && p[1..] == s[1..];
      }
    }
  }

  datatype Effect = Allow | Deny

  datatype Principal =
    | AnyPrincipal                   // `*`
    | ServicePrincipal(service: string)
    | ArnPrincipal(arn: string)

  /** A `Bool` condition: the request context key must be present with this value. */
  datatype Condition = BoolCondition(key: string, value: bool)

  /** A policy statement; no principals means an identity policy, which applies to its holder. */
  datatype Statement = Statement(
    effect: Effect,
    principals: seq<Principal>,
    actions: seq<string>,
    resources: seq<string>,
    conditions: seq<Condition>)

  datatype Request = Request(principal: Principal, action: string, resource: string, context: map<string, bool>)

  datatype Decision = Allowed | ExplicitDeny | ImplicitDeny

  predicate PrincipalMatches(st: Statement, p: Principal)
  {
    st.principals == [] ||
    exists i :: 0 <= i < |st.principals| && (st.principals[i] == AnyPrincipal || st.principals[i] == p)
  }

  predicate ActionMatches(st: Statement, action: string)
  {
    exists i :: 0 <= i < |st.actions| && Glob(st.actions[i], action)
  }

  predicate ResourceMatches(st: Statement, resource: string)
  {
    exists i :: 0 <= i < |st.resources| && Glob(st.resources[i], resource)
  }

  predicate ConditionHolds(c: Condition, context: map<string, bool>)
  {
    c.key in context && context[c.key] == c.value
  }

  predicate ConditionsHold(st: Statement, context: map<string, bool>)
  {
    forall i :: 0 <= i < |st.conditions| ==> ConditionHolds(st.conditions[i], context)
  }

  /** The statement speaks about this request. */
  predicate Applies(st: Statement, req: Request)
  {
    PrincipalMatches(st, req.principal) && ActionMatches(st, req.action) &&
    ResourceMatches(st, req.resource) && ConditionsHold(st, req.context)
  }

  predicate Denies(st: Statement, req: Request)
  {
    st.effect == Deny && Applies(st, req)
  }

  predicate Grants(st: Statement, req: Request)
  {
    st.effect == Allow && Applies(st, req)
  }

  /** Evaluates a policy statement by statement: a deny anywhere wins, otherwise one allow suffices. */
  function Evaluate(policy: seq<Statement>, req: Request): (d: Decision)
    ensures d == ExplicitDeny <==> exists i :: 0 <= i < |policy| && Denies(policy[i], req)
    ensures d == Allowed <==>
      (forall i :: 0 <= i < |policy| ==> !Denies(policy[i], req)) &&
      (exists i :: 0 <= i < |policy| && Grants(policy[i], req))
  {
    if policy == [] then ImplicitDeny
    else
      var rest := Evaluate(policy[1..], req);
      assert forall i :: 1 <= i < |policy| ==> policy[i] == policy[1..][i - 1];
      if Denies(policy[0], req) || rest == ExplicitDeny then ExplicitDeny
      else if Grants(policy[0], req) || rest == Allowed then Allowed
      else ImplicitDeny
  }
}
