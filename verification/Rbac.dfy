/** Kubernetes RBAC rules and the requests they allow.

  A rule is read as the set of concrete requests it admits.  `*` in verbs, API groups or resources
  stands for every value; an empty `resourceNames` stands for every name, while an empty list of
  verbs, groups or resources admits nothing.  Every string other than `*` is opaque. */
module Rbac {
  const WILDCARD := "*"

  datatype PolicyRule = PolicyRule(
    apiGroups: seq<string>,
    resources: seq<string>,
    resourceNames: seq<string>,
    verbs: seq<string>)

  datatype Request = Request(verb: string, group: string, resource: string, name: string)

  /** What a client can actually send: no component but the name may be the text `*`. */
  predicate Concrete(q: Request) {
    q.verb != WILDCARD && q.group != WILDCARD && q.resource != WILDCARD
  }

  predicate Matches(list: seq<string>, s: string) {
    WILDCARD in list || s in list
  }

  predicate MatchesName(names: seq<string>, name: string) {
    names == [] || name in names
  }

  predicate RuleAllows(rule: PolicyRule, q: Request) {
    && Matches(rule.verbs, q.verb)
    && Matches(rule.apiGroups, q.group)
    && Matches(rule.resources, q.resource)
    && MatchesName(rule.resourceNames, q.name)
  }

  predicate Allows(rules: seq<PolicyRule>, q: Request) {
    exists i :: 0 <= i < |rules| && RuleAllows(rules[i], q)
  }

  lemma AllowsConcat(a: seq<PolicyRule>, b: seq<PolicyRule>, q: Request)
    ensures Allows(a + b, q) <==> Allows(a, q) || Allows(b, q)
  {
    if Allows(a, q) {
      var i :| 0 <= i < |a| && RuleAllows(a[i], q);
      assert (a + b)[i] == a[i];
    }
    if Allows(b, q) {
      var i :| 0 <= i < |b| && RuleAllows(b[i], q);
      assert (a + b)[|a| + i] == b[i];
    }
  }

  lemma NothingAllowed(q: Request)
    ensures !Allows([], q)
  {
  }
}
