/** Pushes told from the stored objects alone: which bindings at home give an account which Roles, what the filter lets
  through under the operator's own Role in the target, and so what an account may do there. */
module PushGrants {
  import opened Rbac
  import opened Lists
  import opened Names
  import opened Store
  import opened Projection
  import opened Worker
  import opened SoloRuns
  import opened FanOut
  import opened PushPlan
  import opened PushTheorems
  import opened FanOutTheorems
  import opened PushSafety
  import RulesFilter

  /** A binding at home gives the account the Role `r`. */
  predicate BoundThrough(start: Objects, home: string, sa: string, kb: Key, r: string) {
    && kb in start.bindings && kb.ns == home
    && Subject("ServiceAccount", sa, home) in start.bindings[kb].subjects
    && start.bindings[kb].ref.name == r
  }

  /** The operator's Role in the target allows it. */
  predicate OperatorMay(start: Objects, home: string, ns: string, q: Request) {
    var key := Key(ns, "nss-managed-role-from-" + home);
    key in start.roles && Allows(start.roles[key].rules, q)
  }

  /** What a copied rule keeps: the eight verbs, and what it names itself or the operator's Role in the target allows. */
  predicate Kept(start: Objects, home: string, ns: string, rule: PolicyRule, q: Request) {
    && RuleAllows(rule, q) && RulesFilter.CopiedVerb(q.verb)
    && ((q.group in rule.apiGroups && q.resource in rule.resources) || OperatorMay(start, home, ns, q))
  }

  /** The account has a Role at home one of whose rules keeps the request in `ns`. */
  predicate HandedOn(start: Objects, home: string, sa: string, ns: string, q: Request, kb: Key, r: string,
                     rule: PolicyRule) {
    && BoundThrough(start, home, sa, kb, r)
    && Key(home, r) in start.roles && rule in start.roles[Key(home, r)].rules
    && Kept(start, home, ns, rule, q)
  }

  lemma ManagedIsOperators(p: Push, t: Task, start: Objects, q: Request)
    ensures Allows(ManagedRules(p, t, start.roles), q) <==> OperatorMay(start, p.fromNs, t.toNs, q)
  {
    NothingAllowed(q);
  }

  lemma ProjectableIsKept(p: Push, t: Task, start: Objects, r: string, q: Request)
    requires Key(p.fromNs, r) in start.roles && Concrete(q)
    ensures RulesFilter.Projectable(start.roles[Key(p.fromNs, r)].rules, ManagedRules(p, t, start.roles), q) <==>
            exists rule :: rule in start.roles[Key(p.fromNs, r)].rules && Kept(start, p.fromNs, t.toNs, rule, q)
  {
    hide ManagedRules, RulesFilter.Projectable, Allows, RuleAllows, OperatorMay, RulesFilter.CopiedVerb;
    var rules, managed := start.roles[Key(p.fromNs, r)].rules, ManagedRules(p, t, start.roles);
    ManagedIsOperators(p, t, start, q);
    RulesFilter.FilterSpelledOut(rules, managed, q);
    forall rule
      ensures Kept(start, p.fromNs, t.toNs, rule, q) <==> RulesFilter.HandsOn(rule, managed, q)
    {
    }
  }

  /** What a push projects for a goroutine, told without its definitions. */
  lemma SourcedIffHandedOn(plan: Plan, start: Objects, sa: string, ns: string, q: Request, k: nat, r: string)
    requires k < |plan.tasks| && plan.tasks[k].toNs == ns && plan.tasks[k].sa == sa && Concrete(q)
    ensures SourcedBy(plan, start, sa, ns, q, k, r) <==> exists kb, rule :: HandedOn(start, plan.p.fromNs, sa, ns, q, kb, r, rule)
  {
    hide ManagedRules, RulesFilter.Projectable, Kept;
    var p, t := plan.p, plan.tasks[k];
    if Key(p.fromNs, r) in start.roles {
      ProjectableIsKept(p, t, start, r, q);
    }
    if SourcedBy(plan, start, sa, ns, q, k, r) {
      var kb :| kb in start.bindings && kb.ns == p.fromNs &&
        Subject("ServiceAccount", sa, p.fromNs) in start.bindings[kb].subjects && start.bindings[kb].ref.name == r;
      var rule :| rule in start.roles[Key(p.fromNs, r)].rules && Kept(start, p.fromNs, ns, rule, q);
      assert HandedOn(start, p.fromNs, sa, ns, q, kb, r, rule);
    }
  }

  // ---------------------------------------------------------------------------------------------
  // What an account gains
  // ---------------------------------------------------------------------------------------------

  /** At every moment of every schedule: what an account newly may do in a target, a Role given to it by a binding at
    home allows with one of the eight verbs, and names itself or the operator's Role in that target allows too. */
  lemma GainsAreHandedOn(plan: Plan, start: Objects, schedule: seq<Action>, sa: string, ns: string, q: Request)
    requires Shaped(plan) && Attributed(plan, start) && CleanTargets(plan, start)
    requires Runs(plan, Initial(plan, start), schedule) && Concrete(q)
    requires Can(After(plan, start, schedule), sa, plan.p.fromNs, ns, q) && !Can(start, sa, plan.p.fromNs, ns, q)
    ensures exists kb, r, rule :: HandedOn(start, plan.p.fromNs, sa, ns, q, kb, r, rule)
    ensures exists k :: 0 <= k < |plan.tasks| && plan.tasks[k].toNs == ns && plan.tasks[k].sa == sa
  {
    hide Attributed, CleanTargets, Runs, After, Can, HandedOn;
    GainsAreSourced(plan, start, schedule, sa, ns, q);
    var k, r :| SourcedBy(plan, start, sa, ns, q, k, r);
    SourcedIffHandedOn(plan, start, sa, ns, q, k, r);
  }

  /** After a complete push without API errors from clean targets an account may do in a namespace exactly what it could
    before and, if the namespace is a member other than home and the account one of the push, what is handed on. */
  lemma PushGrantsExactly(p: Push, members: seq<string>, accounts: seq<string>, faults: nat -> Faults,
                          orders: nat -> Order, start: Objects, schedule: seq<Action>, sa: string, ns: string, q: Request)
    requires Distinct(members) && Distinct(accounts) && NamesApart(p, accounts, start) && Concrete(q)
    requires Enumerating(PlanFor(p, members, accounts, faults, orders), start)
    requires var plan := PlanFor(p, members, accounts, faults, orders);
             Shaped(plan) && CleanTargets(plan, start) && Smooth(plan, start) && Finishes(plan, start, schedule)
    ensures Can(After(PlanFor(p, members, accounts, faults, orders), start, schedule), sa, p.fromNs, ns, q) <==>
            || Can(start, sa, p.fromNs, ns, q)
            || (ns in members && ns != p.fromNs && sa in accounts &&
                exists kb, r, rule :: HandedOn(start, p.fromNs, sa, ns, q, kb, r, rule))
  {
    hide NamesApart, Enumerating, CleanTargets, Smooth, Finishes, Separated, Can, HandedOn, After, TaskList, Targets,
      GroupList,
      SourcedBy;
    var plan := PlanFor(p, members, accounts, faults, orders);
    PlanIsSeparated(p, members, accounts, faults, orders, start);
    GainsExactly(plan, start, schedule, sa, ns, q);
    TaskListShape(Targets(members, p.fromNs), accounts, faults);
    if k, r :| SourcedBy(plan, start, sa, ns, q, k, r) {
      SourcedHere(plan, start, sa, ns, q, k, r);
      SourcedIffHandedOn(plan, start, sa, ns, q, k, r);
    }
    if ns in members && ns != p.fromNs && sa in accounts {
      TaskListHas(Targets(members, p.fromNs), accounts, faults, ns, sa);
      var k :| 0 <= k < |plan.tasks| && plan.tasks[k].toNs == ns && plan.tasks[k].sa == sa;
      if kb, r, rule :| HandedOn(start, p.fromNs, sa, ns, q, kb, r, rule) {
        SourcedIffHandedOn(plan, start, sa, ns, q, k, r);
      }
    }
  }

  lemma SourcedHere(plan: Plan, start: Objects, sa: string, ns: string, q: Request, k: int, r: string)
    requires SourcedBy(plan, start, sa, ns, q, k, r)
    ensures 0 <= k < |plan.tasks| && plan.tasks[k].toNs == ns && plan.tasks[k].sa == sa
  {
  }
}
