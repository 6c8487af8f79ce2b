/** What service accounts gain from a push, and what a second push changes. */
module PushSafety {
  import opened Rbac
  import opened Lists
  import opened Names
  import opened Store
  import opened Projection
  import opened Worker
  import opened SoloRuns
  import opened FanOut
  import opened Channels
  import opened Sums
  import opened PushTheorems
  import RulesFilter

  /** The targets hold none of the copies, nor a binding that refers to one. */
  ghost predicate CleanTargets(plan: Plan, start: Objects) {
    && (forall key :: IsCopy(plan, start, key) ==> key !in start.roles && key !in start.bindings)
    && (forall key :: key in start.bindings ==> !IsCopy(plan, start, Key(key.ns, start.bindings[key].ref.name)))
  }

  /** A Role the source bindings name for `sa` allows the request in a way the filter lets through. */
  predicate SourcedBy(plan: Plan, start: Objects, sa: string, ns: string, q: Request, k: int, r: string) {
    && 0 <= k < |plan.tasks|
    && plan.tasks[k].toNs == ns && plan.tasks[k].sa == sa
    && r in Copies(plan.p, plan.tasks[k], start)
    && SourceKey(plan.p, r) in start.roles
    && RulesFilter.Projectable(start.roles[SourceKey(plan.p, r)].rules, ManagedRules(plan.p, plan.tasks[k], start.roles), q)
  }

  // ---------------------------------------------------------------------------------------------
  // At every moment of every schedule
  // ---------------------------------------------------------------------------------------------

  predicate OldOrGenuineRole(p: Push, t: Task, o: Objects, start: Objects, key: Key, r: string) {
    || Lookup(o.roles, key) == Lookup(start.roles, key)
    || (Copyable(p, t, start, r) && Lookup(o.roles, key) == Some(Copy(p, t, start, r)))
  }

  predicate OldOrNewBinding(p: Push, t: Task, o: Objects, start: Objects, key: Key, r: string) {
    || Lookup(o.bindings, key) == Lookup(start.bindings, key)
    || (key !in start.bindings && Lookup(o.bindings, key) == Some(CopyBinding(p, t, r)))
  }

  /** What a worker carries belongs to Roles bound to its account at the start. */
  predicate Honest(p: Push, t: Task, w: Worker, start: Objects) {
    && (forall i :: 0 <= i < |w.names| ==> w.names[i] in Copies(p, t, start))
    && match w.pc
       case Reading => w.managed == ManagedRules(p, t, start.roles)
       case Creating(rules) => HonestRules(p, t, w, rules, start)
       case Updating(rules) => HonestRules(p, t, w, rules, start)
       case _ => true
  }

  predicate HonestRules(p: Push, t: Task, w: Worker, rules: seq<PolicyRule>, start: Objects) {
    && w.managed == ManagedRules(p, t, start.roles) && w.copied < |w.names|
    && Copyable(p, t, start, w.names[w.copied]) && Copy(p, t, start, w.names[w.copied]) == Role(p.labels, rules)
  }

  /** Every worker is honest, every copy is as it was or exactly what it should be, the rest is untouched. */
  ghost predicate Genuine(plan: Plan, s: State, start: Objects)
    requires Fits(plan, s)
  {
    && AllSane(plan, s) && Framed(plan, s.objects, start)
    && (forall k :: 0 <= k < |plan.tasks| ==> Honest(plan.p, plan.tasks[k], s.workers[k], start))
    && (forall key, k, r :: CopyOf(plan, start, key, k, r) ==>
          && OldOrGenuineRole(plan.p, plan.tasks[k], s.objects, start, key, r)
          && OldOrNewBinding(plan.p, plan.tasks[k], s.objects, start, key, r))
  }

  /** What one call may do to one key. */
  predicate WritesGenuinely(p: Push, t: Task, o: Objects, o': Objects, start: Objects, key: Key, r: string) {
    && r in Copies(p, t, start) && key == CopyKey(p, t, r)
    && (Lookup(o'.roles, key) == Lookup(o.roles, key) ||
        (Copyable(p, t, start, r) && Lookup(o'.roles, key) == Some(Copy(p, t, start, r))))
    && (Lookup(o'.bindings, key) == Lookup(o.bindings, key) ||
        (key !in o.bindings && Lookup(o'.bindings, key) == Some(CopyBinding(p, t, r))))
  }

  lemma NextRoleHonest(p: Push, t: Task, w: Worker, start: Objects)
    requires w.managed == ManagedRules(p, t, start.roles)
    requires forall i :: 0 <= i < |w.names| ==> w.names[i] in Copies(p, t, start)
    ensures Honest(p, t, NextRole(w), start)
  {
    hide BoundRoles, ManagedRules;
  }

  lemma SkipRoleHonest(p: Push, t: Task, w: Worker, role: string, reason: Reason, e: Error, start: Objects)
    requires w.managed == ManagedRules(p, t, start.roles)
    requires forall i :: 0 <= i < |w.names| ==> w.names[i] in Copies(p, t, start)
    ensures Honest(p, t, SkipRole(p, w, role, reason, e), start)
  {
    hide BoundRoles, ManagedRules, NextRole;
    if p.allowSubset {
      NextRoleHonest(p, t, w.(copied := w.copied + 1, unprojected := w.unprojected + [Report(role, reason)]), start);
    }
  }

  lemma RoleStepHonest(p: Push, t: Task, order: Order, w: Worker, o: Objects, start: Objects)
    requires Sane(p, w) && Honest(p, t, w, start) && StableReads(p, t, o, start)
    requires w.pc.Reading? || w.pc.Creating? || w.pc.Updating?
    ensures Honest(p, t, NextStep(p, t, order, w, o).0, start)
  {
    hide BoundRoles, ManagedRules, CopyBinding, RulesFilter.Filtered, NextRole, SkipRole;
    var role := w.names[w.copied];
    assert Lookup(o.roles, SourceKey(p, role)) == Lookup(start.roles, SourceKey(p, role));
    forall reason, e {
      SkipRoleHonest(p, t, w, role, reason, e, start);
    }
    NextRoleHonest(p, t, w.(copied := w.copied + 1), start);
    var more := if p.allowSubset then [Report(role, NotFound)] else [];
    NextRoleHonest(p, t, w.(copied := w.copied + 1, unprojected := w.unprojected + more), start);
  }

  lemma StepHonest(p: Push, t: Task, order: Order, w: Worker, o: Objects, start: Objects)
    requires Sane(p, w) && Honest(p, t, w, start) && StableReads(p, t, o, start) && Enumerates(order, Copies(p, t, start))
    ensures Honest(p, t, NextStep(p, t, order, w, o).0, start)
  {
    hide BoundRoles, ManagedRules, CopyRules, CopyKey, CopyBinding, NextRole, SkipRole, Copyable, Copy;
    if w.pc.Reading? || w.pc.Creating? || w.pc.Updating? {
      RoleStepHonest(p, t, order, w, o, start);
    } else if w.pc.Looking? {
      NextRoleHonest(p, t, w.(managed := ManagedRules(p, t, o.roles)), start);
    } else if w.pc.Listing? {
      var names := order(Copies(p, t, start));
      forall i | 0 <= i < |names|
        ensures names[i] in Copies(p, t, start)
      {
        assert names[i] in Elems(names);
      }
    }
  }

  lemma StepWrites(p: Push, t: Task, order: Order, w: Worker, o: Objects, start: Objects, key: Key)
    requires Sane(p, w) && Honest(p, t, w, start)
    ensures var o' := NextStep(p, t, order, w, o).1;
            SameObjectAt(o, o', key) || exists r :: WritesGenuinely(p, t, o, o', start, key, r)
  {
    hide BoundRoles, ManagedRules, CopyRules, CopyKey, CopyBinding, NextRole, SkipRole, StartBinding, Stop, Copyable,
      Copy;
    var o' := NextStep(p, t, order, w, o).1;
    if !SameObjectAt(o, o', key) {
      var r := if w.pc.Binding? then w.names[w.bound] else w.names[w.copied];
      assert WritesGenuinely(p, t, o, o', start, key, r);
    }
  }

  /** Two goroutines with the same target and account make the same copies. */
  lemma SameCopyEither(p: Push, t: Task, t': Task, start: Objects, r: string)
    requires t.toNs == t'.toNs && t.sa == t'.sa
    ensures CopyKey(p, t, r) == CopyKey(p, t', r) && CopyBinding(p, t, r) == CopyBinding(p, t', r)
    ensures Copyable(p, t, start, r) <==> Copyable(p, t', start, r)
    ensures Copyable(p, t, start, r) ==> Copy(p, t, start, r) == Copy(p, t', start, r)
  {
  }

  lemma ApplyKeepsGenuine(plan: Plan, s: State, a: Action, start: Objects)
    requires Fits(plan, s) && Attributed(plan, start) && Genuine(plan, s, start) && Enabled(plan, s, a)
    ensures Genuine(plan, Apply(plan, s, a), start)
  {
    hide BoundRoles, NextStep, Sane, Honest, OldOrGenuineRole, OldOrNewBinding, CopyKey, Flatten, WritesGenuinely;
    var s' := Apply(plan, s, a);
    if a.Work? {
      var p, t, order, w := plan.p, plan.tasks[a.k], plan.orders[a.k], s.workers[a.k];
      ReadsAreStable(plan, s.objects, start, a.k);
      StepKeepsSane(p, t, order, w, s.objects);
      StepHonest(p, t, order, w, s.objects, start);
      forall key | !IsCopy(plan, start, key)
        ensures SameObjectAt(s.objects, s'.objects, key)
      {
        StepWrites(p, t, order, w, s.objects, start, key);
        if r :| WritesGenuinely(p, t, s.objects, s'.objects, start, key, r) {
          WrittenIsCopy(plan, s.objects, s'.objects, start, a.k, key, r);
        }
      }
      forall key, k, r | CopyOf(plan, start, key, k, r)
        ensures OldOrGenuineRole(p, plan.tasks[k], s'.objects, start, key, r)
        ensures OldOrNewBinding(p, plan.tasks[k], s'.objects, start, key, r)
      {
        StepKeepsCopy(plan, s, a.k, start, key, k, r);
      }
    }
  }

  lemma WrittenIsCopy(plan: Plan, o: Objects, o': Objects, start: Objects, k: nat, key: Key, r: string)
    requires k < |plan.tasks| && WritesGenuinely(plan.p, plan.tasks[k], o, o', start, key, r)
    ensures CopyOf(plan, start, key, k, r) && IsCopy(plan, start, key)
  {
    hide BoundRoles, CopyKey;
    assert CopyOf(plan, start, key, k, r);
  }

  lemma StepKeepsCopy(plan: Plan, s: State, k0: nat, start: Objects, key: Key, k: nat, r: string)
    requires Fits(plan, s) && Attributed(plan, start) && Genuine(plan, s, start) && Enabled(plan, s, Work(k0))
    requires CopyOf(plan, start, key, k, r)
    ensures var o' := Apply(plan, s, Work(k0)).objects;
            && OldOrGenuineRole(plan.p, plan.tasks[k], o', start, key, r)
            && OldOrNewBinding(plan.p, plan.tasks[k], o', start, key, r)
  {
    hide BoundRoles, NextStep, Sane, Honest, ProjectedName, Copyable, Copy, CopyBinding, Flatten;
    var p, t, t0, o, o' := plan.p, plan.tasks[k], plan.tasks[k0], s.objects, Apply(plan, s, Work(k0)).objects;
    StepWrites(p, t0, plan.orders[k0], s.workers[k0], o, start, key);
    assert OldOrGenuineRole(p, t, o, start, key, r) && OldOrNewBinding(p, t, o, start, key, r);
    if !SameObjectAt(o, o', key) {
      var r0 :| WritesGenuinely(p, t0, o, o', start, key, r0);
      WrittenIsCopy(plan, o, o', start, k0, key, r0);
      SameCopyEither(p, t0, t, start, r);
    }
  }

  lemma GenuineInitially(plan: Plan, start: Objects)
    requires Shaped(plan)
    ensures Genuine(plan, Initial(plan, start), start)
  {
    hide BoundRoles, CopyKey;
    SaneInitially(plan, start);
  }

  /** Over every schedule, with repeated members, colliding names of one account excepted, and whatever fails. */
  lemma {:induction false} ExecuteGenuine(plan: Plan, s: State, schedule: seq<Action>, start: Objects)
    requires Fits(plan, s) && Attributed(plan, start) && Genuine(plan, s, start) && Runs(plan, s, schedule)
    ensures Genuine(plan, Execute(plan, s, schedule), start)
    decreases |schedule|
  {
    hide Apply, Enabled, Genuine, Attributed;
    if schedule != [] {
      ApplyKeepsGenuine(plan, s, schedule[0], start);
      ExecuteGenuine(plan, Apply(plan, s, schedule[0]), schedule[1..], start);
    }
  }

  /** At every moment of every schedule, completed or failed, with members repeated or not, whatever a service
    account can newly do in a target namespace is something a Role named by its source bindings allows, filtered. */
  lemma GainsAreSourced(plan: Plan, start: Objects, schedule: seq<Action>, sa: string, ns: string, q: Request)
    requires Shaped(plan) && Attributed(plan, start) && CleanTargets(plan, start)
    requires Runs(plan, Initial(plan, start), schedule)
    requires Concrete(q)
    requires Can(After(plan, start, schedule), sa, plan.p.fromNs, ns, q) && !Can(start, sa, plan.p.fromNs, ns, q)
    ensures exists k, r :: SourcedBy(plan, start, sa, ns, q, k, r)
  {
    hide BoundRoles, Runs, Execute, Honest, AllSane, ManagedRules, Attributed, RulesFilter.Filtered;
    var s := Execute(plan, Initial(plan, start), schedule);
    var p, o := plan.p, s.objects;
    GenuineInitially(plan, start);
    ExecuteGenuine(plan, Initial(plan, start), schedule, start);
    var kb :| kb in o.bindings && GrantsThrough(o, kb, sa, p.fromNs, ns, q);
    var roleKey := Key(ns, o.bindings[kb].ref.name);
    if !IsCopy(plan, start, kb) {
      OldBindingGranted(plan, start, o, kb, sa, ns, q);
    }
    var k, r :| CopyOf(plan, start, kb, k, r);
    assert OldOrGenuineRole(p, plan.tasks[k], o, start, kb, r) && OldOrNewBinding(p, plan.tasks[k], o, start, kb, r);
    assert Lookup(o.bindings, kb) == Some(CopyBinding(p, plan.tasks[k], r));
    assert roleKey == kb;
    GenuineAllows(plan, start, k, r, o.roles[roleKey], q);
    assert SourcedBy(plan, start, sa, ns, q, k, r);
  }

  lemma OldBindingGranted(plan: Plan, start: Objects, o: Objects, kb: Key, sa: string, ns: string, q: Request)
    requires CleanTargets(plan, start) && Framed(plan, o, start) && !IsCopy(plan, start, kb)
    requires kb in o.bindings && GrantsThrough(o, kb, sa, plan.p.fromNs, ns, q)
    ensures Can(start, sa, plan.p.fromNs, ns, q)
  {
  }

  lemma GenuineAllows(plan: Plan, start: Objects, k: nat, r: string, role: Role, q: Request)
    requires k < |plan.tasks| && Copyable(plan.p, plan.tasks[k], start, r) && role == Copy(plan.p, plan.tasks[k], start, r)
    requires Concrete(q)
    ensures Allows(role.rules, q) <==>
            RulesFilter.Projectable(start.roles[SourceKey(plan.p, r)].rules, ManagedRules(plan.p, plan.tasks[k], start.roles), q)
  {
    hide ManagedRules, RulesFilter.Filtered, RulesFilter.Projectable, Allows;
    RulesFilter.FilterExact(start.roles[SourceKey(plan.p, r)].rules, ManagedRules(plan.p, plan.tasks[k], start.roles), q);
  }

  /** The source bindings of `sa` refer to Roles, not to ClusterRoles of the same name. */
  predicate RefersToRoles(start: Objects, sa: string, ns: string) {
    forall k :: k in start.bindings && k.ns == ns && Subject("ServiceAccount", sa, ns) in start.bindings[k].subjects ==>
      start.bindings[k].ref.kind == "Role"
  }

  /** If all references are Roles, the account holds at home whatever it gains elsewhere. */
  lemma GainsAreHeldAtHome(plan: Plan, start: Objects, schedule: seq<Action>, sa: string, ns: string, q: Request)
    requires Shaped(plan) && Attributed(plan, start) && CleanTargets(plan, start)
    requires Runs(plan, Initial(plan, start), schedule)
    requires Concrete(q) && RefersToRoles(start, sa, plan.p.fromNs)
    requires Can(After(plan, start, schedule), sa, plan.p.fromNs, ns, q) && !Can(start, sa, plan.p.fromNs, ns, q)
    ensures Can(start, sa, plan.p.fromNs, plan.p.fromNs, q)
  {
    hide Runs, Execute, CopyKey, After, IsCopy, Attributed, ManagedRules, SourcedBy;
    GainsAreSourced(plan, start, schedule, sa, ns, q);
    var k, r :| SourcedBy(plan, start, sa, ns, q, k, r);
    SourceIsNamed(plan, start, sa, ns, q, k, r);
    HeldThroughRole(plan, start, sa, ns, q, k, r);
  }

  lemma SourceIsNamed(plan: Plan, start: Objects, sa: string, ns: string, q: Request, k: int, r: string)
    requires SourcedBy(plan, start, sa, ns, q, k, r) && RefersToRoles(start, sa, plan.p.fromNs)
    ensures !NamedOtherwise(start, sa, plan.p.fromNs, r)
  {
    hide ManagedRules;
    var home := plan.p.fromNs;
    var kb :| kb in start.bindings && kb.ns == home && Subject("ServiceAccount", sa, home) in start.bindings[kb].subjects &&
      start.bindings[kb].ref.name == r;
  }

  /** After a smooth push from clean targets the gains are exactly the sourced requests.  The kind of a
    source reference plays no part: a Role that only a ClusterRole reference names is copied as well. */
  lemma GainsExactly(plan: Plan, start: Objects, schedule: seq<Action>, sa: string, ns: string, q: Request)
    requires Shaped(plan) && Separated(plan, start) && CleanTargets(plan, start) && Smooth(plan, start)
    requires Finishes(plan, start, schedule)
    requires Concrete(q)
    ensures Can(After(plan, start, schedule), sa, plan.p.fromNs, ns, q) <==>
            Can(start, sa, plan.p.fromNs, ns, q) || exists k, r :: SourcedBy(plan, start, sa, ns, q, k, r)
  {
    hide BoundRoles, Runs, Execute, ManagedRules, RulesFilter.Filtered;
    var p, o := plan.p, After(plan, start, schedule);
    SeparatedIsAttributed(plan, start);
    SmoothPush(plan, start, schedule);
    if Can(start, sa, p.fromNs, ns, q) {
      var kb :| kb in start.bindings && GrantsThrough(start, kb, sa, p.fromNs, ns, q);
      var roleKey := Key(ns, start.bindings[kb].ref.name);
      assert !IsCopy(plan, start, kb) && !IsCopy(plan, start, roleKey);
      assert Lookup(o.bindings, kb) == Lookup(start.bindings, kb);
      assert Lookup(o.roles, roleKey) == Lookup(start.roles, roleKey);
      assert GrantsThrough(o, kb, sa, p.fromNs, ns, q);
    } else if exists k, r :: SourcedBy(plan, start, sa, ns, q, k, r) {
      var k, r :| SourcedBy(plan, start, sa, ns, q, k, r);
      SourcedGives(plan, start, o, sa, ns, q, k, r);
    } else if Can(o, sa, p.fromNs, ns, q) {
      GainsAreSourced(plan, start, schedule, sa, ns, q);
    }
  }

  /** Every binding at home that gives the account this name refers to something else than a Role. */
  predicate NamedOtherwise(start: Objects, sa: string, ns: string, r: string) {
    forall k | k in start.bindings && k.ns == ns && Subject("ServiceAccount", sa, ns) in start.bindings[k].subjects ::
      start.bindings[k].ref.name == r ==> start.bindings[k].ref.kind != "Role"
  }

  predicate SourcedOtherwise(plan: Plan, start: Objects, sa: string, ns: string, q: Request, k: int, r: string) {
    SourcedBy(plan, start, sa, ns, q, k, r) && NamedOtherwise(start, sa, plan.p.fromNs, r)
  }

  lemma HeldThroughRole(plan: Plan, start: Objects, sa: string, ns: string, q: Request, k: int, r: string)
    requires SourcedBy(plan, start, sa, ns, q, k, r) && !NamedOtherwise(start, sa, plan.p.fromNs, r)
    ensures Can(start, sa, plan.p.fromNs, plan.p.fromNs, q)
  {
    hide ManagedRules;
    var home := plan.p.fromNs;
    var rules := start.roles[SourceKey(plan.p, r)].rules;
    var i :| 0 <= i < |rules| && RulesFilter.RuleProjectable(rules[i], ManagedRules(plan.p, plan.tasks[k], start.roles), q);
    assert Allows(rules, q);
    var kb :| kb in start.bindings && kb.ns == home && Subject("ServiceAccount", sa, home) in start.bindings[kb].subjects &&
      start.bindings[kb].ref.name == r && start.bindings[kb].ref.kind == "Role";
    assert GrantsThrough(start, kb, sa, home, home, q);
  }

  /** When an account gains more than it holds at home: exactly when neither there nor in the target it may make a
    request that a Role projects which it is given only under another kind, a ClusterRole of the same name. */
  lemma UnheldGainIff(plan: Plan, start: Objects, schedule: seq<Action>, sa: string, ns: string, q: Request)
    requires Shaped(plan) && Separated(plan, start) && CleanTargets(plan, start) && Smooth(plan, start)
    requires Finishes(plan, start, schedule)
    requires Concrete(q)
    ensures Can(After(plan, start, schedule), sa, plan.p.fromNs, ns, q) && !Can(start, sa, plan.p.fromNs, ns, q) &&
            !Can(start, sa, plan.p.fromNs, plan.p.fromNs, q) <==>
            && !Can(start, sa, plan.p.fromNs, ns, q) && !Can(start, sa, plan.p.fromNs, plan.p.fromNs, q)
            && exists k, r :: SourcedOtherwise(plan, start, sa, ns, q, k, r)
  {
    hide Can, Finishes, After, Separated, Smooth, CleanTargets, SourcedBy, NamedOtherwise;
    GainsExactly(plan, start, schedule, sa, ns, q);
    forall k, r | SourcedBy(plan, start, sa, ns, q, k, r) && !Can(start, sa, plan.p.fromNs, plan.p.fromNs, q)
      ensures SourcedOtherwise(plan, start, sa, ns, q, k, r)
    {
      if !NamedOtherwise(start, sa, plan.p.fromNs, r) {
        HeldThroughRole(plan, start, sa, ns, q, k, r);
      }
    }
  }

  lemma SourcedGives(plan: Plan, start: Objects, o: Objects, sa: string, ns: string, q: Request, k: nat, r: string)
    requires k < |plan.tasks| && SourcedBy(plan, start, sa, ns, q, k, r) && Pushed(plan, start, o) && Concrete(q)
    ensures Can(o, sa, plan.p.fromNs, ns, q)
  {
    hide BoundRoles, ManagedRules, RulesFilter.Filtered, RulesFilter.Projectable, IsCopy;
    var p, t := plan.p, plan.tasks[k];
    var key := CopyKey(p, t, r);
    assert CopyOf(plan, start, key, k, r);
    RulesFilter.FilterExact(start.roles[SourceKey(p, r)].rules, ManagedRules(p, t, start.roles), q);
    assert Copyable(p, t, start, r) by {
      assert Allows(CopyRules(p, ManagedRules(p, t, start.roles), start.roles, r), q);
    }
    GenuineAllows(plan, start, k, r, Copy(p, t, start, r), q);
    assert Lookup(o.roles, key) == Some(Copy(p, t, start, r));
    assert Lookup(o.bindings, key) == Some(CopyBinding(p, t, r));
    assert GrantsThrough(o, key, sa, p.fromNs, ns, q);
  }

  // ---------------------------------------------------------------------------------------------
  // Pushing again
  // ---------------------------------------------------------------------------------------------

  /** Every copyable Role has its copy already and every bound name its binding. */
  ghost predicate Settled(plan: Plan, o: Objects) {
    forall key, k, r :: CopyOf(plan, o, key, k, r) ==>
      && (Copyable(plan.p, plan.tasks[k], o, r) ==> Lookup(o.roles, key) == Some(Copy(plan.p, plan.tasks[k], o, r)))
      && key in o.bindings
  }

  /** On a settled store no step of any schedule changes anything, errors or not. */
  lemma SettledStays(plan: Plan, start: Objects, schedule: seq<Action>)
    requires Shaped(plan) && Attributed(plan, start) && Settled(plan, start)
    requires Runs(plan, Initial(plan, start), schedule)
    ensures After(plan, start, schedule) == start
  {
    hide BoundRoles, CopyKey, Runs, Execute, Honest, AllSane, Attributed, Copy, Copyable, CopyBinding;
    var s := Execute(plan, Initial(plan, start), schedule);
    GenuineInitially(plan, start);
    ExecuteGenuine(plan, Initial(plan, start), schedule, start);
    forall key
      ensures Lookup(s.objects.roles, key) == Lookup(start.roles, key)
      ensures Lookup(s.objects.bindings, key) == Lookup(start.bindings, key)
    {
      if IsCopy(plan, start, key) {
        var k, r :| CopyOf(plan, start, key, k, r);
        assert OldOrGenuineRole(plan.p, plan.tasks[k], s.objects, start, key, r);
        assert OldOrNewBinding(plan.p, plan.tasks[k], s.objects, start, key, r);
      }
    }
    SameLookups(s.objects.roles, start.roles);
    SameLookups(s.objects.bindings, start.bindings);
  }

  /** A smooth push settles the store, and its plan still fits the new store. */
  lemma PushSettles(plan: Plan, start: Objects, o: Objects)
    requires Shaped(plan) && Separated(plan, start) && Pushed(plan, start, o)
    ensures Separated(plan, o) && Settled(plan, o)
  {
    hide BoundRoles, CopyKey, ManagedRules, RulesFilter.Filtered, IsCopy;
    forall k | 0 <= k < |plan.tasks|
      ensures Copies(plan.p, plan.tasks[k], o) == Copies(plan.p, plan.tasks[k], start)
      ensures StableReads(plan.p, plan.tasks[k], o, start)
    {
      SeparatedIsAttributed(plan, start);
      ReadsAreStable(plan, o, start, k);
    }
    CopiesPersist(plan, start, o);
    forall key, k, r | CopyOf(plan, o, key, k, r)
      ensures Copyable(plan.p, plan.tasks[k], o, r) ==> Lookup(o.roles, key) == Some(Copy(plan.p, plan.tasks[k], o, r))
      ensures key in o.bindings
    {
      assert CopyOf(plan, start, key, k, r);
      assert StableReads(plan.p, plan.tasks[k], o, start);
      assert Lookup(o.roles, SourceKey(plan.p, r)) == Lookup(start.roles, SourceKey(plan.p, r));
    }
  }

  lemma CopiesPersist(plan: Plan, start: Objects, o: Objects)
    requires Separated(plan, start)
    requires forall k :: 0 <= k < |plan.tasks| ==> Copies(plan.p, plan.tasks[k], o) == Copies(plan.p, plan.tasks[k], start)
    ensures Separated(plan, o)
    ensures forall key, k, r :: CopyOf(plan, o, key, k, r) <==> CopyOf(plan, start, key, k, r)
  {
    hide Copies, CopyKey;
    forall key, k, r
      ensures CopyOf(plan, o, key, k, r) <==> CopyOf(plan, start, key, k, r)
    {
    }
    assert forall k :: 0 <= k < |plan.tasks| ==> Enumerates(plan.orders[k], Copies(plan.p, plan.tasks[k], o));
    forall key
      ensures IsCopy(plan, o, key) <==> IsCopy(plan, start, key)
    {
      if IsCopy(plan, start, key) {
        var k, r :| CopyOf(plan, start, key, k, r);
        assert CopyOf(plan, o, key, k, r);
      }
      if IsCopy(plan, o, key) {
        var k, r :| CopyOf(plan, o, key, k, r);
        assert CopyOf(plan, start, key, k, r);
      }
    }
  }

  /** Pushing a second time under any schedule and any iteration orders changes no Role and no binding. */
  lemma PushTwice(plan: Plan, plan': Plan, start: Objects, one: seq<Action>, two: seq<Action>)
    requires Shaped(plan) && Separated(plan, start) && Smooth(plan, start) && Finishes(plan, start, one)
    requires plan' == plan.(orders := plan'.orders) && Shaped(plan') && Separated(plan', start)
    requires Runs(plan', Initial(plan', After(plan, start, one)), two)
    ensures After(plan', After(plan, start, one), two) == After(plan, start, one)
  {
    hide Copies, CopyKey, Expected, CopyBinding, Runs, Execute, After;
    var o := After(plan, start, one);
    SmoothPush(plan, start, one);
    SameCopies(plan, plan', start);
    assert Pushed(plan', start, o);
    PushSettles(plan', start, o);
    SeparatedIsAttributed(plan', o);
    SettledStays(plan', o, two);
  }
}
