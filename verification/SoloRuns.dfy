/** A worker running alone: what it depends on and what it leaves behind. */
module SoloRuns {
  import opened Rbac
  import opened Lists
  import opened Store
  import opened Projection
  import opened Worker
  import RulesFilter

  // ---------------------------------------------------------------------------------------------
  // Only the sources and the worker's own copies matter
  // ---------------------------------------------------------------------------------------------

  lemma CopyRoleAgrees(p: Push, t: Task, managed: seq<PolicyRule>, a: map<Key, Role>, b: map<Key, Role>, role: string)
    requires Lookup(a, SourceKey(p, role)) == Lookup(b, SourceKey(p, role))
    requires Lookup(a, CopyKey(p, t, role)) == Lookup(b, CopyKey(p, t, role))
    ensures var oa, ob := CopyRole(p, t, managed, a, role), CopyRole(p, t, managed, b, role);
            && oa.error == ob.error && oa.unprojected == ob.unprojected
            && forall k :: Lookup(a, k) == Lookup(b, k) ==> Lookup(oa.roles, k) == Lookup(ob.roles, k)
  {
    hide RulesFilter.Filtered, CopyKey;
  }

  lemma {:induction false} CopyRolesAgree(p: Push, t: Task, managed: seq<PolicyRule>, a: map<Key, Role>,
                                          b: map<Key, Role>, names: seq<string>)
    requires t.toNs != p.fromNs
    requires forall r :: Lookup(a, SourceKey(p, r)) == Lookup(b, SourceKey(p, r))
    requires forall i :: 0 <= i < |names| ==> Lookup(a, CopyKey(p, t, names[i])) == Lookup(b, CopyKey(p, t, names[i]))
    ensures var oa, ob := CopyRoles(p, t, managed, a, names), CopyRoles(p, t, managed, b, names);
            && oa.error == ob.error && oa.unprojected == ob.unprojected
            && forall k :: Lookup(a, k) == Lookup(b, k) ==> Lookup(oa.roles, k) == Lookup(ob.roles, k)
  {
    hide CopyRole, CopyKey, SourceKey;
    if names != [] {
      var init, role := names[..|names| - 1], names[|names| - 1];
      CopyRolesAgree(p, t, managed, a, b, init);
      SourceKept(p, t, managed, a, init, role);
      SourceKept(p, t, managed, b, init, role);
      CopyRoleAgrees(p, t, managed, CopyRoles(p, t, managed, a, init).roles, CopyRoles(p, t, managed, b, init).roles, role);
    }
  }

  lemma {:induction false} BindAgrees(p: Push, t: Task, a: map<Key, RoleBinding>, b: map<Key, RoleBinding>,
                                      names: seq<string>)
    requires forall i :: 0 <= i < |names| ==> Lookup(a, CopyKey(p, t, names[i])) == Lookup(b, CopyKey(p, t, names[i]))
    ensures var oa, ob := Bind(p, t, a, names), Bind(p, t, b, names);
            && oa.error == ob.error && oa.stopped == ob.stopped
            && forall k :: Lookup(a, k) == Lookup(b, k) ==> Lookup(oa.bindings, k) == Lookup(ob.bindings, k)
  {
    hide CopyKey;
    if names != [] {
      var init, role := names[..|names| - 1], names[|names| - 1];
      BindAgrees(p, t, a, b, init);
      var oa, ob := Bind(p, t, a, init), Bind(p, t, b, init);
      assert Lookup(oa.bindings, CopyKey(p, t, role)) == Lookup(ob.bindings, CopyKey(p, t, role));
    }
  }

  lemma {:induction false} BindFrame(p: Push, t: Task, bindings: map<Key, RoleBinding>, names: seq<string>, k: Key)
    requires forall i :: 0 <= i < |names| ==> k != CopyKey(p, t, names[i])
    ensures Lookup(Bind(p, t, bindings, names).bindings, k) == Lookup(bindings, k)
  {
    hide CopyKey;
    if names != [] {
      BindFrame(p, t, bindings, names[..|names| - 1], k);
    }
  }

  /** Run from any store with the same sources and the same own copies, a worker does the same. */
  lemma SoloAgrees(p: Push, t: Task, order: Order, o: Objects, start: Objects)
    requires t.toNs != p.fromNs && StableReads(p, t, o, start) && Enumerates(order, Copies(p, t, start))
    requires forall r :: r in Copies(p, t, start) ==>
               && Lookup(o.roles, CopyKey(p, t, r)) == Lookup(start.roles, CopyKey(p, t, r))
               && Lookup(o.bindings, CopyKey(p, t, r)) == Lookup(start.bindings, CopyKey(p, t, r))
    ensures var here, there := Solo(p, t, order, o), Solo(p, t, order, start);
            && here.failure == there.failure && here.sent == there.sent
            && OnlyOwnKeys(p, t, o, here.objects, start)
            && (forall r :: r in Copies(p, t, start) ==>
                  && Lookup(here.objects.roles, CopyKey(p, t, r)) == Lookup(there.objects.roles, CopyKey(p, t, r))
                  && Lookup(here.objects.bindings, CopyKey(p, t, r)) == Lookup(there.objects.bindings, CopyKey(p, t, r)))
  {
    hide CopyRoles, Bind, BoundRoles, CopyKey, SourceKey, ManagedRules;
    var names := order(Copies(p, t, start));
    var managed := ManagedRules(p, t, start.roles);
    forall i | 0 <= i < |names|
      ensures names[i] in Copies(p, t, start)
    {
      assert names[i] in Elems(names);
    }
    CopyRolesAgree(p, t, managed, o.roles, start.roles, names);
    BindAgrees(p, t, o.bindings, start.bindings, names);
    forall k | forall r :: r in Copies(p, t, start) ==> k != CopyKey(p, t, r)
      ensures Lookup(CopyRoles(p, t, managed, o.roles, names).roles, k) == Lookup(o.roles, k)
      ensures Lookup(Bind(p, t, o.bindings, names).bindings, k) == Lookup(o.bindings, k)
    {
      CopyRolesFrame(p, t, managed, o.roles, names, k);
      BindFrame(p, t, o.bindings, names, k);
    }
  }

  // ---------------------------------------------------------------------------------------------
  // What a copy holds
  // ---------------------------------------------------------------------------------------------

  predicate Copyable(p: Push, t: Task, start: Objects, role: string) {
    && SourceKey(p, role) in start.roles
    && CopyRules(p, ManagedRules(p, t, start.roles), start.roles, role) != []
  }

  function Copy(p: Push, t: Task, start: Objects, role: string): Role
    requires Copyable(p, t, start, role)
  {
    Role(p.labels, CopyRules(p, ManagedRules(p, t, start.roles), start.roles, role))
  }

  predicate DistinctCopies(p: Push, t: Task, names: seq<string>) {
    && t.toNs != p.fromNs
    && forall i, j :: 0 <= i < j < |names| ==> CopyKey(p, t, names[i]) != CopyKey(p, t, names[j])
  }

  // ---------------------------------------------------------------------------------------------
  // Without faults
  // ---------------------------------------------------------------------------------------------

  ghost predicate NoFaults(t: Task) {
    && t.faults.list.NoFault? && t.faults.managed.NoFault?
    && forall r :: t.faults.source(r).NoFault? && t.faults.create(r).NoFault? && t.faults.update(r).NoFault? && t.faults.bind(r).NoFault?
  }

  /** Why a Role is not copied; None when it is. */
  function Status(p: Push, t: Task, start: Objects, role: string): Option<Reason> {
    if SourceKey(p, role) !in start.roles then Some(NotFound)
    else if !Copyable(p, t, start, role) then Some(Insufficient)
    else None
  }

  predicate Expected(p: Push, t: Task, start: Objects, role: string, after: Option<Role>) {
    if Copyable(p, t, start, role) then after == Some(Copy(p, t, start, role))
    else after == Lookup(start.roles, CopyKey(p, t, role))
  }

  lemma FaultlessCopy(p: Push, t: Task, managed: seq<PolicyRule>, roles: map<Key, Role>, role: string)
    requires NoFaults(t)
    ensures var o := CopyRole(p, t, managed, roles, role);
            if SourceKey(p, role) !in roles then
              o == RolesOutcome(roles, if p.allowSubset then [Report(role, NotFound)] else [], None)
            else if CopyRules(p, managed, roles, role) == [] then
              o == Skipped(p, roles, role, Insufficient, Unprojectable(role))
            else
              o == RolesOutcome(roles[CopyKey(p, t, role) := Role(p.labels, CopyRules(p, managed, roles, role))], [], None)
  {
    hide RulesFilter.Filtered, CopyKey;
  }

  /** Every found and copyable Role has its copy; with subset projection the others are reported. */
  lemma {:induction false} FaultlessCopies(p: Push, t: Task, start: Objects, names: seq<string>)
    requires NoFaults(t) && DistinctCopies(p, t, names)
    requires p.allowSubset || forall i :: 0 <= i < |names| ==> Status(p, t, start, names[i]) != Some(Insufficient)
    ensures var o := CopyRoles(p, t, ManagedRules(p, t, start.roles), start.roles, names);
            && o.error == None
            && (forall i :: 0 <= i < |names| ==> Expected(p, t, start, names[i], Lookup(o.roles, CopyKey(p, t, names[i]))))
            && (forall r, reason :: multiset(o.unprojected)[Report(r, reason)] ==
                                    if p.allowSubset && r in names && Status(p, t, start, r) == Some(reason) then 1 else 0)
  {
    hide CopyRole, CopyKey, RulesFilter.Filtered;
    var managed := ManagedRules(p, t, start.roles);
    if names != [] {
      var init, role := names[..|names| - 1], names[|names| - 1];
      assert names == init + [role];
      forall i | 0 <= i < |init|
        ensures init[i] == names[i] && CopyKey(p, t, init[i]) != CopyKey(p, t, role)
      {
        assert CopyKey(p, t, names[i]) != CopyKey(p, t, names[|names| - 1]);
      }
      FaultlessCopies(p, t, start, init);
      var before := CopyRoles(p, t, managed, start.roles, init);
      SourceKept(p, t, managed, start.roles, init, role);
      CopyRolesFrame(p, t, managed, start.roles, init, CopyKey(p, t, role));
      FaultlessCopy(p, t, managed, before.roles, role);
      assert role !in init;
      assert Status(p, t, start, names[|names| - 1]) == Status(p, t, start, role);
    }
  }

  /** Without a binding in the way every Role found bound gets its binding. */
  lemma {:induction false} FaultlessBindings(p: Push, t: Task, bindings: map<Key, RoleBinding>, names: seq<string>)
    requires NoFaults(t) && DistinctCopies(p, t, names)
    requires forall i :: 0 <= i < |names| ==> CopyKey(p, t, names[i]) !in bindings
    ensures var o := Bind(p, t, bindings, names);
            && o.error == None && !o.stopped
            && (forall i :: 0 <= i < |names| ==> Lookup(o.bindings, CopyKey(p, t, names[i])) == Some(CopyBinding(p, t, names[i])))
  {
    hide CopyKey, CopyBinding;
    if names != [] {
      var init, role := names[..|names| - 1], names[|names| - 1];
      assert names == init + [role];
      forall i | 0 <= i < |init|
        ensures init[i] == names[i] && CopyKey(p, t, init[i]) != CopyKey(p, t, role)
      {
        assert CopyKey(p, t, names[i]) != CopyKey(p, t, names[|names| - 1]);
      }
      FaultlessBindings(p, t, bindings, init);
      BindFrame(p, t, bindings, init, CopyKey(p, t, role));
      assert CopyKey(p, t, names[|names| - 1]) !in bindings;
      assert Lookup(Bind(p, t, bindings, init).bindings, CopyKey(p, t, role)) == None;
    }
  }

  /** Bindings that exist already are left as they are. */
  lemma {:induction false} BindExisting(p: Push, t: Task, bindings: map<Key, RoleBinding>, names: seq<string>)
    requires forall i :: 0 <= i < |names| ==> CopyKey(p, t, names[i]) in bindings
    ensures Bind(p, t, bindings, names).bindings == bindings
  {
    hide CopyKey;
    if names != [] {
      BindExisting(p, t, bindings, names[..|names| - 1]);
      assert CopyKey(p, t, names[|names| - 1]) in bindings;
    }
  }

  /** Nothing is ever reported while subset projection is off. */
  lemma {:induction false} StrictReportsNothing(p: Push, t: Task, managed: seq<PolicyRule>, roles: map<Key, Role>,
                                                names: seq<string>)
    requires !p.allowSubset
    ensures CopyRoles(p, t, managed, roles, names).unprojected == []
  {
    hide CopyRole;
    if names != [] {
      StrictReportsNothing(p, t, managed, roles, names[..|names| - 1]);
      CopyRoleEffect(p, t, managed, CopyRoles(p, t, managed, roles, names[..|names| - 1]).roles, names[|names| - 1]);
    }
  }
}
