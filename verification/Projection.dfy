/** Copying the Roles of one service account into one target namespace. */
module Projection {
  import opened Rbac
  import opened Lists
  import opened Names
  import opened Store
  import RulesFilter

  datatype Error = Forbidden | ApiError | Unprojectable(role: string)

  /** The API server's answer to one call, beyond what the stored objects decide. */
  datatype Fault = NoFault | Fails(error: Error)

  /** One answer for each call a worker can make: every call is made at most once per Role. */
  datatype Faults = Faults(
    list: Fault,
    managed: Fault,
    source: string -> Fault,
    create: string -> Fault,
    update: string -> Fault,
    bind: string -> Fault)

  /** What all workers of a push share. */
  datatype Push = Push(hash: string -> string, fromNs: string, labels: map<string, string>, allowSubset: bool)

  /** One worker: a service account and a target namespace. */
  datatype Task = Task(toNs: string, sa: string, faults: Faults)

  datatype Reason = NotFound | FailedToGet | Insufficient | FailedToUpdate | FailedToCreate
  datatype Report = Report(role: string, reason: Reason)

  function CopyKey(p: Push, t: Task, role: string): Key {
    Key(t.toNs, ProjectedName(p.hash, role, t.sa, p.fromNs))
  }

  function ManagedKey(p: Push, t: Task): Key {
    Key(t.toNs, MANAGED_PREFIX + p.fromNs)
  }

  function ManagedRules(p: Push, t: Task, roles: map<Key, Role>): seq<PolicyRule> {
    if ManagedKey(p, t) in roles then roles[ManagedKey(p, t)].rules else []
  }

  function SourceKey(p: Push, role: string): Key {
    Key(p.fromNs, role)
  }

  function CopyRules(p: Push, managed: seq<PolicyRule>, roles: map<Key, Role>, role: string): seq<PolicyRule>
    requires SourceKey(p, role) in roles
  {
    RulesFilter.Filtered(roles[SourceKey(p, role)].rules, managed)
  }

  function CopyBinding(p: Push, t: Task, role: string): RoleBinding {
    RoleBinding(p.labels, [Subject("ServiceAccount", t.sa, p.fromNs)], RoleRef("Role", CopyKey(p, t, role).name))
  }

  // ---------------------------------------------------------------------------------------------
  // What the two creation steps compute
  // ---------------------------------------------------------------------------------------------

  datatype RolesOutcome = RolesOutcome(roles: map<Key, Role>, unprojected: seq<Report>, error: Option<Error>)

  function Skipped(p: Push, roles: map<Key, Role>, role: string, reason: Reason, e: Error): RolesOutcome {
    if p.allowSubset then RolesOutcome(roles, [Report(role, reason)], None) else RolesOutcome(roles, [], Some(e))
  }

  function CopyRole(p: Push, t: Task, managed: seq<PolicyRule>, roles: map<Key, Role>, role: string): RolesOutcome {
    var key := CopyKey(p, t, role);
    if t.faults.source(role).Fails? then
      Skipped(p, roles, role, FailedToGet, t.faults.source(role).error)
    else if SourceKey(p, role) !in roles then
      RolesOutcome(roles, if p.allowSubset then [Report(role, NotFound)] else [], None)
    else
      var rules := CopyRules(p, managed, roles, role);
      if rules == [] then Skipped(p, roles, role, Insufficient, Unprojectable(role))
      else if t.faults.create(role).Fails? then
        Skipped(p, roles, role, FailedToCreate, t.faults.create(role).error)
      else if key in roles && t.faults.update(role).Fails? then
        Skipped(p, roles, role, FailedToUpdate, t.faults.update(role).error)
      else RolesOutcome(roles[key := Role(p.labels, rules)], [], None)
  }

  function CopyRoles(p: Push, t: Task, managed: seq<PolicyRule>, roles: map<Key, Role>,
                     names: seq<string>): RolesOutcome {
    if names == [] then RolesOutcome(roles, [], None)
    else
      var before := CopyRoles(p, t, managed, roles, names[..|names| - 1]);
      if before.error.Some? then before
      else
        var last := CopyRole(p, t, managed, before.roles, names[|names| - 1]);
        RolesOutcome(last.roles, before.unprojected + last.unprojected, last.error)
  }

  datatype BindingsOutcome = BindingsOutcome(bindings: map<Key, RoleBinding>, stopped: bool, error: Option<Error>)

  /** Bindings are created in order up to the first that exists already. */
  function Bind(p: Push, t: Task, bindings: map<Key, RoleBinding>, names: seq<string>): BindingsOutcome {
    if names == [] then BindingsOutcome(bindings, false, None)
    else
      var before := Bind(p, t, bindings, names[..|names| - 1]);
      var role := names[|names| - 1];
      if before.stopped || before.error.Some? then before
      else if t.faults.bind(role).Fails? then before.(error := Some(t.faults.bind(role).error))
      else if CopyKey(p, t, role) in before.bindings then before.(stopped := true)
      else before.(bindings := before.bindings[CopyKey(p, t, role) := CopyBinding(p, t, role)])
  }

  lemma {:induction false} CopyRolesPrefix(p: Push, t: Task, managed: seq<PolicyRule>, roles: map<Key, Role>,
                                           names: seq<string>, k: nat)
    requires k <= |names|
    ensures CopyRoles(p, t, managed, roles, names[..k]).error.Some? ==>
              CopyRoles(p, t, managed, roles, names) == CopyRoles(p, t, managed, roles, names[..k])
  {
    hide CopyRole;
    if k < |names| {
      CopyRolesPrefix(p, t, managed, roles, names[..|names| - 1], k);
      assert names[..|names| - 1][..k] == names[..k];
    } else {
      assert names[..k] == names;
    }
  }

  lemma {:induction false} BindPrefix(p: Push, t: Task, bindings: map<Key, RoleBinding>, names: seq<string>, k: nat)
    requires k <= |names|
    ensures var o := Bind(p, t, bindings, names[..k]);
            o.stopped || o.error.Some? ==> Bind(p, t, bindings, names) == o
  {
    if k < |names| {
      BindPrefix(p, t, bindings, names[..|names| - 1], k);
      assert names[..|names| - 1][..k] == names[..k];
    } else {
      assert names[..k] == names;
    }
  }

  // ---------------------------------------------------------------------------------------------
  // The controller's methods
  // ---------------------------------------------------------------------------------------------

  datatype Answer = Done | AlreadyExists | Refused(error: Error)

  class Cluster {
    var roles: map<Key, Role>
    var bindings: map<Key, RoleBinding>

    method CreateRoleObject(key: Key, role: Role, fault: Fault) returns (answer: Answer)
      modifies this`roles
      ensures fault.Fails? ==> answer == Refused(fault.error) && roles == old(roles)
      ensures fault.NoFault? && key in old(roles) ==> answer == AlreadyExists && roles == old(roles)
      ensures fault.NoFault? && key !in old(roles) ==> answer == Done && roles == old(roles)[key := role]
    {
      if fault.Fails? {
        return Refused(fault.error);
      }
      if key in roles {
        return AlreadyExists;
      }
      roles := roles[key := role];
      return Done;
    }

    method UpdateRoleObject(key: Key, role: Role, fault: Fault) returns (answer: Answer)
      requires key in roles
      modifies this`roles
      ensures fault.Fails? ==> answer == Refused(fault.error) && roles == old(roles)
      ensures fault.NoFault? ==> answer == Done && roles == old(roles)[key := role]
    {
      if fault.Fails? {
        return Refused(fault.error);
      }
      roles := roles[key := role];
      return Done;
    }

    method CreateBindingObject(key: Key, binding: RoleBinding, fault: Fault) returns (answer: Answer)
      modifies this`bindings
      ensures fault.Fails? ==> answer == Refused(fault.error) && bindings == old(bindings)
      ensures fault.NoFault? && key in old(bindings) ==> answer == AlreadyExists && bindings == old(bindings)
      ensures fault.NoFault? && key !in old(bindings) ==> answer == Done && bindings == old(bindings)[key := binding]
    {
      if fault.Fails? {
        return Refused(fault.error);
      }
      if key in bindings {
        return AlreadyExists;
      }
      bindings := bindings[key := binding];
      return Done;
    }

    method GetRolesFromServiceAccount(sa: string, ns: string) returns (names: seq<string>)
      ensures Distinct(names) && Elems(names) == BoundRoles(bindings, sa, ns)
      ensures forall r :: r in names <==>
                exists k :: k in bindings && k.ns == ns && Subject("ServiceAccount", sa, ns) in bindings[k].subjects &&
                  bindings[k].ref.name == r
    {
      var roleNameList: seq<string> := [];
      var rest := bindings.Keys;
      while rest != {}
        invariant rest <= bindings.Keys
        invariant Elems(roleNameList) ==
                  set k | k in bindings.Keys - rest && k.ns == ns && Subject("ServiceAccount", sa, ns) in bindings[k].subjects ::
                    bindings[k].ref.name
      {
        var key :| key in rest;
        ghost var before := roleNameList;
        if key.ns == ns {
          var roleBinding := bindings[key];
          for i := 0 to |roleBinding.subjects|
            invariant Elems(roleNameList) == Elems(before) +
                      if Subject("ServiceAccount", sa, ns) in roleBinding.subjects[..i] then {roleBinding.ref.name} else {}
          {
            var subject := roleBinding.subjects[i];
            assert roleBinding.subjects[..i + 1] == roleBinding.subjects[..i] + [subject];
            if subject.name == sa && subject.kind == "ServiceAccount" && subject.ns == ns {
              assert Elems(roleNameList + [roleBinding.ref.name]) == Elems(roleNameList) + {roleBinding.ref.name};
              roleNameList := roleNameList + [roleBinding.ref.name];
            }
          }
          assert roleBinding.subjects[..|roleBinding.subjects|] == roleBinding.subjects;
        }
        rest := rest - {key};
      }
      var unique := MakeSet(roleNameList);
      names := ToStringSlice(unique);
      assert forall r :: r in names <==> r in Elems(names);
    }

    /** The body of the loop of `CreateRole`: one Role of the list. */
    method CopyOne(p: Push, t: Task, managedRules: seq<PolicyRule>, roleName: string)
      returns (unprojected: seq<Report>, error: Option<Error>)
      modifies this`roles
      ensures RolesOutcome(roles, unprojected, error) == CopyRole(p, t, managedRules, old(roles), roleName)
    {
      hide RulesFilter.Filtered, RulesFilter.Projectable, Allows, ProjectedName;
      if t.faults.source(roleName).Fails? {
        if p.allowSubset {
          return [Report(roleName, FailedToGet)], None;
        }
        return [], Some(t.faults.source(roleName).error);
      }
      if SourceKey(p, roleName) !in roles {
        if p.allowSubset {
          return [Report(roleName, NotFound)], None;
        }
        return [], None;
      }
      var rules, canProject := RulesFilter.FilterRules(roles[SourceKey(p, roleName)].rules, managedRules);
      RulesFilter.CanProject(roles[SourceKey(p, roleName)].rules, managedRules);
      if !canProject {
        if p.allowSubset {
          return [Report(roleName, Insufficient)], None;
        }
        return [], Some(Unprojectable(roleName));
      }
      var key, role := CopyKey(p, t, roleName), Role(p.labels, rules);
      var answer := CreateRoleObject(key, role, t.faults.create(roleName));
      if answer == AlreadyExists {
        answer := UpdateRoleObject(key, role, t.faults.update(roleName));
        if answer.Refused? {
          if p.allowSubset {
            return [Report(roleName, FailedToUpdate)], None;
          }
          return [], Some(answer.error);
        }
      } else if answer.Refused? {
        if p.allowSubset {
          return [Report(roleName, FailedToCreate)], None;
        }
        return [], Some(answer.error);
      }
      return [], None;
    }

    /** `CreateRole`. */
    method CreateRole(p: Push, t: Task, roleNames: seq<string>) returns (unprojected: seq<Report>, error: Option<Error>)
      modifies this`roles
      ensures t.faults.managed.Fails? ==>
                roles == old(roles) && unprojected == [] && error == Some(t.faults.managed.error)
      ensures t.faults.managed.NoFault? ==>
                RolesOutcome(roles, unprojected, error) ==
                CopyRoles(p, t, ManagedRules(p, t, old(roles)), old(roles), roleNames)
      ensures var key := Key(t.toNs, "nss-managed-role-from-" + p.fromNs);
              t.faults.managed.NoFault? ==>
                RolesOutcome(roles, unprojected, error) ==
                CopyRoles(p, t, if key in old(roles) then old(roles)[key].rules else [], old(roles), roleNames)
    {
      hide CopyRole;
      var managedRules: seq<PolicyRule> := [];
      if t.faults.managed.Fails? {
        return [], Some(t.faults.managed.error);
      }
      if ManagedKey(p, t) in roles {
        managedRules := roles[ManagedKey(p, t)].rules;
      }
      unprojected := [];
      ghost var start := roles;
      for i := 0 to |roleNames|
        invariant RolesOutcome(roles, unprojected, None) == CopyRoles(p, t, managedRules, start, roleNames[..i])
      {
        assert roleNames[..i + 1][..i] == roleNames[..i];
        CopyRolesPrefix(p, t, managedRules, start, roleNames, i + 1);
        var reports;
        reports, error := CopyOne(p, t, managedRules, roleNames[i]);
        unprojected := unprojected + reports;
        if error.Some? {
          return unprojected, error;
        }
      }
      assert roleNames[..|roleNames|] == roleNames;
      return unprojected, None;
    }

    /** `CreateRoleBinding`. */
    method CreateRoleBinding(p: Push, t: Task, roleNames: seq<string>) returns (error: Option<Error>)
      modifies this`bindings
      ensures var o := Bind(p, t, old(bindings), roleNames);
              bindings == o.bindings && error == o.error
    {
      ghost var start := bindings;
      for i := 0 to |roleNames|
        invariant BindingsOutcome(bindings, false, None) == Bind(p, t, start, roleNames[..i])
      {
        var roleName := roleNames[i];
        assert roleNames[..i + 1][..i] == roleNames[..i];
        BindPrefix(p, t, start, roleNames, i + 1);
        var answer := CreateBindingObject(CopyKey(p, t, roleName), CopyBinding(p, t, roleName), t.faults.bind(roleName));
        if answer == AlreadyExists {
          return None;
        }
        if answer.Refused? {
          return Some(answer.error);
        }
      }
      assert roleNames[..|roleNames|] == roleNames;
      return None;
    }
  }

  // ---------------------------------------------------------------------------------------------
  // What CreateRole guarantees
  // ---------------------------------------------------------------------------------------------

  /** The Roles to copy have pairwise different copies, all outside the source namespace. */
  predicate Separate(p: Push, t: Task, names: seq<string>) {
    && t.toNs != p.fromNs
    && (forall i, j :: 0 <= i < j < |names| ==> CopyKey(p, t, names[i]) != CopyKey(p, t, names[j]))
  }

  function TimesReported(reports: seq<Report>, role: string): nat {
    if reports == [] then 0
    else TimesReported(reports[..|reports| - 1], role) + if reports[|reports| - 1].role == role then 1 else 0
  }

  predicate Written(p: Push, t: Task, managed: seq<PolicyRule>, old_: map<Key, Role>, new_: map<Key, Role>,
                    role: string) {
    && SourceKey(p, role) in old_
    && CopyRules(p, managed, old_, role) != []
    && Lookup(new_, CopyKey(p, t, role)) == Some(Role(p.labels, CopyRules(p, managed, old_, role)))
  }

  predicate LeftAlone(p: Push, t: Task, old_: map<Key, Role>, new_: map<Key, Role>, role: string) {
    Lookup(new_, CopyKey(p, t, role)) == Lookup(old_, CopyKey(p, t, role))
  }

  lemma CopyRoleEffect(p: Push, t: Task, managed: seq<PolicyRule>, roles: map<Key, Role>, role: string)
    ensures var o := CopyRole(p, t, managed, roles, role);
            && (forall k :: k != CopyKey(p, t, role) ==> Lookup(o.roles, k) == Lookup(roles, k))
            && (o.unprojected == [] || (|o.unprojected| == 1 && o.unprojected[0].role == role && o.roles == roles))
            && (p.allowSubset ==> o.error == None && (o.unprojected == [] ==> Written(p, t, managed, roles, o.roles, role)))
            && (!p.allowSubset ==> o.unprojected == [])
            && (!p.allowSubset ==>
                  if o.error == None && SourceKey(p, role) in roles then Written(p, t, managed, roles, o.roles, role)
                  else o.roles == roles)
  {
    hide RulesFilter.Filtered, CopyKey;
  }

  /** Processing further Roles neither disturbs the copies made nor the sources. */
  lemma CopyRolesFrame(p: Push, t: Task, managed: seq<PolicyRule>, roles: map<Key, Role>, names: seq<string>, k: Key)
    requires forall i :: 0 <= i < |names| ==> k != CopyKey(p, t, names[i])
    ensures Lookup(CopyRoles(p, t, managed, roles, names).roles, k) == Lookup(roles, k)
  {
    hide CopyRole, CopyKey;
    if names != [] {
      var init, role := names[..|names| - 1], names[|names| - 1];
      CopyRolesFrame(p, t, managed, roles, init, k);
      CopyRoleEffect(p, t, managed, CopyRoles(p, t, managed, roles, init).roles, role);
    }
  }

  lemma SourceApart(p: Push, t: Task, r: string, role: string)
    requires t.toNs != p.fromNs
    ensures SourceKey(p, r) != CopyKey(p, t, role)
  {
  }

  lemma TimesReportedAppend(reports: seq<Report>, more: seq<Report>, role: string)
    requires |more| <= 1
    ensures TimesReported(reports + more, role) ==
            TimesReported(reports, role) + if |more| == 1 && more[0].role == role then 1 else 0
  {
    if more == [] {
      assert reports + more == reports;
    } else {
      assert (reports + more)[..|reports|] == reports;
    }
  }

  /** Which answer or filter result a Role's report stands for. */
  ghost predicate ReportedFor(p: Push, t: Task, managed: seq<PolicyRule>, roles: map<Key, Role>, reports: seq<Report>,
                              role: string) {
    var source := Key(p.fromNs, role);
    var found := t.faults.source(role).NoFault? && source in roles;
    var copyable := found && exists q :: Concrete(q) && RulesFilter.Projectable(roles[source].rules, managed, q);
    && (Report(role, FailedToGet) in reports <==> t.faults.source(role).Fails?)
    && (Report(role, NotFound) in reports <==> t.faults.source(role).NoFault? && source !in roles)
    && (Report(role, Insufficient) in reports <==> found && !copyable)
    && (Report(role, FailedToCreate) in reports <==> copyable && t.faults.create(role).Fails?)
    && (Report(role, FailedToUpdate) in reports <==>
        copyable && t.faults.create(role).NoFault? && CopyKey(p, t, role) in roles && t.faults.update(role).Fails?)
  }

  lemma CopyRoleReport(p: Push, t: Task, managed: seq<PolicyRule>, roles: map<Key, Role>, role: string)
    requires p.allowSubset
    ensures ReportedFor(p, t, managed, roles, CopyRole(p, t, managed, roles, role).unprojected, role)
  {
    hide RulesFilter.Filtered, RulesFilter.Projectable, CopyKey;
    if SourceKey(p, role) in roles {
      RulesFilter.CanProject(roles[SourceKey(p, role)].rules, managed);
    }
  }

  lemma SameReported(p: Push, t: Task, managed: seq<PolicyRule>, a: map<Key, Role>, b: map<Key, Role>,
                     ra: seq<Report>, rb: seq<Report>, role: string)
    requires Lookup(a, SourceKey(p, role)) == Lookup(b, SourceKey(p, role)) && LeftAlone(p, t, a, b, role)
    requires forall reason :: Report(role, reason) in ra <==> Report(role, reason) in rb
    ensures ReportedFor(p, t, managed, a, ra, role) <==> ReportedFor(p, t, managed, b, rb, role)
  {
    hide RulesFilter.Projectable, CopyKey;
  }

  /** With subset projection every report gives the reason why its Role was passed over. */
  lemma {:induction false} ReportsExactly(p: Push, t: Task, managed: seq<PolicyRule>, roles: map<Key, Role>,
                                          names: seq<string>)
    requires p.allowSubset && Separate(p, t, names)
    ensures var reports := CopyRoles(p, t, managed, roles, names).unprojected;
            && (forall i :: 0 <= i < |names| ==> ReportedFor(p, t, managed, roles, reports, names[i]))
            && (forall report :: report in reports ==> report.role in names)
  {
    hide CopyRole, CopyKey, ReportedFor, Written;
    if names != [] {
      var init, role := names[..|names| - 1], names[|names| - 1];
      assert names == init + [role];
      var before := CopyRoles(p, t, managed, roles, init);
      ReportsExactly(p, t, managed, roles, init);
      SubsetPartition(p, t, managed, roles, init);
      CopyRolesFrame(p, t, managed, roles, init, CopyKey(p, t, role));
      SourceKept(p, t, managed, roles, init, role);
      CopyRoleEffect(p, t, managed, before.roles, role);
      CopyRoleReport(p, t, managed, before.roles, role);
      var last := CopyRole(p, t, managed, before.roles, role).unprojected;
      assert role !in init;
      SameReported(p, t, managed, before.roles, roles, last, before.unprojected + last, role);
      forall i | 0 <= i < |init|
        ensures ReportedFor(p, t, managed, roles, before.unprojected + last, init[i])
      {
        assert init[i] == names[i] && init[i] != role;
        SameReported(p, t, managed, roles, roles, before.unprojected, before.unprojected + last, init[i]);
      }
    }
  }

  /** With subset projection `CreateRole` never fails, whatever the API answers, and sorts the Roles in
    two: written with exactly the filtered rules, or reported once and left alone. */
  lemma {:induction false} SubsetPartition(p: Push, t: Task, managed: seq<PolicyRule>, roles: map<Key, Role>,
                                           names: seq<string>)
    requires p.allowSubset && Separate(p, t, names)
    ensures var o := CopyRoles(p, t, managed, roles, names);
            && o.error == None
            && (forall i :: 0 <= i < |names| ==>
                  || (TimesReported(o.unprojected, names[i]) == 0 && Written(p, t, managed, roles, o.roles, names[i]))
                  || (TimesReported(o.unprojected, names[i]) == 1 && LeftAlone(p, t, roles, o.roles, names[i])))
            && (forall r :: r !in names ==> TimesReported(o.unprojected, r) == 0)
  {
    hide CopyRole, CopyKey, RulesFilter.Filtered;
    if names != [] {
      var init, role := names[..|names| - 1], names[|names| - 1];
      assert names == init + [role];
      var before := CopyRoles(p, t, managed, roles, init);
      SubsetPartition(p, t, managed, roles, init);
      var o := CopyRoles(p, t, managed, roles, names);
      CopyRoleEffect(p, t, managed, before.roles, role);
      CopyRolesFrame(p, t, managed, roles, init, CopyKey(p, t, role));
      assert LeftAlone(p, t, roles, before.roles, role);
      SourceKept(p, t, managed, roles, init, role);
      var more := CopyRole(p, t, managed, before.roles, role).unprojected;
      forall r
        ensures TimesReported(o.unprojected, r) ==
                TimesReported(before.unprojected, r) + if r == role && more != [] then 1 else 0
      {
        TimesReportedAppend(before.unprojected, more, r);
      }
      forall i | 0 <= i < |init|
        ensures names[i] == init[i] && names[i] != role
        ensures CopyKey(p, t, init[i]) != CopyKey(p, t, role)
      {
        assert CopyKey(p, t, names[i]) != CopyKey(p, t, names[|names| - 1]);
      }
    }
  }

  lemma SourceKept(p: Push, t: Task, managed: seq<PolicyRule>, roles: map<Key, Role>, names: seq<string>, role: string)
    requires t.toNs != p.fromNs
    ensures Lookup(CopyRoles(p, t, managed, roles, names).roles, SourceKey(p, role)) == Lookup(roles, SourceKey(p, role))
  {
    forall i | 0 <= i < |names|
      ensures SourceKey(p, role) != CopyKey(p, t, names[i])
    {
      SourceApart(p, t, role, names[i]);
    }
    CopyRolesFrame(p, t, managed, roles, names, SourceKey(p, role));
  }

  /** The error that the first call to fail for a Role ends `CreateRole` with, or the filter's refusal. */
  ghost predicate StopsAt(p: Push, t: Task, managed: seq<PolicyRule>, roles: map<Key, Role>, role: string, e: Error) {
    var source := Key(p.fromNs, role);
    || t.faults.source(role) == Fails(e)
    || (t.faults.source(role).NoFault? && source in roles &&
        if !exists q :: Concrete(q) && RulesFilter.Projectable(roles[source].rules, managed, q) then e == Unprojectable(role)
        else || t.faults.create(role) == Fails(e)
             || (t.faults.create(role).NoFault? && CopyKey(p, t, role) in roles && t.faults.update(role) == Fails(e)))
  }

  lemma CopyRoleStops(p: Push, t: Task, managed: seq<PolicyRule>, roles: map<Key, Role>, role: string)
    requires !p.allowSubset && CopyRole(p, t, managed, roles, role).error.Some?
    ensures StopsAt(p, t, managed, roles, role, CopyRole(p, t, managed, roles, role).error.value)
  {
    hide RulesFilter.Filtered, RulesFilter.Projectable, CopyKey;
    if SourceKey(p, role) in roles {
      RulesFilter.CanProject(roles[SourceKey(p, role)].rules, managed);
    }
  }

  lemma SameStop(p: Push, t: Task, managed: seq<PolicyRule>, a: map<Key, Role>, b: map<Key, Role>, role: string)
    requires Lookup(a, SourceKey(p, role)) == Lookup(b, SourceKey(p, role)) && LeftAlone(p, t, a, b, role)
    ensures forall e :: StopsAt(p, t, managed, a, role, e) <==> StopsAt(p, t, managed, b, role, e)
  {
    hide RulesFilter.Projectable, CopyKey;
  }

  /** Without subset projection nothing is reported, and what is written is a prefix: every found Role
    before the stopping point, none after it; without error the prefix is the whole list. */
  lemma {:induction false} StrictPrefix(p: Push, t: Task, managed: seq<PolicyRule>, roles: map<Key, Role>,
                                        names: seq<string>)
    returns (k: nat)
    requires !p.allowSubset && Separate(p, t, names)
    ensures k <= |names|
    ensures var o := CopyRoles(p, t, managed, roles, names);
            && o.unprojected == []
            && (o.error == None <==> k == |names|)
            && (forall i :: 0 <= i < k ==>
                  if SourceKey(p, names[i]) in roles then Written(p, t, managed, roles, o.roles, names[i])
                  else LeftAlone(p, t, roles, o.roles, names[i]))
            && (forall i :: k <= i < |names| ==> LeftAlone(p, t, roles, o.roles, names[i]))
            && (k < |names| ==> o.error.Some? && StopsAt(p, t, managed, roles, names[k], o.error.value))
  {
    hide CopyRole, CopyKey, RulesFilter.Filtered;
    k := 0;
    if names != [] {
      var init, role := names[..|names| - 1], names[|names| - 1];
      assert names == init + [role];
      var before := CopyRoles(p, t, managed, roles, init);
      k := StrictPrefix(p, t, managed, roles, init);
      CopyRoleEffect(p, t, managed, before.roles, role);
      CopyRolesFrame(p, t, managed, roles, init, CopyKey(p, t, role));
      assert LeftAlone(p, t, roles, before.roles, role);
      SourceKept(p, t, managed, roles, init, role);
      forall i | 0 <= i < |init|
        ensures names[i] == init[i]
        ensures CopyKey(p, t, init[i]) != CopyKey(p, t, role)
      {
        assert CopyKey(p, t, names[i]) != CopyKey(p, t, names[|names| - 1]);
      }
      if CopyRoles(p, t, managed, roles, names).error == None {
        k := |names|;
      } else if before.error == None {
        CopyRoleStops(p, t, managed, before.roles, role);
        SameStop(p, t, managed, before.roles, roles, role);
      }
    }
  }

  /** Where `CreateRoleBinding` stops: the bindings before the stopping point are made and none after it, and the
    Role there has its binding already, which ends it without an error, or gets an error for an answer. */
  lemma {:induction false} BindExactly(p: Push, t: Task, bindings: map<Key, RoleBinding>,
                                       names: seq<string>) returns (k: nat)
    requires Separate(p, t, names)
    ensures k <= |names|
    ensures var o := Bind(p, t, bindings, names);
            && (forall i :: 0 <= i < k ==> CopyKey(p, t, names[i]) !in bindings)
            && (forall i :: 0 <= i < k ==> Lookup(o.bindings, CopyKey(p, t, names[i])) == Some(CopyBinding(p, t, names[i])))
            && (forall key :: (forall i :: 0 <= i < k ==> key != CopyKey(p, t, names[i])) ==>
                  Lookup(o.bindings, key) == Lookup(bindings, key))
            && (o.stopped || o.error.Some? <==> k < |names|)
            && (k < |names| && t.faults.bind(names[k]).Fails? ==> o.error == Some(t.faults.bind(names[k]).error))
            && (k < |names| && t.faults.bind(names[k]).NoFault? ==> o.error == None && CopyKey(p, t, names[k]) in bindings)
            && (k == |names| ==> o.error == None)
  {
    hide CopyKey, CopyBinding;
    k := 0;
    if names != [] {
      var init, role := names[..|names| - 1], names[|names| - 1];
      assert names == init + [role];
      k := BindExactly(p, t, bindings, init);
      var before, o := Bind(p, t, bindings, init), Bind(p, t, bindings, names);
      forall i | 0 <= i < |init|
        ensures names[i] == init[i] && CopyKey(p, t, init[i]) != CopyKey(p, t, role)
      {
        assert CopyKey(p, t, names[i]) != CopyKey(p, t, names[|names| - 1]);
      }
      if !before.stopped && before.error.None? {
        assert Lookup(before.bindings, CopyKey(p, t, role)) == Lookup(bindings, CopyKey(p, t, role));
        if t.faults.bind(role).NoFault? && CopyKey(p, t, role) !in bindings {
          k := |names|;
        }
      }
    }
  }
}
