/** The reconciler: its methods one API call after another, each with the exact world and error of `Outcomes`, and
  so tied to the passes and deletion attempts of `Scope`.

  The goroutines of a push run one after another here.  That is one of their schedules
  (`PushInTurn.TurnsAreASchedule`); with names apart every other one ends the same way
  (`PushTheorems.SchedulesAgree`). */
module Controller {
  import opened Rbac
  import opened Lists
  import opened Names
  import opened Store
  import opened Projection
  import opened Worker
  import opened FanOut
  import opened PushPlan
  import opened PushTheorems
  import opened PushInTurn
  import opened Scope
  import opened ScopeRuns
  import opened RuntimeRoles
  import opened SoloRuns
  import opened StrictPushes
  import opened Outcomes
  import opened PassTheorems

  datatype Outcome = Completed | Failed(error: Error)

  function ErrorOf(outcome: Outcome): Option<Error> {
    if outcome.Failed? then Some(outcome.error) else None
  }

  // ---------------------------------------------------------------------------------------------
  // Lists
  // ---------------------------------------------------------------------------------------------

  lemma CountedTwice(ys: seq<string>, i: nat, j: nat)
    requires i < j < |ys|
    ensures ys[i] == ys[j] ==> multiset(ys)[ys[i]] >= 2
  {
    assert ys == ys[..i] + [ys[i]] + ys[i + 1..j] + [ys[j]] + ys[j + 1..];
  }

  /** A permutation of a duplicate-free list is one too. */
  lemma PermutedDistinct(xs: seq<string>, ys: seq<string>)
    requires Distinct(xs) && multiset(xs) == multiset(ys)
    ensures Distinct(ys) && Elems(ys) == Elems(xs)
  {
    ListDifferenceVersusContent(xs, ys);
    DistinctMultiset(xs);
    forall i, j | 0 <= i < j < |ys|
      ensures ys[i] != ys[j]
    {
      CountedTwice(ys, i, j);
    }
  }

  method ToArray(xs: seq<string>) returns (a: array<string>)
    ensures fresh(a) && a[..] == xs
  {
    a := new string[|xs|](i requires 0 <= i < |xs| => xs[i]);
  }

  /** Compares a list with a stored text; the list may come back in another order. */
  method DiffersFrom(members: array<string>, data: string) returns (differ: bool)
    modifies members
    ensures differ <==> multiset(old(members[..])) != multiset(Split(data))
    ensures multiset(members[..]) == multiset(old(members[..]))
  {
    hide Split, InOrder;
    var stored := ToArray(Split(data));
    InOrderSorts(members[..]);
    differ := CheckListDifference(members, stored);
  }

  class Reconciler {
    const home: string
    const cluster: Cluster
    var configMaps: map<string, ConfigMap>
    var crs: map<string, Nss>
    var namespaces: map<string, Phase>
    var restarts: nat

    constructor (home: string, cluster: Cluster)
      ensures this.home == home && this.cluster == cluster
      ensures View() == World(Objects(cluster.roles, cluster.bindings), map[], map[], map[], 0)
    {
      this.home, this.cluster := home, cluster;
      configMaps, crs, namespaces, restarts := map[], map[], map[], 0;
    }

    ghost function View(): World
      reads this, cluster
    {
      World(Objects(cluster.roles, cluster.bindings), configMaps, crs, namespaces, restarts)
    }

    ghost function Stored(): Objects
      reads this, cluster
    {
      Objects(cluster.roles, cluster.bindings)
    }

    // -------------------------------------------------------------------------------------------
    // Members
    // -------------------------------------------------------------------------------------------

    /** `getAllValidatedNamespaceMembers`. */
    method GetAllValidatedNamespaceMembers(cm: string) returns (members: seq<string>)
      ensures Distinct(members) && Elems(members) == Claimed(crs, cm)
    {
      var namespaceMembers: seq<string> := [];
      var rest := crs.Keys;
      while rest != {}
        invariant rest <= crs.Keys
        invariant Elems(namespaceMembers) ==
                  set c, ns | c in crs.Keys - rest && !crs[c].deleting && MapName(crs[c]) == cm && ns in crs[c].status :: ns
      {
        var c :| c in rest;
        var cr := crs[c];
        rest := rest - {c};
        if cr.deleting {
          continue;
        }
        if MapName(cr) == cm {
          assert Elems(namespaceMembers + cr.status) == Elems(namespaceMembers) + Elems(cr.status);
          namespaceMembers := namespaceMembers + cr.status;
        }
      }
      var unique := MakeSet(namespaceMembers);
      members := ToStringSlice(unique);
    }

    /** `getValidatedNamespaces`. */
    method GetValidatedNamespaces(cr: Nss, mayGet: string -> bool, answers: Answers)
      returns (members: seq<string>, error: Option<Error>)
      ensures error == LookupError(cr.members, home, mayGet, answers)
      ensures members == if error.None? then Validated(cr.members, namespaces, home, mayGet) else []
      ensures error.None? ==>
                forall ns :: ns in members <==>
                  ns in cr.members && (ns == home || !mayGet(ns) || (ns in namespaces && namespaces[ns] != Terminating))
    {
      members := [];
      if answers(FindNamespaceForMembers).Fails? {
        return [], Some(answers(FindNamespaceForMembers).error);
      }
      for i := 0 to |cr.members|
        invariant members == Validated(cr.members[..i], namespaces, home, mayGet)
        invariant Unreadable(cr.members[..i], home, mayGet, answers) == None
      {
        var nsMem := cr.members[i];
        assert cr.members[..i + 1][..i] == cr.members[..i];
        UnreadablePrefix(cr.members, home, mayGet, answers, i + 1);
        if nsMem == home {
          members := members + [nsMem];
          continue;
        }
        if mayGet(nsMem) {
          if answers(ReadNamespace(nsMem)).Fails? {
            return [], Some(answers(ReadNamespace(nsMem)).error);
          }
          if nsMem !in namespaces {
            continue;
          }
          if namespaces[nsMem] == Terminating {
            continue;
          }
        }
        members := members + [nsMem];
      }
      assert cr.members[..|cr.members|] == cr.members;
      return members, None;
    }

    /** `addFinalizer` and `UpdateStatus`. */
    method Refresh(c: string, mayGet: string -> bool, answers: Answers) returns (error: Option<Error>)
      requires c in crs
      modifies this`crs
      ensures var r := RefreshEnds(old(crs)[c], namespaces, home, mayGet, answers);
              crs == old(crs)[c := r.cr] && error == r.error
      ensures crs[c] == old(crs)[c].(finalizer := crs[c].finalizer, status := crs[c].status)
      ensures error.None? ==> crs[c].finalizer
      ensures error.None? ==>
                forall ns :: ns in crs[c].status <==>
                  ns in crs[c].members && (ns == home || !mayGet(ns) || (ns in namespaces && namespaces[ns] != Terminating))
    {
      hide Validated, Unreadable;
      var cr := crs[c];
      if !cr.finalizer {
        if answers(WriteFinalizer).Fails? {
          return Some(answers(WriteFinalizer).error);
        }
        cr := cr.(finalizer := true);
        crs := crs[c := cr];
      }
      var validated, failure := GetValidatedNamespaces(cr, mayGet, answers);
      if failure.Some? {
        return failure;
      }
      var same := StringSliceContentEqual(cr.status, validated);
      assert same ==> forall ns :: ns in cr.status <==> ns in Elems(validated);
      if !same {
        if answers(WriteStatus).Fails? {
          return Some(answers(WriteStatus).error);
        }
        crs := crs[c := cr.(status := validated)];
      }
      return None;
    }

    // -------------------------------------------------------------------------------------------
    // The ConfigMap
    // -------------------------------------------------------------------------------------------

    /** The part of `UpdateConfigMap` for a ConfigMap that exists: compares and, if need be, rewrites it. */
    method RewriteMap(cr: Nss, validatedMembers: seq<string>, answers: Answers) returns (error: Option<Error>)
      requires MapName(cr) in configMaps && IsEnumeration(validatedMembers, Claimed(crs, MapName(cr)))
      requires MapReadError(answers).None?
      modifies this`configMaps, this`restarts
      ensures error == MapError(old(View()), cr, answers)
      ensures MapEnds(old(View()), cr, answers, configMaps, restarts)
    {
      hide Split, Join, InOrder, Claimed, Distinct;
      var name := MapName(cr);
      ghost var claimed := Claimed(crs, name);
      var cm := configMaps[name];
      DistinctMultiset(validatedMembers);
      var members := ToArray(validatedMembers);
      var differ := DiffersFrom(members, cm.data);
      if differ || cr.uid !in cm.owners {
        var restartpod := DiffersFrom(members, cm.data);
        if restartpod {
          PermutedDistinct(validatedMembers, members[..]);
          assert IsEnumeration(members[..], claimed);
          cm := cm.(data := Join(members[..]));
        }
        cm := cm.(owners := cm.owners + {cr.uid});
        if answers(WriteMap).Fails? {
          return Some(answers(WriteMap).error);
        }
        configMaps := configMaps[name := cm];
        if restartpod {
          restarts := restarts + 1;
          if answers(RestartPods).Fails? {
            return Some(answers(RestartPods).error);
          }
        }
      }
      return None;
    }

    /** `UpdateConfigMap`. */
    method UpdateConfigMap(cr: Nss, answers: Answers) returns (error: Option<Error>)
      modifies this`configMaps, this`restarts
      ensures error == MapError(old(View()), cr, answers)
      ensures MapEnds(old(View()), cr, answers, configMaps, restarts)
    {
      hide Split, Join, Claimed, Distinct;
      var name := MapName(cr);
      if answers(ListMembersForMap).Fails? {
        return Some(answers(ListMembersForMap).error);
      }
      var validatedMembers := GetAllValidatedNamespaceMembers(name);
      if answers(ReadMap).Fails? {
        return Some(answers(ReadMap).error);
      }
      assert IsEnumeration(validatedMembers, Claimed(crs, name));
      if name !in configMaps {
        if answers(WriteMap).Fails? {
          return Some(answers(WriteMap).error);
        }
        configMaps := configMaps[name := ConfigMap(Join(validatedMembers), {cr.uid})];
        restarts := restarts + 1;
        return if answers(RestartPods).Fails? then Some(answers(RestartPods).error) else None;
      }
      error := RewriteMap(cr, validatedMembers, answers);
    }

    // -------------------------------------------------------------------------------------------
    // Cleanup
    // -------------------------------------------------------------------------------------------

    /** `DeleteRoleBinding`: all labelled bindings of one namespace in one call. */
    method DeleteRoleBinding(cm: string, toNs: string, fault: Fault) returns (error: Option<Error>)
      modifies cluster`bindings
      ensures error == if fault.Fails? then Some(fault.error) else None
      ensures cluster.bindings == if fault.Fails? then old(cluster.bindings) else SweptBindings(old(cluster.bindings), {toNs}, home, cm)
    {
      if fault.Fails? {
        return Some(fault.error);
      }
      cluster.bindings := map k | k in cluster.bindings && !(k.ns == toNs && Carries(cluster.bindings[k].labels, home, cm)) ::
        cluster.bindings[k];
      return None;
    }

    /** `DeleteRole`. */
    method DeleteRole(cm: string, toNs: string, fault: Fault) returns (error: Option<Error>)
      modifies cluster`roles
      ensures error == if fault.Fails? then Some(fault.error) else None
      ensures cluster.roles == if fault.Fails? then old(cluster.roles) else SweptRoles(old(cluster.roles), {toNs}, home, cm)
    {
      if fault.Fails? {
        return Some(fault.error);
      }
      cluster.roles := map k | k in cluster.roles && !(k.ns == toNs && Carries(cluster.roles[k].labels, home, cm)) ::
        cluster.roles[k];
      return None;
    }

    /** The loop that `DeleteRbacFromUnmanagedNamespace` and `DeleteAllRbac` share.  A Forbidden answer skips
      to the next namespace, any other error ends the loop. */
    method DeleteRbac(targets: seq<string>, cm: string, answers: Answers) returns (error: Option<Error>)
      modifies cluster
      ensures Sweeping(Stored(), error) == SweepInTurn(old(Stored()), targets, home, cm, answers)
      ensures error.None? <==> forall ns :: ns in targets && ns != home ==> Passable(answers, ns)
      ensures error.Some? ==> exists ns :: ns in targets && ns != home && FailsThere(answers, ns, error.value)
      ensures var all := Elems(targets) - {home};
              error.None? ==>
                Stored() == Objects(SweptRoles(old(cluster.roles), RolesOf(answers, all), home, cm),
                                    SweptBindings(old(cluster.bindings), BindingsOf(answers, all), home, cm))
    {
      hide Carries, SweptRoles, SweptBindings, PartlySwept, Passable, FailsThere, RolesOf, BindingsOf;
      ghost var before := Stored();
      DeletionsExactly(before, targets, home, cm, answers);
      for i := 0 to |targets|
        invariant Sweeping(Stored(), None) == SweepInTurn(before, targets[..i], home, cm, answers)
      {
        var toNs := targets[i];
        assert targets[..i + 1][..i] == targets[..i];
        SweepPrefix(before, targets, home, cm, answers, i + 1);
        if toNs == home {
          continue;
        }
        var answer := DeleteRoleBinding(cm, toNs, answers(DeleteBindings(toNs)));
        if answer.Some? {
          if answer.value == Forbidden {
            continue;
          }
          return answer;
        }
        answer := DeleteRole(cm, toNs, answers(DeleteRoles(toNs)));
        if answer.Some? {
          if answer.value == Forbidden {
            continue;
          }
          return answer;
        }
      }
      assert targets[..|targets|] == targets;
      return None;
    }

    /** `DeleteRbacFromUnmanagedNamespace`. */
    method DeleteRbacFromUnmanagedNamespace(cr: Nss, answers: Answers) returns (error: Option<Error>)
      modifies cluster
      ensures PassCleanupEnds(View(), old(Stored()), Sweeping(Stored(), error), MapName(cr), home, answers)
      ensures HomeKept(old(Stored()), Stored(), home)
    {
      hide Split, Carries, SweptRoles, SweptBindings, Claimed, Distinct, SweepInTurn, PartlySwept, AllPassable,
        BreaksAt,
        HomeKept;
      var name := MapName(cr);
      ghost var before := Stored();
      HomeKeptStart(before, home);
      if answers(ReadMapForCleanup).Fails? {
        return Some(answers(ReadMapForCleanup).error);
      }
      if name !in configMaps {
        NothingUnmanagedWithout(View(), before, name, home, answers);
        return None;
      }
      var nsInCm: seq<string> := [];
      if configMaps[name].data != "" {
        nsInCm := Split(configMaps[name].data);
      }
      if answers(ListMembersForCleanup).Fails? {
        return Some(answers(ListMembersForCleanup).error);
      }
      var nsInCr := GetAllValidatedNamespaceMembers(name);
      var unmanagedNss := GetListDifference(nsInCm, nsInCr);
      if answers(FindNamespaceForCleanup).Fails? {
        return Some(answers(FindNamespaceForCleanup).error);
      }
      assert Elems(unmanagedNss) - {home} == Unmanaged(View(), name, home);
      error := DeleteRbac(unmanagedNss, name, answers);
      assert SweepsIn(unmanagedNss, before, Sweeping(Stored(), error), Unmanaged(View(), name, home), home, name, answers);
      SweepKeepsHome(before, Sweeping(Stored(), error), Unmanaged(View(), name, home), home, name, answers);
    }

    /** `DeleteAllRbac`. */
    method DeleteAllRbac(cr: Nss, answers: Answers) returns (error: Option<Error>)
      modifies cluster
      ensures DeletionCleanupEnds(View(), cr, old(Stored()), Sweeping(Stored(), error), home, answers)
      ensures HomeKept(old(Stored()), Stored(), home)
    {
      hide Carries, SweptRoles, SweptBindings, Claimed, Distinct, SweepInTurn, PartlySwept, AllPassable, BreaksAt,
        HomeKept;
      ghost var before := Stored();
      HomeKeptStart(before, home);
      if answers(FindNamespaceForCleanup).Fails? {
        return Some(answers(FindNamespaceForCleanup).error);
      }
      if answers(ListMembersForCleanup).Fails? {
        return Some(answers(ListMembersForCleanup).error);
      }
      var usingMembers := GetAllValidatedNamespaceMembers(MapName(cr));
      var deletedMembers := GetListDifference(cr.members, usingMembers);
      assert Elems(deletedMembers) - {home} == Abandoned(View(), cr, home);
      error := DeleteRbac(deletedMembers, MapName(cr), answers);
      assert SweepsIn(deletedMembers, before, Sweeping(Stored(), error), Abandoned(View(), cr, home), home, MapName(cr), answers);
      SweepKeepsHome(before, Sweeping(Stored(), error), Abandoned(View(), cr, home), home, MapName(cr), answers);
    }

    // -------------------------------------------------------------------------------------------
    // The push
    // -------------------------------------------------------------------------------------------

    /** The body of one goroutine of `generateRBACToNamespace`. */
    method ProjectAccount(p: Push, t: Task) returns (sent: seq<Report>, failure: Option<Error>, ghost order: Order)
      requires t.toNs != p.fromNs
      modifies cluster
      ensures Enumerates(order, BoundRoles(old(cluster.bindings), t.sa, p.fromNs))
      ensures Result(Stored(), sent, failure) == Solo(p, t, order, old(Stored()))
      ensures !p.allowSubset && failure.None? ==>
                var names := order(BoundRoles(old(cluster.bindings), t.sa, p.fromNs));
                && t.faults.list.NoFault? && t.faults.managed.NoFault?
                && CopyRoles(p, t, ManagedRules(p, t, old(cluster.roles)), old(cluster.roles), names).error.None?
                && Bind(p, t, old(cluster.bindings), names).error.None?
      ensures p.allowSubset ==> (failure == Some(Forbidden) <==> t.faults.list == Fails(Forbidden))
      ensures HomeKept(old(Stored()), Stored(), p.fromNs)
    {
      hide CopyRoles, Bind, BoundRoles, ManagedRules;
      var roleList := cluster.GetRolesFromServiceAccount(t.sa, p.fromNs);
      order := (s: set<string>) => roleList;
      SoloKeepsHome(p, t, order, Stored());
      SoloFailure(p, t, order, Stored());
      if t.faults.list.Fails? {
        return [], Some(t.faults.list.error), order;
      }
      var unprojected, error := cluster.CreateRole(p, t, roleList);
      if error.Some? {
        if error.value == Forbidden && p.allowSubset {
          return [], None, order;
        }
        return [], error, order;
      }
      if |unprojected| > 0 {
        sent := unprojected;
      } else {
        sent := [];
      }
      error := cluster.CreateRoleBinding(p, t, roleList);
      if error.Some? {
        if error.value == Forbidden && p.allowSubset {
          return sent, None, order;
        }
        return sent, error, order;
      }
      return sent, None, order;
    }

    /** `generateRBACToNamespace`. */
    method GenerateRBACToNamespace(p: Push, saNames: seq<string>, toNs: string, faults: nat -> Faults, first: nat)
      returns (unprojected: seq<Report>, error: Option<Error>, ghost orders: seq<Order>)
      requires toNs != p.fromNs
      modifies cluster
      ensures |orders| == |saNames|
      ensures forall j :: 0 <= j < |saNames| ==> Enumerates(orders[j], BoundRoles(old(cluster.bindings), saNames[j], p.fromNs))
      ensures HomeKept(old(Stored()), Stored(), p.fromNs)
      ensures var turned := InTurn(p, Row(toNs, saNames, faults, first), orders, old(Stored()));
              && Stored() == turned.objects && unprojected == turned.sent
              && error == if turned.errors == [] then None else Some(turned.errors[0])
    {
      hide Solo, InTurn, BoundRoles, Enumerates, HomeKept, CopyRoles, Bind, ManagedRules;
      var errs: seq<Error> := [];
      unprojected := [];
      orders := [];
      ghost var before, row := Stored(), Row(toNs, saNames, faults, first);
      HomeKeptStart(before, p.fromNs);
      InTurnNothing(p, before);
      for j := 0 to |saNames|
        invariant |orders| == j
        invariant forall i :: 0 <= i < j ==> Enumerates(orders[i], BoundRoles(before.bindings, saNames[i], p.fromNs))
        invariant HomeKept(before, Stored(), p.fromNs)
        invariant Turned(Stored(), unprojected, errs) == InTurn(p, row[..j], orders, before)
      {
        var sent, failure;
        ghost var order;
        ghost var here := Stored();
        HomeKeptReads(before, here, p.fromNs);
        sent, failure, order := ProjectAccount(p, Task(toNs, saNames[j], faults(first + j)));
        HomeKeptStill(before, here, Stored(), p.fromNs);
        InTurnLast(p, row[..j], row[j], orders, order, before);
        assert row[..j + 1] == row[..j] + [row[j]];
        orders := orders + [order];
        if failure.Some? {
          errs := errs + [failure.value];
        }
        unprojected := unprojected + sent;
      }
      assert row[..|saNames|] == row;
      if |errs| > 0 {
        return unprojected, Some(errs[0]), orders;
      }
      return unprojected, None, orders;
    }

    /** `PushRbacToNamespace`. */
    method PushRbacToNamespace(p: Push, members: seq<string>, saNames: seq<string>, faults: nat -> Faults)
      returns (unprojected: seq<Report>, error: Option<Error>, ghost orders: seq<Order>)
      modifies cluster
      ensures var tasks := TaskList(Targets(members, p.fromNs), saNames, faults);
              && |orders| == |tasks|
              && (forall k :: 0 <= k < |tasks| ==> Enumerates(orders[k], BoundRoles(old(cluster.bindings), tasks[k].sa, p.fromNs)))
              && var turned := InTurn(p, tasks, orders, old(Stored()));
                 && Stored() == turned.objects && unprojected == turned.sent
                 && error == if p.allowSubset || turned.errors == [] then None else Some(turned.errors[0])
      ensures !p.allowSubset && error.None? && NamesApart(p, saNames, old(Stored())) ==>
                AllArrived(p, old(Stored()), Stored(), members, saNames)
      ensures HomeKept(old(Stored()), Stored(), p.fromNs)
    {
      hide BoundRoles, Enumerates, InTurn, TaskList, Targets, HomeKept, AllArrived, NamesApart;
      var errorChannel: seq<Error> := [];
      var count: nat := 0;
      unprojected := [];
      orders := [];
      ghost var before := Stored();
      ghost var tasks: seq<Task> := [];
      ghost var turned := InTurn(p, [], [], before);
      InTurnNothing(p, before);
      NoTargets(p.fromNs, saNames, faults);
      HomeKeptStart(before, p.fromNs);
      assert members[..0] == [];
      for i := 0 to |members|
        invariant tasks == TaskList(Targets(members[..i], p.fromNs), saNames, faults)
        invariant |orders| == |tasks| == count
        invariant forall k :: 0 <= k < |tasks| ==> Enumerates(orders[k], BoundRoles(before.bindings, tasks[k].sa, p.fromNs))
        invariant HomeKept(before, Stored(), p.fromNs)
        invariant turned == InTurn(p, tasks, orders, before)
        invariant Stored() == turned.objects && unprojected == turned.sent
        invariant errorChannel == [] <==> p.allowSubset || turned.errors == []
        invariant errorChannel != [] ==> errorChannel[0] == turned.errors[0]
      {
        var toNs := members[i];
        assert members[..i + 1][..i] == members[..i];
        if toNs == p.fromNs {
          TargetsSkip(members[..i + 1], p.fromNs);
          continue;
        }
        var reports, err;
        ghost var more;
        HomeKeptReads(before, turned.objects, p.fromNs);
        reports, err, more := GenerateRBACToNamespace(p, saNames, toNs, faults, count);
        HomeKeptStill(before, turned.objects, Stored(), p.fromNs);
        ghost var row := Row(toNs, saNames, faults, count);
        InTurnConcat(p, tasks, row, orders, more, before);
        if !p.allowSubset {
          StrictSendsNothing(p, row, more, turned.objects);
        }
        turned := InTurn(p, tasks + row, orders + more, before);
        TargetsGrow(members[..i + 1], p.fromNs, saNames, faults);
        tasks, orders, count := tasks + row, orders + more, count + |saNames|;
        if err.Some? && !p.allowSubset {
          errorChannel := errorChannel + [err.value];
          continue;
        }
        if |reports| > 0 {
          unprojected := unprojected + reports;
        }
      }
      assert members[..|members|] == members;
      if |errorChannel| > 0 {
        return unprojected, Some(errorChannel[0]), orders;
      }
      if !p.allowSubset && NamesApart(p, saNames, before) {
        StrictListArrives(p, members, saNames, faults, orders, before);
      }
      return unprojected, None, orders;
    }

    // -------------------------------------------------------------------------------------------
    // Runtime Roles
    // -------------------------------------------------------------------------------------------

    /** `GetRolesFromNamespace`: the labelled Roles in the order of the API server. */
    method GetRolesFromNamespace(cm: string, namespace: string, listing: Listing) returns (keys: seq<Key>)
      ensures keys == listing(LabelledRoles(cluster.roles, namespace, home, cm))
    {
      var found: set<Key> := {};
      var rest := cluster.roles.Keys;
      while rest != {}
        invariant rest <= cluster.roles.Keys
        invariant found == LabelledRoles(cluster.roles, namespace, home, cm) - rest
      {
        var key :| key in rest;
        rest := rest - {key};
        if key.ns == namespace && Carries(cluster.roles[key].labels, home, cm) {
          found := found + {key};
        }
      }
      assert found == LabelledRoles(cluster.roles, namespace, home, cm);
      keys := listing(found);
    }

    /** The loop over the Roles of one namespace. */
    method Summarize(keys: seq<Key>) returns (rules: seq<PolicyRule>)
      ensures rules == Summary(cluster.roles, keys)
    {
      hide Excluded;
      rules := [];
      for i := 0 to |keys|
        invariant rules == Summary(cluster.roles, keys[..i])
      {
        assert keys[..i + 1][..i] == keys[..i];
        if keys[i] in cluster.roles && !Excluded(keys[i].name) {
          rules := rules + cluster.roles[keys[i]].rules;
        }
      }
      assert keys[..|keys|] == keys;
    }

    /** `CreateRuntimeRoleToNamespace` with `generateRuntimeRoleForNSS`. */
    method CreateRuntimeRole(cr: Nss, toNs: string, rules: seq<PolicyRule>,
                             answers: Answers) returns (error: Option<Error>)
      modifies cluster`roles
      ensures RuntimeEnd(cluster.roles, error) == RuntimeWritten(old(cluster.roles), toNs, rules, cr.allowSubset, home, answers)
    {
      if answers(FindNamespaceForRuntime(toNs)).Fails? {
        return Some(answers(FindNamespaceForRuntime(toNs)).error);
      }
      if toNs == home {
        return None;
      }
      var role := Role(map[], rules);
      var answer := cluster.CreateRoleObject(RuntimeKey(toNs, home), role, answers(CreateRuntime(toNs)));
      if answer.AlreadyExists? {
        answer := cluster.UpdateRoleObject(RuntimeKey(toNs, home), role, answers(UpdateRuntime(toNs)));
        return if answer.Refused? then Some(answer.error) else None;
      }
      if answer == Refused(Forbidden) && cr.allowSubset {
        return None;
      }
      return if answer.Refused? then Some(answer.error) else None;
    }

    /** The loop over the members at the end of a pass. */
    method WriteRuntimeRoles(cr: Nss, listing: Listing, answers: Answers) returns (error: Option<Error>)
      requires FullListing(listing)
      modifies cluster`roles
      ensures RuntimeEnd(cluster.roles, error) == RuntimeInTurn(old(cluster.roles), cr.members, cr, home, listing, answers)
      ensures HomeKept(old(Stored()), Stored(), home)
    {
      hide LabelledRoles, Summary, RuntimeWritten;
      ghost var before := cluster.roles;
      for i := 0 to |cr.members|
        invariant RuntimeEnd(cluster.roles, None) == RuntimeInTurn(before, cr.members[..i], cr, home, listing, answers)
      {
        var namespaceMember := cr.members[i];
        assert cr.members[..i + 1][..i] == cr.members[..i];
        RuntimePrefix(before, cr.members, cr, home, listing, answers, i + 1);
        if answers(ListRoles(namespaceMember)).Fails? {
          continue;
        }
        var rolesList := GetRolesFromNamespace(MapName(cr), namespaceMember, listing);
        assert ListsAll(listing, LabelledRoles(cluster.roles, namespaceMember, home, MapName(cr)));
        if |rolesList| != 0 {
          assert rolesList[0] in Elems(rolesList);
          var summarizedRules := Summarize(rolesList);
          error := CreateRuntimeRole(cr, namespaceMember, summarizedRules, answers);
          if error.Some? {
            RuntimeKeepsHome(before, cr.members, cr, home, listing, answers, cluster.bindings);
            return error;
          }
        } else {
          assert Elems(rolesList) == {};
        }
      }
      assert cr.members[..|cr.members|] == cr.members;
      RuntimeKeepsHome(before, cr.members, cr, home, listing, answers, cluster.bindings);
      return None;
    }

    // -------------------------------------------------------------------------------------------
    // Reconcile
    // -------------------------------------------------------------------------------------------

    /** The deletion branch of `Reconcile`, finalizer present. */
    method Finalize(c: string, answers: Answers) returns (error: Option<Error>)
      requires c in crs && crs[c].deleting && crs[c].finalizer
      modifies this`configMaps, this`restarts, this`crs, cluster
      ensures DeletionEnds(old(View()), View(), c, home, answers, error)
      ensures error.None? <==> DeletionSucceeds(old(View()), c, home, answers)
      ensures AllAnswered(answers) ==> error.None?
      ensures error.Some? ==> AnAnswer(answers, old(crs)[c].allowSubset, error.value)
      ensures error.Some? ==> AttemptFails(old(View()), View(), c, home)
      ensures error.None? && Clear(answers) ==> AttemptSucceeds(old(View()), View(), c, home)
      ensures HomeKept(old(Stored()), Stored(), home)
    {
      hide MapEnds, MapError, CleanupEnds, Abandoned, HomeKept, AllAnswered, Clear, AttemptFails, AttemptSucceeds,
        DeletionSucceeds, AnAnswer;
      var cr := crs[c];
      ghost var before := View();
      HomeKeptStart(Stored(), home);
      error := UpdateConfigMap(cr, answers);
      if error.None? {
        ghost var mapped := View();
        AbandonedAlike(before, mapped, cr, home);
        error := DeleteAllRbac(cr, answers);
        AbandonedAlike(before, View(), cr, home);
        ghost var swept := Sweeping(Stored(), error);
        assert DeletionCleanupEnds(before, cr, before.objects, swept, home, answers);
        if error.None? {
          if answers(RemoveFinalizer).Fails? {
            error := Some(answers(RemoveFinalizer).error);
          } else {
            crs := crs - {c};
          }
        }
        assert AfterDeletionCleanup(before, View(), c, answers, swept, error);
      }
      DeletionEndsExactly(before, View(), c, home, answers, error);
      DeletionIsAnAttempt(before, View(), c, home, answers, error);
      DeletionErrorIsAnAnswer(before, View(), c, home, answers, error);
    }

    /** The branch of `Reconcile` for a live resource. */
    method Pass(c: string, accounts: seq<string>, hash: string -> string, mayGet: string -> bool, faults: nat -> Faults,
                listing: Listing, answers: Answers)
      returns (error: Option<Error>, ghost inp: Inputs)
      requires FullListing(listing) && c in crs && !crs[c].deleting
      modifies this`configMaps, this`restarts, this`crs, cluster
      ensures GivenInputs(inp, accounts, hash, mayGet, faults, listing)
      ensures PassEnds(old(View()), View(), c, home, inp, answers, error)
      ensures PushReached(old(View()), c, home, mayGet, answers) ==>
                Enumerating(PlanOf(RefreshEnds(old(crs)[c], namespaces, home, mayGet, answers).cr, home, inp), old(Stored()))
      ensures HomeKept(old(Stored()), Stored(), home)
    {
      hide InTurn, MapEnds, MapError, CleanupEnds, RuntimeInTurn, TaskList, Targets, Row, LabelsFor, BoundRoles,
        Enumerates, HomeKept,
        RefreshEnds, Unmanaged;
      ghost var before := View();
      HomeKeptStart(before.objects, home);
      inp := Inputs(hash, accounts, mayGet, faults, k => (s => []), [], listing);
      if answers(ListScopes).Fails? {
        return Some(answers(ListScopes).error), inp;
      }
      error := Refresh(c, mayGet, answers);
      if error.Some? {
        return error, inp;
      }
      var cr := crs[c];
      ghost var w1 := View();
      if answers(ListAccounts).Fails? {
        return Some(answers(ListAccounts).error), inp;
      }
      if answers(FindNamespaceForPush).Fails? {
        return Some(answers(FindNamespaceForPush).error), inp;
      }
      var p := Push(hash, home, LabelsFor(MapName(cr), home), cr.allowSubset);
      var unprojected;
      ghost var orders;
      unprojected, error, orders := PushRbacToNamespace(p, cr.status, accounts, faults);
      inp := inp.(orders := (k: nat) => if k < |orders| then orders[k] else (s => []));
      PlanInTurn(cr, home, inp, orders, before.objects);
      if error.Some? {
        return error, inp;
      }
      if answers(UpdateUnprojected).Fails? {
        return Some(answers(UpdateUnprojected).error), inp;
      }
      ghost var pushed := Stored();
      assert pushed == Pushing(cr, home, inp, before.objects).objects;
      CleanupAlike(View(), w1, pushed, MapName(cr), home, answers);
      error := DeleteRbacFromUnmanagedNamespace(cr, answers);
      CleanupAlike(View(), w1, pushed, MapName(cr), home, answers);
      HomeKeptStill(before.objects, pushed, Stored(), home);
      ghost var s := Sweeping(Stored(), error);
      assert PassCleanupEnds(w1, pushed, s, MapName(cr), home, answers);
      if error.None? {
        MapAlike(View(), w1, cr, answers);
        error := UpdateConfigMap(cr, answers);
        if error.None? {
          error := WriteRuntimeRoles(cr, listing, answers);
          HomeKeptStill(before.objects, s.objects, Stored(), home);
        }
      }
      assert AfterCleanup(w1, View(), cr, home, inp, answers, s, error);
      assert AfterPush(w1, View(), cr, home, inp, answers, pushed, error);
    }

    /** `Reconcile`.  The accounts found through pods and the resource's own list are handed in. */
    method Reconcile(c: string, accounts: seq<string>, hash: string -> string, mayGet: string -> bool,
                     faults: nat -> Faults,
                     listing: Listing, answers: Answers)
      returns (outcome: Outcome, ghost inp: Inputs)
      requires FullListing(listing)
      modifies this`configMaps, this`restarts, this`crs, cluster
      ensures answers(Fetch).Fails? ==> outcome == Failed(answers(Fetch).error) && View() == old(View())
      ensures answers(Fetch).NoFault? && (c !in old(crs) || (old(crs)[c].deleting && !old(crs)[c].finalizer)) ==>
                outcome == Completed && View() == old(View())
      ensures answers(Fetch).NoFault? && c in old(crs) && old(crs)[c].deleting && old(crs)[c].finalizer ==>
                && DeletionEnds(old(View()), View(), c, home, answers, ErrorOf(outcome))
                && (outcome.Completed? <==> DeletionSucceeds(old(View()), c, home, answers))
                && (outcome.Failed? ==> AttemptFails(old(View()), View(), c, home))
                && (outcome.Completed? && Clear(answers) ==> AttemptSucceeds(old(View()), View(), c, home))
      ensures answers(Fetch).NoFault? && c in old(crs) && !old(crs)[c].deleting ==>
                && GivenInputs(inp, accounts, hash, mayGet, faults, listing)
                && PassEnds(old(View()), View(), c, home, inp, answers, ErrorOf(outcome))
                && (outcome.Completed? <==> PassSucceeds(old(View()), c, home, inp, answers))
                && (outcome.Failed? && old(crs)[c].allowSubset ==> AnAnswer(answers, true, outcome.error))
                && (PushReached(old(View()), c, home, mayGet, answers) ==>
                      Enumerating(PlanOf(RefreshEnds(old(crs)[c], namespaces, home, mayGet, answers).cr, home, inp), old(Stored())))
                && (outcome.Completed? && Clear(answers) ==>
                      exists schedule :: PassCompletes(old(View()), View(), c, home, inp.(schedule := schedule)))
      ensures AllAnswered(answers) && c in old(crs) && old(crs)[c].deleting ==> outcome.Completed?
      ensures AllAnswered(answers) && c in old(crs) && !old(crs)[c].deleting ==>
                var cr := Refreshed(old(View()), c, home, mayGet).crs[c];
                outcome.Completed? <==> cr.allowSubset || Pushing(cr, home, inp, old(Stored())).errors == []
      ensures HomeKept(old(Stored()), Stored(), home)
    {
      hide PassEnds, DeletionEnds, PassSucceeds, DeletionSucceeds, AttemptFails, AttemptSucceeds, PassCompletes,
        Clear, HomeKept,
        AnAnswer, Enumerating, PushReached, RefreshEnds, Pushing, Refreshed;
      ghost var before := View();
      HomeKeptStart(before.objects, home);
      inp := Inputs(hash, accounts, mayGet, faults, k => (s => []), [], listing);
      if answers(Fetch).Fails? {
        return Failed(answers(Fetch).error), inp;
      }
      if c !in crs {
        return Completed, inp;
      }
      var error: Option<Error> := None;
      if crs[c].deleting {
        if crs[c].finalizer {
          error := Finalize(c, answers);
        }
      } else {
        error, inp := Pass(c, accounts, hash, mayGet, faults, listing, answers);
        PassEndsExactly(before, View(), c, home, inp, answers, error);
        PassErrorIsAnAnswer(before, View(), c, home, inp, answers, error);
        if error.None? && Clear(answers) {
          ghost var schedule := InTurnIsAPass(before, View(), c, home, inp, answers);
        }
        if AllAnswered(answers) {
          AnsweredPassSucceedsIff(before, c, home, inp, answers);
        }
      }
      outcome := if error.Some? then Failed(error.value) else Completed;
    }
  }

  ghost predicate GivenInputs(inp: Inputs, accounts: seq<string>, hash: string -> string, mayGet: string -> bool,
                              faults: nat -> Faults, listing: Listing) {
    inp.accounts == accounts && inp.hash == hash && inp.mayGet == mayGet && inp.faults == faults && inp.listing == listing
  }

  ghost predicate PushReached(w: World, c: string, home: string, mayGet: string -> bool, answers: Answers)
    requires c in w.crs
  {
    && ErrorAt(answers, ListScopes).None? && BeforePush(answers).None?
    && RefreshEnds(w.crs[c], w.namespaces, home, mayGet, answers).error.None?
  }

  // ---------------------------------------------------------------------------------------------
  // Small facts about turns
  // ---------------------------------------------------------------------------------------------

  /** The objects of the operator's own namespace, all sources among them, are as they were. */
  ghost predicate HomeKept(o: Objects, o': Objects, ns: string) {
    forall key: Key :: key.ns == ns ==> SameObjectAt(o, o', key)
  }

  lemma SoloKeepsHome(p: Push, t: Task, order: Order, o: Objects)
    requires t.toNs != p.fromNs
    ensures HomeKept(o, Solo(p, t, order, o).objects, p.fromNs)
  {
    hide CopyRoles, Bind, BoundRoles, ManagedRules, ProjectedName;
    var names := order(BoundRoles(o.bindings, t.sa, p.fromNs));
    forall key: Key | key.ns == p.fromNs
      ensures Lookup(Bind(p, t, o.bindings, names).bindings, key) == Lookup(o.bindings, key)
      ensures Lookup(CopyRoles(p, t, ManagedRules(p, t, o.roles), o.roles, names).roles, key) == Lookup(o.roles, key)
    {
      BindFrame(p, t, o.bindings, names, key);
      CopyRolesFrame(p, t, ManagedRules(p, t, o.roles), o.roles, names, key);
    }
  }

  lemma HomeKeptReads(o: Objects, o': Objects, ns: string)
    requires HomeKept(o, o', ns)
    ensures forall sa :: BoundRoles(o'.bindings, sa, ns) == BoundRoles(o.bindings, sa, ns)
  {
    hide BoundRoles;
    forall sa {
      SameBoundRoles(o'.bindings, o.bindings, sa, ns);
    }
  }

  lemma HomeKeptStart(o: Objects, ns: string)
    ensures HomeKept(o, o, ns)
  {
  }

  lemma HomeKeptStill(o: Objects, o': Objects, o'': Objects, ns: string)
    requires HomeKept(o, o', ns) && HomeKept(o', o'', ns)
    ensures HomeKept(o, o'', ns)
  {
  }

  lemma SweepKeepsHome(o: Objects, s: Sweeping, targets: set<string>, home: string, cm: string, answers: Answers)
    requires CleanupEnds(o, s, targets, home, cm, answers)
    ensures HomeKept(o, s.objects, home)
  {
    hide Carries, SweepInTurn, AllPassable, BreaksAt, SweptRoles, SweptBindings;
    CleanupExactly(o, s, targets, home, cm, answers);
    var order :| SweepsIn(order, o, s, targets, home, cm, answers);
    assert home !in targets;
  }

  lemma RuntimeKeepsHome(roles: map<Key, Role>, members: seq<string>, cr: Nss, home: string, listing: Listing,
                         answers: Answers,
                         bindings: map<Key, RoleBinding>)
    ensures var end := RuntimeInTurn(roles, members, cr, home, listing, answers);
            HomeKept(Objects(roles, bindings), Objects(end.roles, bindings), home)
  {
    hide RuntimeInTurn;
    forall key: Key | key.ns == home
      ensures Lookup(RuntimeInTurn(roles, members, cr, home, listing, answers).roles, key) == Lookup(roles, key)
    {
      RuntimeWritesOnly(roles, members, cr, home, listing, answers, key);
    }
  }

  lemma NothingUnmanagedWithout(w: World, o: Objects, cm: string, home: string, answers: Answers)
    requires cm !in w.configMaps
    ensures CleanupEnds(o, Sweeping(o, None), Unmanaged(w, cm, home), home, cm, answers)
  {
    hide Claimed;
    assert Unmanaged(w, cm, home) == {} == Elems<string>([]) - {home};
    assert SweepsIn([], o, Sweeping(o, None), {}, home, cm, answers);
  }

  lemma TargetsGrow(members: seq<string>, home: string, accounts: seq<string>, faults: nat -> Faults)
    requires members != [] && members[|members| - 1] != home
    ensures var before := TaskList(Targets(members[..|members| - 1], home), accounts, faults);
            TaskList(Targets(members, home), accounts, faults) == before + Row(members[|members| - 1], accounts, faults, |before|)
  {
    var targets := Targets(members[..|members| - 1], home);
    assert (targets + [members[|members| - 1]])[..|targets|] == targets;
  }

  lemma TargetsSkip(members: seq<string>, home: string)
    requires members != [] && members[|members| - 1] == home
    ensures Targets(members, home) == Targets(members[..|members| - 1], home)
  {
  }

  lemma NoTargets(home: string, accounts: seq<string>, faults: nat -> Faults)
    ensures TaskList(Targets([], home), accounts, faults) == []
  {
  }

  /** The orders met on the way are the orders of the plan. */
  lemma PlanInTurn(cr: Nss, home: string, inp: Inputs, orders: seq<Order>, start: Objects)
    requires var tasks := TaskList(Targets(cr.status, home), inp.accounts, inp.faults);
             |orders| == |tasks| && forall k :: 0 <= k < |tasks| ==> Enumerates(orders[k], BoundRoles(start.bindings, tasks[k].sa, home))
    requires forall k: nat :: k < |orders| ==> inp.orders(k) == orders[k]
    ensures var plan := PlanOf(cr, home, inp);
            && plan.tasks == TaskList(Targets(cr.status, home), inp.accounts, inp.faults) && plan.orders == orders
            && plan.p == Push(inp.hash, home, LabelsFor(MapName(cr), home), cr.allowSubset)
            && Enumerating(plan, start)
  {
    hide TaskList, Targets, LabelsFor, BoundRoles, Enumerates;
  }

  /** Cleanup and ConfigMap update look at nothing but resources, ConfigMaps and their own objects. */
  lemma CleanupAlike(a: World, b: World, o: Objects, cm: string, home: string, answers: Answers)
    requires a.crs == b.crs && a.configMaps == b.configMaps
    ensures forall s :: PassCleanupEnds(a, o, s, cm, home, answers) == PassCleanupEnds(b, o, s, cm, home, answers)
  {
    hide Claimed, CleanupEnds, Listed;
  }

  lemma AbandonedAlike(a: World, b: World, cr: Nss, home: string)
    requires a.crs == b.crs
    ensures Abandoned(a, cr, home) == Abandoned(b, cr, home)
  {
    hide Claimed;
  }

  lemma MapAlike(a: World, b: World, cr: Nss, answers: Answers)
    requires a.crs == b.crs && a.configMaps == b.configMaps && a.restarts == b.restarts
    ensures MapError(a, cr, answers) == MapError(b, cr, answers)
    ensures forall maps, restarts :: MapEnds(a, cr, answers, maps, restarts) == MapEnds(b, cr, answers, maps, restarts)
  {
    hide Claimed, MapWritten, Changes, Split;
  }

  lemma {:induction false} UnreadablePrefix(members: seq<string>, home: string, mayGet: string -> bool,
                                            answers: Answers, k: nat)
    requires k <= |members|
    ensures Unreadable(members[..k], home, mayGet, answers).Some? ==>
              Unreadable(members, home, mayGet, answers) == Unreadable(members[..k], home, mayGet, answers)
  {
    if k < |members| {
      UnreadablePrefix(members[..|members| - 1], home, mayGet, answers, k);
      assert members[..|members| - 1][..k] == members[..k];
    } else {
      assert members[..k] == members;
    }
  }
}
