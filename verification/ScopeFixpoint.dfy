/** Why a second pass over unchanged inputs changes nothing. */
module ScopeFixpoint {
  import opened Rbac
  import opened Lists
  import opened Names
  import opened Store
  import opened Projection
  import opened Worker
  import opened SoloRuns
  import opened FanOut
  import opened PushPlan
  import opened PushTheorems
  import opened PushSafety
  import opened Scope
  import opened ScopeRuns
  import opened ScopeRestarts
  import opened RuntimeRoles

  /** Two plans of the same push with the same pairs of target and account, in any order. */
  ghost predicate SameWork(a: Plan, b: Plan) {
    && a.p == b.p
    && (forall k :: 0 <= k < |b.tasks| ==> HasTask(a, b.tasks[k].toNs, b.tasks[k].sa))
    && (forall k :: 0 <= k < |a.tasks| ==> HasTask(b, a.tasks[k].toNs, a.tasks[k].sa))
  }

  predicate IsTask(plan: Plan, k: int, toNs: string, sa: string) {
    0 <= k < |plan.tasks| && plan.tasks[k].toNs == toNs && plan.tasks[k].sa == sa
  }

  predicate HasTask(plan: Plan, toNs: string, sa: string) {
    exists k :: 0 <= k < |plan.tasks| && IsTask(plan, k, toNs, sa)
  }

  lemma PlansSameWork(p: Push, members: seq<string>, accounts: seq<string>, accounts': seq<string>,
                      faults: nat -> Faults, faults': nat -> Faults, orders: nat -> Order, orders': nat -> Order)
    requires Elems(accounts) == Elems(accounts')
    ensures SameWork(PlanFor(p, members, accounts, faults, orders), PlanFor(p, members, accounts', faults', orders'))
  {
    PlanHasTasks(p, members, accounts, accounts', faults, faults', orders, orders');
    PlanHasTasks(p, members, accounts', accounts, faults', faults, orders', orders);
  }

  lemma PlanHasTasks(p: Push, members: seq<string>, accounts: seq<string>, accounts': seq<string>,
                     faults: nat -> Faults, faults': nat -> Faults, orders: nat -> Order, orders': nat -> Order)
    requires Elems(accounts) == Elems(accounts')
    ensures var a, b := PlanFor(p, members, accounts, faults, orders), PlanFor(p, members, accounts', faults', orders');
            forall k :: 0 <= k < |b.tasks| ==> HasTask(a, b.tasks[k].toNs, b.tasks[k].sa)
  {
    hide TaskList, Targets, GroupList;
    var a, b := PlanFor(p, members, accounts, faults, orders), PlanFor(p, members, accounts', faults', orders');
    var targets := Targets(members, p.fromNs);
    TaskListShape(targets, accounts', faults');
    forall k | 0 <= k < |b.tasks|
      ensures HasTask(a, b.tasks[k].toNs, b.tasks[k].sa)
    {
      assert b.tasks[k].sa in Elems(accounts');
      TaskListHas(targets, accounts, faults, b.tasks[k].toNs, b.tasks[k].sa);
      var k' :| 0 <= k' < |a.tasks| && a.tasks[k'].toNs == b.tasks[k].toNs && a.tasks[k'].sa == b.tasks[k].sa;
      assert IsTask(a, k', b.tasks[k].toNs, b.tasks[k].sa);
    }
  }

  predicate IsManaged(plan: Plan, key: Key, k: int) {
    0 <= k < |plan.tasks| && key == ManagedKey(plan.p, plan.tasks[k])
  }

  /** Nothing a push reads or writes differs. */
  ghost predicate AgreesForPush(plan: Plan, o: Objects, o': Objects, start: Objects) {
    && (forall key: Key :: key.ns == plan.p.fromNs || IsCopy(plan, start, key) ==> SameObjectAt(o, o', key))
    && (forall key, k :: IsManaged(plan, key, k) ==> SameObjectAt(o, o', key))
  }

  /** After a smooth push the store is settled for every later push of the same work, whatever else
    changed meanwhile. */
  lemma SmoothPushSettles(plan: Plan, plan': Plan, start: Objects, o: Objects, o': Objects)
    requires Shaped(plan) && Separated(plan, start) && Pushed(plan, start, o)
    requires SameWork(plan, plan') && AgreesForPush(plan, o, o', start)
    ensures Settled(plan', o')
  {
    hide BoundRoles, CopyKey, ManagedRules, IsCopy;
    forall key, k', r | CopyOf(plan', o', key, k', r)
      ensures Copyable(plan'.p, plan'.tasks[k'], o', r) ==> Lookup(o'.roles, key) == Some(Copy(plan'.p, plan'.tasks[k'], o', r))
      ensures key in o'.bindings
    {
      assert HasTask(plan, plan'.tasks[k'].toNs, plan'.tasks[k'].sa);
      var k :| 0 <= k < |plan.tasks| && IsTask(plan, k, plan'.tasks[k'].toNs, plan'.tasks[k'].sa);
      TaskSettles(plan, start, o, o', k, plan'.tasks[k'], r, key);
    }
  }

  lemma TaskSettles(plan: Plan, start: Objects, o: Objects, o': Objects, k: nat, t': Task, r: string, key: Key)
    requires Shaped(plan) && Separated(plan, start) && Pushed(plan, start, o)
    requires AgreesForPush(plan, o, o', start)
    requires k < |plan.tasks| && plan.tasks[k].toNs == t'.toNs && plan.tasks[k].sa == t'.sa
    requires r in Copies(plan.p, t', o') && key == CopyKey(plan.p, t', r)
    ensures Copyable(plan.p, t', o', r) ==> Lookup(o'.roles, key) == Some(Copy(plan.p, t', o', r))
    ensures key in o'.bindings
  {
    hide BoundRoles, IsCopy, ProjectedName;
    var p, t := plan.p, plan.tasks[k];
    SeparatedIsAttributed(plan, start);
    ReadsAreStable(plan, o, start, k);
    forall key': Key | key'.ns == p.fromNs
      ensures Lookup(o'.bindings, key') == Lookup(o.bindings, key')
    {
      assert SameObjectAt(o, o', key');
    }
    SameBoundRoles(o'.bindings, o.bindings, t.sa, p.fromNs);
    assert CopyOf(plan, start, key, k, r);
    assert IsCopy(plan, start, key) by { CopyIsCopy(plan, start, k, r); }
    assert IsManaged(plan, ManagedKey(p, t), k);
    assert SameObjectAt(o, o', key) && SameObjectAt(o, o', ManagedKey(p, t)) && SameObjectAt(o, o', SourceKey(p, r));
    assert Lookup(o.roles, SourceKey(p, r)) == Lookup(start.roles, SourceKey(p, r));
    assert ManagedRules(p, t', o'.roles) == ManagedRules(p, t, start.roles);
    assert Copyable(p, t', o', r) <==> Copyable(p, t, start, r);
  }

  /** What the first pass has to meet: a smooth push over duplicate-free lists and distinct names. */
  ghost predicate Quiet(w: World, c: string, home: string, inp: Inputs, inp': Inputs)
    requires c in w.crs
  {
    var w1 := Refreshed(w, c, home, inp.mayGet);
    var cr := w1.crs[c];
    var plan := PlanOf(cr, home, inp);
    && Distinct(cr.status) && Distinct(inp.accounts) && Distinct(inp'.accounts)
    && NamesApart(plan.p, inp.accounts, w.objects)
    && Enumerating(plan, w.objects) && Enumerating(PlanOf(cr, home, inp'), w.objects)
    && Smooth(plan, w.objects)
    && NoRuntimeClash(inp.hash, home) && RuntimeClean(w.objects.roles, home, MapName(cr))
    && FullListing(inp.listing)
    && ValidMembers(Claimed(w1.crs, MapName(cr)))
  }

  /** The inputs did not change, except for iteration orders, schedule and API answers. */
  ghost predicate SameInputs(inp: Inputs, inp': Inputs) {
    inp'.hash == inp.hash && Elems(inp'.accounts) == Elems(inp.accounts) && inp'.mayGet == inp.mayGet && inp'.listing == inp.listing
  }

  lemma TargetsAreMembers(plan: Plan, cr: Nss, home: string, inp: Inputs, k: nat)
    requires plan == PlanOf(cr, home, inp) && k < |plan.tasks|
    ensures plan.tasks[k].toNs in cr.status && plan.tasks[k].toNs != home
  {
    hide LabelsFor, TaskList;
    TaskListShape(Targets(cr.status, home), inp.accounts, inp.faults);
  }

  lemma RuntimePrefixApart(home: string)
    ensures MANAGED_PREFIX + home != RUNTIME_PREFIX + home
  {
    assert (MANAGED_PREFIX + home)[4] == 'm' && (RUNTIME_PREFIX + home)[4] == 'r';
  }

  /** Neither the cleanup nor the runtime Roles touch what the push reads or wrote. */
  lemma PassAgreesForPush(w: World, w': World, c: string, home: string, inp: Inputs)
    requires PassCompletes(w, w', c, home, inp) && NoRuntimeClash(inp.hash, home)
    ensures var w1 := Refreshed(w, c, home, inp.mayGet);
            var plan := PlanOf(w1.crs[c], home, inp);
            AgreesForPush(plan, After(plan, w1.objects, inp.schedule), w'.objects, w1.objects)
  {
    hide LabelsFor, Validated, NewStatus, Claimed, Listed, Runs, Execute, After, MapStep, WithRuntime, Carries,
      PlanFor, BoundRoles, ProjectedName;
    var w1 := Refreshed(w, c, home, inp.mayGet);
    var cr := w1.crs[c];
    var plan := PlanOf(cr, home, inp);
    var pushed := After(plan, w1.objects, inp.schedule);
    assert plan.p.fromNs == home && plan.p.hash == inp.hash by { PlanKeepsPush(cr, home, inp); }
    RuntimePrefixApart(home);
    forall key: Key | key.ns == home || IsCopy(plan, w1.objects, key)
      ensures SameObjectAt(pushed, w'.objects, key)
    {
      if k, r :| CopyOf(plan, w1.objects, key, k, r) {
        TargetsAreMembers(plan, cr, home, inp, k);
      }
      Untouched(w, w', c, home, inp, key);
    }
    forall key, k | IsManaged(plan, key, k)
      ensures SameObjectAt(pushed, w'.objects, key)
    {
      TargetsAreMembers(plan, cr, home, inp, k);
      Untouched(w, w', c, home, inp, key);
    }
  }

  lemma PlanKeepsPush(cr: Nss, home: string, inp: Inputs)
    ensures PlanOf(cr, home, inp).p == Push(inp.hash, home, LabelsFor(MapName(cr), home), cr.allowSubset)
  {
  }

  lemma Untouched(w: World, w': World, c: string, home: string, inp: Inputs, key: Key)
    requires PassCompletes(w, w', c, home, inp)
    requires var w1 := Refreshed(w, c, home, inp.mayGet);
             key.ns == home || (key.ns in w1.crs[c].status && key.name != RUNTIME_PREFIX + home)
    ensures var w1 := Refreshed(w, c, home, inp.mayGet);
            SameObjectAt(After(PlanOf(w1.crs[c], home, inp), w1.objects, inp.schedule), w'.objects, key)
  {
    hide LabelsFor, Validated, NewStatus, Claimed, Listed, Runs, Execute, After, MapStep, WithRuntime, Carries, PlanOf;
    var w1 := Refreshed(w, c, home, inp.mayGet);
    var cr := w1.crs[c];
    var o := Cleaned(w1, After(PlanOf(cr, home, inp), w1.objects, inp.schedule), MapName(cr), home);
    RefreshedSets(w, c, home, inp.mayGet, MapName(cr));
    assert key.ns !in Unmanaged(w1, MapName(cr), home);
    RuntimeUnlabelled(o.roles, cr.members, home, MapName(cr), inp.listing, key);
  }

  /** The second push changes no Role and no binding. */
  lemma SecondPushStays(w: World, w': World, c: string, home: string, inp: Inputs, inp': Inputs)
    requires PassCompletes(w, w', c, home, inp) && SameInputs(inp, inp') && Quiet(w, c, home, inp, inp')
    requires PushSucceeds(PlanOf(w'.crs[c], home, inp'), w'.objects, inp'.schedule)
    ensures After(PlanOf(w'.crs[c], home, inp'), w'.objects, inp'.schedule) == w'.objects
  {
    hide LabelsFor, Validated, NewStatus, Claimed, Listed, Runs, Execute, After, MapStep, WithRuntime, Cleaned,
      Smooth, Settled,
      Separated, Enumerating, AgreesForPush, BoundRoles, TaskList, Targets, GroupList, IsCopy, ProjectedName;
    var w1 := Refreshed(w, c, home, inp.mayGet);
    var cr := w1.crs[c];
    var plan, plan' := PlanOf(cr, home, inp), PlanOf(cr, home, inp');
    var pushed := After(plan, w1.objects, inp.schedule);
    PlanIsShaped(plan.p, cr.status, inp.accounts, inp.faults, inp.orders);
    PlanIsShaped(plan'.p, cr.status, inp'.accounts, inp'.faults, inp'.orders);
    PlanIsSeparated(plan.p, cr.status, inp.accounts, inp.faults, inp.orders, w.objects);
    SmoothPush(plan, w1.objects, inp.schedule);
    PassAgreesForPush(w, w', c, home, inp);
    PlansSameWork(plan.p, cr.status, inp.accounts, inp'.accounts, inp.faults, inp'.faults, inp.orders, inp'.orders);
    SmoothPushSettles(plan, plan', w1.objects, pushed, w'.objects);
    NamesStayApart(plan, plan', inp.accounts, inp'.accounts, w1.objects, pushed, w'.objects);
    PlanIsSeparated(plan'.p, cr.status, inp'.accounts, inp'.faults, inp'.orders, w'.objects);
    SeparatedIsAttributed(plan', w'.objects);
    SettledStays(plan', w'.objects, inp'.schedule);
  }

  lemma NamesStayApart(plan: Plan, plan': Plan, accounts: seq<string>, accounts': seq<string>, start: Objects,
                       o: Objects, o': Objects)
    requires NamesApart(plan.p, accounts, start) && Elems(accounts') == Elems(accounts)
    requires Framed(plan, o, start) && Separated(plan, start) && AgreesForPush(plan, o, o', start)
    requires plan'.p == plan.p && Enumerating(plan', start)
    ensures NamesApart(plan.p, accounts', o') && Enumerating(plan', o')
  {
    hide BoundRoles, IsCopy, ProjectedName, CopyOf, Enumerates;
    forall sa
      ensures BoundRoles(o'.bindings, sa, plan.p.fromNs) == BoundRoles(start.bindings, sa, plan.p.fromNs)
    {
      forall key: Key | key.ns == plan.p.fromNs
        ensures Lookup(o'.bindings, key) == Lookup(start.bindings, key)
      {
        SourceIsNoCopy(plan, start, key);
        assert SameObjectAt(o, o', key);
      }
      SameBoundRoles(o'.bindings, start.bindings, sa, plan.p.fromNs);
    }
    forall sa
      ensures sa in accounts' <==> sa in accounts
    {
      assert sa in Elems(accounts') <==> sa in Elems(accounts);
    }
  }

  lemma NothingSwept(o: Objects, home: string, cm: string)
    ensures Swept(o, {}, home, cm) == o
  {
  }

  /** With an unchanged non-empty member set the ConfigMap stays and nothing restarts. */
  lemma SecondMapStep(w: World, cr: Nss, maps: map<string, ConfigMap>, restarts: nat, w': World,
                      maps': map<string, ConfigMap>, restarts': nat)
    requires MapStep(w, cr, maps, restarts) && w'.configMaps == maps && w'.restarts == restarts && w'.crs == w.crs
    requires MapStep(w', cr, maps', restarts')
    requires ValidMembers(Claimed(w.crs, MapName(cr))) && Claimed(w.crs, MapName(cr)) != {}
    ensures maps' == maps && restarts' == restarts
  {
    hide Claimed, Split, Publishes, ValidName;
    var cm, members := MapName(cr), Claimed(w.crs, MapName(cr));
    if Changes(Lookup(w.configMaps, cm), members) {
      PublishedIsListed(maps[cm].data, members);
    }
    assert !Changes(Lookup(maps, cm), members);
    assert maps'[cm] == maps[cm];
  }

  lemma RefreshedTwice(w: World, w': World, c: string, home: string, inp: Inputs)
    requires PassCompletes(w, w', c, home, inp)
    ensures w'.crs == Refreshed(w, c, home, inp.mayGet).crs && Refreshed(w', c, home, inp.mayGet) == w'
  {
    hide PushSucceeds, MapStep, Cleaned, WithRuntime, Validated, PlanOf;
  }

  lemma EmptyMapStep(w: World, cr: Nss, maps: map<string, ConfigMap>, restarts: nat)
    requires MapStep(w, cr, maps, restarts) && Claimed(w.crs, MapName(cr)) == {}
    ensures restarts == w.restarts + 1
  {
    hide Claimed, MapWritten, Changes;
    EmptyAlwaysRestarts(Lookup(w.configMaps, MapName(cr)));
  }

  /** An error-free pass is a fixpoint exactly when somebody claims a namespace: with unchanged inputs a second
    pass, under whatever schedule, orders and API answers it completes, changes nothing and asks for no
    restart; with an empty member set it asks for a restart every time. */
  lemma SecondPassChangesNothingIff(w: World, w': World, w'': World, c: string, home: string, inp: Inputs, inp': Inputs)
    requires PassCompletes(w, w', c, home, inp) && PassCompletes(w', w'', c, home, inp')
    requires SameInputs(inp, inp') && Quiet(w, c, home, inp, inp')
    ensures w'' == w' <==> Claimed(w'.crs, MapName(w.crs[c])) != {}
    ensures w''.objects == w'.objects
  {
    hide Claimed, PushSucceeds, After, MapStep, WithRuntime, Cleaned, PlanOf, Smooth, Enumerating, NamesApart,
      Refreshed,
      RuntimeClean, NoRuntimeClash, ValidMembers, FullListing;
    var w1 := Refreshed(w, c, home, inp.mayGet);
    var cr := w1.crs[c];
    RefreshedTwice(w, w', c, home, inp);
    RefreshedName(w, c, home, inp.mayGet);
    SecondObjects(w, w', w'', c, home, inp, inp');
    if Claimed(w'.crs, MapName(cr)) == {} {
      EmptyMapStep(w', cr, w''.configMaps, w''.restarts);
    } else {
      SecondMapStep(w1, cr, w'.configMaps, w'.restarts, w', w''.configMaps, w''.restarts);
    }
  }

  lemma SecondObjects(w: World, w': World, w'': World, c: string, home: string, inp: Inputs, inp': Inputs)
    requires PassCompletes(w, w', c, home, inp) && PassCompletes(w', w'', c, home, inp')
    requires SameInputs(inp, inp') && Quiet(w, c, home, inp, inp')
    ensures w''.objects == w'.objects
  {
    hide Claimed, Runs, Execute, Complete, Shaped, After, MapStep, WithRuntime, Swept, Unmanaged, PlanOf, Smooth,
      Enumerating, NamesApart, Refreshed,
      RuntimeClean, NoRuntimeClash, ValidMembers, FullListing;
    var w1 := Refreshed(w, c, home, inp.mayGet);
    var cr, cm := w1.crs[c], MapName(w1.crs[c]);
    RefreshedTwice(w, w', c, home, inp);
    RefreshedName(w, c, home, inp.mayGet);
    SecondPushStays(w, w', c, home, inp, inp');
    NothingUnmanaged(w1, w', cr, home);
    NothingSwept(w'.objects, home, cm);
    var o := Cleaned(w1, After(PlanOf(cr, home, inp), w1.objects, inp.schedule), cm, home);
    CleanedRuntimeClean(w, w', c, home, inp);
    RuntimeTwice(o.roles, cr.members, home, cm, inp.listing);
  }

  lemma RefreshedName(w: World, c: string, home: string, mayGet: string -> bool)
    requires c in w.crs
    ensures c in Refreshed(w, c, home, mayGet).crs && MapName(Refreshed(w, c, home, mayGet).crs[c]) == MapName(w.crs[c])
    ensures Refreshed(w, c, home, mayGet).objects == w.objects
  {
  }

  lemma NothingUnmanaged(w: World, w': World, cr: Nss, home: string)
    requires MapStep(w, cr, w'.configMaps, w'.restarts) && w'.crs == w.crs
    requires ValidMembers(Claimed(w.crs, MapName(cr)))
    ensures Unmanaged(w', MapName(cr), home) == {} && MapName(cr) in w'.configMaps
  {
    hide Claimed, Listed, ValidName;
    MapStepLists(w, cr, w'.configMaps, w'.restarts);
  }
}
