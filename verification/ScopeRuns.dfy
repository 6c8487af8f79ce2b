/** What every run keeps: labelled objects can always be found again. */
module ScopeRuns {
  import opened Rbac
  import opened Lists
  import opened Names
  import opened Store
  import opened Projection
  import opened Worker
  import opened FanOut
  import opened PushPlan
  import opened PushTheorems
  import opened Scope

  // ---------------------------------------------------------------------------------------------
  // Steps of a run
  // ---------------------------------------------------------------------------------------------

  /** A namespace name: not empty and without a comma. */
  predicate ValidName(ns: string) {
    ns != "" && COMMA !in ns
  }

  predicate ValidNames(xs: seq<string>) {
    forall i :: 0 <= i < |xs| ==> ValidName(xs[i])
  }

  /** What users may do to one resource between two reconciliations: create it, edit its spec except for
    the ConfigMap it publishes through, delete it.  A deletion begins while the status members are still
    spec members, and a resource without finalizer vanishes only if it was never reconciled. */
  predicate Evolves(before: Option<Nss>, after: Option<Nss>) {
    || before == after
    || (before == None && ValidNames(after.value.members) && after.value.status == [] && !after.value.deleting)
    || (&& before.Some? && after.Some? && !before.value.deleting
        && ValidNames(after.value.members)
        && after.value == before.value.(members := after.value.members, allowSubset := after.value.allowSubset))
    || (&& before.Some? && after.Some? && !before.value.deleting && before.value.finalizer
        && Elems(before.value.status) <= Elems(before.value.members)
        && after.value == before.value.(deleting := true))
    || (before.Some? && after == None && !before.value.deleting && !before.value.finalizer && before.value.status == [])
  }

  predicate Unlabelled(labels: map<string, string>) {
    CONFIGMAP_LABEL !in labels
  }

  /** Everything else in the cluster may change too, but nobody else hands out the operator's label or
    edits its ConfigMaps. */
  ghost predicate Environment(w: World, w': World) {
    && w'.configMaps == w.configMaps && w'.restarts == w.restarts
    && (forall c :: Evolves(Lookup(w.crs, c), Lookup(w'.crs, c)))
    && (forall k :: Lookup(w'.objects.roles, k) == Lookup(w.objects.roles, k) ||
                    (k in w'.objects.roles ==> Unlabelled(w'.objects.roles[k].labels)))
    && (forall k :: Lookup(w'.objects.bindings, k) == Lookup(w.objects.bindings, k) ||
                    (k in w'.objects.bindings ==> Unlabelled(w'.objects.bindings[k].labels)))
  }

  datatype Step = Pass(c: string, inputs: Inputs) | FailedAttempt(c: string) | Deleted(c: string) | Outside

  ghost predicate Next(home: string, w: World, step: Step, w': World) {
    match step
    case Pass(c, inputs) => PassCompletes(w, w', c, home, inputs)
    case FailedAttempt(c) => AttemptFails(w, w', c, home)
    case Deleted(c) => AttemptSucceeds(w, w', c, home)
    case Outside => Environment(w, w')
  }

  ghost predicate Run(home: string, worlds: seq<World>, steps: seq<Step>) {
    && |worlds| == |steps| + 1
    && forall i :: 0 <= i < |steps| ==> Next(home, worlds[i], steps[i], worlds[i + 1])
  }

  // ---------------------------------------------------------------------------------------------
  // The invariant
  // ---------------------------------------------------------------------------------------------

  /** Labelled for a ConfigMap: by the truncated value and by the full name. */
  predicate Tagged(labels: map<string, string>, home: string, cm: string) {
    Carries(labels, home, cm) && HasLabel(labels, NAME_LABEL, cm)
  }

  predicate Holds(o: Objects, key: Key, home: string, cm: string) {
    || (key in o.roles && Tagged(o.roles[key].labels, home, cm))
    || (key in o.bindings && Tagged(o.bindings[key].labels, home, cm))
  }

  /** Where a later cleanup will look. */
  predicate Findable(w: World, ns: string, home: string, cm: string) {
    ns != home && ns in Listed(w.configMaps, cm) + Pending(w.crs, cm)
  }

  /** Every namespace that holds an object labelled for a ConfigMap is in that ConfigMap's list, or is a
    member of a terminating resource whose cleanup is still to come. */
  ghost predicate Tracking(w: World, home: string) {
    forall key, cm :: Holds(w.objects, key, home, cm) ==> Findable(w, key.ns, home, cm)
  }

  /** What a ConfigMap lists is claimed by a surviving resource or pending with a terminating one. */
  ghost predicate Accounted(w: World) {
    forall cm, ns :: ns in Listed(w.configMaps, cm) ==> ns in Claimed(w.crs, cm) + Pending(w.crs, cm)
  }

  ghost predicate WellNamed(w: World) {
    forall c :: c in w.crs ==>
      && ValidNames(w.crs[c].members) && ValidNames(w.crs[c].status)
      && (!w.crs[c].finalizer ==> w.crs[c].status == [] && !w.crs[c].deleting)
  }

  ghost predicate Inv(w: World, home: string) {
    Tracking(w, home) && Accounted(w) && WellNamed(w)
  }

  // ---------------------------------------------------------------------------------------------
  // The ConfigMap lists what it should
  // ---------------------------------------------------------------------------------------------

  lemma PublishedIsListed(data: string, members: set<string>)
    requires Publishes(data, members)
    requires forall ns :: ns in members ==> ValidName(ns)
    ensures ListedIn(data) == members
    ensures members != {} ==> multiset(Split(data)) == multiset(members)
  {
    var xs :| IsEnumeration(xs, members) && data == Join(xs);
    forall i | 0 <= i < |xs|
      ensures ValidName(xs[i])
    {
      assert xs[i] in Elems(xs);
    }
    if xs != [] {
      SplitJoin(xs);
      DistinctMultiset(xs);
      assert ValidName(xs[0]);
      assert data != "";
    }
  }

  lemma UnchangedIsListed(data: string, members: set<string>)
    requires multiset(Split(data)) == multiset(members)
    requires forall ns :: ns in members ==> ValidName(ns)
    ensures ListedIn(data) == members
  {
    assert forall x :: x in Split(data) <==> x in multiset(Split(data));
    assert Split(data)[0] in Split(data);
    assert ValidName(Split(data)[0]);
  }

  /** After `UpdateConfigMap` the ConfigMap lists exactly the claimed members. */
  lemma MapStepLists(w: World, cr: Nss, configMaps': map<string, ConfigMap>, restarts': nat)
    requires MapStep(w, cr, configMaps', restarts')
    requires forall ns :: ns in Claimed(w.crs, MapName(cr)) ==> ValidName(ns)
    ensures Listed(configMaps', MapName(cr)) == Claimed(w.crs, MapName(cr))
    ensures forall cm :: cm != MapName(cr) ==> Listed(configMaps', cm) == Listed(w.configMaps, cm)
  {
    hide Split, Claimed, Publishes;
    var cm, members := MapName(cr), Claimed(w.crs, MapName(cr));
    if Changes(Lookup(w.configMaps, cm), members) {
      PublishedIsListed(configMaps'[cm].data, members);
    } else {
      UnchangedIsListed(configMaps'[cm].data, members);
    }
  }

  /** The name a resource publishes under, written out. */
  predicate PublishesUnder(cr: Nss, cm: string) {
    if cr.configMapName == "" then cm == "namespace-scope" else cm == cr.configMapName
  }

  /** The comma-joined text names the namespace. */
  predicate InText(data: string, ns: string) {
    data != "" && ns in Split(data)
  }

  /** The update told from the resources: the ConfigMap of the resource's name, or `namespace-scope`, holds the status
    members of all resources that publish under that name and are not being deleted, and no others; the resource
    joins its owners; no other ConfigMap changes. */
  lemma MapPublishes(w: World, cr: Nss, configMaps': map<string, ConfigMap>, restarts': nat, cm: string)
    requires MapStep(w, cr, configMaps', restarts') && PublishesUnder(cr, cm)
    requires forall c :: c in w.crs ==> ValidNames(w.crs[c].status)
    ensures cm in configMaps' && configMaps' == w.configMaps[cm := configMaps'[cm]]
    ensures forall ns :: InText(configMaps'[cm].data, ns) <==>
                         exists c :: c in w.crs && !w.crs[c].deleting && PublishesUnder(w.crs[c], cm) && ns in w.crs[c].status
    ensures configMaps'[cm].owners == (if cm in w.configMaps then w.configMaps[cm].owners else {}) + {cr.uid}
  {
    hide Publishes, ValidName, Changes, Claimed, PublishesUnder, Listed, InText;
    assert MapName(cr) == cm by {
      SameName(cr, cm);
    }
    forall ns | ns in Claimed(w.crs, cm)
      ensures ValidName(ns)
    {
      ClaimedMeans(w.crs, cm, ns);
    }
    MapStepLists(w, cr, configMaps', restarts');
    ListedMeans(configMaps', cm);
    forall ns
      ensures InText(configMaps'[cm].data, ns) <==>
              exists c :: c in w.crs && !w.crs[c].deleting && PublishesUnder(w.crs[c], cm) && ns in w.crs[c].status
    {
      ClaimedMeans(w.crs, cm, ns);
      assert ns in Listed(configMaps', cm) <==> ns in Claimed(w.crs, cm);
    }
  }

  lemma SameName(cr: Nss, cm: string)
    ensures PublishesUnder(cr, cm) <==> MapName(cr) == cm
  {
  }

  lemma ListedMeans(configMaps: map<string, ConfigMap>, cm: string)
    requires cm in configMaps
    ensures forall ns :: ns in Listed(configMaps, cm) <==> InText(configMaps[cm].data, ns)
  {
  }

  lemma ClaimedMeans(crs: map<string, Nss>, cm: string, ns: string)
    ensures ns in Claimed(crs, cm) <==>
            exists c :: c in crs && !crs[c].deleting && PublishesUnder(crs[c], cm) && ns in crs[c].status
  {
    if ns in Claimed(crs, cm) {
      var c :| c in crs && !crs[c].deleting && MapName(crs[c]) == cm && ns in crs[c].status;
      assert PublishesUnder(crs[c], cm);
    }
  }

  lemma ClaimedValid(w: World, cm: string)
    requires WellNamed(w)
    ensures forall ns :: ns in Claimed(w.crs, cm) ==> ValidName(ns)
  {
  }

  // ---------------------------------------------------------------------------------------------
  // Users and the rest of the cluster
  // ---------------------------------------------------------------------------------------------

  lemma EnvironmentKeepsSets(w: World, w': World, cm: string, ns: string)
    requires Environment(w, w') && WellNamed(w)
    ensures ns in Pending(w.crs, cm) ==> ns in Pending(w'.crs, cm)
    ensures ns in Claimed(w.crs, cm) ==> ns in Claimed(w'.crs, cm) + Pending(w'.crs, cm)
  {
    if ns in Pending(w.crs, cm) {
      var c :| c in w.crs && w.crs[c].deleting && w.crs[c].finalizer && MapName(w.crs[c]) == cm && ns in w.crs[c].members;
      assert Evolves(Lookup(w.crs, c), Lookup(w'.crs, c));
      assert c in w'.crs && w'.crs[c] == w.crs[c];
    }
    if ns in Claimed(w.crs, cm) {
      var c :| c in w.crs && !w.crs[c].deleting && MapName(w.crs[c]) == cm && ns in w.crs[c].status;
      assert Evolves(Lookup(w.crs, c), Lookup(w'.crs, c));
      assert c in w'.crs;
      if w'.crs[c].deleting {
        assert ns in Elems(w.crs[c].status);
      }
    }
  }

  lemma EnvironmentKeepsInv(w: World, w': World, home: string)
    requires Inv(w, home) && Environment(w, w')
    ensures Inv(w', home)
  {
    hide Claimed, Pending, LabelValue, Split, ValidNames;
    forall key, cm | Holds(w'.objects, key, home, cm)
      ensures Findable(w', key.ns, home, cm)
    {
      assert Lookup(w'.objects.roles, key) == Lookup(w.objects.roles, key) ||
             (key in w'.objects.roles ==> Unlabelled(w'.objects.roles[key].labels));
      assert Lookup(w'.objects.bindings, key) == Lookup(w.objects.bindings, key) ||
             (key in w'.objects.bindings ==> Unlabelled(w'.objects.bindings[key].labels));
      assert Holds(w.objects, key, home, cm);
      EnvironmentKeepsSets(w, w', cm, key.ns);
    }
    forall cm, ns | ns in Listed(w'.configMaps, cm)
      ensures ns in Claimed(w'.crs, cm) + Pending(w'.crs, cm)
    {
      assert ns in Listed(w.configMaps, cm);
      EnvironmentKeepsSets(w, w', cm, ns);
    }
    forall c | c in w'.crs
      ensures ValidNames(w'.crs[c].members) && ValidNames(w'.crs[c].status)
      ensures !w'.crs[c].finalizer ==> w'.crs[c].status == [] && !w'.crs[c].deleting
    {
      assert Evolves(Lookup(w.crs, c), Lookup(w'.crs, c));
      NoNames();
    }
  }

  lemma NoNames()
    ensures ValidNames([])
  {
  }

  // ---------------------------------------------------------------------------------------------
  // Completed passes
  // ---------------------------------------------------------------------------------------------

  predicate CopyName(p: Push, t: Task, key: Key, r: string) {
    key == CopyKey(p, t, r)
  }

  predicate TaskCopy(plan: Plan, key: Key, k: int, r: string) {
    0 <= k < |plan.tasks| && CopyName(plan.p, plan.tasks[k], key, r)
  }

  /** A push writes only labelled objects, only under the names of copies in its targets. */
  ghost predicate LabelledWrites(plan: Plan, o: Objects, start: Objects) {
    && (forall key :: Lookup(o.roles, key) == Lookup(start.roles, key) ||
          (key in o.roles && o.roles[key].labels == plan.p.labels && exists k, r :: TaskCopy(plan, key, k, r)))
    && (forall key :: Lookup(o.bindings, key) == Lookup(start.bindings, key) ||
          (key in o.bindings && o.bindings[key].labels == plan.p.labels && exists k, r :: TaskCopy(plan, key, k, r)))
  }

  lemma NextStepWrites(p: Push, t: Task, order: Order, w: Worker, o: Objects, key: Key)
    requires Ready(w)
    ensures var o' := NextStep(p, t, order, w, o).1;
            && (|| Lookup(o'.roles, key) == Lookup(o.roles, key)
                || (key in o'.roles && o'.roles[key].labels == p.labels && exists r :: CopyName(p, t, key, r)))
            && (|| Lookup(o'.bindings, key) == Lookup(o.bindings, key)
                || (key in o'.bindings && o'.bindings[key].labels == p.labels && exists r :: CopyName(p, t, key, r)))
  {
    hide CopyRules, ManagedRules, BoundRoles, SkipRole, NextRole, StartBinding, Stop, CopyKey;
    if w.pc.Creating? || w.pc.Updating? {
      assert CopyName(p, t, CopyKey(p, t, w.names[w.copied]), w.names[w.copied]);
    }
    if w.pc.Binding? {
      assert CopyName(p, t, CopyKey(p, t, w.names[w.bound]), w.names[w.bound]);
    }
  }

  lemma ApplyWritesLabelled(plan: Plan, s: State, a: Action, start: Objects)
    requires Fits(plan, s) && Enabled(plan, s, a) && LabelledWrites(plan, s.objects, start)
    ensures LabelledWrites(plan, Apply(plan, s, a).objects, start)
  {
    hide NextStep, GroupDone, CopyName;
    if a.Work? {
      forall key
        ensures var o, o' := s.objects, Apply(plan, s, a).objects;
                && (Lookup(o'.roles, key) == Lookup(o.roles, key) ||
                    (key in o'.roles && o'.roles[key].labels == plan.p.labels && exists k, r :: TaskCopy(plan, key, k, r)))
                && (Lookup(o'.bindings, key) == Lookup(o.bindings, key) ||
                    (key in o'.bindings && o'.bindings[key].labels == plan.p.labels && exists k, r :: TaskCopy(plan, key, k, r)))
      {
        NextStepWrites(plan.p, plan.tasks[a.k], plan.orders[a.k], s.workers[a.k], s.objects, key);
        if r :| CopyName(plan.p, plan.tasks[a.k], key, r) {
          assert TaskCopy(plan, key, a.k, r);
        }
      }
    }
  }

  lemma {:induction false} ExecuteWritesLabelled(plan: Plan, s: State, schedule: seq<Action>, start: Objects)
    requires Fits(plan, s) && Runs(plan, s, schedule) && LabelledWrites(plan, s.objects, start)
    ensures LabelledWrites(plan, Execute(plan, s, schedule).objects, start)
    decreases |schedule|
  {
    hide Apply, Enabled, LabelledWrites;
    if schedule != [] {
      ApplyWritesLabelled(plan, s, schedule[0], start);
      ExecuteWritesLabelled(plan, Apply(plan, s, schedule[0]), schedule[1..], start);
    }
  }

  /** What a pass for `cr` may write under: a copy's name in a validated target. */
  ghost predicate PassMayWrite(cr: Nss, home: string, inp: Inputs, key: Key) {
    && key.ns in cr.status && key.ns != home
    && exists r, sa :: key.name == ProjectedName(inp.hash, r, sa, home)
  }

  lemma PassWritesLabelled(cr: Nss, home: string, inp: Inputs, start: Objects, key: Key)
    requires PushSucceeds(PlanOf(cr, home, inp), start, inp.schedule)
    ensures var o := After(PlanOf(cr, home, inp), start, inp.schedule);
            && (Lookup(o.roles, key) == Lookup(start.roles, key) ||
                  (key in o.roles && o.roles[key].labels == LabelsFor(MapName(cr), home) && PassMayWrite(cr, home, inp, key)))
            && (Lookup(o.bindings, key) == Lookup(start.bindings, key) ||
                  (key in o.bindings && o.bindings[key].labels == LabelsFor(MapName(cr), home) && PassMayWrite(cr, home, inp, key)))
  {
    hide LabelsFor, TaskList, Runs, Execute, ProjectedName;
    var plan := PlanOf(cr, home, inp);
    ExecuteWritesLabelled(plan, Initial(plan, start), inp.schedule, start);
    TaskListShape(Targets(cr.status, home), inp.accounts, inp.faults);
    if k, r :| TaskCopy(plan, key, k, r) {
      assert key.name == ProjectedName(inp.hash, r, plan.tasks[k].sa, home);
    }
  }

  lemma LabelsCarry(cm: string, cm': string, home: string)
    ensures Tagged(LabelsFor(cm, home), home, cm') <==> cm == cm'
  {
    hide LabelValue;
  }

  /** Nothing tagged appears beyond what the push wrote. */
  lemma PassHolds(w: World, w': World, c: string, home: string, inp: Inputs, key: Key, cm: string)
    requires PassCompletes(w, w', c, home, inp) && Holds(w'.objects, key, home, cm)
    ensures var w1 := Refreshed(w, c, home, inp.mayGet);
            var mine := MapName(w1.crs[c]);
            || (cm == mine && key.ns in w1.crs[c].status && key.ns != home)
            || (Holds(w.objects, key, home, cm) && (cm == mine && cm in w.configMaps ==> key.ns !in Unmanaged(w1, cm, home)))
  {
    hide LabelValue, LabelsFor, Validated, Claimed, Listed, Runs, Execute, After, MapStep, Summary, LabelledRoles;
    var w1 := Refreshed(w, c, home, inp.mayGet);
    var cr := w1.crs[c];
    var mine := MapName(cr);
    var pushed := After(PlanOf(cr, home, inp), w1.objects, inp.schedule);
    var o := Cleaned(w1, pushed, mine, home);
    PassWritesLabelled(cr, home, inp, w1.objects, key);
    RuntimeUnlabelled(o.roles, cr.members, home, mine, inp.listing, key);
    LabelsCarry(mine, cm, home);
    assert Holds(o, key, home, cm);
    assert Holds(pushed, key, home, cm);
    assert Lookup(pushed.roles, key) == Lookup(w.objects.roles, key) ||
           (pushed.roles[key].labels == LabelsFor(mine, home) && key.ns in cr.status && key.ns != home);
  }

  /** Writing runtime Roles hands out no label. */
  lemma {:induction false} RuntimeUnlabelled(roles: map<Key, Role>, members: seq<string>, home: string, cm: string,
                                             listing: Listing, key: Key)
    ensures var after := WithRuntime(roles, members, home, cm, listing);
            || Lookup(after, key) == Lookup(roles, key)
            || (key in after && after[key].labels == map[] && key.name == RUNTIME_PREFIX + home && key.ns in members && key.ns != home)
  {
    hide LabelledRoles, Summary;
    if members != [] {
      RuntimeUnlabelled(roles, members[..|members| - 1], home, cm, listing, key);
    }
  }

  lemma ValidatedNames(members: seq<string>, namespaces: map<string, Phase>, home: string, mayGet: string -> bool)
    requires ValidNames(members)
    ensures ValidNames(Validated(members, namespaces, home, mayGet))
  {
  }

  lemma RefreshedWellNamed(w: World, c: string, home: string, mayGet: string -> bool)
    requires WellNamed(w) && c in w.crs
    ensures WellNamed(Refreshed(w, c, home, mayGet))
  {
    hide Validated, ValidName;
    ValidatedNames(w.crs[c].members, w.namespaces, home, mayGet);
  }

  /** Refreshing a live resource leaves the claims on other ConfigMaps and all pending cleanups alone. */
  lemma RefreshedSets(w: World, c: string, home: string, mayGet: string -> bool, cm: string)
    requires c in w.crs && !w.crs[c].deleting
    ensures var w1 := Refreshed(w, c, home, mayGet);
            && Pending(w1.crs, cm) == Pending(w.crs, cm)
            && (cm != MapName(w.crs[c]) ==> Claimed(w1.crs, cm) == Claimed(w.crs, cm))
            && (forall ns :: ns in w1.crs[c].status ==> ns in Claimed(w1.crs, MapName(w.crs[c])))
  {
    hide Validated, NewStatus;
    var w1 := Refreshed(w, c, home, mayGet);
    forall c'
      ensures c' in w1.crs <==> c' in w.crs
      ensures c' in w.crs && c' != c ==> w1.crs[c'] == w.crs[c']
    {
    }
    PendingSame(w.crs, w1.crs, c, cm);
    PendingSame(w1.crs, w.crs, c, cm);
    if cm != MapName(w.crs[c]) {
      ClaimedSame(w.crs, w1.crs, c, cm);
      ClaimedSame(w1.crs, w.crs, c, cm);
    }
  }

  lemma PendingSame(a: map<string, Nss>, b: map<string, Nss>, c: string, cm: string)
    requires forall c' :: c' in a && c' != c ==> c' in b && b[c'] == a[c']
    requires c in a ==> !a[c].deleting
    ensures Pending(a, cm) <= Pending(b, cm)
  {
  }

  lemma ClaimedSame(a: map<string, Nss>, b: map<string, Nss>, c: string, cm: string)
    requires forall c' :: c' in a && c' != c ==> c' in b && b[c'] == a[c']
    requires c in a ==> a[c].deleting || MapName(a[c]) != cm
    ensures Claimed(a, cm) <= Claimed(b, cm)
  {
  }

  lemma PassKeepsInv(w: World, w': World, c: string, home: string, inp: Inputs)
    requires Inv(w, home) && PassCompletes(w, w', c, home, inp)
    ensures Inv(w', home)
  {
    hide LabelValue, LabelsFor, Validated, NewStatus, Claimed, Pending, Runs, Execute, After, Summary, LabelledRoles,
      WithRuntime, Split, Holds, Swept, MapWritten, Changes;
    var w1 := Refreshed(w, c, home, inp.mayGet);
    var mine := MapName(w1.crs[c]);
    RefreshedWellNamed(w, c, home, inp.mayGet);
    ClaimedValid(w1, mine);
    MapStepLists(w1, w1.crs[c], w'.configMaps, w'.restarts);
    forall key, cm | Holds(w'.objects, key, home, cm)
      ensures Findable(w', key.ns, home, cm)
    {
      RefreshedSets(w, c, home, inp.mayGet, cm);
      PassHolds(w, w', c, home, inp, key, cm);
    }
    forall cm, ns | ns in Listed(w'.configMaps, cm)
      ensures ns in Claimed(w'.crs, cm) + Pending(w'.crs, cm)
    {
      RefreshedSets(w, c, home, inp.mayGet, cm);
    }
  }

  // ---------------------------------------------------------------------------------------------
  // Deletion attempts
  // ---------------------------------------------------------------------------------------------

  lemma AttemptFailsKeepsInv(w: World, w': World, c: string, home: string)
    requires Inv(w, home) && AttemptFails(w, w', c, home)
    ensures Inv(w', home)
  {
    hide LabelValue, Claimed, Pending, Split, MapWritten, Changes;
    if w' != w {
      var cr := w.crs[c];
      ClaimedValid(w, MapName(cr));
      MapStepLists(w, cr, w'.configMaps, w'.restarts);
      forall key, cm | Holds(w'.objects, key, home, cm)
        ensures Findable(w', key.ns, home, cm)
      {
        PartlySweptHolds(w.objects, w'.objects, Abandoned(w, cr, home), home, MapName(cr), key, cm);
        assert Findable(w, key.ns, home, cm);
      }
    }
  }

  lemma PartlySweptHolds(o: Objects, o': Objects, targets: set<string>, home: string, mine: string, key: Key,
                         cm: string)
    requires PartlySwept(o, o', targets, home, mine) && Holds(o', key, home, cm)
    ensures Holds(o, key, home, cm)
  {
  }

  lemma DeletedSets(w: World, c: string, cm: string, ns: string)
    requires c in w.crs && w.crs[c].deleting && w.crs[c].finalizer
    ensures Claimed(w.crs - {c}, cm) == Claimed(w.crs, cm)
    ensures ns in Pending(w.crs, cm) ==> ns in Pending(w.crs - {c}, cm) || (cm == MapName(w.crs[c]) && ns in w.crs[c].members)
  {
    ClaimedSame(w.crs, w.crs - {c}, c, cm);
    ClaimedSame(w.crs - {c}, w.crs, c, cm);
    if ns in Pending(w.crs, cm) {
      var c' :| c' in w.crs && w.crs[c'].deleting && w.crs[c'].finalizer && MapName(w.crs[c']) == cm && ns in w.crs[c'].members;
      if c' != c {
        assert c' in w.crs - {c} && (w.crs - {c})[c'] == w.crs[c'];
      }
    }
  }

  lemma AttemptSucceedsKeepsInv(w: World, w': World, c: string, home: string)
    requires Inv(w, home) && AttemptSucceeds(w, w', c, home)
    ensures Inv(w', home)
  {
    hide LabelValue, Claimed, Pending, Split, MapWritten, Changes;
    var cr := w.crs[c];
    ClaimedValid(w, MapName(cr));
    MapStepLists(w, cr, w'.configMaps, w'.restarts);
    forall key, cm | Holds(w'.objects, key, home, cm)
      ensures Findable(w', key.ns, home, cm)
    {
      assert Holds(w.objects, key, home, cm);
      assert Findable(w, key.ns, home, cm);
      DeletedSets(w, c, cm, key.ns);
    }
    forall cm, ns | ns in Listed(w'.configMaps, cm)
      ensures ns in Claimed(w'.crs, cm) + Pending(w'.crs, cm)
    {
      DeletedSets(w, c, cm, ns);
    }
  }

  // ---------------------------------------------------------------------------------------------
  // Whole runs
  // ---------------------------------------------------------------------------------------------

  /** Before anything was reconciled: no labelled object and no ConfigMap. */
  ghost predicate Fresh(w: World, home: string) {
    && (forall key, cm :: !Holds(w.objects, key, home, cm))
    && w.configMaps == map[]
    && WellNamed(w)
  }

  lemma NextKeepsInv(home: string, w: World, step: Step, w': World)
    requires Inv(w, home) && Next(home, w, step, w')
    ensures Inv(w', home)
  {
    hide Inv, PassCompletes, AttemptFails, AttemptSucceeds, Environment;
    match step
    case Pass(c, inputs) => PassKeepsInv(w, w', c, home, inputs);
    case FailedAttempt(c) => AttemptFailsKeepsInv(w, w', c, home);
    case Deleted(c) => AttemptSucceedsKeepsInv(w, w', c, home);
    case Outside => EnvironmentKeepsInv(w, w', home);
  }

  /** Over every run of completed passes, failed and successful deletions and outside changes, every
    labelled object stays findable. */
  lemma {:induction false} RunKeepsInv(home: string, worlds: seq<World>, steps: seq<Step>, i: nat)
    requires Run(home, worlds, steps) && Fresh(worlds[0], home) && i <= |steps|
    ensures Inv(worlds[i], home)
  {
    hide PassCompletes, AttemptFails, AttemptSucceeds, Environment, Claimed, Pending, Listed, WellNamed, Next;
    if i == 0 {
      NothingListed(worlds[0]);
    } else {
      RunKeepsInv(home, worlds, steps, i - 1);
      assert Next(home, worlds[i - 1], steps[i - 1], worlds[i - 1 + 1]);
      NextKeepsInv(home, worlds[i - 1], steps[i - 1], worlds[i]);
    }
  }

  lemma NothingListedWithout(configMaps: map<string, ConfigMap>, cm: string)
    ensures cm !in configMaps ==> Listed(configMaps, cm) == {}
  {
  }

  lemma NothingListed(w: World)
    requires w.configMaps == map[]
    ensures forall cm :: Listed(w.configMaps, cm) == {}
  {
  }

  /** While nothing is being deleted, a namespace with an object labelled for a ConfigMap is in its list. */
  lemma ListFindsAll(home: string, worlds: seq<World>, steps: seq<Step>, i: nat, key: Key, cm: string)
    requires Run(home, worlds, steps) && Fresh(worlds[0], home) && i <= |steps|
    requires Holds(worlds[i].objects, key, home, cm)
    requires forall c :: c in worlds[i].crs && worlds[i].crs[c].deleting ==> MapName(worlds[i].crs[c]) != cm
    ensures key.ns in Listed(worlds[i].configMaps, cm) && key.ns != home
  {
    hide Holds, Listed, Fresh, Accounted, WellNamed, Next;
    RunKeepsInv(home, worlds, steps, i);
    assert Findable(worlds[i], key.ns, home, cm);
  }

  /** A completed pass leaves objects labelled for its ConfigMap only where a surviving resource claims
    the namespace, or where a terminating one will still clean up. */
  lemma PassLeavesNoStray(home: string, worlds: seq<World>, steps: seq<Step>, i: nat, key: Key)
    requires Run(home, worlds, steps) && Fresh(worlds[0], home) && i < |steps| && steps[i].Pass?
    ensures steps[i].c in worlds[i].crs
    ensures var cm := MapName(worlds[i].crs[steps[i].c]);
            Holds(worlds[i + 1].objects, key, home, cm) ==>
              key.ns in Claimed(worlds[i + 1].crs, cm) + Pending(worlds[i + 1].crs, cm)
  {
    hide Holds, Listed, Fresh, WellNamed, PassCompletes;
    assert Next(home, worlds[i], steps[i], worlds[i + 1]);
    PassNames(worlds[i], worlds[i + 1], steps[i].c, home, steps[i].inputs);
    RunKeepsInv(home, worlds, steps, i + 1);
    var cm := MapName(worlds[i].crs[steps[i].c]);
    if Holds(worlds[i + 1].objects, key, home, cm) {
      assert Findable(worlds[i + 1], key.ns, home, cm);
    }
  }

  lemma PassNames(w: World, w': World, c: string, home: string, inp: Inputs)
    requires PassCompletes(w, w', c, home, inp)
    ensures c in w.crs
  {
  }
}
