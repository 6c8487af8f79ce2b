/** The restarts that ConfigMap updates ask for. */
module ScopeRestarts {
  import opened Lists
  import opened Store
  import opened PushTheorems
  import opened Scope
  import opened ScopeRuns

  predicate ValidMembers(members: set<string>) {
    forall ns :: ns in members ==> ValidName(ns)
  }

  predicate Noted(data: string, xs: seq<string>) {
    Distinct(xs) && ValidNames(xs) && data == Join(xs)
  }

  /** The text is a list of names that can be read back. */
  ghost predicate Legible(data: string) {
    exists xs :: Noted(data, xs)
  }

  ghost predicate AllLegible(configMaps: map<string, ConfigMap>) {
    forall cm :: cm in configMaps ==> Legible(configMaps[cm].data)
  }

  lemma NotedListed(data: string, xs: seq<string>)
    requires Noted(data, xs)
    ensures ListedIn(data) == Elems(xs)
    ensures Split(data) == if xs == [] then [""] else xs
    ensures multiset(xs) == multiset(Elems(xs))
  {
    hide Split;
    DistinctMultiset(xs);
    if xs == [] {
      SplitPlain("");
    } else {
      SplitJoin(xs);
      assert ValidName(xs[0]);
    }
  }

  lemma MultisetsOfSets(a: set<string>, b: set<string>)
    requires multiset(a) == multiset(b)
    ensures a == b
  {
    forall x
      ensures x in a <==> x in b
    {
      assert x in a <==> x in multiset(a);
      assert x in b <==> x in multiset(b);
    }
  }

  lemma EmptyAlwaysRestarts(old_: Option<ConfigMap>)
    ensures Changes(old_, {})
  {
    if old_.Some? {
      var parts := Split(old_.value.data);
      assert parts[0] in multiset(parts);
    }
  }

  /** With a legible ConfigMap in place, an update asks for a restart iff the member set is empty or differs
    from the listed one.  The empty set always does, since an empty text splits into one part. */
  lemma RestartIff(old_: ConfigMap, members: set<string>)
    requires Legible(old_.data) && ValidMembers(members)
    ensures Changes(Some(old_), members) <==> members != ListedIn(old_.data) || members == {}
  {
    hide Split, ValidNames;
    var xs :| Noted(old_.data, xs);
    NotedListed(old_.data, xs);
    if members == {} {
      EmptyAlwaysRestarts(Some(old_));
    } else if xs == [] {
      assert "" in multiset([""]);
      assert "" in multiset(members) <==> "" in members;
    } else if multiset(Elems(xs)) == multiset(members) {
      MultisetsOfSets(Elems(xs), members);
    }
  }

  // ---------------------------------------------------------------------------------------------
  // One update
  // ---------------------------------------------------------------------------------------------

  /** The ConfigMap was created or its list has changed. */
  predicate Renewed(before: map<string, ConfigMap>, after: map<string, ConfigMap>, cm: string) {
    cm in after && (cm !in before || Listed(after, cm) != Listed(before, cm))
  }

  ghost predicate SomeRenewed(before: map<string, ConfigMap>, after: map<string, ConfigMap>) {
    exists cm :: Renewed(before, after, cm)
  }

  lemma PublishedIsLegible(data: string, members: set<string>)
    requires Publishes(data, members) && ValidMembers(members)
    ensures Legible(data)
  {
    var xs :| IsEnumeration(xs, members) && data == Join(xs);
    forall i | 0 <= i < |xs|
      ensures ValidName(xs[i])
    {
      assert xs[i] in Elems(xs);
    }
    assert Noted(data, xs);
  }

  /** An update asks for one restart iff it creates the ConfigMap, changes its list or publishes nobody. */
  lemma MapStepRestarts(w: World, cr: Nss, maps: map<string, ConfigMap>, restarts: nat)
    requires MapStep(w, cr, maps, restarts) && AllLegible(w.configMaps) && ValidMembers(Claimed(w.crs, MapName(cr)))
    ensures AllLegible(maps)
    ensures restarts == w.restarts + if SomeRenewed(w.configMaps, maps) || Listed(maps, MapName(cr)) == {} then 1 else 0
  {
    hide Claimed, Listed, Legible, Publishes, Changes;
    var cm, members := MapName(cr), Claimed(w.crs, MapName(cr));
    MapStepLists(w, cr, maps, restarts);
    var changes := Changes(Lookup(w.configMaps, cm), members);
    if changes {
      PublishedIsLegible(maps[cm].data, members);
    }
    UpdateChanges(w.configMaps, cm, members);
    assert changes <==> Renewed(w.configMaps, maps, cm) || members == {};
    assert forall other :: other != cm ==> !Renewed(w.configMaps, maps, other);
  }

  lemma UpdateChanges(maps: map<string, ConfigMap>, cm: string, members: set<string>)
    requires AllLegible(maps) && ValidMembers(members)
    ensures Changes(Lookup(maps, cm), members) <==> cm !in maps || Listed(maps, cm) != members || members == {}
  {
    hide Split, Legible, ValidMembers;
    if cm in maps {
      RestartIff(maps[cm], members);
    }
  }

  // ---------------------------------------------------------------------------------------------
  // Over whole runs
  // ---------------------------------------------------------------------------------------------

  /** The step writes a ConfigMap and nobody is listed in it. */
  predicate PublishesNobody(w: World, step: Step, w': World) {
    match step
    case Pass(c, _) => c in w.crs && Listed(w'.configMaps, MapName(w.crs[c])) == {}
    case FailedAttempt(c) => c in w.crs && w' != w && Listed(w'.configMaps, MapName(w.crs[c])) == {}
    case Deleted(c) => c in w.crs && Listed(w'.configMaps, MapName(w.crs[c])) == {}
    case Outside => false
  }

  ghost predicate AsksForRestart(w: World, step: Step, w': World) {
    SomeRenewed(w.configMaps, w'.configMaps) || PublishesNobody(w, step, w')
  }

  lemma ClaimedValidMembers(w: World, cm: string)
    requires WellNamed(w)
    ensures ValidMembers(Claimed(w.crs, cm))
  {
    hide Claimed, ValidName;
    ClaimedValid(w, cm);
  }

  lemma PassRestarts(w: World, w': World, c: string, home: string, inp: Inputs)
    requires PassCompletes(w, w', c, home, inp) && WellNamed(w) && AllLegible(w.configMaps)
    ensures AllLegible(w'.configMaps)
    ensures w'.restarts == w.restarts + if AsksForRestart(w, Pass(c, inp), w') then 1 else 0
  {
    hide PushSucceeds, PlanOf, After, WithRuntime, Cleaned, Validated, NewStatus, WellNamed, AllLegible, SomeRenewed,
      Listed,
      MapStep, Claimed, ValidMembers;
    var w1 := Refreshed(w, c, home, inp.mayGet);
    RefreshedWellNamed(w, c, home, inp.mayGet);
    ClaimedValidMembers(w1, MapName(w1.crs[c]));
    MapStepRestarts(w1, w1.crs[c], w'.configMaps, w'.restarts);
  }

  lemma AttemptRestarts(w: World, w': World, c: string, step: Step)
    requires WellNamed(w) && AllLegible(w.configMaps) && c in w.crs && MapStep(w, w.crs[c], w'.configMaps, w'.restarts)
    requires (step == FailedAttempt(c) && w' != w) || step == Deleted(c)
    ensures AllLegible(w'.configMaps)
    ensures w'.restarts == w.restarts + if AsksForRestart(w, step, w') then 1 else 0
  {
    hide WellNamed, AllLegible, SomeRenewed, Listed, MapStep, Claimed, ValidMembers;
    ClaimedValidMembers(w, MapName(w.crs[c]));
    MapStepRestarts(w, w.crs[c], w'.configMaps, w'.restarts);
  }

  lemma NothingRenewed(maps: map<string, ConfigMap>)
    ensures !SomeRenewed(maps, maps)
  {
    hide Listed;
  }

  lemma StepRestarts(home: string, w: World, step: Step, w': World)
    requires Next(home, w, step, w') && WellNamed(w) && AllLegible(w.configMaps)
    ensures AllLegible(w'.configMaps)
    ensures w'.restarts == w.restarts + if AsksForRestart(w, step, w') then 1 else 0
  {
    hide PassCompletes, MapStep, PartlySwept, Swept, WellNamed, AllLegible, SomeRenewed, Listed, Evolves, Unlabelled;
    match step
    case Pass(c, inputs) => PassRestarts(w, w', c, home, inputs);
    case Deleted(c) => AttemptRestarts(w, w', c, step);
    case FailedAttempt(c) =>
      if w' == w {
        NothingRenewed(w.configMaps);
      } else {
        AttemptRestarts(w, w', c, step);
      }
    case Outside => NothingRenewed(w.configMaps);
  }

  /** The steps of a run that ask for a restart. */
  ghost function RestartSteps(worlds: seq<World>, steps: seq<Step>, n: nat): nat
    requires |worlds| == |steps| + 1 && n <= |steps|
  {
    if n == 0 then 0
    else RestartSteps(worlds, steps, n - 1) + if AsksForRestart(worlds[n - 1], steps[n - 1], worlds[n]) then 1 else 0
  }

  /** Over every run every published list can be read back, and the restarts asked for are exactly the steps
    that create a ConfigMap, change a list or publish nobody. */
  lemma {:induction false} RunRestarts(home: string, worlds: seq<World>, steps: seq<Step>, n: nat)
    requires Run(home, worlds, steps) && Fresh(worlds[0], home) && n <= |steps|
    ensures AllLegible(worlds[n].configMaps)
    ensures worlds[n].restarts == worlds[0].restarts + RestartSteps(worlds, steps, n)
  {
    hide Next, Listed, Holds, WellNamed, Legible, AsksForRestart;
    if n > 0 {
      RunRestarts(home, worlds, steps, n - 1);
      RunKeepsInv(home, worlds, steps, n - 1);
      assert Next(home, worlds[n - 1], steps[n - 1], worlds[n - 1 + 1]);
      StepRestarts(home, worlds[n - 1], steps[n - 1], worlds[n]);
    }
  }

  /** Creations and real changes of membership. */
  ghost function Renewals(worlds: seq<World>, n: nat): nat
    requires n < |worlds|
  {
    if n == 0 then 0
    else Renewals(worlds, n - 1) + if SomeRenewed(worlds[n - 1].configMaps, worlds[n].configMaps) then 1 else 0
  }

  /** As long as published lists are not empty the restarts are exactly the ConfigMap creations and the real
    changes of membership. */
  lemma {:induction false} RestartsAreChanges(home: string, worlds: seq<World>, steps: seq<Step>, n: nat)
    requires Run(home, worlds, steps) && Fresh(worlds[0], home) && n <= |steps|
    requires forall i, cm :: 0 <= i <= n && cm in worlds[i].configMaps ==> Listed(worlds[i].configMaps, cm) != {}
    ensures worlds[n].restarts == worlds[0].restarts + Renewals(worlds, n)
  {
    hide Next, Listed, Holds, WellNamed, SomeRenewed;
    if n > 0 {
      RestartsAreChanges(home, worlds, steps, n - 1);
      RunRestarts(home, worlds, steps, n - 1);
      RunRestarts(home, worlds, steps, n);
      assert Next(home, worlds[n - 1], steps[n - 1], worlds[n - 1 + 1]);
      if PublishesNobody(worlds[n - 1], steps[n - 1], worlds[n]) {
        WritesItsMap(home, worlds[n - 1], steps[n - 1], worlds[n]);
      }
    }
  }

  /** A step that publishes nobody leaves an empty list behind. */
  lemma WritesItsMap(home: string, w: World, step: Step, w': World)
    requires Next(home, w, step, w') && PublishesNobody(w, step, w')
    ensures exists cm :: cm in w'.configMaps && Listed(w'.configMaps, cm) == {}
  {
    hide PushSucceeds, PlanOf, WithRuntime, Cleaned, MapWritten, PartlySwept, Swept, Validated, NewStatus, Listed,
      Evolves;
    assert MapName(w.crs[step.c]) in w'.configMaps;
  }
}
