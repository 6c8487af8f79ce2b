/** When a ConfigMap's list covers the labelled objects. */
module ScopeCoverage {
  import opened Lists
  import opened Names
  import opened Store
  import opened FanOut
  import opened PushTheorems
  import opened Scope
  import opened ScopeRuns
  import opened ScopeRestarts
  import opened RuntimeRoles

  /** Every namespace that holds an object labelled for the ConfigMap is in its list. */
  ghost predicate Covers(w: World, cm: string, home: string) {
    forall key :: Holds(w.objects, key, home, cm) ==> key.ns in Listed(w.configMaps, cm)
  }

  ghost predicate AllHeldIn(o: Objects, cm: string, home: string, namespaces: set<string>) {
    forall key :: Holds(o, key, home, cm) ==> key.ns in namespaces
  }

  // ---------------------------------------------------------------------------------------------
  // Deletions
  // ---------------------------------------------------------------------------------------------

  lemma HeldAbroad(w: World, home: string, cm: string, key: Key)
    requires Inv(w, home) && Holds(w.objects, key, home, cm)
    ensures key.ns != home
  {
    hide Holds;
    assert Findable(w, key.ns, home, cm);
  }

  lemma SweptHolds(o: Objects, targets: set<string>, home: string, cm: string, key: Key)
    ensures Holds(Swept(o, targets, home, cm), key, home, cm) <==> Holds(o, key, home, cm) && key.ns !in targets
  {
    hide LabelValue;
  }

  /** After a successful deletion the list covers everything exactly when before it every labelled object was
    in a namespace that a surviving resource claims or that the deleted one had as a member. */
  lemma DeletionCoversIff(w: World, w': World, c: string, home: string)
    requires Inv(w, home) && AttemptSucceeds(w, w', c, home)
    ensures var cm := MapName(w.crs[c]);
            Covers(w', cm, home) <==> AllHeldIn(w.objects, cm, home, Claimed(w.crs, cm) + Elems(w.crs[c].members))
  {
    hide Holds, Claimed, Listed, Swept, Inv, MapStep;
    var cr, cm := w.crs[c], MapName(w.crs[c]);
    InvClaims(w, home, cm);
    MapStepLists(w, cr, w'.configMaps, w'.restarts);
    forall key {
      SweptHolds(w.objects, Abandoned(w, cr, home), home, cm, key);
    }
    forall key | Holds(w.objects, key, home, cm)
      ensures key.ns != home
    {
      HeldAbroad(w, home, cm, key);
    }
    if Covers(w', cm, home) {
      forall key | Holds(w.objects, key, home, cm)
        ensures key.ns in Claimed(w.crs, cm) + Elems(cr.members)
      {
        assert Holds(w'.objects, key, home, cm) || key.ns in Abandoned(w, cr, home);
      }
    }
  }

  lemma InvClaims(w: World, home: string, cm: string)
    requires Inv(w, home)
    ensures forall ns :: ns in Claimed(w.crs, cm) ==> ValidName(ns)
  {
    hide Claimed, ValidName;
    ClaimedValid(w, cm);
  }

  /** Whatever the first store held for the ConfigMap outside the namespaces is gone from the second. */
  ghost predicate OutsideRemoved(o: Objects, o': Objects, cm: string, home: string, namespaces: set<string>) {
    forall key :: Holds(o, key, home, cm) && key.ns !in namespaces ==> !Holds(o', key, home, cm)
  }

  /** A failed attempt that got past the ConfigMap keeps everything covered exactly when it has already removed
    whatever lay outside the claimed namespaces. */
  lemma StoppedCoversIff(w: World, w': World, c: string, home: string)
    requires Inv(w, home) && StopsInCleanup(w, w', c, home)
    ensures var cm := MapName(w.crs[c]);
            Covers(w', cm, home) <==> OutsideRemoved(w.objects, w'.objects, cm, home, Claimed(w.crs, cm))
  {
    hide Holds, Claimed, Listed, PartlySwept, Inv, MapStep;
    var cr, cm := w.crs[c], MapName(w.crs[c]);
    InvClaims(w, home, cm);
    MapStepLists(w, cr, w'.configMaps, w'.restarts);
    forall key | Holds(w'.objects, key, home, cm)
      ensures Holds(w.objects, key, home, cm)
    {
      PartlySweptHolds(w.objects, w'.objects, Abandoned(w, cr, home), home, cm, key, cm);
    }
  }

  /** Read before the attempt, given how far it gets: every labelled Role and binding is in a claimed namespace or
    in one that the attempt has swept of its kind. */
  lemma SweptSoFarCoversIff(w: World, w': World, c: string, home: string, rolesOf: set<string>, bindingsOf: set<string>)
    requires Inv(w, home) && StopsInCleanup(w, w', c, home)
    requires w'.objects == Objects(SweptRoles(w.objects.roles, rolesOf, home, MapName(w.crs[c])),
                                   SweptBindings(w.objects.bindings, bindingsOf, home, MapName(w.crs[c])))
    ensures var cm, claimed := MapName(w.crs[c]), Claimed(w.crs, MapName(w.crs[c]));
            Covers(w', cm, home) <==>
            && (forall key :: key in w.objects.roles && Tagged(w.objects.roles[key].labels, home, cm) ==> key.ns in claimed + rolesOf)
            && (forall key :: key in w.objects.bindings && Tagged(w.objects.bindings[key].labels, home, cm) ==>
                  key.ns in claimed + bindingsOf)
  {
    hide Claimed, Listed, PartlySwept, Inv, MapStep, LabelValue;
    var cm := MapName(w.crs[c]);
    InvClaims(w, home, cm);
    MapStepLists(w, w.crs[c], w'.configMaps, w'.restarts);
    if Covers(w', cm, home) {
      forall key | key in w.objects.roles && Tagged(w.objects.roles[key].labels, home, cm)
        ensures key.ns in Claimed(w.crs, cm) + rolesOf
      {
        assert key.ns !in rolesOf ==> Holds(w'.objects, key, home, cm);
      }
      forall key | key in w.objects.bindings && Tagged(w.objects.bindings[key].labels, home, cm)
        ensures key.ns in Claimed(w.crs, cm) + bindingsOf
      {
        assert key.ns !in bindingsOf ==> Holds(w'.objects, key, home, cm);
      }
    }
  }

  /** So all ways of failing keep everything covered exactly when before the attempt every labelled object was in
    a namespace that a surviving resource claims. */
  lemma FailureCoversIff(w: World, c: string, home: string)
    requires Inv(w, home) && c in w.crs && w.crs[c].deleting && w.crs[c].finalizer
    ensures var cm := MapName(w.crs[c]);
            (forall w' :: StopsInCleanup(w, w', c, home) ==> Covers(w', cm, home)) <==>
            AllHeldIn(w.objects, cm, home, Claimed(w.crs, cm))
  {
    hide Holds, Claimed, Listed, Inv, MapStep, Covers, PartlySwept;
    var cr, cm := w.crs[c], MapName(w.crs[c]);
    if AllHeldIn(w.objects, cm, home, Claimed(w.crs, cm)) {
      forall w' | StopsInCleanup(w, w', c, home)
        ensures Covers(w', cm, home)
      {
        forall key | Holds(w'.objects, key, home, cm)
          ensures Holds(w.objects, key, home, cm)
        {
          PartlySweptHolds(w.objects, w'.objects, Abandoned(w, cr, home), home, cm, key, cm);
        }
        StoppedCoversIff(w, w', c, home);
      }
    }
    if forall w' :: StopsInCleanup(w, w', c, home) ==> Covers(w', cm, home) {
      var maps, restarts := MapStepExists(w, cr);
      var w' := w.(configMaps := maps, restarts := restarts);
      assert PartlySwept(w.objects, w'.objects, Abandoned(w, cr, home), home, cm) by {
        NothingSweptYet(w.objects, Abandoned(w, cr, home), home, cm);
      }
      assert StopsInCleanup(w, w', c, home);
      StoppedCoversIff(w, w', c, home);
    }
  }

  lemma NothingSweptYet(o: Objects, targets: set<string>, home: string, cm: string)
    ensures PartlySwept(o, o, targets, home, cm)
  {
  }

  lemma {:induction false} EnumerationExists(s: set<string>) returns (xs: seq<string>)
    ensures IsEnumeration(xs, s)
    decreases |s|
  {
    if s == {} {
      xs := [];
    } else {
      var x :| x in s;
      var rest := EnumerationExists(s - {x});
      DistinctAppend(rest, x);
      xs := rest + [x];
    }
  }

  lemma MapStepExists(w: World, cr: Nss) returns (maps: map<string, ConfigMap>, restarts: nat)
    ensures MapStep(w, cr, maps, restarts)
  {
    hide Claimed, Split;
    var cm, members := MapName(cr), Claimed(w.crs, MapName(cr));
    var old_ := Lookup(w.configMaps, cm);
    var xs := EnumerationExists(members);
    var data := if Changes(old_, members) then Join(xs) else old_.value.data;
    assert Publishes(Join(xs), members);
    maps := w.configMaps[cm := ConfigMap(data, (if old_.Some? then old_.value.owners else {}) + {cr.uid})];
    restarts := w.restarts + if Changes(old_, members) then 1 else 0;
  }

  // ---------------------------------------------------------------------------------------------
  // Passes
  // ---------------------------------------------------------------------------------------------

  /** After a pass the list covers everything exactly when before it every labelled object was in a namespace
    that was listed or that some resource claims after the refresh. */
  lemma PassCoversIff(w: World, w': World, c: string, home: string, inp: Inputs)
    requires Inv(w, home) && PassCompletes(w, w', c, home, inp)
    requires RuntimeClean(w.objects.roles, home, MapName(w.crs[c]))
    ensures var cm := MapName(w.crs[c]);
            Covers(w', cm, home) <==> AllHeldIn(w.objects, cm, home, Listed(w.configMaps, cm) + Claimed(w'.crs, cm))
  {
    hide Holds, Claimed, Listed, Inv, PassCompletes, RuntimeClean;
    PassLists(w, w', c, home, inp);
    var cm := MapName(w.crs[c]);
    if AllHeldIn(w.objects, cm, home, Listed(w.configMaps, cm) + Claimed(w'.crs, cm)) {
      PassCovers(w, w', c, home, inp);
    }
    if Covers(w', cm, home) {
      forall key | Holds(w.objects, key, home, cm)
        ensures key.ns in Listed(w.configMaps, cm) + Claimed(w'.crs, cm)
      {
        if key.ns !in Listed(w.configMaps, cm) + Claimed(w'.crs, cm) {
          PassKeepsHeld(w, w', c, home, inp, key);
        }
      }
    }
  }

  lemma PassLists(w: World, w': World, c: string, home: string, inp: Inputs)
    requires Inv(w, home) && PassCompletes(w, w', c, home, inp)
    ensures c in w.crs && Listed(w'.configMaps, MapName(w.crs[c])) == Claimed(w'.crs, MapName(w.crs[c]))
    ensures forall cm :: cm != MapName(w.crs[c]) ==> Listed(w'.configMaps, cm) == Listed(w.configMaps, cm)
  {
    hide Claimed, Listed, PushSucceeds, PlanOf, After, WithRuntime, Cleaned, Validated, NewStatus, MapStep, WellNamed,
      Tracking,
      Accounted;
    var w1 := Refreshed(w, c, home, inp.mayGet);
    RefreshedWellNamed(w, c, home, inp.mayGet);
    ClaimedValid(w1, MapName(w1.crs[c]));
    MapStepLists(w1, w1.crs[c], w'.configMaps, w'.restarts);
  }

  lemma PassCovers(w: World, w': World, c: string, home: string, inp: Inputs)
    requires Inv(w, home) && PassCompletes(w, w', c, home, inp)
    requires AllHeldIn(w.objects, MapName(w.crs[c]), home, Listed(w.configMaps, MapName(w.crs[c])) + Claimed(w'.crs, MapName(w.crs[c])))
    ensures Covers(w', MapName(w.crs[c]), home)
  {
    hide Holds, Claimed, Listed, PushSucceeds, PlanOf, After, WithRuntime, Cleaned, Validated, NewStatus, MapStep, Inv;
    var w1 := Refreshed(w, c, home, inp.mayGet);
    var cm := MapName(w1.crs[c]);
    PassLists(w, w', c, home, inp);
    RefreshedSets(w, c, home, inp.mayGet, cm);
    forall key | Holds(w'.objects, key, home, cm)
      ensures key.ns in Claimed(w'.crs, cm)
    {
      PassHolds(w, w', c, home, inp, key, cm);
      if Holds(w.objects, key, home, cm) {
        HeldAbroad(w, home, cm, key);
        NothingListedWithout(w.configMaps, cm);
      }
    }
  }

  /** What is neither listed nor claimed stays. */
  lemma PassKeepsHeld(w: World, w': World, c: string, home: string, inp: Inputs, key: Key)
    requires PassCompletes(w, w', c, home, inp) && RuntimeClean(w.objects.roles, home, MapName(w.crs[c]))
    requires Holds(w.objects, key, home, MapName(w.crs[c]))
    requires key.ns !in Listed(w.configMaps, MapName(w.crs[c])) + Claimed(w'.crs, MapName(w.crs[c]))
    ensures Holds(w'.objects, key, home, MapName(w.crs[c]))
  {
    hide LabelsFor, Validated, NewStatus, Claimed, Listed, Runs, Execute, Complete, After, MapStep, Summary,
      LabelledRoles,
      LabelValue, PlanOf, RuntimeClean;
    var w1 := Refreshed(w, c, home, inp.mayGet);
    var cr := w1.crs[c];
    var cm := MapName(cr);
    var o := Cleaned(w1, After(PlanOf(cr, home, inp), w.objects, inp.schedule), cm, home);
    RefreshedSets(w, c, home, inp.mayGet, cm);
    PassWritesLabelled(cr, home, inp, w.objects, key);
    assert Lookup(o.roles, key) == Lookup(w.objects.roles, key);
    assert Lookup(o.bindings, key) == Lookup(w.objects.bindings, key);
    RuntimeUnlabelled(o.roles, cr.members, home, cm, inp.listing, key);
    if key in w.objects.roles && Tagged(w.objects.roles[key].labels, home, cm) {
      NotRuntime(w.objects.roles, key, home, cm);
    }
  }

  lemma NotRuntime(roles: map<Key, Role>, key: Key, home: string, cm: string)
    requires RuntimeClean(roles, home, cm) && key in roles && Tagged(roles[key].labels, home, cm)
    ensures key.name != RUNTIME_PREFIX + home
  {
    hide LabelValue;
    assert key.name == RUNTIME_PREFIX + home ==> key == RuntimeKey(key.ns, home);
  }

  // ---------------------------------------------------------------------------------------------
  // Whole runs
  // ---------------------------------------------------------------------------------------------

  /** The step does not take a namespace off the list while it holds labelled objects. */
  ghost predicate KeepsCovered(home: string, w: World, step: Step, w': World, cm: string) {
    match step
    case Pass(_, _) => true
    case Outside => true
    case Deleted(c) =>
      c in w.crs && MapName(w.crs[c]) == cm ==> AllHeldIn(w.objects, cm, home, Claimed(w.crs, cm) + Elems(w.crs[c].members))
    case FailedAttempt(c) =>
      c in w.crs && MapName(w.crs[c]) == cm && w' != w ==> OutsideRemoved(w.objects, w'.objects, cm, home, Claimed(w.crs, cm))
  }

  lemma PassCoverKept(w: World, w': World, c: string, home: string, inp: Inputs, cm: string)
    requires Inv(w, home) && PassCompletes(w, w', c, home, inp) && Covers(w, cm, home)
    ensures Covers(w', cm, home)
  {
    hide Holds, Claimed, Listed, Inv, PassCompletes;
    PassLists(w, w', c, home, inp);
    if cm == MapName(w.crs[c]) {
      PassCovers(w, w', c, home, inp);
    } else {
      forall key | Holds(w'.objects, key, home, cm)
        ensures Holds(w.objects, key, home, cm)
      {
        OthersHeldBefore(w, w', c, home, inp, key, cm);
      }
    }
  }

  lemma OthersHeldBefore(w: World, w': World, c: string, home: string, inp: Inputs, key: Key, cm: string)
    requires PassCompletes(w, w', c, home, inp) && Holds(w'.objects, key, home, cm) && cm != MapName(w.crs[c])
    ensures Holds(w.objects, key, home, cm)
  {
    hide Holds, Claimed, Listed, PushSucceeds, PlanOf, After, WithRuntime, Cleaned, Validated, NewStatus, MapStep;
    PassHolds(w, w', c, home, inp, key, cm);
  }

  lemma DeletionCoverKept(w: World, w': World, c: string, home: string, cm: string)
    requires Inv(w, home) && Covers(w, cm, home) && c in w.crs && cm != MapName(w.crs[c])
    requires AttemptSucceeds(w, w', c, home) || StopsInCleanup(w, w', c, home)
    ensures Covers(w', cm, home)
  {
    hide Holds, Claimed, Listed, Inv, MapStep, Swept, PartlySwept;
    var cr := w.crs[c];
    InvClaims(w, home, MapName(cr));
    MapStepLists(w, cr, w'.configMaps, w'.restarts);
    if AttemptSucceeds(w, w', c, home) {
      SweptIsPartly(w.objects, Abandoned(w, cr, home), home, MapName(cr));
    }
    forall key | Holds(w'.objects, key, home, cm)
      ensures Holds(w.objects, key, home, cm)
    {
      PartlySweptHolds(w.objects, w'.objects, Abandoned(w, cr, home), home, MapName(cr), key, cm);
    }
  }

  lemma SweptIsPartly(o: Objects, targets: set<string>, home: string, cm: string)
    ensures PartlySwept(o, Swept(o, targets, home, cm), targets, home, cm)
  {
    hide Carries;
  }

  lemma OutsideCovers(w: World, w': World, home: string, cm: string)
    requires Environment(w, w') && Covers(w, cm, home)
    ensures Covers(w', cm, home)
  {
    hide Listed, LabelValue, Evolves;
    forall key | Holds(w'.objects, key, home, cm)
      ensures Holds(w.objects, key, home, cm)
    {
      assert Lookup(w'.objects.roles, key) == Lookup(w.objects.roles, key) ||
             (key in w'.objects.roles ==> Unlabelled(w'.objects.roles[key].labels));
      assert Lookup(w'.objects.bindings, key) == Lookup(w.objects.bindings, key) ||
             (key in w'.objects.bindings ==> Unlabelled(w'.objects.bindings[key].labels));
    }
  }

  lemma StepCoversIff(home: string, w: World, step: Step, w': World, cm: string)
    requires Next(home, w, step, w') && Inv(w, home) && Covers(w, cm, home)
    ensures Covers(w', cm, home) <==> KeepsCovered(home, w, step, w', cm)
  {
    hide Holds, Listed, Claimed, Inv, PassCompletes, Environment, MapStep, Swept, PartlySwept, Covers, AllHeldIn,
      OutsideRemoved;
    match step
    case Pass(c, inputs) => PassCoverKept(w, w', c, home, inputs, cm);
    case Outside => OutsideCovers(w, w', home, cm);
    case Deleted(c) =>
      if MapName(w.crs[c]) == cm {
        DeletionCoversIff(w, w', c, home);
      } else {
        DeletionCoverKept(w, w', c, home, cm);
      }
    case FailedAttempt(c) =>
      if w' != w {
        if MapName(w.crs[c]) == cm {
          StoppedCoversIff(w, w', c, home);
        } else {
          DeletionCoverKept(w, w', c, home, cm);
        }
      }
  }

  lemma NothingToCover(w: World, home: string, cm: string)
    requires Fresh(w, home)
    ensures Covers(w, cm, home)
  {
    hide Holds, Listed, WellNamed;
  }

  ghost predicate CoveredThroughout(worlds: seq<World>, home: string, cm: string, n: nat) {
    forall i :: 0 <= i <= n && i < |worlds| ==> Covers(worlds[i], cm, home)
  }

  ghost predicate KeptThroughout(home: string, worlds: seq<World>, steps: seq<Step>, cm: string, n: nat) {
    forall i :: 0 <= i < n && i < |steps| && i + 1 < |worlds| ==> KeepsCovered(home, worlds[i], steps[i], worlds[i + 1], cm)
  }

  /** Over every run the list covers all labelled objects all the time exactly when no deletion, failed or
    successful, drops a namespace that holds objects of another resource pending deletion. */
  lemma {:induction false} CoveredRunIff(home: string, worlds: seq<World>, steps: seq<Step>, cm: string, n: nat)
    requires Run(home, worlds, steps) && Fresh(worlds[0], home) && n <= |steps|
    ensures CoveredThroughout(worlds, home, cm, n) <==> KeptThroughout(home, worlds, steps, cm, n)
  {
    hide Next, Inv, Covers, KeepsCovered, Fresh;
    if n == 0 {
      NothingToCover(worlds[0], home, cm);
    } else {
      CoveredRunIff(home, worlds, steps, cm, n - 1);
      RunKeepsInv(home, worlds, steps, n - 1);
      assert Next(home, worlds[n - 1], steps[n - 1], worlds[n - 1 + 1]);
      if Covers(worlds[n - 1], cm, home) {
        StepCoversIff(home, worlds[n - 1], steps[n - 1], worlds[n], cm);
      }
      assert CoveredThroughout(worlds, home, cm, n) <==>
             CoveredThroughout(worlds, home, cm, n - 1) && Covers(worlds[n], cm, home);
      assert KeptThroughout(home, worlds, steps, cm, n) <==>
             KeptThroughout(home, worlds, steps, cm, n - 1) &&
             KeepsCovered(home, worlds[n - 1], steps[n - 1], worlds[n - 1 + 1], cm);
      assert CoveredThroughout(worlds, home, cm, n - 1) ==> Covers(worlds[n - 1], cm, home);
    }
  }

  // ---------------------------------------------------------------------------------------------
  // The list alone is not enough
  // ---------------------------------------------------------------------------------------------

  /** Two resources of one ConfigMap being deleted: `y` belongs to the second only. */
  function TwoDeletions(home: string): World {
    World(
      Objects(map[Key("y", "r") := Role(LabelsFor(DEFAULT_CONFIGMAP, home), [])], map[]),
      map[DEFAULT_CONFIGMAP := ConfigMap("x,y", {"1", "2"})],
      map["a" := Nss("1", "", ["x"], ["x"], false, true, true), "b" := Nss("2", "", ["y"], ["y"], false, true, true)],
      map[],
      0)
  }

  function FirstDeleted(home: string): World {
    var w := TwoDeletions(home);
    w.(configMaps := map[DEFAULT_CONFIGMAP := ConfigMap("", {"1", "2"})], crs := w.crs - {"a"}, restarts := 1)
  }

  /** While two resources of one ConfigMap are being deleted the list loses the namespaces of the second
    before its cleanup: the labelled object is findable through the terminating resource's spec only. */
  lemma ListLosesPending(home: string)
    requires home != "y"
    ensures Inv(TwoDeletions(home), home) && AttemptSucceeds(TwoDeletions(home), FirstDeleted(home), "a", home)
    ensures Holds(TwoDeletions(home).objects, Key("y", "r"), home, DEFAULT_CONFIGMAP)
    ensures "y" in Listed(TwoDeletions(home).configMaps, DEFAULT_CONFIGMAP)
    ensures Holds(FirstDeleted(home).objects, Key("y", "r"), home, DEFAULT_CONFIGMAP)
    ensures "y" !in Listed(FirstDeleted(home).configMaps, DEFAULT_CONFIGMAP)
  {
    hide LabelValue, Split;
    var w, w' := TwoDeletions(home), FirstDeleted(home);
    TwoListed();
    LabelsCarry(DEFAULT_CONFIGMAP, DEFAULT_CONFIGMAP, home);
    TwoDeletionsInv(home);
    assert Claimed(w.crs, DEFAULT_CONFIGMAP) == {};
    EmptyAlwaysRestarts(Lookup(w.configMaps, DEFAULT_CONFIGMAP));
    assert IsEnumeration([], {}) && Publishes("", {});
    assert w'.configMaps == w.configMaps[DEFAULT_CONFIGMAP := w'.configMaps[DEFAULT_CONFIGMAP]];
    assert MapStep(w, w.crs["a"], w'.configMaps, w'.restarts);
    assert w'.objects == Swept(w.objects, Abandoned(w, w.crs["a"], home), home, DEFAULT_CONFIGMAP);
  }

  /** One resource being deleted: an attempt that fails right after the ConfigMap write. */
  function OneDeletion(home: string): World {
    World(
      Objects(map[Key("y", "r") := Role(LabelsFor(DEFAULT_CONFIGMAP, home), [])], map[]),
      map[DEFAULT_CONFIGMAP := ConfigMap("y", {"2"})],
      map["b" := Nss("2", "", ["y"], ["y"], false, true, true)],
      map[],
      0)
  }

  function StoppedAtOnce(home: string): World {
    OneDeletion(home).(configMaps := map[DEFAULT_CONFIGMAP := ConfigMap("", {"2"})], restarts := 1)
  }

  /** A single deletion suffices: the list covered everything, and after one failed attempt it does not. */
  lemma FailureLosesCover(home: string)
    requires home != "y"
    ensures Inv(OneDeletion(home), home) && Covers(OneDeletion(home), DEFAULT_CONFIGMAP, home)
    ensures StopsInCleanup(OneDeletion(home), StoppedAtOnce(home), "b", home)
    ensures !Covers(StoppedAtOnce(home), DEFAULT_CONFIGMAP, home)
  {
    hide LabelValue, Split;
    var w, w' := OneDeletion(home), StoppedAtOnce(home);
    OneListed();
    LabelsCarry(DEFAULT_CONFIGMAP, DEFAULT_CONFIGMAP, home);
    OneDeletionInv(home);
    assert Claimed(w.crs, DEFAULT_CONFIGMAP) == {};
    EmptyAlwaysRestarts(Lookup(w.configMaps, DEFAULT_CONFIGMAP));
    assert IsEnumeration([], {}) && Publishes("", {});
    assert w'.configMaps == w.configMaps[DEFAULT_CONFIGMAP := w'.configMaps[DEFAULT_CONFIGMAP]];
    assert MapStep(w, w.crs["b"], w'.configMaps, w'.restarts);
    NothingSweptYet(w.objects, Abandoned(w, w.crs["b"], home), home, DEFAULT_CONFIGMAP);
    assert Holds(w'.objects, Key("y", "r"), home, DEFAULT_CONFIGMAP);
  }

  lemma OneListed()
    ensures ListedIn("y") == {"y"} && ListedIn("") == {}
  {
    hide Split;
    SplitJoin(["y"]);
  }

  lemma OneDeletionInv(home: string)
    requires home != "y"
    ensures Inv(OneDeletion(home), home)
  {
    hide LabelValue, Split;
    var w := OneDeletion(home);
    OneListed();
    assert w.crs["b"] == Nss("2", "", ["y"], ["y"], false, true, true) && MapName(w.crs["b"]) == DEFAULT_CONFIGMAP;
    assert "y" in w.crs["b"].members && "y" in Pending(w.crs, DEFAULT_CONFIGMAP);
    forall key, cm | Holds(w.objects, key, home, cm)
      ensures Findable(w, key.ns, home, cm)
    {
      LabelsCarry(DEFAULT_CONFIGMAP, cm, home);
    }
    assert ValidName("y");
  }

  lemma TwoListed()
    ensures ListedIn("x,y") == {"x", "y"} && ListedIn("") == {}
  {
    hide Split;
    assert Join(["x", "y"]) == "x,y" by {
      assert ["x", "y"][1..] == ["y"];
    }
    SplitJoin(["x", "y"]);
  }

  lemma TwoDeletionsInv(home: string)
    requires home != "y"
    ensures Inv(TwoDeletions(home), home)
  {
    hide LabelValue, Split;
    var w := TwoDeletions(home);
    TwoListed();
    assert w.crs["a"] == Nss("1", "", ["x"], ["x"], false, true, true) && w.crs["b"] == Nss("2", "", ["y"], ["y"], false, true, true);
    assert MapName(w.crs["a"]) == DEFAULT_CONFIGMAP && MapName(w.crs["b"]) == DEFAULT_CONFIGMAP;
    assert "x" in w.crs["a"].members && "y" in w.crs["b"].members;
    assert "x" in Pending(w.crs, DEFAULT_CONFIGMAP) && "y" in Pending(w.crs, DEFAULT_CONFIGMAP);
    forall key, cm | Holds(w.objects, key, home, cm)
      ensures Findable(w, key.ns, home, cm)
    {
      LabelsCarry(DEFAULT_CONFIGMAP, cm, home);
    }
    assert ValidName("x") && ValidName("y");
  }
}
