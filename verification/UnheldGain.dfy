/** A push that gives an account more than it holds at home: its only binding names a ClusterRole, and a Role of the
  same name is copied. */
module UnheldGain {
  import opened Rbac
  import opened Lists
  import opened Names
  import opened Store
  import opened Projection
  import opened Worker
  import opened SoloRuns
  import opened FanOut
  import opened PushPlan
  import opened PushTheorems
  import opened PushSafety
  import opened PushInTurn
  import RulesFilter

  const RULE := PolicyRule(["apps"], ["deployments"], [], ["get"])
  const REQUEST := Request("get", "apps", "deployments", "web")
  const NO_FAULTS := Faults(NoFault, NoFault, r => NoFault, r => NoFault, r => NoFault, r => NoFault)

  /** At home: a Role that nobody is bound to, and a binding to the ClusterRole of its name. */
  const STORE := Objects(
    map[Key("home", "view") := Role(map[], [RULE])],
    map[Key("home", "reader") := RoleBinding(map[], [Subject("ServiceAccount", "sa", "home")], RoleRef("ClusterRole", "view"))])

  function Listing(s: set<string>): seq<string> {
    if s == {"view"} then ["view"] else []
  }

  function Strict(): Push {
    Push(s => "0123456789abcd", "home", map[], false)
  }

  function OneTarget(): Plan {
    PlanFor(Strict(), ["target"], ["sa"], k => NO_FAULTS, k => Listing)
  }

  lemma OneTask()
    ensures |OneTarget().tasks| == |OneTarget().orders| == 1 && OneTarget().p == Strict()
    ensures OneTarget().tasks[0].toNs == "target" && OneTarget().tasks[0].sa == "sa"
    ensures NoFaults(OneTarget().tasks[0])
    ensures OneTarget().orders[0]({"view"}) == ["view"]
  {
    assert Targets(["target"], "home") == ["target"] by {
      assert ["target"][..0] == [];
    }
    assert ["target"][..0] == [];
  }

  lemma OneSource()
    ensures BoundRoles(STORE.bindings, "sa", "home") == {"view"}
  {
    var key := Key("home", "reader");
    assert STORE.bindings[key].subjects[0] == Subject("ServiceAccount", "sa", "home");
    assert key in STORE.bindings && Subject("ServiceAccount", "sa", "home") in STORE.bindings[key].subjects;
    assert STORE.bindings[key].ref.name in BoundRoles(STORE.bindings, "sa", "home");
  }

  lemma Nowhere(ns: string)
    ensures !Can(STORE, "sa", "home", ns, REQUEST)
  {
  }

  lemma CopyAllows(managed: seq<PolicyRule>)
    ensures Concrete(REQUEST) && RulesFilter.Projectable([RULE], managed, REQUEST)
    ensures RulesFilter.Filtered([RULE], managed) != []
  {
    hide RulesFilter.Filtered;
    assert RulesFilter.RuleProjectable([RULE][0], managed, REQUEST);
    RulesFilter.FilterExact([RULE], managed, REQUEST);
  }

  lemma PlanFits()
    ensures Shaped(OneTarget()) && Separated(OneTarget(), STORE)
  {
    hide BoundRoles, ProjectedName, PlanFor;
    var p := Strict();
    OneTask();
    OneSource();
    PlanIsShaped(p, ["target"], ["sa"], k => NO_FAULTS, k => Listing);
    assert forall sa, r :: InUse(p, ["sa"], STORE, sa, r) ==> sa == "sa" && r == "view";
    assert NamesApart(p, ["sa"], STORE) by {
      ManagedApart();
    }
    assert Enumerating(OneTarget(), STORE);
    PlanIsSeparated(p, ["target"], ["sa"], k => NO_FAULTS, k => Listing, STORE);
  }

  lemma ManagedApart()
    ensures ProjectedName(Strict().hash, "view", "sa", "home") != MANAGED_PREFIX + "home"
  {
    assert BeforeDot("view") == "view";
    assert ProjectedName(Strict().hash, "view", "sa", "home")[0] == 'v';
  }

  lemma PlanRunsSmoothly()
    ensures CleanTargets(OneTarget(), STORE) && Smooth(OneTarget(), STORE)
  {
    hide BoundRoles, ProjectedName, PlanFor, RulesFilter.Filtered, NoFaults;
    OneTask();
    OneSource();
    CopyAllows([]);
    assert forall key, k, r :: CopyOf(OneTarget(), STORE, key, k, r) ==> key.ns == "target";
  }

  lemma RequestIsSourced()
    ensures SourcedBy(OneTarget(), STORE, "sa", "target", REQUEST, 0, "view")
  {
    hide BoundRoles, PlanFor, RulesFilter.Projectable, RulesFilter.Filtered;
    OneTask();
    OneSource();
    CopyAllows([]);
  }

  /** Under a suitable schedule, and so under every schedule, the push gives the account a request that it could make
    neither in the target nor at home. */
  lemma GainUnheldAtHome() returns (schedule: seq<Action>)
    ensures Shaped(OneTarget()) && Separated(OneTarget(), STORE) && CleanTargets(OneTarget(), STORE) && Smooth(OneTarget(), STORE)
    ensures Finishes(OneTarget(), STORE, schedule)
    ensures Can(After(OneTarget(), STORE, schedule), "sa", "home", "target", REQUEST)
    ensures !Can(STORE, "sa", "home", "target", REQUEST) && !Can(STORE, "sa", "home", "home", REQUEST)
  {
    hide Can, After, Finishes, Separated, Smooth, CleanTargets, OneTarget, InTurn, SourcedBy, Shaped;
    PlanFits();
    PlanRunsSmoothly();
    schedule := TurnsAreASchedule(OneTarget(), STORE);
    OneTask();
    CopyAllows([]);
    RequestIsSourced();
    GainsExactly(OneTarget(), STORE, schedule, "sa", "target", REQUEST);
    Nowhere("target");
    Nowhere("home");
  }
}
