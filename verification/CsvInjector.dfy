/** Injecting the published namespace list into the operators' pod templates. */
module CsvInjector {
  import opened Store

  const WATCH_NAMESPACE := "WATCH_NAMESPACE"
  const NAMESPACES := "namespaces"

  datatype Source = ConfigMapKey(configMap: string, key: string, isOptional: bool) | OtherSource(reference: string)
  datatype EnvVar = EnvVar(name: string, value: string, valueFrom: Option<Source>)
  datatype Container = Container(name: string, env: seq<EnvVar>)

  /** `labels` is None for the nil map. */
  datatype Template = Template(labels: Option<map<string, string>>, containers: seq<Container>)

  predicate Watches(e: EnvVar) {
    e.name == WATCH_NAMESPACE
  }

  /** The entry takes its value from the list that the ConfigMap publishes. */
  predicate PointsAt(e: EnvVar, cm: string) {
    && e.valueFrom.Some? && e.valueFrom.value.ConfigMapKey?
    && e.valueFrom.value.key == NAMESPACES && e.valueFrom.value.configMap == cm
  }

  function ConfigMapEnv(cm: string): EnvVar {
    EnvVar(WATCH_NAMESPACE, "", Some(ConfigMapKey(cm, NAMESPACES, true)))
  }

  /** Some entry is WATCH_NAMESPACE, and all of those take key `namespaces` of the ConfigMap. */
  predicate WatchesList(env: seq<EnvVar>, cm: string) {
    && (exists i :: 0 <= i < |env| && env[i].name == "WATCH_NAMESPACE")
    && forall i :: 0 <= i < |env| && env[i].name == "WATCH_NAMESPACE" ==>
         env[i].valueFrom.Some? && env[i].valueFrom.value.ConfigMapKey?
         && env[i].valueFrom.value.configMap == cm && env[i].valueFrom.value.key == "namespaces"
  }

  /** The entries that are not WATCH_NAMESPACE, in order. */
  function Others(env: seq<EnvVar>): seq<EnvVar> {
    if env == [] then []
    else Others(env[..|env| - 1]) + if env[|env| - 1].name == "WATCH_NAMESPACE" then [] else [env[|env| - 1]]
  }

  /** The container watches the published list and is otherwise as before. */
  predicate Redirected(before: Container, after: Container, cm: string) {
    && after.name == before.name && WatchesList(after.env, cm) && Others(after.env) == Others(before.env)
    && forall e :: e in after.env ==>
         e in before.env || e == EnvVar("WATCH_NAMESPACE", "", Some(ConfigMapKey(cm, "namespaces", true)))
  }

  predicate AllRedirected(before: seq<Container>, after: seq<Container>, cm: string) {
    |after| == |before| && forall i :: 0 <= i < |before| ==> Redirected(before[i], after[i], cm)
  }

  /** The controller follows `ValueFrom` of every WATCH_NAMESPACE entry without a check. */
  predicate Readable(env: seq<EnvVar>) {
    forall i :: 0 <= i < |env| && Watches(env[i]) ==> env[i].valueFrom.Some?
  }

  predicate Found(env: seq<EnvVar>) {
    exists i :: 0 <= i < |env| && Watches(env[i])
  }

  function Replaced(e: EnvVar, cm: string): EnvVar {
    if Watches(e) && !PointsAt(e, cm) then ConfigMapEnv(cm) else e
  }

  function Injected(env: seq<EnvVar>, cm: string): seq<EnvVar> {
    seq(|env|, i requires 0 <= i < |env| => Replaced(env[i], cm)) + if Found(env) then [] else [ConfigMapEnv(cm)]
  }

  function InjectedTemplate(t: Template, restartLabels: map<string, string>, cm: string): Template {
    Template(if t.labels.Some? then Some(t.labels.value + restartLabels) else None,
             seq(|t.containers|, i requires 0 <= i < |t.containers| =>
               t.containers[i].(env := Injected(t.containers[i].env, cm))))
  }

  // ---------------------------------------------------------------------------------------------
  // What the injection guarantees
  // ---------------------------------------------------------------------------------------------

  /** Every container watches, and every watching entry points at the published list. */
  lemma InjectedPoints(env: seq<EnvVar>, cm: string)
    ensures Found(Injected(env, cm)) && Readable(Injected(env, cm))
    ensures forall e :: e in Injected(env, cm) && Watches(e) ==> PointsAt(e, cm)
  {
    var after := Injected(env, cm);
    if Found(env) {
      var i :| 0 <= i < |env| && Watches(env[i]);
      assert Watches(after[i]);
    } else {
      assert Watches(after[|env|]);
    }
  }

  lemma {:induction false} OthersReplaced(env: seq<EnvVar>, after: seq<EnvVar>, cm: string)
    requires |after| == |env| && forall i :: 0 <= i < |env| ==> after[i] == Replaced(env[i], cm)
    ensures Others(after) == Others(env)
  {
    if env != [] {
      OthersReplaced(env[..|env| - 1], after[..|env| - 1], cm);
    }
  }

  /** All other entries are kept, in their order. */
  lemma OthersKept(env: seq<EnvVar>, cm: string)
    ensures Others(Injected(env, cm)) == Others(env)
  {
    var after := Injected(env, cm);
    assert |after| == |env| || after[..|after| - 1] == after[..|env|];
    OthersReplaced(env, after[..|env|], cm);
    assert Found(env) ==> after[..|env|] == after;
  }

  lemma NewEntries(env: seq<EnvVar>, cm: string)
    ensures forall e :: e in Injected(env, cm) ==>
              e in env || e == EnvVar("WATCH_NAMESPACE", "", Some(ConfigMapKey(cm, "namespaces", true)))
  {
  }

  lemma InjectedRedirects(container: Container, cm: string)
    ensures Redirected(container, container.(env := Injected(container.env, cm)), cm)
  {
    hide Injected, Others;
    NewEntries(container.env, cm);
    InjectedPoints(container.env, cm);
    OthersKept(container.env, cm);
    var after := Injected(container.env, cm);
    assert forall i :: 0 <= i < |after| ==> after[i] in after;
  }

  /** In every deployment every container is kept, watches the published list, and keeps its other entries. */
  lemma TemplateRedirects(t: Template, restartLabels: map<string, string>, cm: string)
    ensures AllRedirected(t.containers, InjectedTemplate(t, restartLabels, cm).containers, cm)
  {
    hide Injected, Redirected;
    forall i | 0 <= i < |t.containers|
      ensures Redirected(t.containers[i], InjectedTemplate(t, restartLabels, cm).containers[i], cm)
    {
      InjectedRedirects(t.containers[i], cm);
    }
  }

  /** Nothing is changed iff the container watches already and only where it should. */
  lemma UnchangedIff(env: seq<EnvVar>, cm: string)
    ensures Injected(env, cm) == env <==> Found(env) && forall e :: e in env && Watches(e) ==> PointsAt(e, cm)
  {
  }

  lemma InjectedTwice(env: seq<EnvVar>, cm: string)
    ensures Injected(Injected(env, cm), cm) == Injected(env, cm)
  {
    InjectedPoints(env, cm);
    UnchangedIff(Injected(env, cm), cm);
  }

  /** The controller's own patch never causes another one. */
  lemma NoSecondPatch(t: Template, restartLabels: map<string, string>, cm: string)
    ensures var once := InjectedTemplate(t, restartLabels, cm);
            InjectedTemplate(once, restartLabels, cm) == once
  {
    hide Injected;
    var once := InjectedTemplate(t, restartLabels, cm);
    var twice := InjectedTemplate(once, restartLabels, cm);
    forall i | 0 <= i < |t.containers|
      ensures twice.containers[i] == once.containers[i]
    {
      InjectedTwice(t.containers[i].env, cm);
    }
    assert twice.containers == once.containers;
    if t.labels.Some? {
      assert t.labels.value + restartLabels + restartLabels == t.labels.value + restartLabels;
    }
  }

  /** The restart labels arrive iff the template has a label map, or there is nothing to add. */
  lemma LabelsArriveIff(t: Template, restartLabels: map<string, string>, cm: string)
    ensures var after := InjectedTemplate(t, restartLabels, cm).labels;
            (forall k :: k in restartLabels ==> after.Some? && k in after.value && after.value[k] == restartLabels[k]) <==>
            t.labels.Some? || restartLabels == map[]
  {
  }

  // ---------------------------------------------------------------------------------------------
  // The loops
  // ---------------------------------------------------------------------------------------------

  method InjectEnv(container: Container, cm: string) returns (updated: Container)
    requires Readable(container.env)
    ensures updated == container.(env := Injected(container.env, cm))
    ensures Redirected(container, updated, cm)
  {
    hide Others, Redirected;
    InjectedRedirects(container, cm);
    var found, configmapEnv, env := false, ConfigMapEnv(cm), container.env;
    for index := 0 to |env|
      invariant |env| == |container.env|
      invariant forall i :: 0 <= i < |env| ==> env[i] == if i < index then Replaced(container.env[i], cm) else container.env[i]
      invariant found <==> exists i :: 0 <= i < index && Watches(container.env[i])
    {
      if env[index].name == WATCH_NAMESPACE {
        found := true;
        var source := env[index].valueFrom.value;
        if source.ConfigMapKey? && source.key == NAMESPACES && source.configMap == cm {
          continue;
        }
        env := env[index := configmapEnv];
      }
    }
    if !found {
      env := env + [configmapEnv];
    }
    updated := container.(env := env);
  }

  class Deployment {
    var labels: Option<map<string, string>>
    var containers: seq<Container>

    constructor (t: Template)
      ensures Snapshot() == t
    {
      labels, containers := t.labels, t.containers;
    }

    function Snapshot(): Template
      reads this
    {
      Template(labels, containers)
    }

    /** The body of the loop over the deployments of a CSV.  The pod template is a copy that shares its
      label map and its containers with the deployment; a new label map for nil labels is not shared. */
    method Inject(restartLabels: map<string, string>, cm: string)
      requires forall i :: 0 <= i < |containers| ==> Readable(containers[i].env)
      modifies this
      ensures Snapshot() == InjectedTemplate(old(Snapshot()), restartLabels, cm)
      ensures AllRedirected(old(containers), containers, cm)
      ensures labels == if old(labels).Some? then Some(old(labels).value + restartLabels) else None
    {
      hide Redirected;
      TemplateRedirects(Snapshot(), restartLabels, cm);
      var shared := labels.Some?;
      var podLabels: map<string, string> := if shared then labels.value else map[];
      podLabels := podLabels + restartLabels;
      if shared {
        labels := Some(podLabels);
      }
      ghost var before := containers;
      for containerIndex := 0 to |containers|
        invariant labels == InjectedTemplate(old(Snapshot()), restartLabels, cm).labels
        invariant |containers| == |before|
        invariant forall i :: 0 <= i < |before| ==>
                    containers[i] == if i < containerIndex then before[i].(env := Injected(before[i].env, cm)) else before[i]
      {
        var container := InjectEnv(containers[containerIndex], cm);
        containers := containers[containerIndex := container];
      }
    }
  }

  /** All deployments of one CSV; a patch is sent iff one of them changed. */
  method PatchCsv(specs: seq<Deployment>, restartLabels: map<string, string>, cm: string) returns (patch: bool)
    requires forall i, j :: 0 <= i < j < |specs| ==> specs[i] != specs[j]
    requires forall i, k :: 0 <= i < |specs| && 0 <= k < |specs[i].containers| ==> Readable(specs[i].containers[k].env)
    modifies specs
    ensures forall i :: 0 <= i < |specs| ==> specs[i].Snapshot() == InjectedTemplate(old(specs[i].Snapshot()), restartLabels, cm)
    ensures forall i :: 0 <= i < |specs| ==> AllRedirected(old(specs[i].containers), specs[i].containers, cm)
    ensures patch <==> exists i :: 0 <= i < |specs| && specs[i].Snapshot() != old(specs[i].Snapshot())
  {
    hide Injected, InjectedTemplate, Readable, AllRedirected;
    var original: seq<Template> := [];
    for i := 0 to |specs|
      invariant |original| == i && forall j :: 0 <= j < i ==> original[j] == specs[j].Snapshot()
      invariant forall j :: 0 <= j < |specs| ==> specs[j].Snapshot() == old(specs[j].Snapshot())
    {
      original := original + [specs[i].Snapshot()];
    }
    for i := 0 to |specs|
      invariant forall j :: 0 <= j < |specs| ==>
                  specs[j].Snapshot() == if j < i then InjectedTemplate(original[j], restartLabels, cm) else original[j]
    {
      assert specs[i].Snapshot() == original[i];
      specs[i].Inject(restartLabels, cm);
    }
    forall i | 0 <= i < |specs|
      ensures AllRedirected(original[i].containers, specs[i].containers, cm)
    {
      TemplateRedirects(original[i], restartLabels, cm);
      assert specs[i].Snapshot() == InjectedTemplate(original[i], restartLabels, cm);
    }
    for i := 0 to |specs|
      invariant forall j :: 0 <= j < i ==> specs[j].Snapshot() == original[j]
    {
      if specs[i].Snapshot() != original[i] {
        return true;
      }
    }
    return false;
  }
}
