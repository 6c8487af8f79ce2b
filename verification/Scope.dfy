/** The state a reconciler works on and what its completed passes and deletion attempts do to it.

  All NamespaceScope resources live in the operator's own namespace, `home`, together with the
  ConfigMaps that publish their member lists. */
module Scope {
  import opened Rbac
  import opened Lists
  import opened Names
  import opened Store
  import opened Projection
  import opened Worker
  import opened FanOut
  import opened PushPlan
  import opened PushTheorems

  const DEFAULT_CONFIGMAP := "namespace-scope"

  datatype Phase = Active | Terminating

  datatype ConfigMap = ConfigMap(data: string, owners: set<string>)

  datatype Nss = Nss(
    uid: string,
    configMapName: string,
    members: seq<string>,
    status: seq<string>,
    allowSubset: bool,
    deleting: bool,
    finalizer: bool)

  /** `restarts` counts how often the pods were asked to restart. */
  datatype World = World(
    objects: Objects,
    configMaps: map<string, ConfigMap>,
    crs: map<string, Nss>,
    namespaces: map<string, Phase>,
    restarts: nat)

  function MapName(cr: Nss): string {
    if cr.configMapName == "" then DEFAULT_CONFIGMAP else cr.configMapName
  }

  // ---------------------------------------------------------------------------------------------
  // Members
  // ---------------------------------------------------------------------------------------------

  predicate Accepted(ns: string, namespaces: map<string, Phase>, home: string, mayGet: string -> bool) {
    ns == home || !mayGet(ns) || (ns in namespaces && namespaces[ns] == Active)
  }

  function Validated(members: seq<string>, namespaces: map<string, Phase>, home: string,
                     mayGet: string -> bool): (r: seq<string>)
    ensures forall ns :: ns in r <==> ns in members && Accepted(ns, namespaces, home, mayGet)
  {
    if members == [] then []
    else
      var last := members[|members| - 1];
      assert members == members[..|members| - 1] + [last];
      Validated(members[..|members| - 1], namespaces, home, mayGet) +
      if Accepted(last, namespaces, home, mayGet) then [last] else []
  }

  /** The operator's own namespace is a validated member exactly when the spec lists it: it is not implied. */
  lemma OwnNamespaceIff(members: seq<string>, namespaces: map<string, Phase>, home: string, mayGet: string -> bool)
    ensures home in Validated(members, namespaces, home, mayGet) <==> home in members
    ensures home !in Validated([home + "x"], namespaces, home, mayGet)
  {
    assert |[home + "x"][0]| != |home|;
  }

  /** The validated members of all surviving resources that publish through one ConfigMap. */
  function Claimed(crs: map<string, Nss>, cm: string): set<string> {
    set c, ns | c in crs && !crs[c].deleting && MapName(crs[c]) == cm && ns in crs[c].status :: ns
  }

  /** The members of terminating resources that still have their cleanup to do. */
  function Pending(crs: map<string, Nss>, cm: string): set<string> {
    set c, ns | c in crs && crs[c].deleting && crs[c].finalizer && MapName(crs[c]) == cm && ns in crs[c].members :: ns
  }

  // ---------------------------------------------------------------------------------------------
  // The ConfigMap
  // ---------------------------------------------------------------------------------------------

  function ListedIn(data: string): set<string> {
    if data == "" then {} else Elems(Split(data))
  }

  function Listed(configMaps: map<string, ConfigMap>, cm: string): set<string> {
    if cm in configMaps then ListedIn(configMaps[cm].data) else {}
  }

  predicate IsEnumeration(xs: seq<string>, members: set<string>) {
    Distinct(xs) && Elems(xs) == members
  }

  /** The stored text is some ordering of the members. */
  ghost predicate Publishes(data: string, members: set<string>) {
    exists xs :: IsEnumeration(xs, members) && data == Join(xs)
  }

  /** The comparison that decides on a restart. */
  predicate Changes(old_: Option<ConfigMap>, members: set<string>) {
    match old_
    case None => true
    case Some(cm) => multiset(Split(cm.data)) != multiset(members)
  }

  ghost predicate MapWritten(old_: Option<ConfigMap>, new_: ConfigMap, members: set<string>, uid: string) {
    && (if Changes(old_, members) then Publishes(new_.data, members) else new_.data == old_.value.data)
    && new_.owners == (if old_.Some? then old_.value.owners else {}) + {uid}
  }

  /** What `UpdateConfigMap` does when no call fails. */
  ghost predicate MapStep(w: World, cr: Nss, configMaps': map<string, ConfigMap>, restarts': nat) {
    var cm, members := MapName(cr), Claimed(w.crs, MapName(cr));
    && cm in configMaps'
    && configMaps' == w.configMaps[cm := configMaps'[cm]]
    && MapWritten(Lookup(w.configMaps, cm), configMaps'[cm], members, cr.uid)
    && restarts' == w.restarts + if Changes(Lookup(w.configMaps, cm), members) then 1 else 0
  }

  // ---------------------------------------------------------------------------------------------
  // Deleting by label
  // ---------------------------------------------------------------------------------------------

  predicate Carries(labels: map<string, string>, home: string, cm: string) {
    HasLabel(labels, CONFIGMAP_LABEL, LabelValue(cm, home))
  }

  function SweptRoles(roles: map<Key, Role>, targets: set<string>, home: string, cm: string): map<Key, Role> {
    map k | k in roles && !(k.ns in targets && Carries(roles[k].labels, home, cm)) :: roles[k]
  }

  function SweptBindings(bindings: map<Key, RoleBinding>, targets: set<string>, home: string,
                         cm: string): map<Key, RoleBinding> {
    map k | k in bindings && !(k.ns in targets && Carries(bindings[k].labels, home, cm)) :: bindings[k]
  }

  /** The labelled objects of the targets are gone, everything else is as before. */
  function Swept(o: Objects, targets: set<string>, home: string, cm: string): Objects {
    Objects(SweptRoles(o.roles, targets, home, cm), SweptBindings(o.bindings, targets, home, cm))
  }

  /** A deletion that may have stopped anywhere. */
  ghost predicate PartlySwept(o: Objects, o': Objects, targets: set<string>, home: string, cm: string) {
    && (forall k :: Lookup(o'.roles, k) == Lookup(o.roles, k) ||
                    (k !in o'.roles && k in o.roles && k.ns in targets && Carries(o.roles[k].labels, home, cm)))
    && (forall k :: Lookup(o'.bindings, k) == Lookup(o.bindings, k) ||
                    (k !in o'.bindings && k in o.bindings && k.ns in targets && Carries(o.bindings[k].labels, home, cm)))
  }

  /** The namespaces dropped from scope: listed but no longer claimed. */
  function Unmanaged(w: World, cm: string, home: string): set<string> {
    Listed(w.configMaps, cm) - Claimed(w.crs, cm) - {home}
  }

  /** The namespaces a deleted resource leaves behind. */
  function Abandoned(w: World, cr: Nss, home: string): set<string> {
    Elems(cr.members) - Claimed(w.crs, MapName(cr)) - {home}
  }

  // ---------------------------------------------------------------------------------------------
  // Runtime Roles
  // ---------------------------------------------------------------------------------------------

  /** Role names that never contribute: `^nss-(managed|runtime)-role-from.*`. */
  predicate Excluded(name: string) {
    "nss-managed-role-from" <= name || "nss-runtime-role-from" <= name
  }

  /** The Roles of a namespace that carry the label. */
  function LabelledRoles(roles: map<Key, Role>, ns: string, home: string, cm: string): set<Key> {
    set k | k in roles && k.ns == ns && Carries(roles[k].labels, home, cm)
  }

  function Summary(roles: map<Key, Role>, keys: seq<Key>): seq<PolicyRule> {
    if keys == [] then []
    else
      var k := keys[|keys| - 1];
      Summary(roles, keys[..|keys| - 1]) + if k !in roles || Excluded(k.name) then [] else roles[k].rules
  }

  /** The order in which the API server lists objects: fixed for a fixed set. */
  type Listing = set<Key> -> seq<Key>

  predicate ListsAll(listing: Listing, s: set<Key>) {
    Distinct(listing(s)) && Elems(listing(s)) == s
  }

  function RuntimeKey(ns: string, home: string): Key {
    Key(ns, RUNTIME_PREFIX + home)
  }

  function RuntimeStep(roles: map<Key, Role>, ns: string, home: string, cm: string, listing: Listing): map<Key, Role> {
    var labelled := LabelledRoles(roles, ns, home, cm);
    if labelled == {} || ns == home then roles
    else roles[RuntimeKey(ns, home) := Role(map[], Summary(roles, listing(labelled)))]
  }

  function WithRuntime(roles: map<Key, Role>, members: seq<string>, home: string, cm: string,
                       listing: Listing): map<Key, Role> {
    if members == [] then roles
    else RuntimeStep(WithRuntime(roles, members[..|members| - 1], home, cm, listing), members[|members| - 1], home, cm, listing)
  }

  // ---------------------------------------------------------------------------------------------
  // Passes and deletion attempts
  // ---------------------------------------------------------------------------------------------

  /** What a pass meets outside the modelled state. */
  datatype Inputs = Inputs(
    hash: string -> string,
    accounts: seq<string>,
    mayGet: string -> bool,
    faults: nat -> Faults,
    orders: nat -> Order,
    schedule: seq<Action>,
    listing: Listing)

  function NewStatus(cr: Nss, validated: seq<string>): seq<string> {
    if Elems(cr.status) == Elems(validated) then cr.status else validated
  }

  /** Finalizer set and status brought up to date. */
  function Refreshed(w: World, c: string, home: string, mayGet: string -> bool): World
    requires c in w.crs
  {
    var cr := w.crs[c];
    w.(crs := w.crs[c := cr.(finalizer := true,
                             status := NewStatus(cr, Validated(cr.members, w.namespaces, home, mayGet)))])
  }

  function PlanOf(cr: Nss, home: string, inp: Inputs): Plan {
    PlanFor(Push(inp.hash, home, LabelsFor(MapName(cr), home), cr.allowSubset), cr.status, inp.accounts, inp.faults, inp.orders)
  }

  /** The push finished and returned no error. */
  predicate PushSucceeds(plan: Plan, start: Objects, schedule: seq<Action>) {
    && Shaped(plan)
    && Finishes(plan, start, schedule)
    && Execute(plan, Initial(plan, start), schedule).topErrs == []
  }

  /** The objects after the cleanup of unmanaged namespaces. */
  function Cleaned(w: World, o: Objects, cm: string, home: string): Objects {
    if cm in w.configMaps then Swept(o, Unmanaged(w, cm, home), home, cm) else o
  }

  /** What a pass without error does around its push, which leaves the objects as `pushed`. */
  ghost predicate PassAround(w: World, w': World, c: string, home: string, inp: Inputs, pushed: Objects)
    requires c in w.crs
  {
    var w1 := Refreshed(w, c, home, inp.mayGet);
    var cr := w1.crs[c];
    var o := Cleaned(w1, pushed, MapName(cr), home);
    && w'.crs == w1.crs && w'.namespaces == w1.namespaces
    && MapStep(w1, cr, w'.configMaps, w'.restarts)
    && w'.objects == o.(roles := WithRuntime(o.roles, cr.members, home, MapName(cr), inp.listing))
  }

  /** A reconcile pass that runs to its end without an error. */
  ghost predicate PassCompletes(w: World, w': World, c: string, home: string, inp: Inputs) {
    && c in w.crs && !w.crs[c].deleting
    && var plan := PlanOf(Refreshed(w, c, home, inp.mayGet).crs[c], home, inp);
       && PushSucceeds(plan, w.objects, inp.schedule)
       && PassAround(w, w', c, home, inp, After(plan, w.objects, inp.schedule))
  }

  /** A deletion attempt that has written the ConfigMap and stopped at any point of the cleanup. */
  ghost predicate StopsInCleanup(w: World, w': World, c: string, home: string) {
    && c in w.crs && w.crs[c].deleting && w.crs[c].finalizer
    && var cr := w.crs[c];
       && w'.crs == w.crs && w'.namespaces == w.namespaces
       && MapStep(w, cr, w'.configMaps, w'.restarts)
       && PartlySwept(w.objects, w'.objects, Abandoned(w, cr, home), home, MapName(cr))
  }

  /** One run of the deletion branch.  It may fail before it has written the ConfigMap, or later at any
    point of the cleanup; it succeeds only after a whole cleanup, and then the resource is gone. */
  ghost predicate AttemptFails(w: World, w': World, c: string, home: string) {
    && c in w.crs && w.crs[c].deleting && w.crs[c].finalizer
    && (w' == w || StopsInCleanup(w, w', c, home))
  }

  ghost predicate AttemptSucceeds(w: World, w': World, c: string, home: string) {
    && c in w.crs && w.crs[c].deleting && w.crs[c].finalizer
    && var cr := w.crs[c];
       && w'.crs == w.crs - {c} && w'.namespaces == w.namespaces
       && MapStep(w, cr, w'.configMaps, w'.restarts)
       && w'.objects == Swept(w.objects, Abandoned(w, cr, home), home, MapName(cr))
  }
}
