/** How a reconciliation ends, call by call: the exact world and the exact error for every combination of answers
  of the API server. */
module Outcomes {
  import opened Rbac
  import opened Lists
  import opened Names
  import opened Store
  import opened Projection
  import opened Worker
  import opened FanOut
  import opened PushPlan
  import opened PushTheorems
  import opened PushInTurn
  import opened Scope
  import opened ScopeRuns
  import opened RuntimeRoles

  // ---------------------------------------------------------------------------------------------
  // Answers
  // ---------------------------------------------------------------------------------------------

  /** The calls of a reconciliation outside the push.  `UpdateUnprojected` stands for the whole step that brings
    the list of unprojected Roles in the status up to date; it is answered too when there is nothing to write. */
  datatype Call =
    | Fetch
    | ListScopes
    | WriteFinalizer
    | FindNamespaceForMembers
    | ReadNamespace(ns: string)
    | WriteStatus
    | ListAccounts
    | FindNamespaceForPush
    | UpdateUnprojected
    | ReadMapForCleanup
    | ListMembersForCleanup
    | FindNamespaceForCleanup
    | DeleteBindings(ns: string)
    | DeleteRoles(ns: string)
    | ListMembersForMap
    | ReadMap
    | WriteMap
    | RestartPods
    | ListRoles(ns: string)
    | FindNamespaceForRuntime(ns: string)
    | CreateRuntime(ns: string)
    | UpdateRuntime(ns: string)
    | RemoveFinalizer

  type Answers = Call -> Fault

  function ErrorAt(answers: Answers, call: Call): Option<Error> {
    if answers(call).Fails? then Some(answers(call).error) else None
  }

  function Either(first: Option<Error>, then_: Option<Error>): Option<Error> {
    if first.Some? then first else then_
  }

  predicate Denied(answers: Answers, call: Call) {
    answers(call) == Fails(Forbidden)
  }

  /** No answer that the reconciler passes over in silence: no Forbidden deletion or runtime Role, no
    failed listing of Roles. */
  ghost predicate Clear(answers: Answers) {
    forall ns ::
      && !Denied(answers, DeleteBindings(ns)) && !Denied(answers, DeleteRoles(ns))
      && answers(ListRoles(ns)).NoFault? && !Denied(answers, CreateRuntime(ns))
  }

  ghost predicate AllAnswered(answers: Answers) {
    forall call :: answers(call).NoFault?
  }

  // ---------------------------------------------------------------------------------------------
  // Finalizer and status
  // ---------------------------------------------------------------------------------------------

  /** The first member that cannot be looked up. */
  function Unreadable(members: seq<string>, home: string, mayGet: string -> bool, answers: Answers): Option<Error> {
    if members == [] then None
    else
      var last := members[|members| - 1];
      Either(Unreadable(members[..|members| - 1], home, mayGet, answers),
             if last != home && mayGet(last) then ErrorAt(answers, ReadNamespace(last)) else None)
  }

  function LookupError(members: seq<string>, home: string, mayGet: string -> bool, answers: Answers): Option<Error> {
    Either(ErrorAt(answers, FindNamespaceForMembers), Unreadable(members, home, mayGet, answers))
  }

  datatype Refreshment = Refreshment(cr: Nss, error: Option<Error>)

  function RefreshEnds(cr: Nss, namespaces: map<string, Phase>, home: string, mayGet: string -> bool,
                       answers: Answers): Refreshment {
    if !cr.finalizer && ErrorAt(answers, WriteFinalizer).Some? then Refreshment(cr, ErrorAt(answers, WriteFinalizer))
    else
      var cr1 := cr.(finalizer := true);
      var validated := Validated(cr.members, namespaces, home, mayGet);
      if LookupError(cr.members, home, mayGet, answers).Some? then
        Refreshment(cr1, LookupError(cr.members, home, mayGet, answers))
      else if Elems(cr.status) == Elems(validated) then Refreshment(cr1, None)
      else if ErrorAt(answers, WriteStatus).Some? then Refreshment(cr1, ErrorAt(answers, WriteStatus))
      else Refreshment(cr1.(status := validated), None)
  }

  // ---------------------------------------------------------------------------------------------
  // The ConfigMap
  // ---------------------------------------------------------------------------------------------

  /** There is something to write. */
  predicate MapTouched(w: World, cr: Nss) {
    var old_ := Lookup(w.configMaps, MapName(cr));
    Changes(old_, Claimed(w.crs, MapName(cr))) || (old_.Some? && cr.uid !in old_.value.owners)
  }

  function MapReadError(answers: Answers): Option<Error> {
    Either(ErrorAt(answers, ListMembersForMap), ErrorAt(answers, ReadMap))
  }

  function MapWriteError(w: World, cr: Nss, answers: Answers): Option<Error> {
    if MapTouched(w, cr) then ErrorAt(answers, WriteMap) else None
  }

  function MapError(w: World, cr: Nss, answers: Answers): Option<Error> {
    Either(MapReadError(answers), Either(MapWriteError(w, cr, answers),
      if Changes(Lookup(w.configMaps, MapName(cr)), Claimed(w.crs, MapName(cr))) then ErrorAt(answers, RestartPods) else None))
  }

  /** The whole step, or nothing when an error came before the write. */
  ghost predicate MapEnds(w: World, cr: Nss, answers: Answers, configMaps': map<string, ConfigMap>, restarts': nat) {
    if MapReadError(answers).Some? || MapWriteError(w, cr, answers).Some? then
      configMaps' == w.configMaps && restarts' == w.restarts
    else
      MapStep(w, cr, configMaps', restarts')
  }

  // ---------------------------------------------------------------------------------------------
  // Cleanup
  // ---------------------------------------------------------------------------------------------

  /** The targets whose bindings, and whose Roles, the API server deletes when asked to. */
  function BindingsOf(answers: Answers, targets: set<string>): set<string> {
    set ns | ns in targets && answers(DeleteBindings(ns)).NoFault?
  }

  function RolesOf(answers: Answers, targets: set<string>): set<string> {
    set ns | ns in targets && answers(DeleteBindings(ns)).NoFault? && answers(DeleteRoles(ns)).NoFault?
  }

  /** No deletion made in this namespace fails, or only with Forbidden. */
  predicate Passable(answers: Answers, ns: string) {
    if answers(DeleteBindings(ns)).Fails? then answers(DeleteBindings(ns)).error == Forbidden
    else answers(DeleteRoles(ns)).Fails? ==> answers(DeleteRoles(ns)).error == Forbidden
  }

  /** A deletion made in this namespace fails with this error, which is not Forbidden. */
  predicate FailsThere(answers: Answers, ns: string, e: Error) {
    && e != Forbidden
    && (answers(DeleteBindings(ns)) == Fails(e) || (answers(DeleteBindings(ns)).NoFault? && answers(DeleteRoles(ns)) == Fails(e)))
  }

  /** The error that ends the cleanup at this namespace: any but Forbidden. */
  function BreaksAt(answers: Answers, ns: string): Option<Error> {
    if answers(DeleteBindings(ns)).Fails? then
      if Denied(answers, DeleteBindings(ns)) then None else ErrorAt(answers, DeleteBindings(ns))
    else if Denied(answers, DeleteRoles(ns)) then None else ErrorAt(answers, DeleteRoles(ns))
  }

  datatype Sweeping = Sweeping(objects: Objects, error: Option<Error>)

  function SweepOne(o: Objects, ns: string, home: string, cm: string, answers: Answers): Sweeping {
    if ns == home then Sweeping(o, None)
    else
      var bindings := if answers(DeleteBindings(ns)).Fails? then o.bindings else SweptBindings(o.bindings, {ns}, home, cm);
      var roles := if answers(DeleteBindings(ns)).Fails? || answers(DeleteRoles(ns)).Fails? then o.roles
                   else SweptRoles(o.roles, {ns}, home, cm);
      Sweeping(Objects(roles, bindings), BreaksAt(answers, ns))
  }

  function SweepInTurn(o: Objects, targets: seq<string>, home: string, cm: string, answers: Answers): Sweeping {
    if targets == [] then Sweeping(o, None)
    else
      var before := SweepInTurn(o, targets[..|targets| - 1], home, cm, answers);
      if before.error.Some? then before else SweepOne(before.objects, targets[|targets| - 1], home, cm, answers)
  }

  lemma {:induction false} SweepPrefix(o: Objects, targets: seq<string>, home: string, cm: string, answers: Answers,
                                       k: nat)
    requires k <= |targets|
    ensures SweepInTurn(o, targets[..k], home, cm, answers).error.Some? ==>
              SweepInTurn(o, targets, home, cm, answers) == SweepInTurn(o, targets[..k], home, cm, answers)
  {
    hide SweepOne;
    if k < |targets| {
      SweepPrefix(o, targets[..|targets| - 1], home, cm, answers, k);
      assert targets[..|targets| - 1][..k] == targets[..k];
    } else {
      assert targets[..k] == targets;
    }
  }

  lemma SweptTwice(o: Objects, a: set<string>, b: set<string>, home: string, cm: string)
    ensures SweptRoles(SweptRoles(o.roles, a, home, cm), b, home, cm) == SweptRoles(o.roles, a + b, home, cm)
    ensures SweptBindings(SweptBindings(o.bindings, a, home, cm), b, home, cm) == SweptBindings(o.bindings, a + b, home, cm)
    ensures SweptRoles(o.roles, {}, home, cm) == o.roles && SweptBindings(o.bindings, {}, home, cm) == o.bindings
  {
    hide Carries;
  }

  lemma SweptInPart(o: Objects, rolesOf: set<string>, bindingsOf: set<string>, targets: set<string>, home: string,
                    cm: string)
    requires rolesOf <= targets && bindingsOf <= targets
    ensures var o' := Objects(SweptRoles(o.roles, rolesOf, home, cm), SweptBindings(o.bindings, bindingsOf, home, cm));
            PartlySwept(o, o', targets, home, cm)
  {
    hide Carries;
  }

  /** All deletions in the targets can be passed, by an answer or a Forbidden. */
  predicate AllPassable(answers: Answers, targets: set<string>) {
    forall ns :: ns in targets ==> Passable(answers, ns)
  }

  /** It ended without error iff no deletion in a target fails otherwise than with Forbidden, and then exactly what
    the API server deletes is gone; the error is one of those, never Forbidden.  Nothing outside the targets has
    changed. */
  ghost predicate SweptAll(o: Objects, s: Sweeping, targets: set<string>, home: string, cm: string, answers: Answers) {
    && (s.error.None? <==> AllPassable(answers, targets))
    && (s.error.Some? ==> exists ns :: ns in targets && FailsThere(answers, ns, s.error.value))
    && (s.error.None? ==> s.objects == Objects(SweptRoles(o.roles, RolesOf(answers, targets), home, cm),
                                               SweptBindings(o.bindings, BindingsOf(answers, targets), home, cm)))
    && PartlySwept(o, s.objects, targets, home, cm)
  }

  /** What a cleanup does in whatever order it visits its targets. */
  lemma {:induction false} SweepExactly(o: Objects, targets: seq<string>, home: string, cm: string, answers: Answers)
    ensures SweptAll(o, SweepInTurn(o, targets, home, cm, answers), Elems(targets) - {home}, home, cm, answers)
  {
    hide SweptAll, SweepOne;
    if targets == [] {
      NothingToSweep(o, home, cm, answers);
      assert Elems(targets) - {home} == {};
    } else {
      var init, ns := targets[..|targets| - 1], targets[|targets| - 1];
      assert targets == init + [ns];
      SweepExactly(o, init, home, cm, answers);
      assert Elems(targets) - {home} == Elems(init) - {home} + if ns == home then {} else {ns};
      SweepStep(o, SweepInTurn(o, init, home, cm, answers), Elems(init) - {home}, ns, home, cm, answers);
    }
  }

  lemma NothingToSweep(o: Objects, home: string, cm: string, answers: Answers)
    ensures SweptAll(o, Sweeping(o, None), {}, home, cm, answers)
  {
    hide Carries;
    SweptTwice(o, {}, {}, home, cm);
    assert RolesOf(answers, {}) == {} && BindingsOf(answers, {}) == {} && AllPassable(answers, {});
    SweptInPart(o, {}, {}, {}, home, cm);
  }

  lemma SweepStep(o: Objects, before: Sweeping, done: set<string>, ns: string, home: string, cm: string,
                  answers: Answers)
    requires SweptAll(o, before, done, home, cm, answers)
    ensures var all := done + if ns == home then {} else {ns};
            SweptAll(o, if before.error.Some? then before else SweepOne(before.objects, ns, home, cm, answers), all, home, cm, answers)
  {
    hide Carries, SweptRoles, SweptBindings, PartlySwept, BreaksAt, Passable, FailsThere;
    var all := done + if ns == home then {} else {ns};
    if before.error.Some? {
      PartOfMore(o, before.objects, done, all, home, cm);
      var at :| at in done && FailsThere(answers, at, before.error.value);
      assert at in all;
    } else if ns == home {
      assert all == done;
    } else {
      SweptTwice(o, RolesOf(answers, done), {ns}, home, cm);
      SweptTwice(o, BindingsOf(answers, done), {ns}, home, cm);
      OneTarget(answers, done, ns);
      SweptInPart(o, RolesOf(answers, done), BindingsOf(answers, done), all, home, cm);
      SweptInPart(o, RolesOf(answers, done), BindingsOf(answers, done) + {ns}, all, home, cm);
      SweptInPart(o, RolesOf(answers, done) + {ns}, BindingsOf(answers, done) + {ns}, all, home, cm);
      BreaksIff(answers, ns);
      if BreaksAt(answers, ns).Some? {
        assert ns in all;
      } else {
        assert AllPassable(answers, all);
      }
    }
  }

  lemma BreaksIff(answers: Answers, ns: string)
    ensures BreaksAt(answers, ns).None? <==> Passable(answers, ns)
    ensures BreaksAt(answers, ns).Some? ==> FailsThere(answers, ns, BreaksAt(answers, ns).value)
  {
  }

  lemma OneTarget(answers: Answers, done: set<string>, ns: string)
    ensures BindingsOf(answers, done + {ns}) == BindingsOf(answers, done) + if answers(DeleteBindings(ns)).NoFault? then {ns} else {}
    ensures RolesOf(answers, done + {ns}) ==
            RolesOf(answers, done) + if answers(DeleteBindings(ns)).NoFault? && answers(DeleteRoles(ns)).NoFault? then {ns} else {}
    ensures BindingsOf(answers, done) + {} == BindingsOf(answers, done) && RolesOf(answers, done) + {} == RolesOf(answers, done)
  {
  }

  /** The same over the list of targets. */
  lemma DeletionsExactly(o: Objects, targets: seq<string>, home: string, cm: string, answers: Answers)
    ensures var s, all := SweepInTurn(o, targets, home, cm, answers), Elems(targets) - {home};
            && (s.error.None? <==> forall ns :: ns in targets && ns != home ==> Passable(answers, ns))
            && (s.error.Some? ==> exists ns :: ns in targets && ns != home && FailsThere(answers, ns, s.error.value))
            && (s.error.None? ==> s.objects == Objects(SweptRoles(o.roles, RolesOf(answers, all), home, cm),
                                                       SweptBindings(o.bindings, BindingsOf(answers, all), home, cm)))
  {
    hide SweepOne, Passable, FailsThere, RolesOf, BindingsOf, SweptRoles, SweptBindings, PartlySwept;
    SweepExactly(o, targets, home, cm, answers);
    assert forall ns :: ns in Elems(targets) <==> ns in targets;
  }

  /** Wherever a cleanup stops, it has swept the Roles of some targets and the bindings of some. */
  lemma {:induction false} SweepShape(o: Objects, targets: seq<string>, home: string, cm: string, answers: Answers)
    returns (rolesOf: set<string>, bindingsOf: set<string>)
    ensures rolesOf <= bindingsOf <= Elems(targets) - {home}
    ensures SweepInTurn(o, targets, home, cm, answers).objects ==
            Objects(SweptRoles(o.roles, rolesOf, home, cm), SweptBindings(o.bindings, bindingsOf, home, cm))
  {
    hide Carries, SweptRoles, SweptBindings, BreaksAt;
    SweptTwice(o, {}, {}, home, cm);
    rolesOf, bindingsOf := {}, {};
    if targets != [] {
      var init, ns := targets[..|targets| - 1], targets[|targets| - 1];
      assert targets == init + [ns];
      rolesOf, bindingsOf := SweepShape(o, init, home, cm, answers);
      SweptTwice(o, rolesOf, {ns}, home, cm);
      SweptTwice(o, bindingsOf, {ns}, home, cm);
      if SweepInTurn(o, init, home, cm, answers).error.None? && ns != home && answers(DeleteBindings(ns)).NoFault? {
        bindingsOf := bindingsOf + {ns};
        if answers(DeleteRoles(ns)).NoFault? {
          rolesOf := rolesOf + {ns};
        }
      }
    }
  }

  lemma PartOfMore(o: Objects, o': Objects, targets: set<string>, more: set<string>, home: string, cm: string)
    requires PartlySwept(o, o', targets, home, cm) && targets <= more
    ensures PartlySwept(o, o', more, home, cm)
  {
    hide Carries;
  }

  predicate SweepsIn(order: seq<string>, o: Objects, s: Sweeping, targets: set<string>, home: string, cm: string,
                     answers: Answers) {
    && Distinct(order) && Elems(order) - {home} == targets
    && s == SweepInTurn(o, order, home, cm, answers)
  }

  /** The targets are visited in some order. */
  ghost predicate CleanupEnds(o: Objects, s: Sweeping, targets: set<string>, home: string, cm: string,
                              answers: Answers) {
    exists order :: SweepsIn(order, o, s, targets, home, cm, answers)
  }

  lemma CleanupExactly(o: Objects, s: Sweeping, targets: set<string>, home: string, cm: string, answers: Answers)
    requires CleanupEnds(o, s, targets, home, cm, answers)
    ensures s.error.None? <==> AllPassable(answers, targets)
    ensures s.error.Some? ==> exists ns :: ns in targets && FailsThere(answers, ns, s.error.value)
    ensures s.error.None? ==> s.objects == Objects(SweptRoles(o.roles, RolesOf(answers, targets), home, cm),
                                                   SweptBindings(o.bindings, BindingsOf(answers, targets), home, cm))
    ensures PartlySwept(o, s.objects, targets, home, cm)
  {
    hide Carries, SweptRoles, SweptBindings, PartlySwept, BreaksAt, Passable, FailsThere;
    var order :| SweepsIn(order, o, s, targets, home, cm, answers);
    SweepExactly(o, order, home, cm, answers);
  }

  function PassCleanupError(configMaps: map<string, ConfigMap>, cm: string, answers: Answers): Option<Error> {
    Either(ErrorAt(answers, ReadMapForCleanup),
      if cm !in configMaps then None
      else Either(ErrorAt(answers, ListMembersForCleanup), ErrorAt(answers, FindNamespaceForCleanup)))
  }

  /** `DeleteRbacFromUnmanagedNamespace`. */
  ghost predicate PassCleanupEnds(w: World, o: Objects, s: Sweeping, cm: string, home: string, answers: Answers) {
    var e := PassCleanupError(w.configMaps, cm, answers);
    if e.Some? then s == Sweeping(o, e) else CleanupEnds(o, s, Unmanaged(w, cm, home), home, cm, answers)
  }

  function DeletionCleanupError(answers: Answers): Option<Error> {
    Either(ErrorAt(answers, FindNamespaceForCleanup), ErrorAt(answers, ListMembersForCleanup))
  }

  /** `DeleteAllRbac`. */
  ghost predicate DeletionCleanupEnds(w: World, cr: Nss, o: Objects, s: Sweeping, home: string, answers: Answers) {
    var e := DeletionCleanupError(answers);
    if e.Some? then s == Sweeping(o, e) else CleanupEnds(o, s, Abandoned(w, cr, home), home, MapName(cr), answers)
  }

  // ---------------------------------------------------------------------------------------------
  // Runtime Roles
  // ---------------------------------------------------------------------------------------------

  datatype RuntimeEnd = RuntimeEnd(roles: map<Key, Role>, error: Option<Error>)

  /** Create, or update what exists; a Forbidden creation is passed over with subset projection. */
  function RuntimeWritten(roles: map<Key, Role>, ns: string, rules: seq<PolicyRule>, allowSubset: bool, home: string,
                          answers: Answers): RuntimeEnd {
    if ErrorAt(answers, FindNamespaceForRuntime(ns)).Some? then RuntimeEnd(roles, ErrorAt(answers, FindNamespaceForRuntime(ns)))
    else if ns == home then RuntimeEnd(roles, None)
    else if answers(CreateRuntime(ns)).Fails? then
      RuntimeEnd(roles, if Denied(answers, CreateRuntime(ns)) && allowSubset then None else ErrorAt(answers, CreateRuntime(ns)))
    else if RuntimeKey(ns, home) in roles && answers(UpdateRuntime(ns)).Fails? then
      RuntimeEnd(roles, ErrorAt(answers, UpdateRuntime(ns)))
    else RuntimeEnd(roles[RuntimeKey(ns, home) := Role(map[], rules)], None)
  }

  function RuntimeTurn(roles: map<Key, Role>, ns: string, cr: Nss, home: string, listing: Listing,
                       answers: Answers): RuntimeEnd {
    var labelled := LabelledRoles(roles, ns, home, MapName(cr));
    if answers(ListRoles(ns)).Fails? || labelled == {} then RuntimeEnd(roles, None)
    else RuntimeWritten(roles, ns, Summary(roles, listing(labelled)), cr.allowSubset, home, answers)
  }

  /** The loop over the members at the end of a pass. */
  function RuntimeInTurn(roles: map<Key, Role>, members: seq<string>, cr: Nss, home: string, listing: Listing,
                         answers: Answers): RuntimeEnd {
    if members == [] then RuntimeEnd(roles, None)
    else
      var before := RuntimeInTurn(roles, members[..|members| - 1], cr, home, listing, answers);
      if before.error.Some? then before
      else RuntimeTurn(before.roles, members[|members| - 1], cr, home, listing, answers)
  }

  lemma {:induction false} RuntimePrefix(roles: map<Key, Role>, members: seq<string>, cr: Nss, home: string,
                                         listing: Listing, answers: Answers, k: nat)
    requires k <= |members|
    ensures var front := RuntimeInTurn(roles, members[..k], cr, home, listing, answers);
            front.error.Some? ==> RuntimeInTurn(roles, members, cr, home, listing, answers) == front
  {
    hide RuntimeTurn;
    if k < |members| {
      RuntimePrefix(roles, members[..|members| - 1], cr, home, listing, answers, k);
      assert members[..|members| - 1][..k] == members[..k];
    } else {
      assert members[..k] == members;
    }
  }

  /** Without answers passed over, an end without error is the specified one. */
  lemma {:induction false} RuntimeClear(roles: map<Key, Role>, members: seq<string>, cr: Nss, home: string,
                                        listing: Listing, answers: Answers)
    requires Clear(answers)
    ensures var end := RuntimeInTurn(roles, members, cr, home, listing, answers);
            && (end.error.None? ==> end.roles == WithRuntime(roles, members, home, MapName(cr), listing))
            && (AllAnswered(answers) ==> end.error.None?)
  {
    hide LabelledRoles, Summary;
    if members != [] {
      RuntimeClear(roles, members[..|members| - 1], cr, home, listing, answers);
    }
  }

  /** Whatever fails, nothing but runtime Roles is written, and these without label. */
  lemma {:induction false} RuntimeWritesOnly(roles: map<Key, Role>, members: seq<string>, cr: Nss, home: string,
                                             listing: Listing, answers: Answers, key: Key)
    ensures var end := RuntimeInTurn(roles, members, cr, home, listing, answers);
            || Lookup(end.roles, key) == Lookup(roles, key)
            || (&& key in end.roles && end.roles[key].labels == map[]
                && key == RuntimeKey(key.ns, home) && key.ns != home && key.ns in members)
  {
    hide LabelledRoles, Summary;
    if members != [] {
      RuntimeWritesOnly(roles, members[..|members| - 1], cr, home, listing, answers, key);
    }
  }

  /** The loop writes, or tries to write, the runtime Role of this member. */
  predicate Summarized(roles: map<Key, Role>, ns: string, cr: Nss, home: string, answers: Answers) {
    answers(ListRoles(ns)).NoFault? && LabelledRoles(roles, ns, home, MapName(cr)) != {}
  }

  /** The call that fails for this member: a Forbidden creation counts under strict projection only. */
  predicate RuntimeFails(roles: map<Key, Role>, members: seq<string>, ns: string, cr: Nss, home: string,
                         answers: Answers, e: Error) {
    && ns in members && Summarized(roles, ns, cr, home, answers)
    && (|| answers(FindNamespaceForRuntime(ns)) == Fails(e)
        || (ns != home && answers(CreateRuntime(ns)) == Fails(e) && !(e == Forbidden && cr.allowSubset))
        || (ns != home && answers(CreateRuntime(ns)).NoFault? && answers(UpdateRuntime(ns)) == Fails(e)
            && (Key(ns, "nss-runtime-managed-role-from-" + home) in roles || multiset(members)[ns] >= 2)))
  }

  /** What the loop leaves for a member when it ends without error. */
  predicate RuntimeDone(roles: map<Key, Role>, after: map<Key, Role>, ns: string, cr: Nss, home: string,
                        listing: Listing, answers: Answers) {
    var key := Key(ns, "nss-runtime-managed-role-from-" + home);
    && answers(FindNamespaceForRuntime(ns)).NoFault?
    && (ns != home ==>
          if answers(CreateRuntime(ns)).Fails? then answers(CreateRuntime(ns)).error == Forbidden && cr.allowSubset
          else
            && (key in roles ==> answers(UpdateRuntime(ns)).NoFault?)
            && Lookup(after, key) == Some(RuntimeRole(roles, ns, home, MapName(cr), listing)))
  }

  /** A Role is as before, or it is the runtime Role of a member whose creation was answered. */
  predicate RuntimeOrOld(roles: map<Key, Role>, after: map<Key, Role>, members: seq<string>, cr: Nss, home: string,
                         listing: Listing, answers: Answers, key: Key) {
    || Lookup(after, key) == Lookup(roles, key)
    || (&& key.ns in members && key.ns != home && key.name == "nss-runtime-managed-role-from-" + home
        && answers(CreateRuntime(key.ns)).NoFault?
        && Lookup(after, key) == Some(RuntimeRole(roles, key.ns, home, MapName(cr), listing)))
  }

  ghost predicate RuntimeOutcome(roles: map<Key, Role>, end: RuntimeEnd, members: seq<string>, cr: Nss, home: string,
                                 listing: Listing, answers: Answers) {
    && (forall key :: RuntimeOrOld(roles, end.roles, members, cr, home, listing, answers, key))
    && (end.error.Some? ==> exists ns :: RuntimeFails(roles, members, ns, cr, home, answers, end.error.value))
    && (end.error.None? ==>
          forall ns :: ns in members && Summarized(roles, ns, cr, home, answers) ==>
            RuntimeDone(roles, end.roles, ns, cr, home, listing, answers))
  }

  /** The loop ends with an error only for a call that fails for some member, and otherwise has done every member. */
  lemma {:induction false} RuntimeEndsExactly(roles: map<Key, Role>, members: seq<string>, cr: Nss, home: string,
                                              listing: Listing, answers: Answers)
    requires RuntimeClean(roles, home, MapName(cr)) && FullListing(listing)
    ensures RuntimeOutcome(roles, RuntimeInTurn(roles, members, cr, home, listing, answers), members, cr, home, listing, answers)
  {
    hide LabelledRoles, Summary, RuntimeTurn, RuntimeFails, RuntimeDone, RuntimeOrOld, Summarized, FullListing,
      RuntimeClean;
    if members == [] {
      NothingWritten(roles, cr, home, listing, answers);
    } else {
      var init, last := members[..|members| - 1], members[|members| - 1];
      assert members == init + [last];
      RuntimeEndsExactly(roles, init, cr, home, listing, answers);
      var before := RuntimeInTurn(roles, init, cr, home, listing, answers);
      RuntimeMore(roles, before.roles, init, last, cr, home, listing, answers);
      if before.error.None? {
        RuntimeOneMore(roles, before, init, last, cr, home, listing, answers);
      }
    }
  }

  lemma NothingWritten(roles: map<Key, Role>, cr: Nss, home: string, listing: Listing, answers: Answers)
    ensures forall key :: RuntimeOrOld(roles, roles, [], cr, home, listing, answers, key)
  {
    hide RuntimeRole;
  }

  lemma RuntimeMore(roles: map<Key, Role>, after: map<Key, Role>, init: seq<string>, last: string, cr: Nss,
                    home: string, listing: Listing, answers: Answers)
    ensures forall key :: RuntimeOrOld(roles, after, init, cr, home, listing, answers, key) ==>
                          RuntimeOrOld(roles, after, init + [last], cr, home, listing, answers, key)
    ensures forall ns, e :: RuntimeFails(roles, init, ns, cr, home, answers, e) ==>
                            RuntimeFails(roles, init + [last], ns, cr, home, answers, e)
  {
    hide RuntimeRole, Summarized;
  }

  /** What is labelled and how it is listed does not depend on the runtime Roles written before. */
  lemma RuntimeReads(roles: map<Key, Role>, now: map<Key, Role>, members: seq<string>, ns: string, cr: Nss,
                     home: string, listing: Listing, answers: Answers)
    requires RuntimeClean(roles, home, MapName(cr)) && FullListing(listing)
    requires forall key :: RuntimeOrOld(roles, now, members, cr, home, listing, answers, key)
    ensures var labelled := LabelledRoles(roles, ns, home, MapName(cr));
            && LabelledRoles(now, ns, home, MapName(cr)) == labelled
            && Summary(now, listing(labelled)) == Summary(roles, listing(labelled))
  {
    hide Summary, LabelValue;
    var cm := MapName(cr);
    var labelled := LabelledRoles(roles, ns, home, cm);
    forall key
      ensures key in LabelledRoles(now, ns, home, cm) <==> key in labelled
      ensures key in labelled ==> Lookup(now, key) == Lookup(roles, key)
    {
      assert RuntimeOrOld(roles, now, members, cr, home, listing, answers, key);
      if Lookup(now, key) != Lookup(roles, key) {
        assert key == RuntimeKey(key.ns, home);
      }
    }
    assert ListsAll(listing, labelled);
    forall k | k in listing(labelled)
      ensures Lookup(now, k) == Lookup(roles, k)
    {
      assert k in Elems(listing(labelled));
    }
    SummarySame(now, roles, listing(labelled));
  }

  /** One more member. */
  lemma RuntimeOneMore(roles: map<Key, Role>, before: RuntimeEnd, init: seq<string>, last: string, cr: Nss,
                       home: string, listing: Listing, answers: Answers)
    requires RuntimeClean(roles, home, MapName(cr)) && FullListing(listing)
    requires before.error.None? && RuntimeOutcome(roles, before, init, cr, home, listing, answers)
    ensures var end := RuntimeTurn(before.roles, last, cr, home, listing, answers);
            RuntimeOutcome(roles, end, init + [last], cr, home, listing, answers)
  {
    hide LabelledRoles, Summary, RuntimeOrOld, RuntimeFails, RuntimeDone, Summarized, RuntimeWritten, FullListing,
      RuntimeClean;
    var members, now := init + [last], before.roles;
    var end := RuntimeTurn(now, last, cr, home, listing, answers);
    var labelled := LabelledRoles(roles, last, home, MapName(cr));
    RuntimeReads(roles, now, init, last, cr, home, listing, answers);
    RuntimeMore(roles, now, init, last, cr, home, listing, answers);
    SummarizedMeans(roles, last, cr, home, answers);
    if Summarized(roles, last, cr, home, answers) {
      var rules := Summary(roles, listing(labelled));
      assert end == RuntimeWritten(now, last, rules, cr.allowSubset, home, answers);
      OneWritten(roles, now, init, last, cr, home, listing, answers);
      forall ns | end.error.None? && ns in members && ns != last && Summarized(roles, ns, cr, home, answers)
        ensures RuntimeDone(roles, end.roles, ns, cr, home, listing, answers)
      {
        StillDone(roles, now, end.roles, ns, last, cr, home, listing, answers);
      }
    } else {
      assert end == RuntimeEnd(now, None);
    }
  }

  lemma SummarizedMeans(roles: map<Key, Role>, ns: string, cr: Nss, home: string, answers: Answers)
    ensures Summarized(roles, ns, cr, home, answers) <==>
            answers(ListRoles(ns)).NoFault? && LabelledRoles(roles, ns, home, MapName(cr)) != {}
  {
  }

  lemma StillDone(roles: map<Key, Role>, now: map<Key, Role>, after: map<Key, Role>, ns: string, last: string, cr: Nss,
                  home: string, listing: Listing, answers: Answers)
    requires ns != last && forall key: Key :: key.ns != last ==> Lookup(after, key) == Lookup(now, key)
    requires RuntimeDone(roles, now, ns, cr, home, listing, answers)
    ensures RuntimeDone(roles, after, ns, cr, home, listing, answers)
  {
    hide RuntimeRole;
  }

  lemma OneWritten(roles: map<Key, Role>, now: map<Key, Role>, init: seq<string>, last: string, cr: Nss, home: string,
                   listing: Listing, answers: Answers)
    requires Summarized(roles, last, cr, home, answers)
    requires forall key :: RuntimeOrOld(roles, now, init, cr, home, listing, answers, key)
    ensures var rules := Summary(roles, listing(LabelledRoles(roles, last, home, MapName(cr))));
            var end := RuntimeWritten(now, last, rules, cr.allowSubset, home, answers);
            && (forall key: Key :: key.ns != last ==> Lookup(end.roles, key) == Lookup(now, key))
            && (forall key :: RuntimeOrOld(roles, end.roles, init + [last], cr, home, listing, answers, key))
            && (end.error.Some? ==> RuntimeFails(roles, init + [last], last, cr, home, answers, end.error.value))
            && (end.error.None? ==> RuntimeDone(roles, end.roles, last, cr, home, listing, answers))
  {
    hide LabelledRoles, Summary, Summarized;
    var key := RuntimeKey(last, home);
    var rules := Summary(roles, listing(LabelledRoles(roles, last, home, MapName(cr))));
    var end := RuntimeWritten(now, last, rules, cr.allowSubset, home, answers);
    assert RuntimeOrOld(roles, now, init, cr, home, listing, answers, key);
    if key in now && key !in roles {
      assert last in init;
      assert multiset(init + [last]) == multiset(init) + multiset{last};
    }
    forall k
      ensures RuntimeOrOld(roles, end.roles, init + [last], cr, home, listing, answers, k)
    {
      assert RuntimeOrOld(roles, now, init, cr, home, listing, answers, k);
    }
  }

  // ---------------------------------------------------------------------------------------------
  // A pass
  // ---------------------------------------------------------------------------------------------

  /** What the push makes of the store, its goroutines taking turns. */
  function Pushing(cr: Nss, home: string, inp: Inputs, o: Objects): Turned {
    var plan := PlanOf(cr, home, inp);
    InTurn(plan.p, plan.tasks, plan.orders, o)
  }

  ghost predicate AfterCleanup(w1: World, w': World, cr: Nss, home: string, inp: Inputs, answers: Answers,
                               s: Sweeping, error: Option<Error>) {
    if s.error.Some? then w' == w1.(objects := s.objects) && error == s.error
    else
      && MapEnds(w1, cr, answers, w'.configMaps, w'.restarts)
      && w'.crs == w1.crs && w'.namespaces == w1.namespaces
      && if MapError(w1, cr, answers).Some? then w'.objects == s.objects && error == MapError(w1, cr, answers)
         else
           var end := RuntimeInTurn(s.objects.roles, cr.members, cr, home, inp.listing, answers);
           w'.objects == s.objects.(roles := end.roles) && error == end.error
  }

  ghost predicate AfterPush(w1: World, w': World, cr: Nss, home: string, inp: Inputs, answers: Answers,
                            pushed: Objects, error: Option<Error>) {
    exists s :: PassCleanupEnds(w1, pushed, s, MapName(cr), home, answers) && AfterCleanup(w1, w', cr, home, inp, answers, s, error)
  }

  function BeforePush(answers: Answers): Option<Error> {
    Either(ErrorAt(answers, ListAccounts), ErrorAt(answers, FindNamespaceForPush))
  }

  /** The branch of `Reconcile` for a live resource: the world it leaves and the error it ends with. */
  ghost predicate PassEnds(w: World, w': World, c: string, home: string, inp: Inputs, answers: Answers,
                           error: Option<Error>)
    requires c in w.crs
  {
    var r := RefreshEnds(w.crs[c], w.namespaces, home, inp.mayGet, answers);
    var w1 := w.(crs := w.crs[c := r.cr]);
    if ErrorAt(answers, ListScopes).Some? then w' == w && error == ErrorAt(answers, ListScopes)
    else if r.error.Some? then w' == w1 && error == r.error
    else if BeforePush(answers).Some? then w' == w1 && error == BeforePush(answers)
    else
      var turned := Pushing(r.cr, home, inp, w.objects);
      if !r.cr.allowSubset && turned.errors != [] then
        w' == w1.(objects := turned.objects) && error == Some(turned.errors[0])
      else if ErrorAt(answers, UpdateUnprojected).Some? then
        w' == w1.(objects := turned.objects) && error == ErrorAt(answers, UpdateUnprojected)
      else AfterPush(w1, w', r.cr, home, inp, answers, turned.objects, error)
  }

  lemma RefreshedExactly(w: World, c: string, home: string, mayGet: string -> bool, answers: Answers)
    requires c in w.crs
    ensures var r := RefreshEnds(w.crs[c], w.namespaces, home, mayGet, answers);
            r.error.None? ==> w.(crs := w.crs[c := r.cr]) == Refreshed(w, c, home, mayGet)
    ensures AllAnswered(answers) ==> RefreshEnds(w.crs[c], w.namespaces, home, mayGet, answers).error.None?
  {
    hide Validated;
    Readable(w.crs[c].members, home, mayGet, answers);
  }

  lemma {:induction false} Readable(members: seq<string>, home: string, mayGet: string -> bool, answers: Answers)
    ensures AllAnswered(answers) ==> Unreadable(members, home, mayGet, answers) == None
  {
    if members != [] {
      Readable(members[..|members| - 1], home, mayGet, answers);
    }
  }

  /** The store after a whole cleanup, Forbidden answers observed. */
  function CleanedExcept(w: World, o: Objects, targets: set<string>, home: string, cm: string,
                         answers: Answers): Objects {
    Objects(SweptRoles(o.roles, RolesOf(answers, targets), home, cm), SweptBindings(o.bindings, BindingsOf(answers, targets), home, cm))
  }

  /** The calls of the refresh are answered: finalizer, lookups of the members that may be looked up, status. */
  ghost predicate RefreshAnswered(cr: Nss, namespaces: map<string, Phase>, home: string, mayGet: string -> bool,
                                  answers: Answers) {
    && (cr.finalizer || answers(WriteFinalizer).NoFault?)
    && answers(FindNamespaceForMembers).NoFault?
    && (forall ns :: ns in cr.members && ns != home && mayGet(ns) ==> answers(ReadNamespace(ns)).NoFault?)
    && (Elems(cr.status) == Elems(Validated(cr.members, namespaces, home, mayGet)) || answers(WriteStatus).NoFault?)
  }

  /** The calls of the ConfigMap update are answered: two to read, one to write if the stored list differs from the
    claimed namespaces or does not name the resource as an owner, one to restart pods if the list differs. */
  ghost predicate MapAnswered(w: World, cr: Nss, answers: Answers) {
    var cm := MapName(cr);
    var differs := cm !in w.configMaps || multiset(Split(w.configMaps[cm].data)) != multiset(Claimed(w.crs, cm));
    && answers(ListMembersForMap).NoFault? && answers(ReadMap).NoFault?
    && (differs || cr.uid !in w.configMaps[cm].owners ==> answers(WriteMap).NoFault?)
    && (differs ==> answers(RestartPods).NoFault?)
  }

  /** The calls that find the namespaces to clean are answered; without a ConfigMap there is one only. */
  ghost predicate CleanupFound(configMaps: map<string, ConfigMap>, cm: string, answers: Answers) {
    && answers(ReadMapForCleanup).NoFault?
    && (cm in configMaps ==> answers(ListMembersForCleanup).NoFault? && answers(FindNamespaceForCleanup).NoFault?)
  }

  lemma {:induction false} UnreadableIff(members: seq<string>, home: string, mayGet: string -> bool, answers: Answers)
    ensures Unreadable(members, home, mayGet, answers).None? <==>
            forall ns :: ns in members && ns != home && mayGet(ns) ==> answers(ReadNamespace(ns)).NoFault?
  {
    if members != [] {
      var init, last := members[..|members| - 1], members[|members| - 1];
      assert members == init + [last];
      UnreadableIff(init, home, mayGet, answers);
    }
  }

  lemma RefreshAnsweredIff(cr: Nss, namespaces: map<string, Phase>, home: string, mayGet: string -> bool,
                           answers: Answers)
    ensures RefreshEnds(cr, namespaces, home, mayGet, answers).error.None? <==>
            RefreshAnswered(cr, namespaces, home, mayGet, answers)
  {
    hide Validated;
    UnreadableIff(cr.members, home, mayGet, answers);
  }

  lemma MapAnsweredIff(w: World, cr: Nss, answers: Answers)
    ensures MapError(w, cr, answers).None? <==> MapAnswered(w, cr, answers)
  {
    hide Split, Claimed;
  }

  /** A pass ends without error exactly when every call it makes is answered, or passed over: a condition on
    the answers and the world before it. */
  ghost predicate PassSucceeds(w: World, c: string, home: string, inp: Inputs, answers: Answers)
    requires c in w.crs
  {
    var w1 := Refreshed(w, c, home, inp.mayGet);
    var cr, cm := w1.crs[c], MapName(w1.crs[c]);
    var turned, targets := Pushing(cr, home, inp, w.objects), Unmanaged(w1, cm, home);
    && answers(ListScopes).NoFault? && RefreshAnswered(w.crs[c], w.namespaces, home, inp.mayGet, answers)
    && answers(ListAccounts).NoFault? && answers(FindNamespaceForPush).NoFault?
    && (cr.allowSubset || turned.errors == []) && answers(UpdateUnprojected).NoFault?
    && CleanupFound(w.configMaps, cm, answers) && AllPassable(answers, targets)
    && MapAnswered(w1, cr, answers)
    && RuntimeInTurn(CleanedExcept(w1, turned.objects, targets, home, cm, answers).roles, cr.members, cr, home,
                     inp.listing, answers).error.None?
  }

  /** When a pass completes, and what it leaves then, Forbidden answers and all. */
  lemma PassEndsExactly(w: World, w': World, c: string, home: string, inp: Inputs, answers: Answers,
                        error: Option<Error>)
    requires c in w.crs && PassEnds(w, w', c, home, inp, answers, error)
    ensures error.None? <==> PassSucceeds(w, c, home, inp, answers)
    ensures error.None? ==>
              var w1 := Refreshed(w, c, home, inp.mayGet);
              var cr, cm := w1.crs[c], MapName(w1.crs[c]);
              var cleaned := CleanedExcept(w1, Pushing(cr, home, inp, w.objects).objects, Unmanaged(w1, cm, home), home, cm, answers);
              && w'.crs == w1.crs && w'.namespaces == w.namespaces
              && MapStep(w1, cr, w'.configMaps, w'.restarts)
              && w'.objects.bindings == cleaned.bindings
              && w'.objects.roles == RuntimeInTurn(cleaned.roles, cr.members, cr, home, inp.listing, answers).roles
  {
    hide SweptRoles, SweptBindings, PartlySwept, RuntimeInTurn, Pushing, MapStep, RefreshEnds, Refreshed, CleanupEnds,
      MapTouched,
      Changes, Unmanaged, BreaksAt, AllPassable, MapAnswered, RefreshAnswered;
    RefreshAnsweredIff(w.crs[c], w.namespaces, home, inp.mayGet, answers);
    RefreshedExactly(w, c, home, inp.mayGet, answers);
    var r := RefreshEnds(w.crs[c], w.namespaces, home, inp.mayGet, answers);
    var w1, cr := w.(crs := w.crs[c := r.cr]), r.cr;
    var turned := Pushing(cr, home, inp, w.objects);
    MapAnsweredIff(w1, cr, answers);
    if ErrorAt(answers, ListScopes).None? && r.error.None? && BeforePush(answers).None? && (cr.allowSubset || turned.errors == []) &&
       ErrorAt(answers, UpdateUnprojected).None? {
      var s :| PassCleanupEnds(w1, turned.objects, s, MapName(cr), home, answers) &&
               AfterCleanup(w1, w', cr, home, inp, answers, s, error);
      if PassCleanupError(w1.configMaps, MapName(cr), answers).None? {
        CleanupExactly(turned.objects, s, Unmanaged(w1, MapName(cr), home), home, MapName(cr), answers);
      }
      assert w1.crs[c] == cr;
    }
  }

  lemma ClearSweepsAll(answers: Answers, targets: set<string>)
    ensures Clear(answers) && AllPassable(answers, targets) ==>
              RolesOf(answers, targets) == targets && BindingsOf(answers, targets) == targets
    ensures AllAnswered(answers) ==> Clear(answers)
    ensures AllAnswered(answers) ==> AllPassable(answers, targets)
  {
  }

  /** If every call is answered a pass fails only through its push: iff projection is strict and some goroutine
    fails. */
  lemma AnsweredPassSucceedsIff(w: World, c: string, home: string, inp: Inputs, answers: Answers)
    requires c in w.crs && AllAnswered(answers)
    ensures var cr := Refreshed(w, c, home, inp.mayGet).crs[c];
            PassSucceeds(w, c, home, inp, answers) <==> cr.allowSubset || Pushing(cr, home, inp, w.objects).errors == []
  {
    hide SweptRoles, SweptBindings, RuntimeInTurn, Pushing, Changes, Unmanaged, AllPassable, Clear, Validated,
      NewStatus, Split, Claimed;
    var w1 := Refreshed(w, c, home, inp.mayGet);
    var cr, cm := w1.crs[c], MapName(w1.crs[c]);
    ClearSweepsAll(answers, Unmanaged(w1, cm, home));
    var cleaned := CleanedExcept(w1, Pushing(cr, home, inp, w.objects).objects, Unmanaged(w1, cm, home), home, cm, answers);
    RuntimeClear(cleaned.roles, cr.members, cr, home, inp.listing, answers);
  }

  lemma NoErrors(answers: Answers)
    ensures AllAnswered(answers) ==> forall call :: ErrorAt(answers, call).None?
  {
  }

  lemma SweptUnlisted(w: World, o: Objects, cm: string, home: string)
    ensures Swept(o, Unmanaged(w, cm, home), home, cm) == Cleaned(w, o, cm, home)
  {
    hide Carries, Claimed;
    if cm !in w.configMaps {
      assert Unmanaged(w, cm, home) == {};
    }
  }

  /** Without answers passed over, such a pass is one of the completed passes that runs are made of. */
  lemma InTurnIsAPass(w: World, w': World, c: string, home: string, inp: Inputs,
                      answers: Answers) returns (schedule: seq<Action>)
    requires c in w.crs && !w.crs[c].deleting && PassEnds(w, w', c, home, inp, answers, None) && Clear(answers)
    ensures PassCompletes(w, w', c, home, inp.(schedule := schedule))
  {
    hide InTurn, Validated, NewStatus, LabelsFor, Runs, Execute, Complete, MapStep, RuntimeInTurn, PassSucceeds,
      PassEnds, SweptRoles,
      SweptBindings, WithRuntime, Unmanaged, Clear, RolesOf, BindingsOf, TaskList, GroupList;
    PassEndsExactly(w, w', c, home, inp, answers, None);
    var w1 := Refreshed(w, c, home, inp.mayGet);
    var cr := w1.crs[c];
    var cm, plan, pushed := MapName(cr), PlanOf(cr, home, inp), Pushing(cr, home, inp, w.objects);
    PlanIsShaped(plan.p, cr.status, inp.accounts, inp.faults, inp.orders);
    schedule := TurnsAreASchedule(plan, w.objects);
    ClearSweepsAll(answers, Unmanaged(w1, cm, home));
    SweptUnlisted(w1, pushed.objects, cm, home);
    var cleaned := CleanedExcept(w1, pushed.objects, Unmanaged(w1, cm, home), home, cm, answers);
    RuntimeClear(cleaned.roles, cr.members, cr, home, inp.listing, answers);
    EndedWithoutError(w, w', c, home, inp, answers);
    assert PlanOf(cr, home, inp.(schedule := schedule)) == plan;
  }

  lemma EndedWithoutError(w: World, w': World, c: string, home: string, inp: Inputs, answers: Answers)
    requires c in w.crs && PassEnds(w, w', c, home, inp, answers, None)
    ensures var w1 := Refreshed(w, c, home, inp.mayGet);
            var cr, cm := w1.crs[c], MapName(w1.crs[c]);
            var pushed := Pushing(cr, home, inp, w.objects);
            && (cr.allowSubset || pushed.errors == []) && AllPassable(answers, Unmanaged(w1, cm, home))
            && RuntimeInTurn(CleanedExcept(w1, pushed.objects, Unmanaged(w1, cm, home), home, cm, answers).roles, cr.members, cr, home,
                             inp.listing, answers).error.None?
  {
    hide SweptRoles, SweptBindings, RuntimeInTurn, Pushing, Refreshed, Unmanaged, AllPassable, MapAnswered,
      RefreshAnswered,
      PassEnds, MapStep;
    PassEndsExactly(w, w', c, home, inp, answers, None);
  }

  // ---------------------------------------------------------------------------------------------
  // A deletion
  // ---------------------------------------------------------------------------------------------

  ghost predicate AfterDeletionCleanup(w: World, w': World, c: string, answers: Answers, s: Sweeping,
                                       error: Option<Error>) {
    && w'.namespaces == w.namespaces && w'.objects == s.objects
    && error == Either(s.error, ErrorAt(answers, RemoveFinalizer))
    && w'.crs == if error.None? then w.crs - {c} else w.crs
  }

  /** The branch of `Reconcile` for a resource being deleted: the world it leaves and the error it ends with. */
  ghost predicate DeletionEnds(w: World, w': World, c: string, home: string, answers: Answers, error: Option<Error>)
    requires c in w.crs
  {
    var cr := w.crs[c];
    && MapEnds(w, cr, answers, w'.configMaps, w'.restarts)
    && if MapError(w, cr, answers).Some? then
         w' == w.(configMaps := w'.configMaps, restarts := w'.restarts) && error == MapError(w, cr, answers)
       else
         exists s :: DeletionCleanupEnds(w, cr, w.objects, s, home, answers) && AfterDeletionCleanup(w, w', c, answers, s, error)
  }

  ghost predicate DeletionSucceeds(w: World, c: string, home: string, answers: Answers)
    requires c in w.crs
  {
    && MapAnswered(w, w.crs[c], answers)
    && answers(FindNamespaceForCleanup).NoFault? && answers(ListMembersForCleanup).NoFault?
    && AllPassable(answers, Abandoned(w, w.crs[c], home)) && answers(RemoveFinalizer).NoFault?
  }

  /** When the finalizer is removed, and what is left then, Forbidden answers and all. */
  lemma DeletionEndsExactly(w: World, w': World, c: string, home: string, answers: Answers, error: Option<Error>)
    requires c in w.crs && DeletionEnds(w, w', c, home, answers, error)
    ensures error.None? <==> DeletionSucceeds(w, c, home, answers)
    ensures error.None? ==>
              var cr := w.crs[c];
              && w'.crs == w.crs - {c} && w'.namespaces == w.namespaces && MapStep(w, cr, w'.configMaps, w'.restarts)
              && w'.objects == CleanedExcept(w, w.objects, Abandoned(w, cr, home), home, MapName(cr), answers)
    ensures AllAnswered(answers) ==> error.None?
  {
    hide SweptRoles, SweptBindings, PartlySwept, MapStep, CleanupEnds, MapTouched, Changes, Abandoned, BreaksAt,
      AllPassable, AllAnswered, MapAnswered, Clear;
    var cr := w.crs[c];
    MapAnsweredIff(w, cr, answers);
    NoErrors(answers);
    ClearSweepsAll(answers, Abandoned(w, cr, home));
    if MapError(w, cr, answers).None? {
      var s :| DeletionCleanupEnds(w, cr, w.objects, s, home, answers) && AfterDeletionCleanup(w, w', c, answers, s, error);
      if DeletionCleanupError(answers).None? {
        CleanupExactly(w.objects, s, Abandoned(w, cr, home), home, MapName(cr), answers);
      }
    }
  }

  /** It is one of the deletion attempts that runs are made of: a failed one whatever the answers, a successful one
    when no answer is passed over. */
  lemma DeletionIsAnAttempt(w: World, w': World, c: string, home: string, answers: Answers, error: Option<Error>)
    requires c in w.crs && w.crs[c].deleting && w.crs[c].finalizer && DeletionEnds(w, w', c, home, answers, error)
    ensures error.Some? ==> AttemptFails(w, w', c, home)
    ensures error.None? && Clear(answers) ==> AttemptSucceeds(w, w', c, home)
  {
    hide SweptRoles, SweptBindings, PartlySwept, MapStep, CleanupEnds, MapTouched, Changes, Abandoned, BreaksAt,
      AllPassable, Clear, RolesOf,
      BindingsOf;
    var cr := w.crs[c];
    DeletionEndsExactly(w, w', c, home, answers, error);
    ClearSweepsAll(answers, Abandoned(w, cr, home));
    NothingSwept(w.objects, Abandoned(w, cr, home), home, MapName(cr));
    if error.Some? && MapError(w, cr, answers).None? {
      var s :| DeletionCleanupEnds(w, cr, w.objects, s, home, answers) && AfterDeletionCleanup(w, w', c, answers, s, error);
      if DeletionCleanupError(answers).None? {
        CleanupExactly(w.objects, s, Abandoned(w, cr, home), home, MapName(cr), answers);
      }
    }
  }

  lemma NothingSwept(o: Objects, targets: set<string>, home: string, cm: string)
    ensures PartlySwept(o, o, targets, home, cm)
  {
  }
}
