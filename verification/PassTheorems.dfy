/** Reconciliations told from resources, objects and answers alone: what a strict pass has copied when it ends without
  an error, and where an error comes from. */
module PassTheorems {
  import opened Rbac
  import opened Lists
  import opened Names
  import opened Store
  import opened Projection
  import opened Worker
  import opened FanOut
  import opened PushPlan
  import opened PushInTurn
  import opened PushGrants
  import opened StrictPushes
  import opened Scope
  import opened ScopeRuns
  import opened RuntimeRoles
  import opened Outcomes

  // ---------------------------------------------------------------------------------------------
  // What a strict pass has copied
  // ---------------------------------------------------------------------------------------------

  /** The member survives validation: active, or not to be looked up for lack of permission. */
  predicate Survives(ns: string, namespaces: map<string, Phase>, mayGet: string -> bool) {
    mayGet(ns) ==> ns in namespaces && namespaces[ns] != Terminating
  }

  /** The push that a strict resource which publishes under `cm` asks for. */
  function StrictPush(hash: string -> string, home: string, cm: string): Push {
    Push(hash, home,
         map["namespace-scope-configmap" := FirstNCharacter(cm + "-" + home, 63),
             "app.kubernetes.io/instance" := "namespace-scope",
             "app.kubernetes.io/managed-by" := "ibm-namespace-scope-operator",
             "app.kubernetes.io/name" := cm],
         false)
  }

  lemma RefreshedPush(w: World, c: string, home: string, inp: Inputs, cm: string)
    requires c in w.crs && !w.crs[c].allowSubset && PublishesUnder(w.crs[c], cm)
    ensures var cr := Refreshed(w, c, home, inp.mayGet).crs[c];
            && MapName(cr) == cm
            && PlanOf(cr, home, inp) == PlanFor(StrictPush(inp.hash, home, cm), cr.status, inp.accounts, inp.faults, inp.orders)
            && PlanOf(cr, home, inp).p == StrictPush(inp.hash, home, cm)
  {
    hide Validated, NewStatus, FirstNCharacter, TaskList, Targets, GroupList;
  }

  /** The refreshed status lists the surviving members and, if listed, the operator's own namespace. */
  lemma RefreshedStatus(w: World, c: string, home: string, mayGet: string -> bool, ns: string)
    requires c in w.crs && ns != home
    ensures ns in Refreshed(w, c, home, mayGet).crs[c].status <==> ns in w.crs[c].members && Survives(ns, w.namespaces, mayGet)
  {
    var status, validated := w.crs[c].status, Validated(w.crs[c].members, w.namespaces, home, mayGet);
    assert ns in Elems(status) <==> ns in status;
    assert ns in Elems(validated) <==> ns in validated;
  }

  /** Cleanup and runtime Roles leave the copies in claimed namespaces alone. */
  lemma CopyOutlivesPass(w: World, w': World, c: string, home: string, inp: Inputs, answers: Answers, key: Key)
    requires c in w.crs && !w.crs[c].deleting && PassEnds(w, w', c, home, inp, answers, None)
    requires key.ns in Refreshed(w, c, home, inp.mayGet).crs[c].status && key.name != RUNTIME_PREFIX + home
    ensures var cr := Refreshed(w, c, home, inp.mayGet).crs[c];
            Lookup(w'.objects.roles, key) == Lookup(Pushing(cr, home, inp, w.objects).objects.roles, key)
  {
    hide PassEnds, Pushing, PassSucceeds, MapStep, RuntimeInTurn, Validated, NewStatus, Claimed, Carries, Listed,
      RolesOf,
      BindingsOf;
    var w1 := Refreshed(w, c, home, inp.mayGet);
    var cr, cm := w1.crs[c], MapName(w1.crs[c]);
    PassEndsExactly(w, w', c, home, inp, answers, None);
    RefreshedSets(w, c, home, inp.mayGet, cm);
    RolesOfTargets(answers, Unmanaged(w1, cm, home));
    var cleaned := CleanedExcept(w1, Pushing(cr, home, inp, w.objects).objects, Unmanaged(w1, cm, home), home, cm, answers);
    RuntimeWritesOnly(cleaned.roles, cr.members, cr, home, inp.listing, answers, key);
  }

  lemma RolesOfTargets(answers: Answers, targets: set<string>)
    ensures RolesOf(answers, targets) <= targets
  {
  }

  /** When a pass of a resource with strict projection ends without an error, every Role found at home that a binding
    gives to an account has its labelled copy in every surviving member, with exactly what is kept of it there. */
  lemma StrictPassCopies(w: World, w': World, c: string, home: string, inp: Inputs, answers: Answers, cm: string,
                         ns: string, sa: string, kb: Key, r: string)
    requires c in w.crs && !w.crs[c].deleting && !w.crs[c].allowSubset && PublishesUnder(w.crs[c], cm)
    requires PassEnds(w, w', c, home, inp, answers, None)
    requires Enumerating(PlanOf(Refreshed(w, c, home, inp.mayGet).crs[c], home, inp), w.objects)
    requires NamesApart(StrictPush(inp.hash, home, cm), inp.accounts, w.objects) && NoRuntimeClash(inp.hash, home)
    requires ns in w.crs[c].members && ns != home && Survives(ns, w.namespaces, inp.mayGet)
    requires sa in inp.accounts && BoundThrough(w.objects, home, sa, kb, r) && Key(home, r) in w.objects.roles
    ensures Arrived(StrictPush(inp.hash, home, cm), w.objects, w'.objects, ns, sa, r)
  {
    hide PassEnds, InTurn, NamesApart, Enumerating, BoundThrough, Validated, NewStatus, PlanFor, ProjectedName,
      FirstNCharacter, Arrived;
    var cr, p := Refreshed(w, c, home, inp.mayGet).crs[c], StrictPush(inp.hash, home, cm);
    RefreshedPush(w, c, home, inp, cm);
    RefreshedStatus(w, c, home, inp.mayGet, ns);
    StrictlyPushed(w, w', c, home, inp, answers, cm);
    StrictTurnsArrive(p, cr.status, inp.accounts, inp.faults, inp.orders, w.objects);
    var key := Key(ns, ProjectedName(inp.hash, r, sa, home));
    CopyOutlivesPass(w, w', c, home, inp, answers, key);
    var pushed := Pushing(cr, home, inp, w.objects).objects;
    assert AllArrived(p, w.objects, pushed, cr.status, inp.accounts);
    StillArrived(p, w.objects, pushed, w'.objects, ns, sa, r);
  }

  lemma StillArrived(p: Push, start: Objects, o: Objects, o': Objects, ns: string, sa: string, r: string)
    requires Key(p.fromNs, r) in start.roles && Arrived(p, start, o, ns, sa, r)
    requires var key := Key(ns, ProjectedName(p.hash, r, sa, p.fromNs)); Lookup(o'.roles, key) == Lookup(o.roles, key)
    ensures Arrived(p, start, o', ns, sa, r)
  {
    hide Allows, Kept, ProjectedName;
  }

  lemma StrictlyPushed(w: World, w': World, c: string, home: string, inp: Inputs, answers: Answers, cm: string)
    requires c in w.crs && !w.crs[c].allowSubset && PassEnds(w, w', c, home, inp, answers, None)
    ensures Pushing(Refreshed(w, c, home, inp.mayGet).crs[c], home, inp, w.objects).errors == []
  {
    hide PassEnds, Pushing, RuntimeInTurn, Validated, NewStatus, Unmanaged;
    EndedWithoutError(w, w', c, home, inp, answers);
  }

  // ---------------------------------------------------------------------------------------------
  // Where errors come from
  // ---------------------------------------------------------------------------------------------

  /** Some call is answered with this error, and it is not one that Forbidden is passed over for: a deletion, or with
    subset projection the creation of a runtime Role. */
  ghost predicate AnAnswer(answers: Answers, allowSubset: bool, e: Error) {
    exists call :: answers(call) == Fails(e) && (e == Forbidden ==> Reported(call, allowSubset))
  }

  predicate Reported(call: Call, allowSubset: bool) {
    !call.DeleteBindings? && !call.DeleteRoles? && !(allowSubset && call.CreateRuntime?)
  }

  lemma ErrorAtIsAnAnswer(answers: Answers, call: Call, allowSubset: bool)
    requires Reported(call, allowSubset)
    ensures ErrorAt(answers, call).Some? ==> AnAnswer(answers, allowSubset, ErrorAt(answers, call).value)
  {
  }

  lemma CallErrors(answers: Answers, allowSubset: bool)
    ensures forall call :: Reported(call, allowSubset) && ErrorAt(answers, call).Some? ==>
                           AnAnswer(answers, allowSubset, ErrorAt(answers, call).value)
  {
    hide ErrorAt, AnAnswer, Reported;
    forall call | Reported(call, allowSubset) {
      ErrorAtIsAnAnswer(answers, call, allowSubset);
    }
  }

  lemma SweepError(answers: Answers, ns: string, e: Error, allowSubset: bool)
    requires FailsThere(answers, ns, e)
    ensures AnAnswer(answers, allowSubset, e)
  {
    assert answers(DeleteBindings(ns)) == Fails(e) || answers(DeleteRoles(ns)) == Fails(e);
  }

  lemma {:induction false} RuntimeError(roles: map<Key, Role>, members: seq<string>, cr: Nss, home: string,
                                        listing: Listing, answers: Answers)
    ensures var end := RuntimeInTurn(roles, members, cr, home, listing, answers);
            end.error.Some? ==> AnAnswer(answers, cr.allowSubset, end.error.value)
  {
    hide LabelledRoles, Summary, RuntimeKey;
    if members != [] {
      var ns := members[|members| - 1];
      RuntimeError(roles, members[..|members| - 1], cr, home, listing, answers);
      ErrorAtIsAnAnswer(answers, FindNamespaceForRuntime(ns), cr.allowSubset);
      ErrorAtIsAnAnswer(answers, UpdateRuntime(ns), cr.allowSubset);
      if answers(CreateRuntime(ns)).Fails? && !(answers(CreateRuntime(ns)).error == Forbidden && cr.allowSubset) {
        assert answers(CreateRuntime(ns)) == Fails(answers(CreateRuntime(ns)).error);
        assert AnAnswer(answers, cr.allowSubset, answers(CreateRuntime(ns)).error);
      }
    }
  }

  lemma {:induction false} UnreadableError(members: seq<string>, home: string, mayGet: string -> bool, answers: Answers)
    ensures var e := Unreadable(members, home, mayGet, answers);
            e.Some? ==> exists ns :: ErrorAt(answers, ReadNamespace(ns)) == e
  {
    if members != [] {
      UnreadableError(members[..|members| - 1], home, mayGet, answers);
    }
  }

  /** An error of the deletion branch is the answer to one of its calls, and never a Forbidden deletion. */
  lemma DeletionErrorIsAnAnswer(w: World, w': World, c: string, home: string, answers: Answers, error: Option<Error>)
    requires c in w.crs && DeletionEnds(w, w', c, home, answers, error)
    ensures error.Some? ==> AnAnswer(answers, w.crs[c].allowSubset, error.value)
  {
    hide AnAnswer, MapEnds, CleanupEnds, MapTouched, Changes, Abandoned, SweptRoles, SweptBindings, PartlySwept,
      AllPassable,
      FailsThere, ErrorAt;
    var cr := w.crs[c];
    CallErrors(answers, cr.allowSubset);
    if MapError(w, cr, answers).None? {
      var s :| DeletionCleanupEnds(w, cr, w.objects, s, home, answers) && AfterDeletionCleanup(w, w', c, answers, s, error);
      if DeletionCleanupError(answers).None? && s.error.Some? {
        CleanupExactly(w.objects, s, Abandoned(w, cr, home), home, MapName(cr), answers);
        var ns :| FailsThere(answers, ns, s.error.value);
        SweepError(answers, ns, s.error.value, cr.allowSubset);
      }
    }
  }

  lemma MapErrorIsAnAnswer(w: World, cr: Nss, answers: Answers, allowSubset: bool)
    ensures MapError(w, cr, answers).Some? ==> AnAnswer(answers, allowSubset, MapError(w, cr, answers).value)
  {
    hide AnAnswer, MapTouched, Changes, ErrorAt;
    CallErrors(answers, allowSubset);
  }

  lemma RefreshErrorIsAnAnswer(cr: Nss, namespaces: map<string, Phase>, home: string, mayGet: string -> bool,
                               answers: Answers, allowSubset: bool)
    ensures var r := RefreshEnds(cr, namespaces, home, mayGet, answers);
            r.error.Some? ==> AnAnswer(answers, allowSubset, r.error.value)
  {
    hide AnAnswer, ErrorAt, Validated, Unreadable;
    CallErrors(answers, allowSubset);
    UnreadableError(cr.members, home, mayGet, answers);
  }

  lemma AfterPushErrorIsAnAnswer(w1: World, w': World, cr: Nss, home: string, inp: Inputs, answers: Answers,
                                 pushed: Objects, error: Option<Error>)
    requires AfterPush(w1, w', cr, home, inp, answers, pushed, error) && error.Some?
    ensures AnAnswer(answers, cr.allowSubset, error.value)
  {
    hide AnAnswer, MapEnds, MapError, CleanupEnds, Unmanaged, SweptRoles, SweptBindings, PartlySwept, AllPassable,
      FailsThere,
      ErrorAt, RuntimeInTurn;
    CallErrors(answers, cr.allowSubset);
    MapErrorIsAnAnswer(w1, cr, answers, cr.allowSubset);
    var s :| PassCleanupEnds(w1, pushed, s, MapName(cr), home, answers) && AfterCleanup(w1, w', cr, home, inp, answers, s, error);
    if PassCleanupError(w1.configMaps, MapName(cr), answers).None? && s.error.Some? {
      CleanupExactly(pushed, s, Unmanaged(w1, MapName(cr), home), home, MapName(cr), answers);
      var ns :| FailsThere(answers, ns, s.error.value);
      SweepError(answers, ns, s.error.value, cr.allowSubset);
    }
    RuntimeError(s.objects.roles, cr.members, cr, home, inp.listing, answers);
  }

  /** An error of the live branch is such an answer too, or it comes from a goroutine of a strict push. */
  lemma PassErrorIsAnAnswer(w: World, w': World, c: string, home: string, inp: Inputs, answers: Answers,
                            error: Option<Error>)
    requires c in w.crs && PassEnds(w, w', c, home, inp, answers, error)
    ensures var cr := Refreshed(w, c, home, inp.mayGet).crs[c];
            error.Some? ==>
              || AnAnswer(answers, w.crs[c].allowSubset, error.value)
              || (!w.crs[c].allowSubset && error.value in Pushing(cr, home, inp, w.objects).errors)
  {
    hide AnAnswer, AfterPush, ErrorAt, Pushing, Validated, NewStatus, Unreadable;
    var r := RefreshEnds(w.crs[c], w.namespaces, home, inp.mayGet, answers);
    var w1 := w.(crs := w.crs[c := r.cr]);
    CallErrors(answers, w.crs[c].allowSubset);
    RefreshErrorIsAnAnswer(w.crs[c], w.namespaces, home, inp.mayGet, answers, w.crs[c].allowSubset);
    RefreshedExactly(w, c, home, inp.mayGet, answers);
    var turned := Pushing(r.cr, home, inp, w.objects);
    assert w1.crs[c] == r.cr;
    if error.Some? && AfterPush(w1, w', r.cr, home, inp, answers, turned.objects, error) {
      AfterPushErrorIsAnAnswer(w1, w', r.cr, home, inp, answers, turned.objects, error);
    }
  }
}
