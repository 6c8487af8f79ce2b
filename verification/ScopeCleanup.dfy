/** Deletion, retried until it succeeds, and what a pass cleans up. */
module ScopeCleanup {
  import opened Lists
  import opened Names
  import opened Store
  import opened FanOut
  import opened PushTheorems
  import opened Scope
  import opened ScopeRuns

  // ---------------------------------------------------------------------------------------------
  // Deletions
  // ---------------------------------------------------------------------------------------------

  /** An object of namespace `ns` that the cleanup for `cm` would select. */
  predicate Selected(o: Objects, key: Key, home: string, cm: string) {
    || (key in o.roles && Carries(o.roles[key].labels, home, cm))
    || (key in o.bindings && Carries(o.bindings[key].labels, home, cm))
  }

  /** When the finalizer is removed no labelled object is left in a spec member that no surviving
    resource claims, the operator's namespace aside. */
  lemma DeletionLeavesNothing(w: World, w': World, c: string, home: string, key: Key)
    requires AttemptSucceeds(w, w', c, home)
    requires key.ns in w.crs[c].members && key.ns != home
    ensures key.ns in Claimed(w'.crs, MapName(w.crs[c])) || !Selected(w'.objects, key, home, MapName(w.crs[c]))
  {
    hide Claimed, LabelValue;
    DeletedSets(w, c, MapName(w.crs[c]), key.ns);
  }

  /** Failed attempts at deleting one resource, each starting where the one before stopped. */
  ghost predicate Attempts(worlds: seq<World>, c: string, home: string) {
    && worlds != []
    && forall i :: 0 <= i < |worlds| - 1 ==> AttemptFails(worlds[i], worlds[i + 1], c, home)
  }

  /** Attempts touch nothing but labelled objects of abandoned members: what surviving resources claim
    stays as it was, through every retry. */
  lemma {:induction false} AttemptsSpare(worlds: seq<World>, c: string, home: string, key: Key)
    requires Attempts(worlds, c, home)
    ensures worlds[|worlds| - 1].crs == worlds[0].crs
    ensures c in worlds[0].crs ==>
              var first, last, cr := worlds[0], worlds[|worlds| - 1], worlds[0].crs[c];
              || SameObjectAt(first.objects, last.objects, key)
              || (key.ns in Abandoned(first, cr, home) && Selected(first.objects, key, home, MapName(cr)))
  {
    hide Claimed, LabelValue, MapStep, Carries;
    if |worlds| > 1 {
      var n := |worlds| - 2;
      var before, after := worlds[n], worlds[n + 1];
      assert AttemptFails(worlds[n], worlds[n + 1], c, home);
      AttemptsSpare(worlds[..n + 1], c, home, key);
      if after != before {
        var cr := before.crs[c];
        assert Lookup(after.objects.roles, key) == Lookup(before.objects.roles, key) || key.ns in Abandoned(before, cr, home);
        assert Lookup(after.objects.bindings, key) == Lookup(before.objects.bindings, key) || key.ns in Abandoned(before, cr, home);
      }
    }
  }

  /** The whole deletion: any number of failed attempts and the one that succeeds. */
  lemma RetriedDeletion(worlds: seq<World>, w': World, c: string, home: string, key: Key)
    requires Attempts(worlds, c, home) && AttemptSucceeds(worlds[|worlds| - 1], w', c, home)
    ensures c in worlds[0].crs
    ensures var cr := worlds[0].crs[c];
            var cm := MapName(cr);
            && (key.ns in Elems(cr.members) - Claimed(worlds[0].crs, cm) - {home} ==> !Selected(w'.objects, key, home, cm))
            && (key.ns !in Elems(cr.members) - Claimed(worlds[0].crs, cm) - {home} ==> SameObjectAt(worlds[0].objects, w'.objects, key))
            && (!Selected(worlds[0].objects, key, home, cm) ==> SameObjectAt(worlds[0].objects, w'.objects, key))
  {
    hide Claimed, LabelValue, MapStep, Carries;
    AttemptsSpare(worlds, c, home, key);
  }

  // ---------------------------------------------------------------------------------------------
  // What a pass cleans up
  // ---------------------------------------------------------------------------------------------

  /** The namespaces a pass cleans: listed before it, and claimed by nobody after it. */
  function Dropped(w: World, w': World, cm: string, home: string): set<string> {
    Listed(w.configMaps, cm) - Claimed(w'.crs, cm) - {home}
  }

  /** A pass removes a labelled object exactly when its namespace was listed and is no longer claimed.  So an
    object in a namespace that is neither listed nor claimed, as a pass that failed before its ConfigMap
    update can leave behind, is never removed by later passes. */
  lemma PassCleansIff(w: World, w': World, c: string, home: string, inp: Inputs, key: Key)
    requires PassCompletes(w, w', c, home, inp) && key.name != RUNTIME_PREFIX + home
    ensures var cm := MapName(w.crs[c]);
            && (key in w.objects.roles && Carries(w.objects.roles[key].labels, home, cm) ==>
                  (key !in w'.objects.roles <==> key.ns in Dropped(w, w', cm, home)))
            && (key in w.objects.bindings && Carries(w.objects.bindings[key].labels, home, cm) ==>
                  (key !in w'.objects.bindings <==> key.ns in Dropped(w, w', cm, home)))
  {
    hide LabelsFor, Validated, NewStatus, Claimed, Listed, Runs, Execute, Complete, After, MapStep, WithRuntime,
      LabelValue, PlanOf;
    var w1 := Refreshed(w, c, home, inp.mayGet);
    var cr := w1.crs[c];
    var pushed := After(PlanOf(cr, home, inp), w.objects, inp.schedule);
    var o := Cleaned(w1, pushed, MapName(cr), home);
    RefreshedSets(w, c, home, inp.mayGet, MapName(cr));
    PassWritesLabelled(cr, home, inp, w.objects, key);
    RuntimeUnlabelled(o.roles, cr.members, home, MapName(cr), inp.listing, key);
    NothingListedWithout(w.configMaps, MapName(cr));
    assert Lookup(w'.objects.roles, key) == Lookup(o.roles, key);
  }

  // ---------------------------------------------------------------------------------------------
  // Objects of other ConfigMaps
  // ---------------------------------------------------------------------------------------------

  /** The label values of two ConfigMaps coincide. */
  predicate Confused(cm: string, other: string, home: string) {
    SameTruncated(cm + "-" + home, other + "-" + home, 63)
  }

  lemma CarriesOther(labels: map<string, string>, home: string, cm: string, other: string)
    requires Carries(labels, home, other)
    ensures Carries(labels, home, cm) <==> Confused(cm, other, home)
  {
    hide LabelValue, SameTruncated;
    LabelValueSameIff(cm, other, home);
  }

  /** A successful deletion for one ConfigMap takes an object labelled for another exactly when it lies in an
    abandoned member and the label values of the two coincide. */
  lemma DeletionTakesOthersIff(w: World, w': World, c: string, home: string, other: string, key: Key)
    requires AttemptSucceeds(w, w', c, home)
    ensures var cm, targets := MapName(w.crs[c]), Abandoned(w, w.crs[c], home);
            && (key in w.objects.roles && Carries(w.objects.roles[key].labels, home, other) ==>
                  (key !in w'.objects.roles <==> key.ns in targets && Confused(cm, other, home)))
            && (key in w.objects.bindings && Carries(w.objects.bindings[key].labels, home, other) ==>
                  (key !in w'.objects.bindings <==> key.ns in targets && Confused(cm, other, home)))
  {
    hide Carries, Claimed, Abandoned, MapStep, SameTruncated;
    var cm := MapName(w.crs[c]);
    if key in w.objects.roles && Carries(w.objects.roles[key].labels, home, other) {
      CarriesOther(w.objects.roles[key].labels, home, cm, other);
    }
    if key in w.objects.bindings && Carries(w.objects.bindings[key].labels, home, other) {
      CarriesOther(w.objects.bindings[key].labels, home, cm, other);
    }
  }

  /** What carries no label of the pass's ConfigMap is never removed. */
  lemma PassSparesUnlabelled(w: World, w': World, c: string, home: string, inp: Inputs, key: Key)
    requires PassCompletes(w, w', c, home, inp) && key.name != RUNTIME_PREFIX + home
    ensures var cm := MapName(w.crs[c]);
            && (key in w.objects.roles && !Carries(w.objects.roles[key].labels, home, cm) ==> key in w'.objects.roles)
            && (key in w.objects.bindings && !Carries(w.objects.bindings[key].labels, home, cm) ==> key in w'.objects.bindings)
  {
    hide LabelsFor, Validated, NewStatus, Claimed, Listed, Runs, Execute, Complete, After, MapStep, WithRuntime,
      LabelValue, PlanOf;
    var w1 := Refreshed(w, c, home, inp.mayGet);
    var cr := w1.crs[c];
    var o := Cleaned(w1, After(PlanOf(cr, home, inp), w.objects, inp.schedule), MapName(cr), home);
    RefreshedSets(w, c, home, inp.mayGet, MapName(cr));
    PassWritesLabelled(cr, home, inp, w.objects, key);
    RuntimeUnlabelled(o.roles, cr.members, home, MapName(cr), inp.listing, key);
    NothingListedWithout(w.configMaps, MapName(cr));
    assert Lookup(w'.objects.roles, key) == Lookup(o.roles, key);
  }

  /** A pass for one ConfigMap removes an object labelled for another exactly when it lies in a namespace the pass
    drops and the label values of the two coincide. */
  lemma PassTakesOthersIff(w: World, w': World, c: string, home: string, inp: Inputs, other: string, key: Key)
    requires PassCompletes(w, w', c, home, inp) && key.name != RUNTIME_PREFIX + home
    ensures var cm := MapName(w.crs[c]);
            && (key in w.objects.roles && Carries(w.objects.roles[key].labels, home, other) ==>
                  (key !in w'.objects.roles <==> key.ns in Dropped(w, w', cm, home) && Confused(cm, other, home)))
            && (key in w.objects.bindings && Carries(w.objects.bindings[key].labels, home, other) ==>
                  (key !in w'.objects.bindings <==> key.ns in Dropped(w, w', cm, home) && Confused(cm, other, home)))
  {
    hide Carries, Confused, Dropped, PushSucceeds, PassAround, After, PlanOf;
    PassCleansIff(w, w', c, home, inp, key);
    PassSparesUnlabelled(w, w', c, home, inp, key);
    if key in w.objects.roles && Carries(w.objects.roles[key].labels, home, other) {
      CarriesOther(w.objects.roles[key].labels, home, MapName(w.crs[c]), other);
    }
    if key in w.objects.bindings && Carries(w.objects.bindings[key].labels, home, other) {
      CarriesOther(w.objects.bindings[key].labels, home, MapName(w.crs[c]), other);
    }
  }
}
