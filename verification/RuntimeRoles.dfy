/** Runtime Roles: what they allow and why they never feed on themselves. */
module RuntimeRoles {
  import opened Rbac
  import opened Lists
  import opened Names
  import opened Store
  import opened Projection
  import opened FanOut
  import opened PushTheorems
  import opened Scope
  import opened ScopeRuns

  /** No runtime Role carries the label, so none is summarized into one. */
  ghost predicate RuntimeClean(roles: map<Key, Role>, home: string, cm: string) {
    forall ns :: RuntimeKey(ns, home) in roles ==> !Carries(roles[RuntimeKey(ns, home)].labels, home, cm)
  }

  ghost predicate FullListing(listing: Listing) {
    forall s :: ListsAll(listing, s)
  }

  lemma RuntimeStepKeeps(roles: map<Key, Role>, ns: string, home: string, cm: string, listing: Listing, other: string)
    requires RuntimeClean(roles, home, cm)
    ensures var after := RuntimeStep(roles, ns, home, cm, listing);
            RuntimeClean(after, home, cm) && LabelledRoles(after, other, home, cm) == LabelledRoles(roles, other, home, cm)
  {
  }

  /** The Role a namespace's labelled Roles summarize to, from the roles before any runtime Role was written. */
  function RuntimeRole(roles: map<Key, Role>, ns: string, home: string, cm: string, listing: Listing): Role {
    Role(map[], Summary(roles, listing(LabelledRoles(roles, ns, home, cm))))
  }

  predicate GetsRuntimeRole(roles: map<Key, Role>, members: seq<string>, home: string, cm: string, key: Key) {
    key.ns in members && key.ns != home && key == RuntimeKey(key.ns, home) && LabelledRoles(roles, key.ns, home, cm) != {}
  }

  lemma {:induction false} SummarySame(a: map<Key, Role>, b: map<Key, Role>, keys: seq<Key>)
    requires forall k :: k in keys ==> Lookup(a, k) == Lookup(b, k)
    ensures Summary(a, keys) == Summary(b, keys)
  {
    hide Excluded;
    if keys != [] {
      SummarySame(a, b, keys[..|keys| - 1]);
      assert Lookup(a, keys[|keys| - 1]) == Lookup(b, keys[|keys| - 1]);
    }
  }

  /** Exactly the member namespaces with labelled Roles get a runtime Role; nothing else changes. */
  lemma {:induction false} RuntimeExactly(roles: map<Key, Role>, members: seq<string>, home: string, cm: string,
                                          listing: Listing)
    requires RuntimeClean(roles, home, cm) && FullListing(listing)
    ensures var after := WithRuntime(roles, members, home, cm, listing);
            && RuntimeClean(after, home, cm)
            && (forall ns :: LabelledRoles(after, ns, home, cm) == LabelledRoles(roles, ns, home, cm))
            && (forall key :: Lookup(after, key) ==
                  if GetsRuntimeRole(roles, members, home, cm, key) then Some(RuntimeRole(roles, key.ns, home, cm, listing))
                  else Lookup(roles, key))
  {
    hide LabelValue, Summary, Carries, LabelledRoles;
    if members != [] {
      var init, last := members[..|members| - 1], members[|members| - 1];
      assert members == init + [last];
      RuntimeExactly(roles, init, home, cm, listing);
      var before := WithRuntime(roles, init, home, cm, listing);
      forall ns {
        RuntimeStepKeeps(before, last, home, cm, listing, ns);
      }
      RuntimeStepKeeps(before, last, home, cm, listing, last);
      SummaryUnaffected(roles, before, last, home, cm, listing, init);
    }
  }

  lemma RuntimeKeyUnlisted(roles: map<Key, Role>, ns: string, home: string, cm: string, other: string)
    requires RuntimeClean(roles, home, cm)
    ensures RuntimeKey(other, home) !in LabelledRoles(roles, ns, home, cm)
  {
    hide LabelValue;
  }

  lemma SummaryUnaffected(roles: map<Key, Role>, before: map<Key, Role>, ns: string, home: string, cm: string,
                          listing: Listing, members: seq<string>)
    requires RuntimeClean(roles, home, cm) && FullListing(listing)
    requires forall key :: Lookup(before, key) ==
               if GetsRuntimeRole(roles, members, home, cm, key) then Some(RuntimeRole(roles, key.ns, home, cm, listing))
               else Lookup(roles, key)
    ensures Summary(before, listing(LabelledRoles(roles, ns, home, cm))) == Summary(roles, listing(LabelledRoles(roles, ns, home, cm)))
  {
    hide LabelValue, Summary;
    var labelled := LabelledRoles(roles, ns, home, cm);
    assert ListsAll(listing, labelled);
    forall k | k in listing(labelled)
      ensures Lookup(before, k) == Lookup(roles, k)
    {
      assert k in Elems(listing(labelled));
      RuntimeKeyUnlisted(roles, ns, home, cm, k.ns);
    }
    SummarySame(before, roles, listing(labelled));
  }

  /** A runtime Role allows exactly what the labelled Roles outside the exclusion pattern allow. */
  lemma {:induction false} SummaryAllows(roles: map<Key, Role>, keys: seq<Key>, q: Request)
    ensures Allows(Summary(roles, keys), q) <==>
            exists k :: k in keys && k in roles && !Excluded(k.name) && Allows(roles[k].rules, q)
  {
    hide Excluded, Allows;
    if keys == [] {
      NothingAllowed(q);
    } else {
      var init, last := keys[..|keys| - 1], keys[|keys| - 1];
      assert keys == init + [last];
      SummaryAllows(roles, init, q);
      var rules := if last !in roles || Excluded(last.name) then [] else roles[last].rules;
      AllowsConcat(Summary(roles, init), rules, q);
      NothingAllowed(q);
    }
  }

  lemma RuntimeRoleAllows(roles: map<Key, Role>, ns: string, home: string, cm: string, listing: Listing, q: Request)
    requires FullListing(listing)
    ensures Allows(RuntimeRole(roles, ns, home, cm, listing).rules, q) <==>
            exists k :: k in LabelledRoles(roles, ns, home, cm) && !Excluded(k.name) && Allows(roles[k].rules, q)
  {
    hide Excluded, Allows, LabelValue, Summary, Carries;
    var labelled := LabelledRoles(roles, ns, home, cm);
    assert ListsAll(listing, labelled);
    SummaryAllows(roles, listing(labelled), q);
    forall k
      ensures k in listing(labelled) <==> k in labelled
    {
      assert k in Elems(listing(labelled)) <==> k in listing(labelled);
    }
  }

  /** The exclusion pattern does not match the runtime Role itself: only its missing label keeps it out. */
  lemma PatternMissesRuntimeRole(home: string)
    ensures !Excluded(RUNTIME_PREFIX + home)
  {
    assert (RUNTIME_PREFIX + home)[4] == 'r' && (RUNTIME_PREFIX + home)[12] == 'm';
    assert "nss-managed-role-from"[4] == 'm';
    assert "nss-runtime-role-from"[12] == 'r';
  }

  /** No dash of the text is followed by two characters a digest could begin with. */
  predicate Indigestible(pattern: string) {
    && '.' !in pattern
    && forall i | 0 <= i < |pattern| && pattern[i] == '-' :: NoDigestFrom(pattern, i + 1)
  }

  predicate NoDigestFrom(text: string, i: nat) {
    i < |text| && (text[i] !in HEX_DIGITS || (i + 1 < |text| && text[i + 1] !in HEX_DIGITS))
  }

  lemma PatternEndsBefore(pattern: string, r: string, digest: string)
    requires IsDigest(digest) && Indigestible(pattern)
    ensures pattern <= BeforeDot(r) + "-" + digest <==> pattern <= r
  {
    var front, n := BeforeDot(r), |pattern|;
    var name := front + "-" + digest;
    if n <= |front| {
      SamePrefix(pattern, front, name);
      SamePrefix(pattern, front, r);
    } else {
      DigestDiffers(pattern, front, digest);
      DotDiffers(pattern, front, r);
    }
  }

  lemma SamePrefix(pattern: string, front: string, whole: string)
    requires front <= whole && |pattern| <= |front|
    ensures pattern <= whole <==> pattern <= front
  {
  }

  lemma DotDiffers(pattern: string, front: string, r: string)
    requires front <= r && (r == front || r[|front|] == '.') && |pattern| > |front| && '.' !in pattern
    ensures !(pattern <= r)
  {
    assert pattern[|front|] in pattern;
  }

  /** A longer pattern does not fit a dash and a digest. */
  lemma DigestDiffers(pattern: string, front: string, digest: string)
    requires IsDigest(digest) && Indigestible(pattern) && |pattern| > |front|
    ensures !(pattern <= front + "-" + digest)
  {
    var i, name := |front|, front + "-" + digest;
    assert name[i] == '-' && name[i + 1] == digest[0] && name[i + 2] == digest[1];
    assert digest[0] in HEX_DIGITS && digest[1] in HEX_DIGITS;
    if pattern[i] == '-' {
      assert NoDigestFrom(pattern, i + 1);
      if pattern[i + 1] in HEX_DIGITS {
        assert pattern[i + 2] != name[i + 2];
      } else {
        assert pattern[i + 1] != name[i + 1];
      }
    } else {
      assert pattern[i] != name[i];
    }
  }

  /** The exclusion pattern passes over a copy exactly when its Role's own name starts that way. */
  lemma CopyExcludedIff(hash: string -> string, r: string, sa: string, home: string)
    requires IsDigest(hash(r + sa + home))
    ensures Excluded(ProjectedName(hash, r, sa, home)) <==> "nss-managed-role-from" <= r || "nss-runtime-role-from" <= r
  {
    hide IsDigest, Indigestible;
    ManagedPattern();
    RuntimePattern();
    PatternEndsBefore("nss-managed-role-from", r, hash(r + sa + home));
    PatternEndsBefore("nss-runtime-role-from", r, hash(r + sa + home));
  }

  lemma ManagedPattern()
    ensures Indigestible("nss-managed-role-from")
  {
    var pattern := "nss-managed-role-from";
    assert pattern[4] == 'm' && pattern[12] == 'r' && pattern[18] == 'r';
  }

  lemma RuntimePattern()
    ensures Indigestible("nss-runtime-role-from")
  {
    var pattern := "nss-runtime-role-from";
    assert pattern[4] == 'r' && pattern[12] == 'r' && pattern[18] == 'r';
  }

  /** The copies have names that no runtime Role has. */
  ghost predicate NoRuntimeClash(hash: string -> string, home: string) {
    forall r, sa :: ProjectedName(hash, r, sa, home) != RUNTIME_PREFIX + home
  }

  /** Push and cleanup hand no label to a runtime Role. */
  lemma CleanedRuntimeClean(w: World, w': World, c: string, home: string, inp: Inputs)
    requires PassCompletes(w, w', c, home, inp) && NoRuntimeClash(inp.hash, home)
    requires RuntimeClean(w.objects.roles, home, MapName(w.crs[c]))
    ensures var w1 := Refreshed(w, c, home, inp.mayGet);
            var cm := MapName(w1.crs[c]);
            RuntimeClean(Cleaned(w1, After(PlanOf(w1.crs[c], home, inp), w1.objects, inp.schedule), cm, home).roles, home, cm)
  {
    hide LabelsFor, Validated, NewStatus, Claimed, Listed, Runs, Execute, After, MapStep, Summary, LabelledRoles,
      ProjectedName, WithRuntime;
    var w1 := Refreshed(w, c, home, inp.mayGet);
    var cr := w1.crs[c];
    var pushed := After(PlanOf(cr, home, inp), w1.objects, inp.schedule);
    var o := Cleaned(w1, pushed, MapName(cr), home);
    forall ns | RuntimeKey(ns, home) in o.roles
      ensures !Carries(o.roles[RuntimeKey(ns, home)].labels, home, MapName(cr))
    {
      var key := RuntimeKey(ns, home);
      PassWritesLabelled(cr, home, inp, w1.objects, key);
      assert !PassMayWrite(cr, home, inp, key);
      assert Lookup(pushed.roles, key) == Lookup(w.objects.roles, key);
    }
  }

  /** Over any number of passes the runtime Roles stay without label. */
  lemma PassKeepsRuntimeClean(w: World, w': World, c: string, home: string, inp: Inputs, cm: string)
    requires PassCompletes(w, w', c, home, inp) && NoRuntimeClash(inp.hash, home)
    requires RuntimeClean(w.objects.roles, home, cm)
    ensures RuntimeClean(w'.objects.roles, home, cm)
  {
    hide LabelsFor, Validated, NewStatus, Claimed, Listed, Runs, Execute, After, MapStep, Summary, LabelledRoles,
      ProjectedName;
    var w1 := Refreshed(w, c, home, inp.mayGet);
    var cr := w1.crs[c];
    var pushed := After(PlanOf(cr, home, inp), w1.objects, inp.schedule);
    var o := Cleaned(w1, pushed, MapName(cr), home);
    forall ns | RuntimeKey(ns, home) in w'.objects.roles
      ensures !Carries(w'.objects.roles[RuntimeKey(ns, home)].labels, home, cm)
    {
      var key := RuntimeKey(ns, home);
      RuntimeUnlabelled(o.roles, cr.members, home, MapName(cr), inp.listing, key);
      PassWritesLabelled(cr, home, inp, w1.objects, key);
      assert !PassMayWrite(cr, home, inp, key);
      assert Lookup(pushed.roles, key) == Lookup(w.objects.roles, key);
      assert Lookup(w'.objects.roles, key) == Lookup(o.roles, key) || w'.objects.roles[key].labels == map[];
    }
  }

  /** Summarizing again gives the same runtime Roles. */
  lemma RuntimeTwice(roles: map<Key, Role>, members: seq<string>, home: string, cm: string, listing: Listing)
    requires RuntimeClean(roles, home, cm) && FullListing(listing)
    ensures var after := WithRuntime(roles, members, home, cm, listing);
            WithRuntime(after, members, home, cm, listing) == after
  {
    hide LabelValue, Summary, Carries, LabelledRoles, WithRuntime;
    var after := WithRuntime(roles, members, home, cm, listing);
    RuntimeExactly(roles, members, home, cm, listing);
    RuntimeExactly(after, members, home, cm, listing);
    forall key
      ensures Lookup(WithRuntime(after, members, home, cm, listing), key) == Lookup(after, key)
    {
      SummaryUnaffected(roles, after, key.ns, home, cm, listing, members);
    }
    SameLookups(WithRuntime(after, members, home, cm, listing), after);
  }

  /** No copy's name is a runtime Role's, unless the operator's namespace is a digest or ends in one. */
  lemma RuntimeNamesApart(hash: string -> string, home: string)
    requires forall s :: IsDigest(hash(s))
    requires !IsDigest(home) && !EndsInDigest(home)
    ensures NoRuntimeClash(hash, home)
  {
    hide ProjectedName, EndsInDigest, IsDigest;
    PrefixedEndsInDigest(home);
    forall r, sa
      ensures ProjectedName(hash, r, sa, home) != RUNTIME_PREFIX + home
    {
      assert IsDigest(hash(r + sa + home));
      ProjectedNameEndsInDigest(hash, r, sa, home);
    }
  }

  // ---------------------------------------------------------------------------------------------
  // Over whole runs
  // ---------------------------------------------------------------------------------------------

  /** Deletions and outside changes give no runtime Role a label. */
  lemma OtherStepsKeepRuntimeClean(home: string, w: World, step: Step, w': World, cm: string)
    requires Next(home, w, step, w') && !step.Pass? && RuntimeClean(w.objects.roles, home, cm)
    ensures RuntimeClean(w'.objects.roles, home, cm)
  {
    hide MapStep, Claimed, LabelValue, Abandoned, Evolves;
    forall ns | RuntimeKey(ns, home) in w'.objects.roles
      ensures !Carries(w'.objects.roles[RuntimeKey(ns, home)].labels, home, cm)
    {
      var key := RuntimeKey(ns, home);
      assert Lookup(w'.objects.roles, key) == Lookup(w.objects.roles, key) ||
             (key in w'.objects.roles ==> Unlabelled(w'.objects.roles[key].labels));
    }
  }

  ghost predicate NoClashes(home: string, steps: seq<Step>) {
    forall i :: 0 <= i < |steps| && steps[i].Pass? ==> NoRuntimeClash(steps[i].inputs.hash, home)
  }

  lemma {:induction false} RunKeepsRuntimeClean(home: string, worlds: seq<World>, steps: seq<Step>, i: nat, cm: string)
    requires Run(home, worlds, steps) && NoClashes(home, steps) && i <= |steps|
    requires RuntimeClean(worlds[0].objects.roles, home, cm)
    ensures RuntimeClean(worlds[i].objects.roles, home, cm)
  {
    hide Next, RuntimeClean, NoRuntimeClash;
    if i > 0 {
      RunKeepsRuntimeClean(home, worlds, steps, i - 1, cm);
      var w, step, w' := worlds[i - 1], steps[i - 1], worlds[i - 1 + 1];
      assert Next(home, w, step, w');
      if step.Pass? {
        NextPass(home, w, step, w');
        PassKeepsRuntimeClean(w, w', step.c, home, step.inputs, cm);
      } else {
        OtherStepsKeepRuntimeClean(home, w, step, w', cm);
      }
    }
  }

  lemma NextPass(home: string, w: World, step: Step, w': World)
    requires Next(home, w, step, w') && step.Pass?
    ensures PassCompletes(w, w', step.c, home, step.inputs)
  {
  }

  /** Whenever a pass of a run ends, the runtime Role of a member namespace with labelled Roles allows
    exactly the union of what these, the excluded names aside, allow at that moment: none of it stems
    from a runtime Role of an earlier pass. */
  lemma RuntimeRoleInRun(home: string, worlds: seq<World>, steps: seq<Step>, i: nat, ns: string, q: Request)
    requires Run(home, worlds, steps) && NoClashes(home, steps) && i < |steps| && steps[i].Pass?
    requires forall cm :: RuntimeClean(worlds[0].objects.roles, home, cm)
    requires FullListing(steps[i].inputs.listing)
    requires steps[i].c in worlds[i].crs && ns in worlds[i].crs[steps[i].c].members && ns != home
    requires LabelledRoles(worlds[i + 1].objects.roles, ns, home, MapName(worlds[i].crs[steps[i].c])) != {}
    ensures var cm, roles := MapName(worlds[i].crs[steps[i].c]), worlds[i + 1].objects.roles;
            && RuntimeKey(ns, home) in roles && RuntimeKey(ns, home) !in LabelledRoles(roles, ns, home, cm)
            && (Allows(roles[RuntimeKey(ns, home)].rules, q) <==>
                exists k :: k in LabelledRoles(roles, ns, home, cm) && !Excluded(k.name) && Allows(roles[k].rules, q))
  {
    hide Next, LabelledRoles, RuntimeClean, NoRuntimeClash, PassCompletes, Allows, Excluded, FullListing;
    var w, w', step := worlds[i], worlds[i + 1], steps[i];
    var cm := MapName(w.crs[step.c]);
    RunKeepsRuntimeClean(home, worlds, steps, i, cm);
    RunNext(home, worlds, steps, i);
    NextPass(home, w, step, w');
    PassRuntimeRole(w, w', step.c, home, step.inputs, ns, q);
  }

  /** So it allows what the labelled copies in the namespace allow, but for copies of Roles whose own names begin like
    the operator's. */
  lemma RuntimeAllowsCopies(home: string, worlds: seq<World>, steps: seq<Step>, i: nat, ns: string,
                            hash: string -> string, r: string, sa: string, q: Request)
    requires Run(home, worlds, steps) && NoClashes(home, steps) && i < |steps| && steps[i].Pass?
    requires forall cm :: RuntimeClean(worlds[0].objects.roles, home, cm)
    requires FullListing(steps[i].inputs.listing)
    requires steps[i].c in worlds[i].crs && ns in worlds[i].crs[steps[i].c].members && ns != home
    requires IsDigest(hash(r + sa + home)) && !("nss-managed-role-from" <= r) && !("nss-runtime-role-from" <= r)
    requires var cr, roles := worlds[i].crs[steps[i].c], worlds[i + 1].objects.roles;
             var cm := if cr.configMapName == "" then "namespace-scope" else cr.configMapName;
             var key := Key(ns, ProjectedName(hash, r, sa, home));
             && key in roles && HasLabel(roles[key].labels, "namespace-scope-configmap", FirstNCharacter(cm + "-" + home, 63))
             && Allows(roles[key].rules, q)
    ensures var roles, key := worlds[i + 1].objects.roles, Key(ns, "nss-runtime-managed-role-from-" + home);
            key in roles && Allows(roles[key].rules, q)
  {
    hide Next, NoClashes, RuntimeClean, FullListing, Allows, Excluded, FirstNCharacter, ProjectedName, IsDigest;
    var cr, roles, key := worlds[i].crs[steps[i].c], worlds[i + 1].objects.roles, Key(ns, ProjectedName(hash, r, sa, home));
    assert key in LabelledRoles(roles, ns, home, MapName(cr));
    CopyExcludedIff(hash, r, sa, home);
    RuntimeRoleInRun(home, worlds, steps, i, ns, q);
  }

  /** And it allows nothing else: some labelled Role of that namespace, not named like the operator's own, allows it. */
  lemma RuntimeAllowsOnly(home: string, worlds: seq<World>, steps: seq<Step>, i: nat, ns: string, q: Request,
                          cm: string) returns (k: Key)
    requires Run(home, worlds, steps) && NoClashes(home, steps) && i < |steps| && steps[i].Pass?
    requires forall cm :: RuntimeClean(worlds[0].objects.roles, home, cm)
    requires FullListing(steps[i].inputs.listing)
    requires steps[i].c in worlds[i].crs && ns in worlds[i].crs[steps[i].c].members && ns != home
    requires PublishesUnder(worlds[i].crs[steps[i].c], cm)
    requires LabelledRoles(worlds[i + 1].objects.roles, ns, home, cm) != {}
    requires var roles, key := worlds[i + 1].objects.roles, Key(ns, "nss-runtime-managed-role-from-" + home);
             key in roles ==> Allows(roles[key].rules, q)
    ensures var roles := worlds[i + 1].objects.roles;
            && k in roles && k.ns == ns && Allows(roles[k].rules, q)
            && HasLabel(roles[k].labels, "namespace-scope-configmap", FirstNCharacter(cm + "-" + home, 63))
            && !("nss-managed-role-from" <= k.name) && !("nss-runtime-role-from" <= k.name)
  {
    hide Next, NoClashes, RuntimeClean, FullListing, Allows, FirstNCharacter;
    var cr, roles := worlds[i].crs[steps[i].c], worlds[i + 1].objects.roles;
    assert MapName(cr) == cm;
    RuntimeRoleInRun(home, worlds, steps, i, ns, q);
    k :| k in LabelledRoles(roles, ns, home, cm) && !Excluded(k.name) && Allows(roles[k].rules, q);
  }

  lemma RunNext(home: string, worlds: seq<World>, steps: seq<Step>, i: nat)
    requires Run(home, worlds, steps) && i < |steps|
    ensures Next(home, worlds[i], steps[i], worlds[i + 1])
  {
    hide Next;
  }

  lemma PassRuntimeRole(w: World, w': World, c: string, home: string, inp: Inputs, ns: string, q: Request)
    requires PassCompletes(w, w', c, home, inp) && NoRuntimeClash(inp.hash, home) && FullListing(inp.listing)
    requires RuntimeClean(w.objects.roles, home, MapName(w.crs[c]))
    requires ns in w.crs[c].members && ns != home
    requires LabelledRoles(w'.objects.roles, ns, home, MapName(w.crs[c])) != {}
    ensures var cm, roles := MapName(w.crs[c]), w'.objects.roles;
            && RuntimeKey(ns, home) in roles && RuntimeKey(ns, home) !in LabelledRoles(roles, ns, home, cm)
            && (Allows(roles[RuntimeKey(ns, home)].rules, q) <==>
                exists k :: k in LabelledRoles(roles, ns, home, cm) && !Excluded(k.name) && Allows(roles[k].rules, q))
  {
    hide PushSucceeds, MapStep, Validated, NewStatus, Cleaned, After, PlanOf, WithRuntime, RuntimeClean,
      NoRuntimeClash, FullListing,
      LabelledRoles, Allows, Excluded;
    var w1 := Refreshed(w, c, home, inp.mayGet);
    var cr, cm := w1.crs[c], MapName(w1.crs[c]);
    CleanedRuntimeClean(w, w', c, home, inp);
    PassLeaves(w, w', c, home, inp);
    var before := PassRoles(w, c, home, inp);
    SummarizedRoles(before, cr.members, ns, home, cm, inp.listing, q);
  }

  function PassRoles(w: World, c: string, home: string, inp: Inputs): map<Key, Role>
    requires c in w.crs
    requires PushSucceeds(PlanOf(Refreshed(w, c, home, inp.mayGet).crs[c], home, inp), w.objects, inp.schedule)
  {
    var w1 := Refreshed(w, c, home, inp.mayGet);
    var plan := PlanOf(w1.crs[c], home, inp);
    Cleaned(w1, After(plan, w.objects, inp.schedule), MapName(w1.crs[c]), home).roles
  }

  lemma PassLeaves(w: World, w': World, c: string, home: string, inp: Inputs)
    requires PassCompletes(w, w', c, home, inp)
    ensures w'.objects.roles == WithRuntime(PassRoles(w, c, home, inp), w.crs[c].members, home, MapName(w.crs[c]), inp.listing)
  {
    hide MapStep, Validated, NewStatus, Cleaned, Runs, Execute, Complete, PlanOf, WithRuntime;
  }

  lemma SummarizedRoles(roles: map<Key, Role>, members: seq<string>, ns: string, home: string, cm: string,
                        listing: Listing, q: Request)
    requires RuntimeClean(roles, home, cm) && FullListing(listing)
    requires ns in members && ns != home
    requires LabelledRoles(WithRuntime(roles, members, home, cm, listing), ns, home, cm) != {}
    ensures var after := WithRuntime(roles, members, home, cm, listing);
            && RuntimeKey(ns, home) in after && RuntimeKey(ns, home) !in LabelledRoles(after, ns, home, cm)
            && (Allows(after[RuntimeKey(ns, home)].rules, q) <==>
                exists k :: k in LabelledRoles(after, ns, home, cm) && !Excluded(k.name) && Allows(after[k].rules, q))
  {
    hide Excluded, Allows, LabelValue, Summary, Carries, WithRuntime, LabelledRoles, FullListing, RuntimeClean;
    var after := WithRuntime(roles, members, home, cm, listing);
    RuntimeExactly(roles, members, home, cm, listing);
    RuntimeKeyUnlisted(after, ns, home, cm, ns);
    assert GetsRuntimeRole(roles, members, home, cm, RuntimeKey(ns, home));
    assert Lookup(after, RuntimeKey(ns, home)) == Some(RuntimeRole(roles, ns, home, cm, listing));
    RuntimeRoleAllows(roles, ns, home, cm, listing, q);
    forall k | k in LabelledRoles(roles, ns, home, cm)
      ensures Lookup(after, k) == Lookup(roles, k)
    {
      LabelledHere(roles, k, ns, home, cm);
      RuntimeKeyUnlisted(roles, ns, home, cm, ns);
    }
    LabelledPresent(after, ns, home, cm);
  }

  lemma LabelledHere(roles: map<Key, Role>, k: Key, ns: string, home: string, cm: string)
    requires k in LabelledRoles(roles, ns, home, cm)
    ensures k in roles && k.ns == ns
  {
  }

  lemma LabelledPresent(roles: map<Key, Role>, ns: string, home: string, cm: string)
    ensures forall k :: k in LabelledRoles(roles, ns, home, cm) ==> k in roles
  {
  }
}
