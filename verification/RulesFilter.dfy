/** The permission algebra: which rules of a Role may be copied into another namespace. */
module RulesFilter {
  import opened Rbac
  import opened Lists

  // ---------------------------------------------------------------------------------------------
  // What the list helpers compute
  // ---------------------------------------------------------------------------------------------

  const SUPPORTED_VERBS: seq<string> :=
    ["create", "delete", "get", "list", "patch", "update", "watch", "deletecollection"]

  /** The supported verbs, written out. */
  predicate CopiedVerb(verb: string) {
    || verb == "create" || verb == "delete" || verb == "get" || verb == "list"
    || verb == "patch" || verb == "update" || verb == "watch" || verb == "deletecollection"
  }

  lemma SupportedVerbs(verb: string)
    ensures verb in SUPPORTED_VERBS <==> CopiedVerb(verb)
  {
    assert verb == "patch" ==> SUPPORTED_VERBS[4] == verb;
    assert verb == "update" ==> SUPPORTED_VERBS[5] == verb;
    assert verb == "watch" ==> SUPPORTED_VERBS[6] == verb;
    assert verb == "deletecollection" ==> SUPPORTED_VERBS[7] == verb;
  }

  /** `xs` with every entry after its first occurrence removed. */
  function Dedup(xs: seq<string>): (r: seq<string>)
    ensures Distinct(r)
    ensures forall x :: x in r <==> x in xs
  {
    if xs == [] then []
    else
      var r := Dedup(xs[..|xs| - 1]);
      var x := xs[|xs| - 1];
      assert xs == xs[..|xs| - 1] + [x];
      if x in r then r else r + [x]
  }

  lemma DedupStep(xs: seq<string>, x: string)
    ensures Dedup([]) == []
    ensures Dedup(xs + [x]) == if x in Dedup(xs) then Dedup(xs) else Dedup(xs) + [x]
  {
    assert (xs + [x])[..|xs + [x]| - 1] == xs;
  }

  /** The entries of `xs` other than `*`. */
  function Literals(xs: seq<string>): (r: seq<string>)
    ensures forall x :: x in r <==> x in xs && x != WILDCARD
  {
    if xs == [] then []
    else
      var x := xs[|xs| - 1];
      assert xs == xs[..|xs| - 1] + [x];
      Literals(xs[..|xs| - 1]) + if x == WILDCARD then [] else [x]
  }

  /** The entries of `a` that occur in `b`, in the order of `a`. */
  function Common(a: seq<string>, b: seq<string>): (r: seq<string>)
    ensures forall x :: x in r <==> x in a && x in b
  {
    if a == [] then []
    else
      var x := a[|a| - 1];
      assert a == a[..|a| - 1] + [x];
      Common(a[..|a| - 1], b) + if x in b then [x] else []
  }

  /** The supported verbs each entry stands for, in order. */
  function ExpandedVerbs(verbs: seq<string>): (r: seq<string>)
    ensures forall v :: v in r <==> v in SUPPORTED_VERBS && Matches(verbs, v)
  {
    if verbs == [] then []
    else
      var v := verbs[|verbs| - 1];
      assert verbs == verbs[..|verbs| - 1] + [v];
      assert WILDCARD !in SUPPORTED_VERBS;
      ExpandedVerbs(verbs[..|verbs| - 1]) +
      if v == WILDCARD then SUPPORTED_VERBS else if v in SUPPORTED_VERBS then [v] else []
  }

  function NormalizedVerbs(verbs: seq<string>): (r: seq<string>)
    ensures forall v :: v in r <==> v in SUPPORTED_VERBS && Matches(verbs, v)
  {
    Dedup(ExpandedVerbs(verbs))
  }

  /** Two lists intersected where `*` on either side admits everything. */
  function Meet(a: seq<string>, b: seq<string>): seq<string> {
    if WILDCARD in a && WILDCARD in b then [WILDCARD]
    else if WILDCARD in a then Literals(b)
    else if WILDCARD in b then Literals(a)
    else Dedup(Common(a, b))
  }

  function MeetNames(a: seq<string>, b: seq<string>): seq<string> {
    if a == [] then b else if b == [] then a else Dedup(Common(a, b))
  }

  /** Both lists restrict names and have nothing in common. */
  predicate NamesClash(a: seq<string>, b: seq<string>) {
    a != [] && b != [] && MeetNames(a, b) == []
  }

  // ---------------------------------------------------------------------------------------------
  // What the filter computes
  // ---------------------------------------------------------------------------------------------

  predicate HasWildcard(src: PolicyRule) {
    WILDCARD in src.apiGroups || WILDCARD in src.resources
  }

  predicate Usable(src: PolicyRule) {
    src.apiGroups != [] && src.resources != [] && NormalizedVerbs(src.verbs) != []
  }

  /** The part of a rule that names its groups and resources, as zero or one rule. */
  function ExplicitPart(src: PolicyRule): seq<PolicyRule> {
    if Literals(src.apiGroups) != [] && Literals(src.resources) != [] then
      [PolicyRule(Literals(src.apiGroups), Literals(src.resources), src.resourceNames, NormalizedVerbs(src.verbs))]
    else []
  }

  /** What one managed rule gives to a wildcard source rule, as zero or one rule. */
  function Bounded(src: PolicyRule, managed: PolicyRule): seq<PolicyRule> {
    var verbs := Dedup(Common(NormalizedVerbs(src.verbs), NormalizedVerbs(managed.verbs)));
    var groups := Meet(src.apiGroups, managed.apiGroups);
    var resources := Meet(src.resources, managed.resources);
    var names := MeetNames(src.resourceNames, managed.resourceNames);
    if verbs == [] || groups == [] || resources == [] then []
    else if NamesClash(src.resourceNames, managed.resourceNames) then []
    else [PolicyRule(groups, resources, names, verbs)]
  }

  function WildcardPart(src: PolicyRule, managed: seq<PolicyRule>): seq<PolicyRule> {
    if managed == [] then []
    else WildcardPart(src, managed[..|managed| - 1]) + Bounded(src, managed[|managed| - 1])
  }

  function FilteredRule(src: PolicyRule, managed: seq<PolicyRule>): seq<PolicyRule> {
    if !Usable(src) then []
    else ExplicitPart(src) + if HasWildcard(src) then WildcardPart(src, managed) else []
  }

  function Filtered(source: seq<PolicyRule>, managed: seq<PolicyRule>): seq<PolicyRule> {
    if source == [] then []
    else Filtered(source[..|source| - 1], managed) + FilteredRule(source[|source| - 1], managed)
  }

  // ---------------------------------------------------------------------------------------------
  // The loops
  // ---------------------------------------------------------------------------------------------

  lemma NothingExpanded(verbs: seq<string>)
    ensures ExpandedVerbs(verbs[..0]) == []
  {
  }

  lemma ExpandedStep(verbs: seq<string>, i: nat)
    requires i < |verbs|
    ensures ExpandedVerbs(verbs[..i + 1]) == ExpandedVerbs(verbs[..i]) +
            if verbs[i] == WILDCARD then SUPPORTED_VERBS else if verbs[i] in SUPPORTED_VERBS then [verbs[i]] else []
  {
    hide SUPPORTED_VERBS, Matches;
    assert verbs[..i + 1][..i] == verbs[..i];
  }

  /** The verbs that come out: those of the eight that the list matches, each once. */
  lemma NormalizedMeans(verbs: seq<string>)
    ensures Distinct(NormalizedVerbs(verbs))
    ensures forall v :: v in NormalizedVerbs(verbs) <==> CopiedVerb(v) && Matches(verbs, v)
  {
    hide CopiedVerb, SUPPORTED_VERBS, Matches, ExpandedVerbs, Dedup;
    forall v {
      SupportedVerbs(v);
    }
  }

  /** The set holds what the list does. */
  ghost predicate Remembers(seen: set<string>, list: seq<string>) {
    forall v :: v in seen <==> v in list
  }

  lemma NothingRemembered()
    ensures Remembers({}, [])
  {
  }

  lemma Remember(seen: set<string>, list: seq<string>, v: string)
    requires Remembers(seen, list)
    ensures v in seen <==> v in list
    ensures Remembers(seen + {v}, list + [v])
  {
  }

  method NormalizeVerbs(verbs: seq<string>) returns (result: seq<string>)
    ensures result == NormalizedVerbs(verbs)
  {
    hide Dedup, Matches, SUPPORTED_VERBS, ExpandedVerbs, Remembers;
    result := [];
    var seen: set<string> := {};
    NothingRemembered();
    assert Dedup([]) == [] && ExpandedVerbs(verbs[..0]) == [] by {
      DedupStep([], "");
      NothingExpanded(verbs);
    }
    for i := 0 to |verbs|
      invariant result == NormalizedVerbs(verbs[..i])
      invariant Remembers(seen, result)
    {
      var v := verbs[i];
      ExpandedStep(verbs, i);
      ghost var before := ExpandedVerbs(verbs[..i]);
      if v == WILDCARD {
        assert before + SUPPORTED_VERBS[..0] == before;
        for j := 0 to |SUPPORTED_VERBS|
          invariant result == Dedup(before + SUPPORTED_VERBS[..j])
          invariant Remembers(seen, result)
        {
          var sv := SUPPORTED_VERBS[j];
          DedupStep(before + SUPPORTED_VERBS[..j], sv);
          assert before + SUPPORTED_VERBS[..j + 1] == before + SUPPORTED_VERBS[..j] + [sv];
          Remember(seen, result, sv);
          if sv !in seen {
            seen := seen + {sv};
            result := result + [sv];
          }
        }
        assert SUPPORTED_VERBS[..|SUPPORTED_VERBS|] == SUPPORTED_VERBS;
      } else if v in SUPPORTED_VERBS {
        DedupStep(before, v);
        Remember(seen, result, v);
        if v !in seen {
          seen := seen + {v};
          result := result + [v];
        }
      } else {
        assert before + [] == before;
      }
    }
    assert verbs[..|verbs|] == verbs;
  }

  method SplitWildcard(list: seq<string>) returns (result: seq<string>, wildcard: bool)
    ensures result == Literals(list)
    ensures wildcard <==> WILDCARD in list
  {
    result, wildcard := [], false;
    for i := 0 to |list|
      invariant result == Literals(list[..i])
      invariant wildcard <==> WILDCARD in list[..i]
    {
      assert list[..i + 1][..i] == list[..i];
      if list[i] == WILDCARD {
        wildcard := true;
      } else {
        result := result + [list[i]];
      }
    }
    assert list[..|list|] == list;
  }

  method IntersectStrings(a: seq<string>, b: seq<string>) returns (result: seq<string>)
    ensures result == Dedup(Common(a, b))
  {
    var inB: set<string> := {};
    for i := 0 to |b|
      invariant forall x :: x in inB <==> x in b[..i]
    {
      inB := inB + {b[i]};
    }
    result := [];
    var seen: set<string> := {};
    for i := 0 to |a|
      invariant result == Dedup(Common(a[..i], b))
      invariant forall x :: x in seen <==> x in result
    {
      var s := a[i];
      ghost var before := Common(a[..i], b);
      assert a[..i + 1][..i] == a[..i];
      assert Common(a[..i + 1], b) == before + if s in b then [s] else [];
      if s !in inB {
        assert before + [] == before;
        continue;
      }
      assert (before + [s])[..|before|] == before;
      if s in seen {
        continue;
      }
      seen := seen + {s};
      result := result + [s];
    }
    assert a[..|a|] == a;
  }

  method IntersectResourceNames(a: seq<string>, b: seq<string>) returns (result: seq<string>, ok: bool)
    ensures result == MeetNames(a, b)
    ensures ok <==> !NamesClash(a, b)
  {
    if |a| == 0 {
      return b, true;
    }
    if |b| == 0 {
      return a, true;
    }
    result := IntersectStrings(a, b);
    ok := |result| > 0;
  }

  method IntersectWithWildcard(a: seq<string>, aWild: bool, b: seq<string>, ghost whole: seq<string>)
    returns (result: seq<string>)
    requires a == Literals(whole) && (aWild <==> WILDCARD in whole)
    ensures result == Meet(whole, b)
  {
    var bLits, bWild := SplitWildcard(b);
    if aWild && bWild {
      result := [WILDCARD];
    } else if aWild {
      result := bLits;
    } else if bWild {
      result := a;
    } else {
      LiteralsOfPlain(whole);
      LiteralsOfPlain(b);
      result := IntersectStrings(a, bLits);
    }
  }

  lemma LiteralsOfPlain(xs: seq<string>)
    requires WILDCARD !in xs
    ensures Literals(xs) == xs
  {
    if xs != [] {
      assert xs == xs[..|xs| - 1] + [xs[|xs| - 1]];
      LiteralsOfPlain(xs[..|xs| - 1]);
    }
  }

  /** The inner loop of `rulesFilter`: what the managed rules give to one source rule with a wildcard. */
  method BoundWildcards(src: PolicyRule, verbs: seq<string>, groups: seq<string>, groupWildcard: bool,
                        resources: seq<string>, resourceWildcard: bool, managedRules: seq<PolicyRule>)
    returns (result: seq<PolicyRule>)
    requires verbs == NormalizedVerbs(src.verbs)
    requires groups == Literals(src.apiGroups) && (groupWildcard <==> WILDCARD in src.apiGroups)
    requires resources == Literals(src.resources) && (resourceWildcard <==> WILDCARD in src.resources)
    ensures result == WildcardPart(src, managedRules)
  {
    hide WildcardPart, NormalizedVerbs, Meet, MeetNames, NamesClash, Dedup, Common, Literals, Matches, SUPPORTED_VERBS;
    result := [];
    assert WildcardPart(src, managedRules[..0]) == [] by { WildcardStep(src, managedRules, 0); }
    for j := 0 to |managedRules|
      invariant result == WildcardPart(src, managedRules[..j])
    {
      var managed := managedRules[j];
      WildcardStep(src, managedRules, j);
      var normalized := NormalizeVerbs(managed.verbs);
      var managedVerbs := IntersectStrings(verbs, normalized);
      if |managedVerbs| == 0 {
        continue;
      }
      var managedGroups := IntersectWithWildcard(groups, groupWildcard, managed.apiGroups, src.apiGroups);
      var managedResources := IntersectWithWildcard(resources, resourceWildcard, managed.resources, src.resources);
      if |managedGroups| == 0 || |managedResources| == 0 {
        continue;
      }
      var resourceNames, ok := IntersectResourceNames(src.resourceNames, managed.resourceNames);
      if !ok {
        continue;
      }
      result := result + [PolicyRule(managedGroups, managedResources, resourceNames, managedVerbs)];
    }
    assert managedRules[..|managedRules|] == managedRules;
  }

  /** The body of the outer loop of `rulesFilter`: what one source rule contributes. */
  method FilterRule(src: PolicyRule, managedRules: seq<PolicyRule>) returns (result: seq<PolicyRule>)
    ensures result == FilteredRule(src, managedRules)
  {
    hide WildcardPart, NormalizedVerbs, Literals, Matches, SUPPORTED_VERBS;
    if |src.apiGroups| == 0 || |src.resources| == 0 {
      return [];
    }
    var verbs := NormalizeVerbs(src.verbs);
    if |verbs| == 0 {
      return [];
    }
    var groups, groupWildcard := SplitWildcard(src.apiGroups);
    var resources, resourceWildcard := SplitWildcard(src.resources);
    result := [];
    if |groups| > 0 && |resources| > 0 {
      result := [PolicyRule(groups, resources, src.resourceNames, verbs)];
    }
    if !groupWildcard && !resourceWildcard {
      return result;
    }
    var bounded := BoundWildcards(src, verbs, groups, groupWildcard, resources, resourceWildcard, managedRules);
    result := result + bounded;
  }

  /** `rulesFilter`.  Beside the rules themselves the contract states their meaning: exactly the source's
    supported requests that are named literally or held by the operator too. */
  method FilterRules(source: seq<PolicyRule>, managedRules: seq<PolicyRule>)
    returns (result: seq<PolicyRule>, canProject: bool)
    ensures result == Filtered(source, managedRules)
    ensures canProject <==> exists q :: Concrete(q) && Projectable(source, managedRules, q)
    ensures forall q | Concrete(q) :: Allows(result, q) <==> Projectable(source, managedRules, q)
  {
    hide Filtered, FilteredRule, Projectable, Allows;
    result := [];
    assert Filtered(source[..0], managedRules) == [] by { FilteredStep(source, managedRules, 0); }
    for i := 0 to |source|
      invariant result == Filtered(source[..i], managedRules)
    {
      FilteredStep(source, managedRules, i);
      var rules := FilterRule(source[i], managedRules);
      result := result + rules;
    }
    assert source[..|source|] == source;
    canProject := |result| > 0;
    FilterMeaning(source, managedRules);
    CanProject(source, managedRules);
  }

  lemma FilteredStep(source: seq<PolicyRule>, managed: seq<PolicyRule>, i: nat)
    requires i <= |source|
    ensures i == 0 ==> Filtered(source[..i], managed) == []
    ensures i < |source| ==>
              Filtered(source[..i + 1], managed) == Filtered(source[..i], managed) + FilteredRule(source[i], managed)
  {
    hide FilteredRule;
    if i < |source| {
      assert source[..i + 1][..i] == source[..i];
    }
  }

  lemma WildcardStep(src: PolicyRule, managed: seq<PolicyRule>, j: nat)
    requires j <= |managed|
    ensures j == 0 ==> WildcardPart(src, managed[..j]) == []
    ensures j < |managed| ==>
              WildcardPart(src, managed[..j + 1]) == WildcardPart(src, managed[..j]) + Bounded(src, managed[j])
  {
    hide Bounded;
    if j < |managed| {
      assert managed[..j + 1][..j] == managed[..j];
    }
  }

  lemma NamesMeet(a: seq<string>, b: seq<string>)
    ensures NamesClash(a, b) <==> !exists n :: MatchesName(a, n) && MatchesName(b, n)
  {
    if a == [] {
      assert MatchesName(b, if b == [] then "" else b[0]);
    } else if b == [] {
      assert MatchesName(a, a[0]);
    } else if n :| MatchesName(a, n) && MatchesName(b, n) {
      assert n in Common(a, b);
    } else if MeetNames(a, b) != [] {
      assert MatchesName(a, MeetNames(a, b)[0]);
    }
  }

  // ---------------------------------------------------------------------------------------------
  // What the filter means
  // ---------------------------------------------------------------------------------------------

  /** The rule names the group and the resource of the request themselves. */
  predicate NamesLiterally(src: PolicyRule, q: Request) {
    q.group in src.apiGroups && q.resource in src.resources
  }

  predicate RuleProjectable(src: PolicyRule, managed: seq<PolicyRule>, q: Request) {
    && RuleAllows(src, q)
    && q.verb in SUPPORTED_VERBS
    && (NamesLiterally(src, q) || Allows(managed, q))
  }

  /** The reference meaning of the filter, over requests and with no word about lists. */
  predicate Projectable(source: seq<PolicyRule>, managed: seq<PolicyRule>, q: Request) {
    exists i :: 0 <= i < |source| && RuleProjectable(source[i], managed, q)
  }

  lemma MeetMatches(a: seq<string>, b: seq<string>, s: string)
    requires s != WILDCARD
    ensures Matches(Meet(a, b), s) <==> Matches(a, s) && Matches(b, s)
  {
    hide Dedup, Common, Literals;
  }

  lemma NameMeets(a: seq<string>, b: seq<string>, n: string)
    ensures !NamesClash(a, b) ==>
              (MatchesName(MeetNames(a, b), n) <==> MatchesName(a, n) && MatchesName(b, n))
  {
    hide Dedup, Common;
  }

  lemma VerbsMeet(a: seq<string>, b: seq<string>, v: string)
    ensures v in Dedup(Common(NormalizedVerbs(a), NormalizedVerbs(b))) <==>
            v in SUPPORTED_VERBS && Matches(a, v) && Matches(b, v)
    ensures WILDCARD !in Dedup(Common(NormalizedVerbs(a), NormalizedVerbs(b)))
  {
    hide Dedup, Common, NormalizedVerbs;
    assert WILDCARD !in SUPPORTED_VERBS;
  }

  lemma BoundedMeaning(src: PolicyRule, managed: PolicyRule, q: Request)
    requires Concrete(q)
    ensures Allows(Bounded(src, managed), q) <==>
            RuleAllows(src, q) && q.verb in SUPPORTED_VERBS && RuleAllows(managed, q)
  {
    hide Dedup, Common, NormalizedVerbs, Meet, MeetNames, SUPPORTED_VERBS;
    VerbsMeet(src.verbs, managed.verbs, q.verb);
    MeetMatches(src.apiGroups, managed.apiGroups, q.group);
    MeetMatches(src.resources, managed.resources, q.resource);
    NamesMeet(src.resourceNames, managed.resourceNames);
    NameMeets(src.resourceNames, managed.resourceNames, q.name);
    var out := Bounded(src, managed);
    if out != [] {
      assert Allows(out, q) <==> RuleAllows(out[0], q);
    }
  }

  lemma {:induction false} WildcardMeaning(src: PolicyRule, managed: seq<PolicyRule>, q: Request)
    requires Concrete(q)
    ensures Allows(WildcardPart(src, managed), q) <==>
            RuleAllows(src, q) && q.verb in SUPPORTED_VERBS && Allows(managed, q)
  {
    hide Bounded, RuleAllows, SUPPORTED_VERBS;
    if managed != [] {
      var init, last := managed[..|managed| - 1], managed[|managed| - 1];
      WildcardMeaning(src, init, q);
      BoundedMeaning(src, last, q);
      AllowsConcat(WildcardPart(src, init), Bounded(src, last), q);
      assert managed == init + [last];
      AllowsConcat(init, [last], q);
      assert Allows([last], q) <==> RuleAllows([last][0], q);
    }
  }

  lemma RuleMeaning(src: PolicyRule, managed: seq<PolicyRule>, q: Request)
    requires Concrete(q)
    ensures Allows(FilteredRule(src, managed), q) <==> RuleProjectable(src, managed, q)
  {
    assert WILDCARD !in SUPPORTED_VERBS;
    assert q.verb in NormalizedVerbs(src.verbs) <==> q.verb in SUPPORTED_VERBS && Matches(src.verbs, q.verb);
    if Usable(src) {
      var explicit := ExplicitPart(src);
      assert Allows(explicit, q) <==>
             RuleAllows(src, q) && q.verb in SUPPORTED_VERBS && NamesLiterally(src, q) by {
        if explicit != [] {
          assert Allows(explicit, q) <==> RuleAllows(explicit[0], q);
        }
      }
      var wild := if HasWildcard(src) then WildcardPart(src, managed) else [];
      AllowsConcat(explicit, wild, q);
      WildcardMeaning(src, managed, q);
    }
  }

  /** The filter is exact: its result allows a request iff some source rule allows it with a supported
    verb and either names its group and resource literally or the managed rules allow it as well. */
  lemma {:induction false} FilterExact(source: seq<PolicyRule>, managed: seq<PolicyRule>, q: Request)
    requires Concrete(q)
    ensures Allows(Filtered(source, managed), q) <==> Projectable(source, managed, q)
  {
    hide FilteredRule, RuleProjectable, Allows;
    if source == [] {
      NothingAllowed(q);
    } else {
      var init, last := source[..|source| - 1], source[|source| - 1];
      FilterExact(init, managed, q);
      RuleMeaning(last, managed, q);
      AllowsConcat(Filtered(init, managed), FilteredRule(last, managed), q);
      if Projectable(source, managed, q) {
        var i :| 0 <= i < |source| && RuleProjectable(source[i], managed, q);
        if i < |init| {
          assert RuleProjectable(init[i], managed, q);
        }
      }
      if Projectable(init, managed, q) {
        var i :| 0 <= i < |init| && RuleProjectable(init[i], managed, q);
        assert RuleProjectable(source[i], managed, q);
      }
    }
  }

  /** What a source rule hands on under the cap of `managed`. */
  predicate HandsOn(rule: PolicyRule, managed: seq<PolicyRule>, q: Request) {
    && RuleAllows(rule, q) && CopiedVerb(q.verb)
    && ((q.group in rule.apiGroups && q.resource in rule.resources) || Allows(managed, q))
  }

  /** The filter with its terms written out: eight verbs, groups and resources named, or the managed rules. */
  lemma FilterSpelledOut(source: seq<PolicyRule>, managed: seq<PolicyRule>, q: Request)
    requires Concrete(q)
    ensures Projectable(source, managed, q) <==> exists rule :: rule in source && HandsOn(rule, managed, q)
    ensures Allows(Filtered(source, managed), q) <==> exists rule :: rule in source && HandsOn(rule, managed, q)
  {
    hide RuleAllows, Allows, CopiedVerb, SUPPORTED_VERBS, Filtered;
    SupportedVerbs(q.verb);
    FilterExact(source, managed, q);
    if Projectable(source, managed, q) {
      var i :| 0 <= i < |source| && RuleProjectable(source[i], managed, q);
      assert source[i] in source && HandsOn(source[i], managed, q);
    }
    if rule :| rule in source && HandsOn(rule, managed, q) {
      var i :| 0 <= i < |source| && source[i] == rule;
      assert RuleProjectable(source[i], managed, q);
    }
  }

  /** A star over API groups is copied for the groups that the managed rules name, and for no other. */
  lemma StarCapped(group: string, resource: string, verb: string, managed: seq<string>, q: Request)
    requires Concrete(q) && CopiedVerb(verb) && resource != "*" && "*" !in managed
    ensures var source, cap := PolicyRule(["*"], [resource], [], [verb]), PolicyRule(managed, [resource], [], [verb]);
            Allows(Filtered([source], [cap]), q) <==> q.group in managed && q.resource == resource && q.verb == verb
  {
    hide Filtered;
    var source, cap := PolicyRule(["*"], [resource], [], [verb]), PolicyRule(managed, [resource], [], [verb]);
    FilterSpelledOut([source], [cap], q);
    assert RuleAllows(source, q) <==> q.resource == resource && q.verb == verb by {
      assert source.apiGroups[0] == "*";
    }
    assert RuleAllows(cap, q) <==> q.group in managed && q.resource == resource && q.verb == verb;
    assert Allows([cap], q) <==> RuleAllows(cap, q) by {
      assert [cap][0] == cap;
    }
    assert source in [source] && forall rule :: rule in [source] ==> rule == source;
  }

  lemma FilterMeaning(source: seq<PolicyRule>, managed: seq<PolicyRule>)
    ensures forall q | Concrete(q) :: Allows(Filtered(source, managed), q) <==> Projectable(source, managed, q)
  {
    forall q | Concrete(q)
      ensures Allows(Filtered(source, managed), q) <==> Projectable(source, managed, q)
    {
      FilterExact(source, managed, q);
    }
  }

  /** The two bounds a reader of the operator relies on. */
  lemma NeverExceeds(source: seq<PolicyRule>, managed: seq<PolicyRule>, q: Request)
    requires Concrete(q) && Allows(Filtered(source, managed), q)
    ensures Allows(source, q) && q.verb in SUPPORTED_VERBS
    ensures Allows(managed, q) || exists i :: 0 <= i < |source| && RuleAllows(source[i], q) && NamesLiterally(source[i], q)
  {
    FilterExact(source, managed, q);
  }

  // ---------------------------------------------------------------------------------------------
  // Idempotence, dependence on the managed rules, distribution
  // ---------------------------------------------------------------------------------------------

  /** An emitted rule that admits a request through a wildcard stays within the managed rules. */
  lemma EmittedRule(source: seq<PolicyRule>, managed: seq<PolicyRule>, i: nat, q: Request)
    requires Concrete(q) && i < |Filtered(source, managed)|
    requires RuleAllows(Filtered(source, managed)[i], q)
    ensures q.verb in SUPPORTED_VERBS
    ensures NamesLiterally(Filtered(source, managed)[i], q) || Allows(managed, q)
  {
    var init, last := source[..|source| - 1], source[|source| - 1];
    var cut := |Filtered(init, managed)|;
    if i < cut {
      EmittedRule(init, managed, i, q);
    } else {
      var out := FilteredRule(last, managed);
      assert out[i - cut] == Filtered(source, managed)[i];
      assert Allows(out, q);
      RuleMeaning(last, managed, q);
      var explicit := ExplicitPart(last);
      if i - cut >= |explicit| {
        var wild := WildcardPart(last, managed);
        assert wild[i - cut - |explicit|] == out[i - cut];
        assert Allows(wild, q);
        WildcardMeaning(last, managed, q);
      }
    }
  }

  /** Filtering the result again with the same managed rules changes nothing. */
  lemma FilterIdempotent(source: seq<PolicyRule>, managed: seq<PolicyRule>, q: Request)
    requires Concrete(q)
    ensures Allows(Filtered(Filtered(source, managed), managed), q) <==> Allows(Filtered(source, managed), q)
  {
    var once := Filtered(source, managed);
    FilterExact(once, managed, q);
    if Allows(once, q) {
      var i :| 0 <= i < |once| && RuleAllows(once[i], q);
      EmittedRule(source, managed, i, q);
      assert RuleProjectable(once[i], managed, q);
    }
  }

  /** The managed rules matter only through the supported requests they allow, and more of them never
    takes a permission away. */
  lemma FilterMonotoneInManaged(source: seq<PolicyRule>, fewer: seq<PolicyRule>, more: seq<PolicyRule>, q: Request)
    requires Concrete(q)
    requires forall p | Concrete(p) && p.verb in SUPPORTED_VERBS :: Allows(fewer, p) ==> Allows(more, p)
    ensures Allows(Filtered(source, fewer), q) ==> Allows(Filtered(source, more), q)
  {
    FilterExact(source, fewer, q);
    FilterExact(source, more, q);
    if Projectable(source, fewer, q) {
      var i :| 0 <= i < |source| && RuleProjectable(source[i], fewer, q);
      assert RuleProjectable(source[i], more, q);
    }
  }

  lemma FilterExtensionalInManaged(source: seq<PolicyRule>, m: seq<PolicyRule>, m': seq<PolicyRule>, q: Request)
    requires Concrete(q)
    requires forall p | Concrete(p) && p.verb in SUPPORTED_VERBS :: Allows(m, p) <==> Allows(m', p)
    ensures Allows(Filtered(source, m), q) <==> Allows(Filtered(source, m'), q)
  {
    FilterMonotoneInManaged(source, m, m', q);
    FilterMonotoneInManaged(source, m', m, q);
  }

  lemma {:induction false} FilterDistributes(a: seq<PolicyRule>, b: seq<PolicyRule>, managed: seq<PolicyRule>)
    ensures Filtered(a + b, managed) == Filtered(a, managed) + Filtered(b, managed)
  {
    hide FilteredRule;
    if b == [] {
      assert a + b == a;
    } else {
      var init, last := b[..|b| - 1], b[|b| - 1];
      assert (a + b)[..|a + b| - 1] == a + init;
      assert (a + b)[|a + b| - 1] == last;
      FilterDistributes(a, init, managed);
    }
  }

  // ---------------------------------------------------------------------------------------------
  // canProject
  // ---------------------------------------------------------------------------------------------

  predicate Satisfiable(rule: PolicyRule) {
    && rule.apiGroups != [] && rule.resources != [] && rule.verbs != []
    && (forall v :: v in rule.verbs ==> v in SUPPORTED_VERBS)
  }

  lemma SatisfiableAllows(rule: PolicyRule) returns (q: Request)
    requires Satisfiable(rule)
    ensures Concrete(q) && RuleAllows(rule, q)
  {
    assert WILDCARD !in SUPPORTED_VERBS;
    q := Request(
      rule.verbs[0],
      if WILDCARD in rule.apiGroups then "apps" else rule.apiGroups[0],
      if WILDCARD in rule.resources then "pods" else rule.resources[0],
      if rule.resourceNames == [] then "" else rule.resourceNames[0]);
    assert rule.verbs[0] in rule.verbs;
    if WILDCARD !in rule.apiGroups { assert rule.apiGroups[0] in rule.apiGroups; }
    if WILDCARD !in rule.resources { assert rule.resources[0] in rule.resources; }
  }

  lemma EmittedSatisfiable(source: seq<PolicyRule>, managed: seq<PolicyRule>)
    ensures forall i :: 0 <= i < |Filtered(source, managed)| ==> Satisfiable(Filtered(source, managed)[i])
  {
    hide NormalizedVerbs, Literals, SUPPORTED_VERBS, Dedup, Common, Meet, MeetNames;
    if source != [] {
      var last := source[|source| - 1];
      EmittedSatisfiable(source[..|source| - 1], managed);
      WildcardSatisfiable(last, managed);
    }
  }

  lemma BoundedSatisfiable(src: PolicyRule, managed: PolicyRule)
    ensures forall i :: 0 <= i < |Bounded(src, managed)| ==> Satisfiable(Bounded(src, managed)[i])
  {
    hide NormalizedVerbs, SUPPORTED_VERBS, Dedup, Common, Meet, MeetNames, Matches;
  }

  lemma {:induction false} WildcardSatisfiable(src: PolicyRule, managed: seq<PolicyRule>)
    ensures forall i :: 0 <= i < |WildcardPart(src, managed)| ==> Satisfiable(WildcardPart(src, managed)[i])
  {
    hide Bounded, Satisfiable;
    if managed != [] {
      WildcardSatisfiable(src, managed[..|managed| - 1]);
      BoundedSatisfiable(src, managed[|managed| - 1]);
    }
  }

  /** `canProject` says that the result grants something. */
  lemma CanProject(source: seq<PolicyRule>, managed: seq<PolicyRule>)
    ensures Filtered(source, managed) != [] <==> exists q :: Concrete(q) && Projectable(source, managed, q)
  {
    var out := Filtered(source, managed);
    if out != [] {
      EmittedSatisfiable(source, managed);
      var q := SatisfiableAllows(out[0]);
      FilterExact(source, managed, q);
    } else {
      forall q | Concrete(q)
        ensures !Projectable(source, managed, q)
      {
        FilterExact(source, managed, q);
      }
    }
  }

  // ---------------------------------------------------------------------------------------------
  // The cap promised by the documentation
  // ---------------------------------------------------------------------------------------------

  predicate WithinManaged(source: seq<PolicyRule>, managed: seq<PolicyRule>, q: Request) {
    Allows(Filtered(source, managed), q) ==> Allows(managed, q)
  }

  /** Every literal (verb, group, resource, name) of the source is held by the operator: a finite check
    on the lists.  A rule open to all names needs one managed rule that is open to all names. */
  predicate LiteralsHeld(source: seq<PolicyRule>, managed: seq<PolicyRule>) {
    forall src, v, g, r ::
      src in source && v in NormalizedVerbs(src.verbs) && g in Literals(src.apiGroups) && r in Literals(src.resources) ==>
        if src.resourceNames == [] then
          exists m :: m in managed && m.resourceNames == [] && RuleAllows(m, Request(v, g, r, ""))
        else
          forall n :: n in src.resourceNames ==> Allows(managed, Request(v, g, r, n))
  }

  function FreshName(rules: seq<PolicyRule>): (name: string)
    ensures forall m, n :: m in rules && n in m.resourceNames ==> |n| < |name|
  {
    if rules == [] then "x"
    else
      var rest := FreshName(rules[1..]);
      var here := Longer(rules[0].resourceNames);
      assert forall m :: m in rules ==> m == rules[0] || m in rules[1..];
      rest + here
  }

  function Longer(names: seq<string>): (name: string)
    ensures forall n :: n in names ==> |n| < |name|
  {
    if names == [] then "x"
    else
      assert forall n :: n in names ==> n == names[0] || n in names[1..];
      names[0] + Longer(names[1..])
  }

  /** The documentation says the result never exceeds the managed rules.  It holds exactly when every
    literal permission of the source is one the managed rules hold. */
  lemma CapHoldsIff(source: seq<PolicyRule>, managed: seq<PolicyRule>)
    ensures (forall q | Concrete(q) :: WithinManaged(source, managed, q)) <==> LiteralsHeld(source, managed)
  {
    hide WithinManaged, NormalizedVerbs, Literals, FreshName, SUPPORTED_VERBS;
    if LiteralsHeld(source, managed) {
      forall q | Concrete(q)
        ensures WithinManaged(source, managed, q)
      {
        HeldCaps(source, managed, q);
      }
    }
    if forall q | Concrete(q) :: WithinManaged(source, managed, q) {
      forall src, v, g, r |
        src in source && v in NormalizedVerbs(src.verbs) && g in Literals(src.apiGroups) && r in Literals(src.resources)
        ensures if src.resourceNames == [] then
                  exists m :: m in managed && m.resourceNames == [] && RuleAllows(m, Request(v, g, r, ""))
                else
                  forall n :: n in src.resourceNames ==> Allows(managed, Request(v, g, r, n))
      {
        if src.resourceNames == [] {
          var unlisted := FreshName(managed);
          LiteralRequest(source, managed, src, Request(v, g, r, unlisted));
          var i :| 0 <= i < |managed| && RuleAllows(managed[i], Request(v, g, r, unlisted));
          assert managed[i] in managed;
          assert RuleAllows(managed[i], Request(v, g, r, ""));
        } else {
          forall n | n in src.resourceNames
            ensures Allows(managed, Request(v, g, r, n))
          {
            LiteralRequest(source, managed, src, Request(v, g, r, n));
          }
        }
      }
    }
  }

  lemma LiteralRequest(source: seq<PolicyRule>, managed: seq<PolicyRule>, src: PolicyRule, q: Request)
    requires src in source && q.verb in NormalizedVerbs(src.verbs)
    requires q.group in Literals(src.apiGroups) && q.resource in Literals(src.resources)
    requires MatchesName(src.resourceNames, q.name)
    requires forall p | Concrete(p) :: WithinManaged(source, managed, p)
    ensures Allows(managed, q)
  {
    assert WILDCARD !in SUPPORTED_VERBS;
    assert Concrete(q);
    assert WithinManaged(source, managed, q);
    var i :| 0 <= i < |source| && source[i] == src;
    assert RuleProjectable(source[i], managed, q);
    FilterExact(source, managed, q);
  }

  lemma HeldCaps(source: seq<PolicyRule>, managed: seq<PolicyRule>, q: Request)
    requires Concrete(q) && LiteralsHeld(source, managed)
    ensures WithinManaged(source, managed, q)
  {
    hide Filtered, NormalizedVerbs, Literals, SUPPORTED_VERBS;
    FilterExact(source, managed, q);
    if Projectable(source, managed, q) {
      var i :| 0 <= i < |source| && RuleProjectable(source[i], managed, q);
      var src := source[i];
      if NamesLiterally(src, q) {
        assert src in source;
        assert q.verb in NormalizedVerbs(src.verbs);
        assert q.group in Literals(src.apiGroups) && q.resource in Literals(src.resources);
        if src.resourceNames == [] {
          var m :| m in managed && m.resourceNames == [] && RuleAllows(m, Request(q.verb, q.group, q.resource, ""));
          var j :| 0 <= j < |managed| && managed[j] == m;
          assert RuleAllows(managed[j], q);
        } else {
          assert q.name in src.resourceNames;
        }
      }
    }
  }

  /** The cap is not free: a literal rule is copied even where the operator holds nothing. */
  lemma CapFails()
    ensures var source := [PolicyRule(["apps"], ["deployments"], [], ["get"])];
            exists q :: Concrete(q) && Allows(Filtered(source, []), q) && !Allows([], q)
  {
    hide Filtered;
    var source := [PolicyRule(["apps"], ["deployments"], [], ["get"])];
    var q := Request("get", "apps", "deployments", "web");
    assert RuleAllows(source[0], q);
    assert RuleProjectable(source[0], [], q);
    FilterExact(source, [], q);
    assert Concrete(q);
  }
}
