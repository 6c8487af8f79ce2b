/** Strict projection, without `allowSubsetProjection`: a push that returns no error has copied everything. */
module StrictPushes {
  import opened Rbac
  import opened Lists
  import opened Names
  import opened Store
  import opened Projection
  import opened Worker
  import opened SoloRuns
  import opened FanOut
  import opened PushPlan
  import opened PushTheorems
  import opened FanOutTheorems
  import opened PushSafety
  import opened PushInTurn
  import opened PushGrants
  import RulesFilter

  /** The copy of `r` for the account is in `ns`, labelled, and allows exactly what is kept of `r` there. */
  ghost predicate Arrived(p: Push, start: Objects, o: Objects, ns: string, sa: string, r: string)
    requires Key(p.fromNs, r) in start.roles
  {
    var key := Key(ns, ProjectedName(p.hash, r, sa, p.fromNs));
    && key in o.roles && o.roles[key].labels == p.labels
    && forall q | Concrete(q) ::
         Allows(o.roles[key].rules, q) <==>
         exists rule :: rule in start.roles[Key(p.fromNs, r)].rules && Kept(start, p.fromNs, ns, rule, q)
  }

  /** Every Role found at home and bound to one of the accounts has its copy in every target. */
  ghost predicate AllArrived(p: Push, start: Objects, o: Objects, members: seq<string>, accounts: seq<string>) {
    forall ns, sa, kb, r | && ns in members && ns != p.fromNs && sa in accounts
                           && BoundThrough(start, p.fromNs, sa, kb, r) && Key(p.fromNs, r) in start.roles ::
      Arrived(p, start, o, ns, sa, r)
  }

  /** The copy is the filtered source. */
  predicate Copied(p: Push, t: Task, start: Objects, o: Objects, r: string) {
    Copyable(p, t, start, r) && Lookup(o.roles, CopyKey(p, t, r)) == Some(Copy(p, t, start, r))
  }

  lemma CopiedArrived(p: Push, t: Task, start: Objects, o: Objects, r: string)
    requires Copied(p, t, start, o, r)
    ensures Arrived(p, start, o, t.toNs, t.sa, r)
  {
    hide ManagedRules, RulesFilter.Filtered, RulesFilter.Projectable, Allows, Kept;
    var rules := start.roles[Key(p.fromNs, r)].rules;
    forall q | Concrete(q)
      ensures Allows(Copy(p, t, start, r).rules, q) <==> exists rule :: rule in rules && Kept(start, p.fromNs, t.toNs, rule, q)
    {
      RulesFilter.FilterExact(rules, ManagedRules(p, t, start.roles), q);
      ProjectableIsKept(p, t, start, r, q);
    }
  }

  // ---------------------------------------------------------------------------------------------
  // One goroutine
  // ---------------------------------------------------------------------------------------------

  lemma NamesSeparate(p: Push, t: Task, order: Order, o: Objects)
    requires OwnKeysDistinct(p, t, o) && Enumerates(order, Copies(p, t, o))
    ensures Separate(p, t, order(Copies(p, t, o)))
    ensures forall r :: r in Copies(p, t, o) <==> r in order(Copies(p, t, o))
  {
    hide CopyKey, BoundRoles;
    var names := order(Copies(p, t, o));
    forall i | 0 <= i < |names|
      ensures names[i] in Copies(p, t, o)
    {
      assert names[i] in Elems(names);
    }
    forall r
      ensures r in Copies(p, t, o) <==> r in names
    {
      assert r in Elems(names) <==> r in names;
    }
  }

  /** A strict goroutine that ends without failure has copied every Role it found; with no binding in its way it has
    made every binding. */
  lemma StrictSolo(p: Push, t: Task, order: Order, o: Objects)
    requires !p.allowSubset && OwnKeysDistinct(p, t, o) && Enumerates(order, Copies(p, t, o))
    requires Solo(p, t, order, o).failure == None
    ensures var o' := Solo(p, t, order, o).objects;
            && (forall r :: r in Copies(p, t, o) && SourceKey(p, r) in o.roles ==> Copied(p, t, o, o', r))
            && ((forall r :: r in Copies(p, t, o) ==> CopyKey(p, t, r) !in o.bindings) ==>
                forall r :: r in Copies(p, t, o) ==> Lookup(o'.bindings, CopyKey(p, t, r)) == Some(CopyBinding(p, t, r)))
  {
    hide CopyRoles, Bind, BoundRoles, ManagedRules, CopyKey, CopyBinding, Solo, RulesFilter.Filtered;
    var names, managed := order(Copies(p, t, o)), ManagedRules(p, t, o.roles);
    NamesSeparate(p, t, order, o);
    SoloFailure(p, t, order, o);
    var k := StrictPrefix(p, t, managed, o.roles, names);
    forall r | r in Copies(p, t, o) && SourceKey(p, r) in o.roles
      ensures Copied(p, t, o, Solo(p, t, order, o).objects, r)
    {
      var i :| 0 <= i < |names| && names[i] == r;
      assert Written(p, t, managed, o.roles, CopyRoles(p, t, managed, o.roles, names).roles, names[i]);
    }
    if forall r :: r in Copies(p, t, o) ==> CopyKey(p, t, r) !in o.bindings {
      forall i | 0 <= i < |names|
        ensures CopyKey(p, t, names[i]) !in o.bindings
      {
        assert names[i] in Copies(p, t, o);
      }
      var n := BindExactly(p, t, o.bindings, names);
    }
  }

  // ---------------------------------------------------------------------------------------------
  // Every schedule
  // ---------------------------------------------------------------------------------------------

  /** Whatever the API server answered and in whatever order: if a strict push returns no error, every found Role of
    every account has its copy, and where no binding was in the way its binding. */
  lemma StrictPushArrives(plan: Plan, start: Objects, schedule: seq<Action>, k: nat, kb: Key, r: string)
    requires Shaped(plan) && Separated(plan, start) && Finishes(plan, start, schedule) && !plan.p.allowSubset
    requires Execute(plan, Initial(plan, start), schedule).topErrs == []
    requires k < |plan.tasks| && BoundThrough(start, plan.p.fromNs, plan.tasks[k].sa, kb, r)
    ensures var p, t, o := plan.p, plan.tasks[k], After(plan, start, schedule);
            && (Key(p.fromNs, r) in start.roles ==> Arrived(p, start, o, t.toNs, t.sa, r))
            && ((forall key :: IsCopy(plan, start, key) ==> key !in start.bindings) ==>
                Lookup(o.bindings, CopyKey(p, t, r)) == Some(CopyBinding(p, t, r)))
  {
    hide Solo, CopyKey, CopyBinding, Copied, Runs, Execute, Complete, BoundRoles, IsCopy, Arrived;
    var p, t, order, o := plan.p, plan.tasks[k], plan.orders[k], After(plan, start, schedule);
    CollectedExactly(plan, start, schedule);
    FinishedMerged(plan, start, schedule);
    OwnDistinct(plan, start, k);
    StrictSolo(p, t, order, start);
    BoundIsCopied(p, t, start, kb, r);
    assert CopyOf(plan, start, CopyKey(p, t, r), k, r);
    if Key(p.fromNs, r) in start.roles {
      MovedCopied(p, t, start, Solo(p, t, order, start).objects, o, r);
      CopiedArrived(p, t, start, o, r);
    }
    forall r' | r' in Copies(p, t, start)
      ensures IsCopy(plan, start, CopyKey(p, t, r'))
    {
      CopyIsCopy(plan, start, k, r');
    }
  }

  lemma BoundIsCopied(p: Push, t: Task, start: Objects, kb: Key, r: string)
    requires BoundThrough(start, p.fromNs, t.sa, kb, r)
    ensures r in Copies(p, t, start)
  {
  }

  lemma MovedCopied(p: Push, t: Task, start: Objects, o: Objects, o': Objects, r: string)
    requires Copied(p, t, start, o, r) && Lookup(o'.roles, CopyKey(p, t, r)) == Lookup(o.roles, CopyKey(p, t, r))
    ensures Copied(p, t, start, o', r)
  {
    hide Copyable, Copy, CopyKey;
  }

  /** So everything handed on is possible afterwards. */
  lemma StrictPushGrants(plan: Plan, start: Objects, schedule: seq<Action>, k: nat, q: Request, kb: Key, r: string,
                         rule: PolicyRule)
    requires Shaped(plan) && Separated(plan, start) && Finishes(plan, start, schedule) && !plan.p.allowSubset
    requires Execute(plan, Initial(plan, start), schedule).topErrs == []
    requires forall key :: IsCopy(plan, start, key) ==> key !in start.bindings
    requires k < |plan.tasks| && Concrete(q)
    requires HandedOn(start, plan.p.fromNs, plan.tasks[k].sa, plan.tasks[k].toNs, q, kb, r, rule)
    ensures Can(After(plan, start, schedule), plan.tasks[k].sa, plan.p.fromNs, plan.tasks[k].toNs, q)
  {
    hide Separated, Runs, Execute, Complete, Shaped, Kept, Allows, ProjectedName, IsCopy;
    var p, t, o := plan.p, plan.tasks[k], After(plan, start, schedule);
    StrictPushArrives(plan, start, schedule, k, kb, r);
    assert GrantsThrough(o, CopyKey(p, t, r), t.sa, p.fromNs, t.toNs, q);
  }

  // ---------------------------------------------------------------------------------------------
  // In turn, with members repeated too
  // ---------------------------------------------------------------------------------------------

  lemma SoloFrame(p: Push, t: Task, order: Order, o: Objects, key: Key)
    requires Enumerates(order, Copies(p, t, o))
    requires forall r :: r in Copies(p, t, o) ==> key != CopyKey(p, t, r)
    ensures SameObjectAt(o, Solo(p, t, order, o).objects, key)
  {
    hide CopyRoles, Bind, BoundRoles, ManagedRules, CopyKey;
    var names := order(Copies(p, t, o));
    forall i | 0 <= i < |names|
      ensures names[i] in Copies(p, t, o)
    {
      assert names[i] in Elems(names);
    }
    CopyRolesFrame(p, t, ManagedRules(p, t, o.roles), o.roles, names, key);
    BindFrame(p, t, o.bindings, names, key);
  }

  lemma OwnAttributed(plan: Plan, start: Objects, k: nat)
    requires Attributed(plan, start) && k < |plan.tasks|
    ensures OwnKeysDistinct(plan.p, plan.tasks[k], start)
  {
    hide CopyKey, BoundRoles, IsCopy;
    var p, t := plan.p, plan.tasks[k];
    forall r, r' | r in Copies(p, t, start) && r' in Copies(p, t, start) && CopyKey(p, t, r) == CopyKey(p, t, r')
      ensures r == r'
    {
      assert CopyOf(plan, start, CopyKey(p, t, r), k, r) && CopyOf(plan, start, CopyKey(p, t, r), k, r');
    }
  }

  lemma StableCopied(p: Push, t: Task, start: Objects, now: Objects, o: Objects, r: string)
    requires StableReads(p, t, now, start)
    ensures SourceKey(p, r) in now.roles <==> SourceKey(p, r) in start.roles
    ensures Copied(p, t, now, o, r) <==> Copied(p, t, start, o, r)
  {
    hide BoundRoles, ManagedRules, CopyKey, RulesFilter.Filtered;
    assert Lookup(now.roles, SourceKey(p, r)) == Lookup(start.roles, SourceKey(p, r));
  }

  ghost predicate FirstCopied(plan: Plan, start: Objects, o: Objects, n: nat) {
    forall k, r :: 0 <= k < n <= |plan.tasks| && r in Copies(plan.p, plan.tasks[k], start) && SourceKey(plan.p, r) in start.roles ==>
      Copied(plan.p, plan.tasks[k], start, o, r)
  }

  /** One more goroutine takes its turn. */
  lemma StrictTurn(plan: Plan, start: Objects, now: Objects, k: nat)
    requires Attributed(plan, start) && !plan.p.allowSubset && k < |plan.tasks| && Framed(plan, now, start)
    ensures var r := Solo(plan.p, plan.tasks[k], plan.orders[k], now);
            && Framed(plan, r.objects, start)
            && (r.failure == None && FirstCopied(plan, start, now, k) ==> FirstCopied(plan, start, r.objects, k + 1))
  {
    hide Solo, CopyKey, BoundRoles, IsCopy, Copied, StableReads;
    var p, t, order := plan.p, plan.tasks[k], plan.orders[k];
    var after := Solo(p, t, order, now);
    ReadsAreStable(plan, now, start, k);
    StableCopies(p, t, now, start);
    OwnAttributed(plan, start, k);
    forall key | !IsCopy(plan, start, key)
      ensures SameObjectAt(now, after.objects, key)
    {
      NotACopy(plan, start, key, k);
      SoloFrame(p, t, order, now, key);
    }
    if after.failure == None && FirstCopied(plan, start, now, k) {
      StrictSolo(p, t, order, now);
      forall k', r | 0 <= k' < k + 1 && r in Copies(p, plan.tasks[k'], start) && SourceKey(p, r) in start.roles
        ensures Copied(p, plan.tasks[k'], start, after.objects, r)
      {
        StableCopied(p, t, start, now, after.objects, r);
        StillCopied(plan, start, now, after.objects, k, k', r);
      }
    }
  }

  lemma StableCopies(p: Push, t: Task, now: Objects, start: Objects)
    requires StableReads(p, t, now, start)
    ensures Copies(p, t, now) == Copies(p, t, start)
  {
    hide BoundRoles, ManagedRules;
  }

  /** A copy made before stays, or is made again. */
  lemma StillCopied(plan: Plan, start: Objects, now: Objects, o': Objects, k: nat, k': nat, r: string)
    requires Attributed(plan, start) && k < |plan.tasks| && k' <= k
    requires Copies(plan.p, plan.tasks[k], now) == Copies(plan.p, plan.tasks[k], start)
    requires o' == Solo(plan.p, plan.tasks[k], plan.orders[k], now).objects
    requires r in Copies(plan.p, plan.tasks[k'], start)
    requires k' < k ==> Copied(plan.p, plan.tasks[k'], start, now, r)
    requires r in Copies(plan.p, plan.tasks[k], start) ==> Copied(plan.p, plan.tasks[k], start, o', r)
    ensures Copied(plan.p, plan.tasks[k'], start, o', r)
  {
    hide Solo, CopyKey, BoundRoles, IsCopy, Copyable, Copy;
    var p, t, t' := plan.p, plan.tasks[k], plan.tasks[k'];
    var key := CopyKey(p, t', r);
    assert CopyOf(plan, start, key, k', r);
    if exists r0 :: r0 in Copies(p, t, start) && key == CopyKey(p, t, r0) {
      var r0 :| r0 in Copies(p, t, start) && key == CopyKey(p, t, r0);
      assert CopyOf(plan, start, key, k, r0);
      CopyKeyPlace(p, t, r0);
      CopyKeyPlace(p, t', r);
      SameCopyEither(p, t, t', start, r);
    } else {
      SoloFrame(p, t, plan.orders[k], now, key);
      MovedCopied(p, t', start, now, o', r);
    }
  }

  lemma CopyKeyPlace(p: Push, t: Task, r: string)
    ensures CopyKey(p, t, r).ns == t.toNs
  {
  }

  lemma {:induction false} StrictTurns(plan: Plan, start: Objects, n: nat)
    requires |plan.orders| == |plan.tasks| && Attributed(plan, start) && !plan.p.allowSubset && n <= |plan.tasks|
    ensures var turned := InTurn(plan.p, plan.tasks[..n], plan.orders[..n], start);
            Framed(plan, turned.objects, start) && (turned.errors == [] ==> FirstCopied(plan, start, turned.objects, n))
  {
    hide Attributed, Framed, Solo, InTurn, FirstCopied;
    if n == 0 {
      InTurnNothing(plan.p, start);
      assert plan.tasks[..0] == [] && plan.orders[..0] == [];
      NothingCopiedYet(plan, start);
    } else {
      var k := n - 1;
      StrictTurns(plan, start, k);
      var now := InTurn(plan.p, plan.tasks[..k], plan.orders[..k], start);
      StrictTurn(plan, start, now.objects, k);
      InTurnLast(plan.p, plan.tasks[..k], plan.tasks[k], plan.orders[..k], plan.orders[k], start);
      assert plan.tasks[..n] == plan.tasks[..k] + [plan.tasks[k]] && plan.orders[..n] == plan.orders[..k] + [plan.orders[k]];
    }
  }

  lemma NothingCopiedYet(plan: Plan, start: Objects)
    ensures Framed(plan, start, start) && FirstCopied(plan, start, start, 0)
  {
  }

  lemma FirstCopiedAt(plan: Plan, start: Objects, o: Objects, k: nat, r: string)
    requires FirstCopied(plan, start, o, |plan.tasks|) && k < |plan.tasks|
    requires r in Copies(plan.p, plan.tasks[k], start) && SourceKey(plan.p, r) in start.roles
    ensures Copied(plan.p, plan.tasks[k], start, o, r)
  {
    hide Copied, BoundRoles;
  }

  /** A strict push in turn that returns no error has copied every found Role of every account into every target. */
  lemma StrictTurnsArrive(p: Push, members: seq<string>, accounts: seq<string>, faults: nat -> Faults,
                          orders: nat -> Order, start: Objects)
    requires !p.allowSubset && NamesApart(p, accounts, start)
    requires Enumerating(PlanFor(p, members, accounts, faults, orders), start)
    requires var plan := PlanFor(p, members, accounts, faults, orders);
             InTurn(p, plan.tasks, plan.orders, start).errors == []
    ensures var plan := PlanFor(p, members, accounts, faults, orders);
            AllArrived(p, start, InTurn(p, plan.tasks, plan.orders, start).objects, members, accounts)
  {
    hide NamesApart, Enumerating, Attributed, InTurn, Copied, Arrived, BoundThrough, TaskList, Targets, GroupList,
      Framed;
    var plan := PlanFor(p, members, accounts, faults, orders);
    PlanIsAttributed(p, members, accounts, faults, orders, start);
    StrictTurns(plan, start, |plan.tasks|);
    assert plan.tasks[..|plan.tasks|] == plan.tasks && plan.orders[..|plan.tasks|] == plan.orders;
    var o := InTurn(p, plan.tasks, plan.orders, start).objects;
    forall ns, sa, kb, r | && ns in members && ns != p.fromNs && sa in accounts
                           && BoundThrough(start, p.fromNs, sa, kb, r) && Key(p.fromNs, r) in start.roles
      ensures Arrived(p, start, o, ns, sa, r)
    {
      TaskListHas(Targets(members, p.fromNs), accounts, faults, ns, sa);
      var k :| 0 <= k < |plan.tasks| && plan.tasks[k].toNs == ns && plan.tasks[k].sa == sa;
      BoundIsCopied(p, plan.tasks[k], start, kb, r);
      FirstCopiedAt(plan, start, o, k, r);
      CopiedArrived(p, plan.tasks[k], start, o, r);
    }
  }

  lemma StrictListArrives(p: Push, members: seq<string>, accounts: seq<string>, faults: nat -> Faults,
                          orders: seq<Order>, start: Objects)
    requires !p.allowSubset && NamesApart(p, accounts, start)
    requires var tasks := TaskList(Targets(members, p.fromNs), accounts, faults);
             && |orders| == |tasks| && InTurn(p, tasks, orders, start).errors == []
             && forall k :: 0 <= k < |tasks| ==> Enumerates(orders[k], BoundRoles(start.bindings, tasks[k].sa, p.fromNs))
    ensures var tasks := TaskList(Targets(members, p.fromNs), accounts, faults);
            AllArrived(p, start, InTurn(p, tasks, orders, start).objects, members, accounts)
  {
    hide NamesApart, InTurn, AllArrived, TaskList, Targets, GroupList, BoundRoles, Enumerates;
    var as_ := (k: nat) => if k < |orders| then orders[k] else (s => []);
    var plan := PlanFor(p, members, accounts, faults, as_);
    assert plan.orders == orders;
    StrictTurnsArrive(p, members, accounts, faults, as_, start);
  }
}
