/** What a push guarantees under every schedule. */
module PushTheorems {
  import opened Rbac
  import opened Lists
  import opened Store
  import opened Projection
  import opened Worker
  import opened SoloRuns
  import opened FanOut

  predicate Finishes(plan: Plan, start: Objects, schedule: seq<Action>)
    requires Shaped(plan)
  {
    && Runs(plan, Initial(plan, start), schedule)
    && Complete(plan, Execute(plan, Initial(plan, start), schedule))
  }

  function After(plan: Plan, start: Objects, schedule: seq<Action>): Objects
    requires Shaped(plan) && Runs(plan, Initial(plan, start), schedule)
  {
    Execute(plan, Initial(plan, start), schedule).objects
  }

  // ---------------------------------------------------------------------------------------------
  // Interleavings do not matter
  // ---------------------------------------------------------------------------------------------

  /** The store in which every worker's copies are what that worker alone would leave. */
  ghost predicate Merged(plan: Plan, start: Objects, o: Objects)
    requires |plan.orders| == |plan.tasks|
  {
    && Framed(plan, o, start)
    && forall key, k, r :: CopyOf(plan, start, key, k, r) ==>
         var alone := Solo(plan.p, plan.tasks[k], plan.orders[k], start).objects;
         Lookup(o.roles, key) == Lookup(alone.roles, key) && Lookup(o.bindings, key) == Lookup(alone.bindings, key)
  }

  lemma MergedUnique(plan: Plan, start: Objects, a: Objects, b: Objects)
    requires |plan.orders| == |plan.tasks| && Merged(plan, start, a) && Merged(plan, start, b)
    ensures a == b
  {
    hide CopyOf, Solo;
    forall key
      ensures Lookup(a.roles, key) == Lookup(b.roles, key) && Lookup(a.bindings, key) == Lookup(b.bindings, key)
    {
      if IsCopy(plan, start, key) {
        var k, r :| CopyOf(plan, start, key, k, r);
      }
    }
    SameLookups(a.roles, b.roles);
    SameLookups(a.bindings, b.bindings);
  }

  lemma FinishedMerged(plan: Plan, start: Objects, schedule: seq<Action>)
    requires Shaped(plan) && Separated(plan, start) && Finishes(plan, start, schedule)
    ensures Merged(plan, start, After(plan, start, schedule))
  {
    hide Solo, BoundRoles, CopyKey, OnTrack, Runs, Execute;
    var s := Execute(plan, Initial(plan, start), schedule);
    TrackedInitially(plan, start);
    ExecuteTracked(plan, Initial(plan, start), schedule, start);
    forall key, k, r | CopyOf(plan, start, key, k, r)
      ensures var alone := Solo(plan.p, plan.tasks[k], plan.orders[k], start).objects;
              Lookup(s.objects.roles, key) == Lookup(alone.roles, key) && Lookup(s.objects.bindings, key) == Lookup(alone.bindings, key)
    {
      DoneObjects(plan, s, start, key, k, r);
    }
  }

  /** Any two complete schedules of the same workers end in the same Roles and RoleBindings, whatever
    errors the API server answers with and whatever the targets held before. */
  lemma SchedulesAgree(plan: Plan, start: Objects, one: seq<Action>, two: seq<Action>)
    requires Shaped(plan) && Separated(plan, start)
    requires Finishes(plan, start, one) && Finishes(plan, start, two)
    ensures After(plan, start, one) == After(plan, start, two)
  {
    FinishedMerged(plan, start, one);
    FinishedMerged(plan, start, two);
    MergedUnique(plan, start, After(plan, start, one), After(plan, start, two));
  }

  /** The workers run one after another, each from what the one before it left. */
  function OneByOne(plan: Plan, start: Objects, n: nat): Objects
    requires |plan.orders| == |plan.tasks| && n <= |plan.tasks|
  {
    if n == 0 then start
    else Solo(plan.p, plan.tasks[n - 1], plan.orders[n - 1], OneByOne(plan, start, n - 1)).objects
  }

  lemma {:induction false} OneByOneMerges(plan: Plan, start: Objects, n: nat)
    requires Shaped(plan) && Separated(plan, start) && n <= |plan.tasks|
    ensures var o := OneByOne(plan, start, n);
            && Framed(plan, o, start)
            && forall key, k, r :: CopyOf(plan, start, key, k, r) ==>
                 var then_ := if k < n then Solo(plan.p, plan.tasks[k], plan.orders[k], start).objects else start;
                 Lookup(o.roles, key) == Lookup(then_.roles, key) && Lookup(o.bindings, key) == Lookup(then_.bindings, key)
  {
    hide Solo, BoundRoles, CopyKey, IsCopy, Enumerates;
    if n > 0 {
      var before := OneByOne(plan, start, n - 1);
      var k0 := n - 1;
      var p, t, order := plan.p, plan.tasks[k0], plan.orders[k0];
      var o := OneByOne(plan, start, n);
      OneByOneMerges(plan, start, n - 1);
      SeparatedIsAttributed(plan, start);
      ReadsAreStable(plan, before, start, k0);
      forall r | r in Copies(p, t, start)
        ensures Lookup(before.roles, CopyKey(p, t, r)) == Lookup(start.roles, CopyKey(p, t, r))
        ensures Lookup(before.bindings, CopyKey(p, t, r)) == Lookup(start.bindings, CopyKey(p, t, r))
      {
        assert CopyOf(plan, start, CopyKey(p, t, r), k0, r);
      }
      SoloAgrees(p, t, order, before, start);
      forall key | !IsCopy(plan, start, key)
        ensures Lookup(o.roles, key) == Lookup(before.roles, key) && Lookup(o.bindings, key) == Lookup(before.bindings, key)
      {
        NotACopy(plan, start, key, k0);
      }
      forall key, k, r | CopyOf(plan, start, key, k, r)
        ensures var then_ := if k < n then Solo(plan.p, plan.tasks[k], plan.orders[k], start).objects else start;
                Lookup(o.roles, key) == Lookup(then_.roles, key) && Lookup(o.bindings, key) == Lookup(then_.bindings, key)
      {
        if k != k0 {
          forall r' | r' in Copies(p, t, start)
            ensures key != CopyKey(p, t, r')
          {
            assert key == CopyKey(p, t, r') ==> CopyOf(plan, start, key, k0, r');
          }
        }
      }
    }
  }

  lemma NotACopy(plan: Plan, start: Objects, key: Key, k: nat)
    requires !IsCopy(plan, start, key) && k < |plan.tasks|
    ensures forall r :: r in Copies(plan.p, plan.tasks[k], start) ==> key != CopyKey(plan.p, plan.tasks[k], r)
  {
    hide BoundRoles, CopyKey;
    forall r | r in Copies(plan.p, plan.tasks[k], start)
      ensures key != CopyKey(plan.p, plan.tasks[k], r)
    {
      assert !CopyOf(plan, start, key, k, r);
    }
  }

  /** Every interleaving ends where running the goroutines one after another ends. */
  lemma InterleavingIsSequential(plan: Plan, start: Objects, schedule: seq<Action>)
    requires Shaped(plan) && Separated(plan, start) && Finishes(plan, start, schedule)
    ensures After(plan, start, schedule) == OneByOne(plan, start, |plan.tasks|)
  {
    hide Solo, IsCopy, Framed;
    FinishedMerged(plan, start, schedule);
    OneByOneMerges(plan, start, |plan.tasks|);
    MergedUnique(plan, start, After(plan, start, schedule), OneByOne(plan, start, |plan.tasks|));
  }

  // ---------------------------------------------------------------------------------------------
  // Iteration orders do not matter either when nothing goes wrong
  // ---------------------------------------------------------------------------------------------

  /** No API error, every found Role copyable or subset projection on, no copied binding there yet. */
  ghost predicate Smooth(plan: Plan, start: Objects) {
    && (forall k :: 0 <= k < |plan.tasks| ==> NoFaults(plan.tasks[k]))
    && (plan.p.allowSubset || forall k, r :: 0 <= k < |plan.tasks| && r in Copies(plan.p, plan.tasks[k], start) ==>
          Status(plan.p, plan.tasks[k], start, r) != Some(Insufficient))
    && (forall key :: IsCopy(plan, start, key) ==> key !in start.bindings)
  }

  /** The complete description of the outcome: one copy per copyable Role, one binding per bound name,
    and nothing else touched. */
  ghost predicate Pushed(plan: Plan, start: Objects, o: Objects) {
    && Framed(plan, o, start)
    && forall key, k, r :: CopyOf(plan, start, key, k, r) ==>
         && Expected(plan.p, plan.tasks[k], start, r, Lookup(o.roles, key))
         && Lookup(o.bindings, key) == Some(CopyBinding(plan.p, plan.tasks[k], r))
  }

  lemma NamesOf(plan: Plan, start: Objects, k: nat)
    requires Separated(plan, start) && k < |plan.tasks|
    ensures var names := plan.orders[k](Copies(plan.p, plan.tasks[k], start));
            && DistinctCopies(plan.p, plan.tasks[k], names)
            && (forall i :: 0 <= i < |names| ==> names[i] in Copies(plan.p, plan.tasks[k], start))
            && (forall r :: r in Copies(plan.p, plan.tasks[k], start) ==> r in names)
  {
    hide BoundRoles, CopyKey, IsCopy;
    var copies := Copies(plan.p, plan.tasks[k], start);
    var names := plan.orders[k](copies);
    assert Enumerates(plan.orders[k], copies);
    forall i | 0 <= i < |names|
      ensures names[i] in copies
    {
      assert names[i] in Elems(names);
    }
    forall r | r in copies
      ensures r in names
    {
      assert r in Elems(names);
    }
    OwnDistinct(plan, start, k);
  }

  lemma SmoothSolo(plan: Plan, start: Objects, k: nat)
    requires Shaped(plan) && Separated(plan, start) && Smooth(plan, start) && k < |plan.tasks|
    ensures var t := plan.tasks[k];
            var r0 := Solo(plan.p, t, plan.orders[k], start);
            && r0.failure == None
            && (forall r :: r in Copies(plan.p, t, start) ==>
                  && Expected(plan.p, t, start, r, Lookup(r0.objects.roles, CopyKey(plan.p, t, r)))
                  && Lookup(r0.objects.bindings, CopyKey(plan.p, t, r)) == Some(CopyBinding(plan.p, t, r)))
            && (forall r, reason :: multiset(r0.sent)[Report(r, reason)] ==
                  if plan.p.allowSubset && r in Copies(plan.p, t, start) && Status(plan.p, t, start, r) == Some(reason) then 1 else 0)
  {
    hide BoundRoles, CopyKey, CopyRoles, Bind, IsCopy, Copyable, Status, Expected, CopyBinding;
    var p, t := plan.p, plan.tasks[k];
    var names := plan.orders[k](Copies(p, t, start));
    NamesOf(plan, start, k);
    forall i | 0 <= i < |names|
      ensures CopyKey(p, t, names[i]) !in start.bindings
    {
      CopyIsCopy(plan, start, k, names[i]);
    }
    FaultlessCopies(p, t, start, names);
    FaultlessBindings(p, t, start.bindings, names);
  }

  lemma CopyIsCopy(plan: Plan, start: Objects, k: nat, r: string)
    requires k < |plan.tasks| && r in Copies(plan.p, plan.tasks[k], start)
    ensures IsCopy(plan, start, CopyKey(plan.p, plan.tasks[k], r))
  {
    hide BoundRoles, CopyKey;
    assert CopyOf(plan, start, CopyKey(plan.p, plan.tasks[k], r), k, r);
  }

  lemma SmoothPush(plan: Plan, start: Objects, schedule: seq<Action>)
    requires Shaped(plan) && Separated(plan, start) && Smooth(plan, start) && Finishes(plan, start, schedule)
    ensures Pushed(plan, start, After(plan, start, schedule))
  {
    hide Solo, BoundRoles, CopyKey, IsCopy, Expected, CopyBinding;
    FinishedMerged(plan, start, schedule);
    forall key, k, r | CopyOf(plan, start, key, k, r)
      ensures Expected(plan.p, plan.tasks[k], start, r, Lookup(After(plan, start, schedule).roles, key))
      ensures Lookup(After(plan, start, schedule).bindings, key) == Some(CopyBinding(plan.p, plan.tasks[k], r))
    {
      SmoothSolo(plan, start, k);
    }
  }

  lemma PushedUnique(plan: Plan, start: Objects, a: Objects, b: Objects)
    requires Pushed(plan, start, a) && Pushed(plan, start, b)
    ensures a == b
  {
    hide BoundRoles, CopyKey, CopyBinding;
    forall key
      ensures Lookup(a.roles, key) == Lookup(b.roles, key) && Lookup(a.bindings, key) == Lookup(b.bindings, key)
    {
      if IsCopy(plan, start, key) {
        var k, r :| CopyOf(plan, start, key, k, r);
        assert Expected(plan.p, plan.tasks[k], start, r, Lookup(a.roles, key));
        assert Expected(plan.p, plan.tasks[k], start, r, Lookup(b.roles, key));
      }
    }
    SameLookups(a.roles, b.roles);
    SameLookups(a.bindings, b.bindings);
  }

  /** With other iteration orders and another interleaving the objects still come out the same. */
  lemma OrdersAgree(plan: Plan, plan': Plan, start: Objects, one: seq<Action>, two: seq<Action>)
    requires plan' == plan.(orders := plan'.orders)
    requires Shaped(plan) && Separated(plan, start) && Smooth(plan, start) && Finishes(plan, start, one)
    requires Shaped(plan') && Separated(plan', start) && Finishes(plan', start, two)
    ensures After(plan, start, one) == After(plan', start, two)
  {
    hide Copies, CopyKey, Expected, CopyBinding;
    SameCopies(plan, plan', start);
    SmoothPush(plan, start, one);
    SmoothPush(plan', start, two);
    assert Pushed(plan, start, After(plan', start, two));
    PushedUnique(plan, start, After(plan, start, one), After(plan', start, two));
  }

  lemma SameCopies(plan: Plan, plan': Plan, start: Objects)
    requires plan' == plan.(orders := plan'.orders)
    ensures forall key, k, r :: CopyOf(plan, start, key, k, r) <==> CopyOf(plan', start, key, k, r)
    ensures forall key :: IsCopy(plan, start, key) <==> IsCopy(plan', start, key)
  {
  }
}
