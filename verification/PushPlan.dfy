/** The workers a push starts for a member list and a set of service accounts. */
module PushPlan {
  import opened Lists
  import opened Names
  import opened Store
  import opened Projection
  import opened Worker
  import opened Sums
  import opened FanOut

  /** The members a push visits: the operator's own namespace is passed over. */
  function Targets(members: seq<string>, operatorNs: string): (targets: seq<string>)
    ensures |targets| <= |members|
    ensures forall ns :: ns in targets <==> ns in members && ns != operatorNs
    ensures Distinct(members) ==> Distinct(targets)
  {
    if members == [] then []
    else
      var init, last := members[..|members| - 1], members[|members| - 1];
      assert members == init + [last];
      assert Distinct(members) ==> last !in init;
      Targets(init, operatorNs) + if last == operatorNs then [] else [last]
  }

  /** The goroutines of one target. */
  function Row(toNs: string, accounts: seq<string>, faults: nat -> Faults, first: nat): seq<Task> {
    seq(|accounts|, j requires 0 <= j < |accounts| => Task(toNs, accounts[j], faults(first + j)))
  }

  function TaskList(targets: seq<string>, accounts: seq<string>, faults: nat -> Faults): seq<Task> {
    if targets == [] then []
    else
      var before := TaskList(targets[..|targets| - 1], accounts, faults);
      before + Row(targets[|targets| - 1], accounts, faults, |before|)
  }

  function GroupList(targets: nat, n: nat): seq<nat> {
    if targets == 0 then [] else GroupList(targets - 1, n) + seq(n, _ => targets - 1)
  }

  /** One goroutine per target and account; channels as wide as the loops that start the goroutines. */
  function PlanFor(p: Push, members: seq<string>, accounts: seq<string>, faults: nat -> Faults,
                   orders: nat -> Order): Plan {
    var targets := Targets(members, p.fromNs);
    var tasks := TaskList(targets, accounts, faults);
    Plan(p, tasks, seq(|tasks|, k requires 0 <= k < |tasks| => orders(k)), GroupList(|targets|, |accounts|),
         |targets|, |accounts|, |members|)
  }

  lemma {:induction false} GroupListBounds(targets: nat, n: nat)
    ensures forall k :: 0 <= k < |GroupList(targets, n)| ==> GroupList(targets, n)[k] < targets
  {
    if targets > 0 {
      GroupListBounds(targets - 1, n);
    }
  }

  /** Every namespace has exactly one worker per account. */
  lemma {:induction false} GroupSize(targets: nat, n: nat, g: nat)
    requires g < targets
    ensures |Members(GroupList(targets, n), g)| == n
  {
    var before, all := GroupList(targets - 1, n), GroupList(targets, n);
    GroupListBounds(targets - 1, n);
    if g == targets - 1 {
      RangeSize(Members(all, g), |before|, n);
    } else {
      GroupSize(targets - 1, n, g);
      assert Members(all, g) == Members(before, g);
    }
  }

  lemma {:induction false} TaskListShape(targets: seq<string>, accounts: seq<string>, faults: nat -> Faults)
    ensures var tasks, group := TaskList(targets, accounts, faults), GroupList(|targets|, |accounts|);
            && |tasks| == |group|
            && forall k :: 0 <= k < |tasks| ==> tasks[k].toNs in targets && tasks[k].sa in accounts
  {
    if targets != [] {
      TaskListShape(targets[..|targets| - 1], accounts, faults);
    }
  }

  /** Every pair of target and account has a goroutine. */
  lemma {:induction false} TaskListHas(targets: seq<string>, accounts: seq<string>, faults: nat -> Faults,
                                       toNs: string, sa: string)
    requires toNs in targets && sa in accounts
    ensures exists k :: 0 <= k < |TaskList(targets, accounts, faults)| &&
              TaskList(targets, accounts, faults)[k].toNs == toNs && TaskList(targets, accounts, faults)[k].sa == sa
  {
    var init, last := targets[..|targets| - 1], targets[|targets| - 1];
    assert targets == init + [last];
    var before := TaskList(init, accounts, faults);
    if toNs in init {
      TaskListHas(init, accounts, faults, toNs, sa);
      var k :| 0 <= k < |before| && before[k].toNs == toNs && before[k].sa == sa;
      assert TaskList(targets, accounts, faults)[k] == before[k];
    } else {
      var j :| 0 <= j < |accounts| && accounts[j] == sa;
      assert TaskList(targets, accounts, faults)[|before| + j].sa == sa;
    }
  }

  /** No pair of target and account has two goroutines. */
  lemma {:induction false} TasksDistinct(targets: seq<string>, accounts: seq<string>, faults: nat -> Faults, k: nat,
                                         k': nat)
    requires Distinct(targets) && Distinct(accounts)
    requires k < k' < |TaskList(targets, accounts, faults)|
    ensures var tasks := TaskList(targets, accounts, faults);
            tasks[k].toNs != tasks[k'].toNs || tasks[k].sa != tasks[k'].sa
  {
    var init, last := targets[..|targets| - 1], targets[|targets| - 1];
    var before := TaskList(init, accounts, faults);
    assert targets == init + [last];
    assert last !in init;
    TaskListShape(init, accounts, faults);
    if k' < |before| {
      TasksDistinct(init, accounts, faults, k, k');
    } else if k >= |before| {
      assert accounts[k - |before|] != accounts[k' - |before|];
    }
  }

  /** No channel is narrower than the number of its senders. */
  lemma PlanIsShaped(p: Push, members: seq<string>, accounts: seq<string>, faults: nat -> Faults, orders: nat -> Order)
    ensures Shaped(PlanFor(p, members, accounts, faults, orders))
  {
    hide Members, GroupList, TaskList, Targets;
    var plan := PlanFor(p, members, accounts, faults, orders);
    TaskListShape(Targets(members, p.fromNs), accounts, faults);
    GroupListBounds(plan.groups, |accounts|);
    forall g: nat | g < plan.groups
      ensures |Members(plan.group, g)| <= plan.capacity
    {
      GroupSize(plan.groups, |accounts|, g);
    }
  }

  /** The operator's own namespace is passed over, whatever the member list holds. */
  lemma PlanIsAbroad(p: Push, members: seq<string>, accounts: seq<string>, faults: nat -> Faults, orders: nat -> Order)
    ensures Abroad(PlanFor(p, members, accounts, faults, orders))
  {
    hide TaskList, Targets, GroupList;
    TaskListShape(Targets(members, p.fromNs), accounts, faults);
  }

  /** A Role that a push copies for an account. */
  predicate InUse(p: Push, accounts: seq<string>, start: Objects, sa: string, r: string) {
    sa in accounts && r in BoundRoles(start.bindings, sa, p.fromNs)
  }

  /** Copies for different Roles or accounts have different names, and none is the managed Role's. */
  ghost predicate NamesApart(p: Push, accounts: seq<string>, start: Objects) {
    && (forall sa, r, sa', r' | InUse(p, accounts, start, sa, r) && InUse(p, accounts, start, sa', r') ::
          ProjectedName(p.hash, r, sa, p.fromNs) == ProjectedName(p.hash, r', sa', p.fromNs) ==> sa == sa' && r == r')
    && (forall sa, r | InUse(p, accounts, start, sa, r) ::
          ProjectedName(p.hash, r, sa, p.fromNs) != MANAGED_PREFIX + p.fromNs)
  }

  /** Every worker meets each Role bound to its account exactly once. */
  ghost predicate Enumerating(plan: Plan, start: Objects) {
    |plan.orders| == |plan.tasks| &&
    forall k :: 0 <= k < |plan.tasks| ==> Enumerates(plan.orders[k], Copies(plan.p, plan.tasks[k], start))
  }

  /** A plan for duplicate-free lists and apart names is separated: the operator's namespace, where the
    sources live, is no target. */
  lemma PlanIsSeparated(p: Push, members: seq<string>, accounts: seq<string>, faults: nat -> Faults,
                        orders: nat -> Order,
                        start: Objects)
    requires Distinct(members) && Distinct(accounts) && NamesApart(p, accounts, start)
    requires Enumerating(PlanFor(p, members, accounts, faults, orders), start)
    ensures Separated(PlanFor(p, members, accounts, faults, orders), start)
  {
    hide BoundRoles, ProjectedName, TaskList, Targets, Enumerates;
    var plan, targets := PlanFor(p, members, accounts, faults, orders), Targets(members, p.fromNs);
    TaskListShape(targets, accounts, faults);
    forall key, k, r, k', r' | CopyOf(plan, start, key, k, r) && CopyOf(plan, start, key, k', r')
      ensures k == k' && r == r'
    {
      assert plan.tasks[k].sa in accounts && plan.tasks[k'].sa in accounts;
      if k < k' {
        TasksDistinct(targets, accounts, faults, k, k');
      } else if k' < k {
        TasksDistinct(targets, accounts, faults, k', k);
      }
    }
    forall k | 0 <= k < |plan.tasks|
      ensures !IsCopy(plan, start, ManagedKey(plan.p, plan.tasks[k]))
    {
      forall k', r
        ensures !CopyOf(plan, start, ManagedKey(plan.p, plan.tasks[k]), k', r)
      {
        assert 0 <= k' < |plan.tasks| ==> plan.tasks[k'].sa in accounts;
      }
    }
  }

  /** For repeated members too, apart names attribute every copy to its account and Role. */
  lemma PlanIsAttributed(p: Push, members: seq<string>, accounts: seq<string>, faults: nat -> Faults,
                         orders: nat -> Order,
                         start: Objects)
    requires NamesApart(p, accounts, start) && Enumerating(PlanFor(p, members, accounts, faults, orders), start)
    ensures Attributed(PlanFor(p, members, accounts, faults, orders), start)
  {
    hide BoundRoles, ProjectedName, TaskList, Targets, Enumerates;
    var plan, targets := PlanFor(p, members, accounts, faults, orders), Targets(members, p.fromNs);
    TaskListShape(targets, accounts, faults);
    forall key, k, r | CopyOf(plan, start, key, k, r)
      ensures InUse(p, accounts, start, plan.tasks[k].sa, r)
    {
      assert plan.tasks[k].sa in accounts;
    }
    forall k | 0 <= k < |plan.tasks|
      ensures !IsCopy(plan, start, ManagedKey(plan.p, plan.tasks[k]))
    {
    }
  }

  /** Dot-free Role names and a digest that separates the texts in use keep all copies apart, and no copy
    meets the managed Role's name unless the operator's namespace is a digest or ends in one. */
  lemma DotFreeNamesApart(p: Push, accounts: seq<string>, start: Objects)
    requires forall sa, r | InUse(p, accounts, start, sa, r) :: '.' !in r && IsDigest(p.hash(r + sa + p.fromNs))
    requires forall sa, r, sa', r' | InUse(p, accounts, start, sa, r) && InUse(p, accounts, start, sa', r') ::
               p.hash(r + sa + p.fromNs) == p.hash(r' + sa' + p.fromNs) ==> r + sa + p.fromNs == r' + sa' + p.fromNs
    requires !IsDigest(p.fromNs) && !EndsInDigest(p.fromNs)
    ensures NamesApart(p, accounts, start)
  {
    hide InUse, ProjectedName, EndsInDigest;
    PrefixedEndsInDigest(p.fromNs);
    forall sa, r, sa', r' | && InUse(p, accounts, start, sa, r) && InUse(p, accounts, start, sa', r')
                            && ProjectedName(p.hash, r, sa, p.fromNs) == ProjectedName(p.hash, r', sa', p.fromNs)
      ensures sa == sa' && r == r'
    {
      ProjectedNameInjective(p.hash, r, sa, r', sa', p.fromNs);
    }
    forall sa, r | InUse(p, accounts, start, sa, r)
      ensures ProjectedName(p.hash, r, sa, p.fromNs) != MANAGED_PREFIX + p.fromNs
    {
      ProjectedNameEndsInDigest(p.hash, r, sa, p.fromNs);
    }
  }
}
