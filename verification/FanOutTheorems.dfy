/** Every schedule of the fan-out ends, without a blocked send, with everything sent collected. */
module FanOutTheorems {
  import opened Lists
  import opened Store
  import opened Projection
  import opened Worker
  import opened SoloRuns
  import opened Sums
  import opened FanOut
  import opened Channels
  import opened PushTheorems
  import opened PushPlan

  // ---------------------------------------------------------------------------------------------
  // No send blocks
  // ---------------------------------------------------------------------------------------------

  /** A worker that still has its send to make is one of fewer senders than the channel has room for. */
  lemma RoomInGroup(plan: Plan, s: State, k: nat)
    requires Fits(plan, s) && AllSane(plan, s) && Orderly(plan, s) && k < |plan.tasks|
    ensures s.workers[k].pc.Reporting? ==> |s.reports[plan.group[k]]| < plan.capacity
    ensures s.workers[k].pc.Failing? ==> |s.errs[plan.group[k]]| < plan.capacity
  {
    hide TopChannels, SenderOk, SentParts, InGroup, Flatten, Total;
    var g := plan.group[k];
    assert GroupChannels(plan, s, g) && Sane(plan.p, s.workers[k]);
    var members := Members(plan.group, g);
    assert k in members;
    if s.workers[k].pc.Reporting? {
      assert k !in Senders(plan.group, s.workers, g);
      SubsetSize(Senders(plan.group, s.workers, g), members);
    }
    if s.workers[k].pc.Failing? {
      assert k !in Failures(plan.group, s.workers, g);
      SubsetSize(Failures(plan.group, s.workers, g), members);
    }
  }

  function Below(n: nat): (s: set<nat>)
    ensures |s| == n && forall k: nat :: k in s <==> k < n
  {
    if n == 0 then {} else Below(n - 1) + {n - 1}
  }

  lemma RoomAtTop(plan: Plan, s: State, g: nat)
    requires Fits(plan, s) && TopChannels(plan, s) && g < plan.groups && !s.senders[g].Closed?
    ensures |s.topErrs| < plan.topCapacity && |s.topReports| < plan.topCapacity
  {
    hide ClosedParts, Flatten, Total;
    var all := Below(plan.groups);
    assert g in all && g !in FailedGroups(s.senders) && g !in ReportedGroups(s.senders);
    SubsetSize(FailedGroups(s.senders), all);
    SubsetSize(ReportedGroups(s.senders), all);
  }

  lemma UnfinishedCanMove(plan: Plan, s: State, k: nat)
    requires Fits(plan, s) && AllSane(plan, s) && Orderly(plan, s) && k < |plan.tasks| && !s.workers[k].pc.Finished?
    ensures Enabled(plan, s, Work(k))
  {
    hide TopChannels, GroupChannels, SenderOk;
    assert Sane(plan.p, s.workers[k]);
    RoomInGroup(plan, s, k);
  }

  lemma DoneCanCollect(plan: Plan, s: State, g: nat)
    requires Fits(plan, s) && Orderly(plan, s) && g < plan.groups && !s.senders[g].Closed? && GroupDone(plan, s, g)
    ensures Enabled(plan, s, Collect(g))
  {
    hide GroupChannels, TopChannels, GroupDone, Flatten;
    assert SenderOk(plan, s, g);
    RoomAtTop(plan, s, g);
  }

  /** No goroutine is ever stuck, whatever the names and the answers: a worker that is not done can move, and a
    namespace's own goroutine can move as soon as its workers are done. */
  lemma NeverStuck(plan: Plan, start: Objects, schedule: seq<Action>)
    requires Shaped(plan) && Runs(plan, Initial(plan, start), schedule)
    ensures var s := Execute(plan, Initial(plan, start), schedule);
            && (forall k: nat :: k < |plan.tasks| && !s.workers[k].pc.Finished? ==> Enabled(plan, s, Work(k)))
            && (forall g: nat :: g < plan.groups && !s.senders[g].Closed? && GroupDone(plan, s, g) ==> Enabled(plan, s, Collect(g)))
  {
    hide AllSane, Orderly, GroupDone, Runs, Execute, Enabled;
    var s := Execute(plan, Initial(plan, start), schedule);
    ScheduleIsOrderly(plan, start, schedule);
    forall k: nat | k < |plan.tasks| && !s.workers[k].pc.Finished?
      ensures Enabled(plan, s, Work(k))
    {
      UnfinishedCanMove(plan, s, k);
    }
    forall g: nat | g < plan.groups && !s.senders[g].Closed? && GroupDone(plan, s, g)
      ensures Enabled(plan, s, Collect(g))
    {
      DoneCanCollect(plan, s, g);
    }
  }

  // ---------------------------------------------------------------------------------------------
  // Every schedule ends
  // ---------------------------------------------------------------------------------------------

  function Minus(a: nat, b: nat): nat {
    if a >= b then a - b else 0
  }

  /** An upper bound on the steps a worker has left; `n` Roles are bound to its account. */
  function Rank(w: Worker, n: nat): nat {
    match w.pc
    case Listing => 4 * n + 5
    case Looking => 4 * n + 4
    case Reading => 3 * Minus(n, w.copied) + n + 3
    case Creating(_) => 3 * Minus(n, w.copied) + n + 2
    case Updating(_) => 3 * Minus(n, w.copied) + n + 1
    case Reporting => n + 2
    case Binding => Minus(n, w.bound) + 1
    case Failing(_) => 1
    case Finished(_) => 0
  }

  function SenderRank(s: Sender): nat {
    match s
    case Waiting => 2
    case SendingError => 1
    case SendingReports(_) => 1
    case Closed(_, _) => 0
  }

  function Bound(plan: Plan, start: Objects, k: nat): nat
    requires k < |plan.tasks| == |plan.orders|
  {
    |plan.orders[k](Copies(plan.p, plan.tasks[k], start))|
  }

  function Ranks(plan: Plan, s: State, start: Objects): seq<nat>
    requires Fits(plan, s)
  {
    seq(|plan.tasks|, k requires 0 <= k < |plan.tasks| => Rank(s.workers[k], Bound(plan, start, k)))
  }

  function SenderRanks(senders: seq<Sender>): seq<nat> {
    seq(|senders|, g requires 0 <= g < |senders| => SenderRank(senders[g]))
  }

  function StepsLeft(plan: Plan, s: State, start: Objects): nat
    requires Fits(plan, s)
  {
    TotalNat(Ranks(plan, s, start)) + TotalNat(SenderRanks(s.senders))
  }

  /** Once listed, the Roles of a worker number `n`. */
  predicate Sized(w: Worker, n: nat) {
    && (w.pc.Looking? ==> |w.names| == n && w.copied == 0 && w.bound == 0)
    && (w.pc.Reading? || w.pc.Creating? || w.pc.Updating? ==> |w.names| == n && w.copied < n && w.bound == 0)
    && (w.pc.Reporting? ==> |w.names| == n && w.bound == 0)
    && (w.pc.Binding? ==> |w.names| == n && w.bound < n)
  }

  lemma FaithfulSized(p: Push, t: Task, order: Order, w: Worker, start: Objects)
    requires Faithful(p, t, order, w, start)
    ensures Sized(w, |order(Copies(p, t, start))|)
  {
    hide CopyRoles, Bind, Ended, ManagedRules, CopyKey, CopyRules;
  }

  lemma NextRoleRank(w: Worker, n: nat)
    requires |w.names| == n && w.copied <= n && w.bound == 0
    ensures Rank(NextRole(w), n) <= 3 * (n - w.copied) + n + 3
  {
  }

  /** A Role done with: the worker stops, or goes on with one Role less. */
  predicate RoleDone(w: Worker, w': Worker) {
    || w'.pc.Failing? || w'.pc.Finished?
    || w' == NextRole(w.(copied := w.copied + 1, unprojected := w'.unprojected))
  }

  lemma NextRoleDone(w: Worker, more: seq<Report>)
    ensures RoleDone(w, NextRole(w.(copied := w.copied + 1, unprojected := more)))
    ensures RoleDone(w, NextRole(w.(copied := w.copied + 1)))
  {
  }

  lemma SkipRoleDone(p: Push, w: Worker, role: string, reason: Reason, e: Error)
    ensures RoleDone(w, SkipRole(p, w, role, reason, e))
  {
    NextRoleDone(w, w.unprojected + [Report(role, reason)]);
  }

  lemma RoleDoneRank(w: Worker, w': Worker, n: nat)
    requires |w.names| == n && w.copied < n && w.bound == 0 && RoleDone(w, w')
    requires w.pc.Reading? || w.pc.Creating? || w.pc.Updating?
    ensures Rank(w', n) < Rank(w, n)
  {
    NextRoleRank(w.(copied := w.copied + 1, unprojected := w'.unprojected), n);
  }

  lemma RoleStep(p: Push, t: Task, order: Order, w: Worker, o: Objects)
    requires w.pc.Reading? || w.pc.Creating? || w.pc.Updating?
    requires w.copied < |w.names|
    ensures var w' := NextStep(p, t, order, w, o).0;
            || RoleDone(w, w')
            || (w.pc.Reading? && w'.pc.Creating? && w'.copied == w.copied)
            || (w.pc.Creating? && w'.pc.Updating? && w'.copied == w.copied)
  {
    hide BoundRoles, CopyKey, CopyRules, ManagedRules, NextRole, SkipRole, RoleDone, CopyBinding;
    var role := w.names[w.copied];
    SkipRoleDone(p, w, role, FailedToGet, if t.faults.source(role).Fails? then t.faults.source(role).error else ApiError);
    SkipRoleDone(p, w, role, Insufficient, Unprojectable(role));
    SkipRoleDone(p, w, role, FailedToCreate, if t.faults.create(role).Fails? then t.faults.create(role).error else ApiError);
    SkipRoleDone(p, w, role, FailedToUpdate, if t.faults.update(role).Fails? then t.faults.update(role).error else ApiError);
    NextRoleDone(w, w.unprojected + if p.allowSubset then [Report(role, NotFound)] else []);
  }

  lemma WorkerDescends(p: Push, t: Task, order: Order, w: Worker, o: Objects, n: nat)
    requires Sized(w, n) && Ready(w) && !w.pc.Finished?
    requires w.pc.Listing? ==> |order(BoundRoles(o.bindings, t.sa, p.fromNs))| == n
    ensures Rank(NextStep(p, t, order, w, o).0, n) < Rank(w, n)
  {
    if w.pc.Reading? || w.pc.Creating? || w.pc.Updating? {
      RoleStepDescends(p, t, order, w, o, n);
    } else {
      OtherStepDescends(p, t, order, w, o, n);
    }
  }

  lemma RoleStepDescends(p: Push, t: Task, order: Order, w: Worker, o: Objects, n: nat)
    requires Sized(w, n) && Ready(w) && (w.pc.Reading? || w.pc.Creating? || w.pc.Updating?)
    ensures Rank(NextStep(p, t, order, w, o).0, n) < Rank(w, n)
  {
    hide NextStep, RoleDone;
    RoleStep(p, t, order, w, o);
    var w' := NextStep(p, t, order, w, o).0;
    if RoleDone(w, w') {
      RoleDoneRank(w, w', n);
    }
  }

  lemma OtherStepDescends(p: Push, t: Task, order: Order, w: Worker, o: Objects, n: nat)
    requires Sized(w, n) && Ready(w) && !w.pc.Finished? && !w.pc.Reading? && !w.pc.Creating? && !w.pc.Updating?
    requires w.pc.Listing? ==> |order(BoundRoles(o.bindings, t.sa, p.fromNs))| == n
    ensures Rank(NextStep(p, t, order, w, o).0, n) < Rank(w, n)
  {
    hide BoundRoles, CopyKey, CopyRules, ManagedRules, CopyBinding, SkipRole;
    if w.pc.Looking? {
      NextRoleRank(w.(managed := ManagedRules(p, t, o.roles)), n);
    }
  }

  /** A worker that has its list has as many Roles as were bound at the start. */
  predicate Counted(w: Worker, n: nat) {
    w.pc.Listing? || w.pc.Failing? || w.pc.Finished? || |w.names| == n
  }

  /** The source bindings are as at the start, so all lists are as long as they can ever be. */
  ghost predicate Bounded(plan: Plan, s: State, start: Objects)
    requires Fits(plan, s)
  {
    && AllSane(plan, s)
    && (forall key: Key :: key.ns == plan.p.fromNs ==> Lookup(s.objects.bindings, key) == Lookup(start.bindings, key))
    && (forall k :: 0 <= k < |plan.tasks| ==> Counted(s.workers[k], Bound(plan, start, k)))
  }

  lemma StepNames(p: Push, t: Task, order: Order, w: Worker, o: Objects)
    requires Sane(p, w)
    ensures var (w', o') := NextStep(p, t, order, w, o);
            && (w.pc.Listing? ==> w'.pc.Failing? || w'.names == order(BoundRoles(o.bindings, t.sa, p.fromNs)))
            && (!w.pc.Listing? ==> w'.names == w.names && !w'.pc.Listing?)
            && (w.pc.Failing? || w.pc.Finished? ==> w'.pc.Finished?)
            && (forall key: Key :: key.ns != t.toNs ==> Lookup(o'.bindings, key) == Lookup(o.bindings, key))
  {
    hide BoundRoles, CopyRules, ManagedRules, CopyBinding;
  }

  lemma ApplyKeepsBounded(plan: Plan, s: State, a: Action, start: Objects)
    requires Fits(plan, s) && Abroad(plan) && Bounded(plan, s, start) && Enabled(plan, s, a)
    ensures Bounded(plan, Apply(plan, s, a), start)
  {
    hide BoundRoles, Sane, NextStep, Flatten;
    if a.Work? {
      var p, t, order, w := plan.p, plan.tasks[a.k], plan.orders[a.k], s.workers[a.k];
      StepKeepsSane(p, t, order, w, s.objects);
      StepNames(p, t, order, w, s.objects);
      SameBoundRoles(s.objects.bindings, start.bindings, t.sa, p.fromNs);
      assert Counted(w, Bound(plan, start, a.k));
    }
  }

  lemma ApplyDescends(plan: Plan, s: State, a: Action, start: Objects)
    requires Fits(plan, s) && Bounded(plan, s, start) && Enabled(plan, s, a)
    ensures StepsLeft(plan, Apply(plan, s, a), start) < StepsLeft(plan, s, start)
  {
    hide BoundRoles, NextStep, Rank, Flatten, TotalNat;
    var s' := Apply(plan, s, a);
    match a
    case Work(k) =>
      assert Sane(plan.p, s.workers[k]) && Counted(s.workers[k], Bound(plan, start, k));
      SameBoundRoles(s.objects.bindings, start.bindings, plan.tasks[k].sa, plan.p.fromNs);
      WorkerDescends(plan.p, plan.tasks[k], plan.orders[k], s.workers[k], s.objects, Bound(plan, start, k));
      var ranks := Ranks(plan, s, start);
      var rank := Rank(s'.workers[k], Bound(plan, start, k));
      assert Ranks(plan, s', start) == ranks[k := rank];
      TotalNatUpdate(ranks, k, rank);
    case Collect(g) =>
      var ranks := SenderRanks(s.senders);
      assert SenderRanks(s'.senders) == ranks[g := SenderRank(s'.senders[g])];
      TotalNatUpdate(ranks, g, SenderRank(s'.senders[g]));
      assert Ranks(plan, s', start) == Ranks(plan, s, start);
  }

  lemma {:induction false} ExecuteDescends(plan: Plan, s: State, schedule: seq<Action>, start: Objects)
    requires Fits(plan, s) && Abroad(plan) && Bounded(plan, s, start) && Runs(plan, s, schedule)
    ensures |schedule| + StepsLeft(plan, Execute(plan, s, schedule), start) <= StepsLeft(plan, s, start)
    decreases |schedule|
  {
    hide Apply, Enabled, Bounded, Abroad, StepsLeft;
    if schedule != [] {
      ApplyKeepsBounded(plan, s, schedule[0], start);
      ApplyDescends(plan, s, schedule[0], start);
      ExecuteDescends(plan, Apply(plan, s, schedule[0]), schedule[1..], start);
    }
  }

  /** Nothing can move exactly when everything is done. */
  lemma StuckIffComplete(plan: Plan, s: State)
    requires Fits(plan, s)
    requires forall k: nat :: k < |plan.tasks| && !s.workers[k].pc.Finished? ==> Enabled(plan, s, Work(k))
    requires forall g: nat :: g < plan.groups && !s.senders[g].Closed? && GroupDone(plan, s, g) ==> Enabled(plan, s, Collect(g))
    ensures Complete(plan, s) <==> forall a :: !Enabled(plan, s, a)
  {
  }

  /** Both waits are always reached, whatever the member list, the names and the answers: no schedule is longer
    than a bound fixed at the start, and one that cannot be continued has every goroutine finished. */
  lemma EveryScheduleEnds(plan: Plan, start: Objects, schedule: seq<Action>)
    requires Shaped(plan) && Abroad(plan) && Runs(plan, Initial(plan, start), schedule)
    ensures |schedule| <= StepsLeft(plan, Initial(plan, start), start)
    ensures var s := Execute(plan, Initial(plan, start), schedule);
            Complete(plan, s) <==> forall a :: !Enabled(plan, s, a)
  {
    hide StepsLeft, Abroad, Runs, Execute, Enabled, GroupDone, Complete;
    SaneInitially(plan, start);
    ExecuteDescends(plan, Initial(plan, start), schedule, start);
    NeverStuck(plan, start, schedule);
    StuckIffComplete(plan, Execute(plan, Initial(plan, start), schedule));
  }

  /** In particular every push the operator starts, for whatever members and accounts. */
  lemma EveryPushEnds(p: Push, members: seq<string>, accounts: seq<string>, faults: nat -> Faults, orders: nat -> Order,
                      start: Objects, schedule: seq<Action>)
    requires var plan := PlanFor(p, members, accounts, faults, orders);
             Shaped(plan) && Runs(plan, Initial(plan, start), schedule)
    ensures var plan := PlanFor(p, members, accounts, faults, orders);
            && |schedule| <= StepsLeft(plan, Initial(plan, start), start)
            && (Complete(plan, Execute(plan, Initial(plan, start), schedule)) <==>
                forall a :: !Enabled(plan, Execute(plan, Initial(plan, start), schedule), a))
  {
    hide PlanFor, Shaped, Abroad, Runs, Execute, Enabled, Complete, StepsLeft;
    PlanIsAbroad(p, members, accounts, faults, orders);
    EveryScheduleEnds(PlanFor(p, members, accounts, faults, orders), start, schedule);
  }

  // ---------------------------------------------------------------------------------------------
  // What is returned
  // ---------------------------------------------------------------------------------------------

  /** What each worker alone would report. */
  function SoloParts(plan: Plan, start: Objects): seq<multiset<Report>>
    requires |plan.orders| == |plan.tasks|
  {
    seq(|plan.tasks|, k requires 0 <= k < |plan.tasks| => multiset(Solo(plan.p, plan.tasks[k], plan.orders[k], start).sent))
  }

  predicate SomeWorkerFails(plan: Plan, start: Objects)
    requires |plan.orders| == |plan.tasks|
  {
    exists k :: 0 <= k < |plan.tasks| && Solo(plan.p, plan.tasks[k], plan.orders[k], start).failure.Some?
  }

  lemma FinishedLikeSolo(plan: Plan, s: State, start: Objects, k: nat)
    requires Fits(plan, s) && Tracked(plan, s, start) && k < |plan.tasks| && s.workers[k].pc.Finished?
    ensures SentReports(s.workers[k]) == Solo(plan.p, plan.tasks[k], plan.orders[k], start).sent
    ensures s.workers[k].pc.failure == Solo(plan.p, plan.tasks[k], plan.orders[k], start).failure
  {
    hide Footprint, Framed, Solo, SoFar, BoundSoFar;
    assert OnTrack(plan, s, start, k);
  }

  /** Whatever the names and the answers: what is returned is, with multiplicities, what the workers sent, and an
    error is returned iff projection is strict and some worker failed. */
  lemma CollectedFromWorkers(plan: Plan, start: Objects, schedule: seq<Action>)
    requires Shaped(plan) && Finishes(plan, start, schedule)
    ensures var s := Execute(plan, Initial(plan, start), schedule);
            && multiset(Unprojected(s)) == Total(SentParts(s.workers))
            && (s.topErrs != [] <==> !plan.p.allowSubset && exists k :: 0 <= k < |plan.tasks| && Failed(s.workers[k]))
  {
    hide AllSane, Orderly, Runs, Execute, Complete, Total, Flatten, Failed;
    var s := Execute(plan, Initial(plan, start), schedule);
    ScheduleIsOrderly(plan, start, schedule);
    ReportsCollected(plan, s);
    ErrorsCollected(plan, s);
  }

  /** With names apart, the entries returned are the entries the workers alone would report, under every
    schedule; and an error is returned iff projection is strict and some worker alone would fail. */
  lemma CollectedExactly(plan: Plan, start: Objects, schedule: seq<Action>)
    requires Shaped(plan) && Separated(plan, start) && Finishes(plan, start, schedule)
    ensures var s := Execute(plan, Initial(plan, start), schedule);
            && multiset(Unprojected(s)) == Total(SoloParts(plan, start))
            && (s.topErrs != [] <==> !plan.p.allowSubset && SomeWorkerFails(plan, start))
  {
    hide Separated, Tracked, Runs, Execute, Solo, Total, Flatten;
    var s := Execute(plan, Initial(plan, start), schedule);
    TrackedInitially(plan, start);
    ExecuteTracked(plan, Initial(plan, start), schedule, start);
    forall k | 0 <= k < |plan.tasks|
      ensures SentReports(s.workers[k]) == Solo(plan.p, plan.tasks[k], plan.orders[k], start).sent
      ensures Failed(s.workers[k]) <==> Solo(plan.p, plan.tasks[k], plan.orders[k], start).failure.Some?
    {
      FinishedLikeSolo(plan, s, start, k);
    }
    assert SentParts(s.workers) == SoloParts(plan, start);
    CollectedFromWorkers(plan, start, schedule);
  }

  lemma ReportsCollected(plan: Plan, s: State)
    requires Fits(plan, s) && Orderly(plan, s) && Complete(plan, s)
    ensures multiset(Unprojected(s)) == Total(SentParts(s.workers))
  {
    hide Total, Flatten, InGroup, GroupDone;
    var parts := SentParts(s.workers);
    forall g | 0 <= g < plan.groups
      ensures ClosedParts(s.senders)[g] == Total(InGroup(parts, plan.group, g))
    {
      assert SenderOk(plan, s, g) && GroupChannels(plan, s, g);
    }
    assert ClosedParts(s.senders) == GroupTotals(parts, plan.group, plan.groups);
    TotalByGroup(parts, plan.group, plan.groups);
  }

  lemma ErrorsCollected(plan: Plan, s: State)
    requires Fits(plan, s) && Orderly(plan, s) && Complete(plan, s)
    ensures s.topErrs != [] <==> !plan.p.allowSubset && exists k :: 0 <= k < |plan.tasks| && Failed(s.workers[k])
  {
    hide Total, Flatten, InGroup, GroupDone, SentParts, ClosedParts, Failed;
    if s.topErrs != [] {
      assert FailedGroups(s.senders) != {};
      var g :| g in FailedGroups(s.senders);
      assert SenderOk(plan, s, g) && GroupChannels(plan, s, g);
      assert Failures(plan.group, s.workers, g) != {};
      var k :| k in Failures(plan.group, s.workers, g);
    }
    if !plan.p.allowSubset && exists k :: 0 <= k < |plan.tasks| && Failed(s.workers[k]) {
      var k :| 0 <= k < |plan.tasks| && Failed(s.workers[k]);
      var g := plan.group[k];
      assert SenderOk(plan, s, g) && GroupChannels(plan, s, g);
      assert k in Failures(plan.group, s.workers, g);
      assert g in FailedGroups(s.senders);
    }
  }
}
