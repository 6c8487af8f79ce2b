/** The two-level goroutine fan-out of a push.

  One worker runs for every pair of target namespace and service account.  Workers of one namespace
  report on two buffered channels; when all of them are done the namespace's own goroutine collects
  what they sent and reports it on two top-level channels.  A schedule is any interleaving of the
  single API calls and channel sends. */
module FanOut {
  import opened Rbac
  import opened Lists
  import opened Store
  import opened Projection
  import opened Worker
  import opened Sums

  datatype Plan = Plan(
    p: Push,
    tasks: seq<Task>,
    orders: seq<Order>,
    group: seq<nat>,       // the namespace goroutine each worker belongs to
    groups: nat,
    capacity: nat,         // of each namespace's channels
    topCapacity: nat)

  datatype Sender =
    | Waiting
    | SendingError
    | SendingReports(pending: seq<Report>)
    | Closed(sent: seq<Report>, failed: bool)

  datatype State = State(
    objects: Objects,
    workers: seq<Worker>,
    errs: seq<seq<Error>>,
    reports: seq<seq<seq<Report>>>,
    senders: seq<Sender>,
    topErrs: seq<Error>,
    topReports: seq<seq<Report>>)

  datatype Action = Work(k: nat) | Collect(g: nat)

  function Members(group: seq<nat>, g: nat): set<nat> {
    set k: nat | k < |group| && group[k] == g
  }

  predicate Shaped(plan: Plan) {
    && |plan.orders| == |plan.group| == |plan.tasks|
    && (forall k :: 0 <= k < |plan.group| ==> plan.group[k] < plan.groups)
    && (forall g :: 0 <= g < plan.groups ==> |Members(plan.group, g)| <= plan.capacity)
    && plan.groups <= plan.topCapacity
  }

  predicate Fits(plan: Plan, s: State) {
    && Shaped(plan)
    && |s.workers| == |plan.tasks|
    && |s.errs| == |s.reports| == |s.senders| == plan.groups
  }

  function Initial(plan: Plan, start: Objects): State {
    State(start, seq(|plan.tasks|, _ => START), seq(plan.groups, _ => []), seq(plan.groups, _ => []),
          seq(plan.groups, _ => Waiting), [], [])
  }

  predicate GroupDone(plan: Plan, s: State, g: nat)
    requires Fits(plan, s)
  {
    forall k :: 0 <= k < |plan.tasks| && plan.group[k] == g ==> s.workers[k].pc.Finished?
  }

  predicate Ready(w: Worker) {
    && (w.pc.Reading? || w.pc.Creating? || w.pc.Updating? ==> w.copied < |w.names|)
    && (w.pc.Binding? ==> w.bound < |w.names|)
  }

  /** A send needs room in the channel; the collection needs all workers of the namespace done. */
  predicate Enabled(plan: Plan, s: State, a: Action)
    requires Fits(plan, s)
  {
    match a
    case Work(k) =>
      && k < |plan.tasks|
      && !s.workers[k].pc.Finished?
      && Ready(s.workers[k])
      && (s.workers[k].pc.Reporting? ==> |s.reports[plan.group[k]]| < plan.capacity)
      && (s.workers[k].pc.Failing? ==> |s.errs[plan.group[k]]| < plan.capacity)
    case Collect(g) =>
      && g < plan.groups
      && match s.senders[g]
         case Waiting => GroupDone(plan, s, g)
         case SendingError => |s.topErrs| < plan.topCapacity && s.errs[g] != []
         case SendingReports(_) => |s.topReports| < plan.topCapacity
         case Closed(_, _) => false
  }

  function Apply(plan: Plan, s: State, a: Action): (s': State)
    requires Fits(plan, s) && Enabled(plan, s, a)
    ensures Fits(plan, s')
  {
    match a
    case Work(k) =>
      var w, g := s.workers[k], plan.group[k];
      var (w', o') := NextStep(plan.p, plan.tasks[k], plan.orders[k], w, s.objects);
      s.(objects := o',
         workers := s.workers[k := w'],
         reports := if w.pc.Reporting? then s.reports[g := s.reports[g] + [w.unprojected]] else s.reports,
         errs := if w.pc.Failing? then s.errs[g := s.errs[g] + [w.pc.error]] else s.errs)
    case Collect(g) =>
      match s.senders[g]
      case Waiting =>
        var collected := Flatten(s.reports[g]);
        s.(senders := s.senders[g :=
             if s.errs[g] != [] && !plan.p.allowSubset then SendingError
             else if collected != [] then SendingReports(collected)
             else Closed([], false)])
      case SendingError =>
        s.(topErrs := s.topErrs + [s.errs[g][0]], senders := s.senders[g := Closed([], true)])
      case SendingReports(pending) =>
        s.(topReports := s.topReports + [pending], senders := s.senders[g := Closed(pending, false)])
  }

  predicate Runs(plan: Plan, s: State, schedule: seq<Action>)
    requires Fits(plan, s)
    decreases |schedule|
  {
    schedule == [] || (Enabled(plan, s, schedule[0]) && Runs(plan, Apply(plan, s, schedule[0]), schedule[1..]))
  }

  function Execute(plan: Plan, s: State, schedule: seq<Action>): (s': State)
    requires Fits(plan, s) && Runs(plan, s, schedule)
    ensures Fits(plan, s')
    decreases |schedule|
  {
    if schedule == [] then s else Execute(plan, Apply(plan, s, schedule[0]), schedule[1..])
  }

  predicate Complete(plan: Plan, s: State)
    requires Fits(plan, s)
  {
    && (forall k :: 0 <= k < |plan.tasks| ==> s.workers[k].pc.Finished?)
    && (forall g :: 0 <= g < plan.groups ==> s.senders[g].Closed?)
  }

  /** What `PushRbacToNamespace` returns once everything is collected. */
  function Unprojected(s: State): seq<Report> {
    Flatten(s.topReports)
  }

  // ---------------------------------------------------------------------------------------------
  // The objects
  // ---------------------------------------------------------------------------------------------

  ghost predicate IsCopy(plan: Plan, start: Objects, key: Key) {
    exists k, r :: CopyOf(plan, start, key, k, r)
  }

  predicate CopyOf(plan: Plan, start: Objects, key: Key, k: int, r: string) {
    0 <= k < |plan.tasks| && r in Copies(plan.p, plan.tasks[k], start) && key == CopyKey(plan.p, plan.tasks[k], r)
  }

  /** Targets are not the source, copies have names of their own, and sets are iterated completely. */
  ghost predicate Separated(plan: Plan, start: Objects) {
    && |plan.orders| == |plan.tasks|
    && (forall k :: 0 <= k < |plan.tasks| ==> plan.tasks[k].toNs != plan.p.fromNs)
    && (forall k :: 0 <= k < |plan.tasks| ==> Enumerates(plan.orders[k], Copies(plan.p, plan.tasks[k], start)))
    && (forall key, k, r, k', r' :: CopyOf(plan, start, key, k, r) && CopyOf(plan, start, key, k', r') ==> k == k' && r == r')
    && (forall k :: 0 <= k < |plan.tasks| ==> !IsCopy(plan, start, ManagedKey(plan.p, plan.tasks[k])))
  }

  /** No goroutine works on the namespace the sources live in. */
  predicate Abroad(plan: Plan) {
    forall k :: 0 <= k < |plan.tasks| ==> plan.tasks[k].toNs != plan.p.fromNs
  }

  /** The weaker condition that member lists with repetitions meet too: a copy's name tells account and Role, but
    several goroutines may work on the same copies. */
  ghost predicate Attributed(plan: Plan, start: Objects) {
    && |plan.orders| == |plan.tasks| && Abroad(plan)
    && (forall k :: 0 <= k < |plan.tasks| ==> Enumerates(plan.orders[k], Copies(plan.p, plan.tasks[k], start)))
    && (forall key, k, r, k', r' :: CopyOf(plan, start, key, k, r) && CopyOf(plan, start, key, k', r') ==>
          plan.tasks[k].sa == plan.tasks[k'].sa && r == r')
    && (forall k :: 0 <= k < |plan.tasks| ==> !IsCopy(plan, start, ManagedKey(plan.p, plan.tasks[k])))
  }

  lemma SeparatedIsAttributed(plan: Plan, start: Objects)
    requires Separated(plan, start)
    ensures Attributed(plan, start)
  {
    hide IsCopy, CopyOf, Enumerates;
  }

  ghost predicate Framed(plan: Plan, o: Objects, start: Objects) {
    forall key :: !IsCopy(plan, start, key) ==>
      Lookup(o.roles, key) == Lookup(start.roles, key) && Lookup(o.bindings, key) == Lookup(start.bindings, key)
  }

  predicate OnTrack(plan: Plan, s: State, start: Objects, k: nat)
    requires k < |plan.tasks| == |s.workers| && |plan.orders| == |plan.tasks|
  {
    && Faithful(plan.p, plan.tasks[k], plan.orders[k], s.workers[k], start)
    && Footprint(plan.p, plan.tasks[k], s.workers[k], s.objects, start)
  }

  ghost predicate Tracked(plan: Plan, s: State, start: Objects)
    requires Fits(plan, s)
  {
    && (forall k :: 0 <= k < |plan.tasks| ==> OnTrack(plan, s, start, k))
    && Framed(plan, s.objects, start)
  }

  lemma SameBoundRoles(a: map<Key, RoleBinding>, b: map<Key, RoleBinding>, sa: string, ns: string)
    requires forall key: Key :: key.ns == ns ==> Lookup(a, key) == Lookup(b, key)
    ensures BoundRoles(a, sa, ns) == BoundRoles(b, sa, ns)
  {
    BoundRolesIncluded(a, b, sa, ns);
    BoundRolesIncluded(b, a, sa, ns);
  }

  lemma BoundRolesIncluded(a: map<Key, RoleBinding>, b: map<Key, RoleBinding>, sa: string, ns: string)
    requires forall key: Key :: key.ns == ns ==> Lookup(a, key) == Lookup(b, key)
    ensures BoundRoles(a, sa, ns) <= BoundRoles(b, sa, ns)
  {
  }

  lemma SourceIsNoCopy(plan: Plan, start: Objects, key: Key)
    requires Abroad(plan) && key.ns == plan.p.fromNs
    ensures !IsCopy(plan, start, key)
  {
  }

  lemma ReadsAreStable(plan: Plan, o: Objects, start: Objects, k: nat)
    requires Attributed(plan, start) && Framed(plan, o, start) && k < |plan.tasks|
    ensures StableReads(plan.p, plan.tasks[k], o, start)
  {
    hide IsCopy, BoundRoles;
    forall key: Key | key.ns == plan.p.fromNs
      ensures Lookup(o.bindings, key) == Lookup(start.bindings, key) && Lookup(o.roles, key) == Lookup(start.roles, key)
    {
      SourceIsNoCopy(plan, start, key);
    }
    SameBoundRoles(o.bindings, start.bindings, plan.tasks[k].sa, plan.p.fromNs);
    assert Lookup(o.roles, ManagedKey(plan.p, plan.tasks[k])) == Lookup(start.roles, ManagedKey(plan.p, plan.tasks[k]));
  }

  lemma OwnDistinct(plan: Plan, start: Objects, k: nat)
    requires Separated(plan, start) && k < |plan.tasks|
    ensures OwnKeysDistinct(plan.p, plan.tasks[k], start)
  {
    hide CopyKey, BoundRoles;
    var t := plan.tasks[k];
    forall r, r' | r in Copies(plan.p, t, start) && r' in Copies(plan.p, t, start) && CopyKey(plan.p, t, r) == CopyKey(plan.p, t, r')
      ensures r == r'
    {
      assert CopyOf(plan, start, CopyKey(plan.p, t, r), k, r);
      assert CopyOf(plan, start, CopyKey(plan.p, t, r), k, r');
    }
  }

  lemma TrackedInitially(plan: Plan, start: Objects)
    requires Shaped(plan) && Separated(plan, start)
    ensures Tracked(plan, Initial(plan, start), start)
  {
  }

  /** Whatever happens next, every worker stays on its own track and nothing but copies changes. */
  lemma ApplyKeepsTracked(plan: Plan, s: State, a: Action, start: Objects)
    requires Fits(plan, s) && Separated(plan, start) && Tracked(plan, s, start) && Enabled(plan, s, a)
    ensures Tracked(plan, Apply(plan, s, a), start)
  {
    hide BoundRoles, CopyKey, NextStep, Faithful, SoFar, BoundSoFar, Flatten;
    var s' := Apply(plan, s, a);
    match a
    case Collect(_) =>
      forall k | 0 <= k < |plan.tasks|
        ensures OnTrack(plan, s', start, k)
      {
        assert OnTrack(plan, s, start, k);
      }
    case Work(k) =>
      var p, t := plan.p, plan.tasks[k];
      assert OnTrack(plan, s, start, k);
      SeparatedIsAttributed(plan, start);
      ReadsAreStable(plan, s.objects, start, k);
      OwnDistinct(plan, start, k);
      StepKeepsFaithful(p, t, plan.orders[k], s.workers[k], s.objects, start);
      forall key | !IsCopy(plan, start, key)
        ensures Lookup(s'.objects.roles, key) == Lookup(s.objects.roles, key)
        ensures Lookup(s'.objects.bindings, key) == Lookup(s.objects.bindings, key)
      {
        forall r | r in Copies(p, t, start)
          ensures key != CopyKey(p, t, r)
        {
          assert !CopyOf(plan, start, key, k, r);
        }
      }
      forall k' | 0 <= k' < |plan.tasks|
        ensures OnTrack(plan, s', start, k')
      {
        assert OnTrack(plan, s, start, k');
        if k' != k {
          FaithfulBounds(p, plan.tasks[k'], plan.orders[k'], s.workers[k'], start);
          OthersUntouched(plan, s.objects, s'.objects, start, k, k');
          FootprintMoves(p, plan.tasks[k'], s.workers[k'], s.objects, s'.objects, start);
        }
      }
  }

  lemma OthersUntouched(plan: Plan, o: Objects, o': Objects, start: Objects, k: nat, k': nat)
    requires Separated(plan, start) && k < |plan.tasks| && k' < |plan.tasks| && k != k'
    requires OnlyOwnKeys(plan.p, plan.tasks[k], o, o', start)
    ensures forall r :: r in Copies(plan.p, plan.tasks[k'], start) ==>
              var key := CopyKey(plan.p, plan.tasks[k'], r);
              Lookup(o'.roles, key) == Lookup(o.roles, key) && Lookup(o'.bindings, key) == Lookup(o.bindings, key)
  {
    hide BoundRoles, CopyKey, IsCopy;
    forall r' | r' in Copies(plan.p, plan.tasks[k'], start)
      ensures var key := CopyKey(plan.p, plan.tasks[k'], r');
              Lookup(o'.roles, key) == Lookup(o.roles, key) && Lookup(o'.bindings, key) == Lookup(o.bindings, key)
    {
      var key := CopyKey(plan.p, plan.tasks[k'], r');
      assert CopyOf(plan, start, key, k', r');
      forall r | r in Copies(plan.p, plan.tasks[k], start)
        ensures key != CopyKey(plan.p, plan.tasks[k], r)
      {
        assert key == CopyKey(plan.p, plan.tasks[k], r) ==> CopyOf(plan, start, key, k, r);
      }
    }
  }

  lemma FootprintMoves(p: Push, t: Task, w: Worker, o: Objects, o': Objects, start: Objects)
    requires w.copied <= |w.names| && w.bound <= |w.names| && Footprint(p, t, w, o, start)
    requires forall r :: r in Copies(p, t, start) ==>
               var key := CopyKey(p, t, r);
               Lookup(o'.roles, key) == Lookup(o.roles, key) && Lookup(o'.bindings, key) == Lookup(o.bindings, key)
    ensures Footprint(p, t, w, o', start)
  {
    hide BoundRoles, CopyKey, SoFar, BoundSoFar;
  }

  lemma {:induction false} ExecuteTracked(plan: Plan, s: State, schedule: seq<Action>, start: Objects)
    requires Fits(plan, s) && Separated(plan, start) && Tracked(plan, s, start) && Runs(plan, s, schedule)
    ensures Tracked(plan, Execute(plan, s, schedule), start)
    decreases |schedule|
  {
    hide Apply, Enabled, OnTrack, Framed, Separated;
    if schedule != [] {
      ApplyKeepsTracked(plan, s, schedule[0], start);
      ExecuteTracked(plan, Apply(plan, s, schedule[0]), schedule[1..], start);
    }
  }

  /** When all workers are done, the store at a copy's key is what its own worker alone would leave. */
  lemma DoneObjects(plan: Plan, s: State, start: Objects, key: Key, k: nat, r: string)
    requires Fits(plan, s) && Tracked(plan, s, start) && k < |plan.tasks| && s.workers[k].pc.Finished?
    requires CopyOf(plan, start, key, k, r)
    ensures var alone := Solo(plan.p, plan.tasks[k], plan.orders[k], start).objects;
            && Lookup(s.objects.roles, key) == Lookup(alone.roles, key)
            && Lookup(s.objects.bindings, key) == Lookup(alone.bindings, key)
  {
    hide BoundRoles, CopyKey, SoFar, BoundSoFar, Solo;
    assert OnTrack(plan, s, start, k);
  }
}
