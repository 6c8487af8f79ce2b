/** The channels of the fan-out: no send blocks, every schedule ends, and nothing sent is lost. */
module Channels {
  import opened Lists
  import opened Store
  import opened Projection
  import opened Worker
  import opened SoloRuns
  import opened Sums
  import opened FanOut

  // ---------------------------------------------------------------------------------------------
  // What the channels hold
  // ---------------------------------------------------------------------------------------------

  function Senders(group: seq<nat>, workers: seq<Worker>, g: nat): set<nat>
    requires |group| == |workers|
  {
    set k: nat | k < |group| && group[k] == g && workers[k].sent
  }

  predicate Failed(w: Worker) {
    w.pc.Finished? && w.pc.failure.Some?
  }

  function Failures(group: seq<nat>, workers: seq<Worker>, g: nat): set<nat>
    requires |group| == |workers|
  {
    set k: nat | k < |group| && group[k] == g && Failed(workers[k])
  }

  function SentParts(workers: seq<Worker>): seq<multiset<Report>> {
    seq(|workers|, k requires 0 <= k < |workers| => multiset(SentReports(workers[k])))
  }

  /** The channels of one namespace hold exactly what its workers sent. */
  predicate GroupChannels(plan: Plan, s: State, g: nat)
    requires Fits(plan, s) && g < plan.groups
  {
    && |s.reports[g]| == |Senders(plan.group, s.workers, g)|
    && |s.errs[g]| == |Failures(plan.group, s.workers, g)|
    && multiset(Flatten(s.reports[g])) == Total(InGroup(SentParts(s.workers), plan.group, g))
  }

  predicate SenderOk(plan: Plan, s: State, g: nat)
    requires Fits(plan, s) && g < plan.groups
  {
    && (!s.senders[g].Waiting? ==> GroupDone(plan, s, g))
    && match s.senders[g]
       case Waiting => true
       case SendingError => !plan.p.allowSubset && s.errs[g] != []
       case SendingReports(pending) =>
         (plan.p.allowSubset || s.errs[g] == []) && pending == Flatten(s.reports[g]) && pending != []
       case Closed(sent, failed) =>
         (failed <==> !plan.p.allowSubset && s.errs[g] != []) && multiset(sent) == multiset(Flatten(s.reports[g]))
  }

  function FailedGroups(senders: seq<Sender>): set<nat> {
    set g: nat | g < |senders| && senders[g].Closed? && senders[g].failed
  }

  function ReportedGroups(senders: seq<Sender>): set<nat> {
    set g: nat | g < |senders| && senders[g].Closed? && senders[g].sent != []
  }

  function ClosedParts(senders: seq<Sender>): seq<multiset<Report>> {
    seq(|senders|, g requires 0 <= g < |senders| => if senders[g].Closed? then multiset(senders[g].sent) else multiset{})
  }

  predicate TopChannels(plan: Plan, s: State)
    requires Fits(plan, s)
  {
    && |s.topErrs| == |FailedGroups(s.senders)|
    && |s.topReports| == |ReportedGroups(s.senders)|
    && multiset(Flatten(s.topReports)) == Total(ClosedParts(s.senders))
  }

  ghost predicate Orderly(plan: Plan, s: State)
    requires Fits(plan, s)
  {
    && (forall g :: 0 <= g < plan.groups ==> GroupChannels(plan, s, g))
    && (forall g :: 0 <= g < plan.groups ==> SenderOk(plan, s, g))
    && TopChannels(plan, s)
    && (!plan.p.allowSubset ==> forall k :: 0 <= k < |plan.tasks| ==> !s.workers[k].sent)
  }

  // ---------------------------------------------------------------------------------------------
  // Each goroutine sends at most once on each channel
  // ---------------------------------------------------------------------------------------------

  ghost predicate AllSane(plan: Plan, s: State)
    requires Fits(plan, s)
  {
    forall k :: 0 <= k < |plan.tasks| ==> Sane(plan.p, s.workers[k])
  }

  lemma SendOnce(p: Push, t: Task, order: Order, w: Worker, o: Objects)
    requires Sane(p, w) && !w.pc.Finished?
    ensures var w' := NextStep(p, t, order, w, o).0;
            && (w.pc.Reporting? ==> !w.sent && w'.sent && w'.unprojected == w.unprojected != [])
            && (!w.pc.Reporting? ==> w'.sent == w.sent && SentReports(w') == SentReports(w))
            && (Failed(w') <==> w.pc.Failing?)
            && (w.pc.Reporting? ==> p.allowSubset)
  {
    hide BoundRoles, CopyKey, CopyRules, ManagedRules, CopyBinding;
  }

  lemma OrderlyInitially(plan: Plan, start: Objects)
    requires Shaped(plan)
    ensures Orderly(plan, Initial(plan, start))
  {
    var s := Initial(plan, start);
    forall g | 0 <= g < plan.groups
      ensures GroupChannels(plan, s, g)
    {
      assert Senders(plan.group, s.workers, g) == {} && Failures(plan.group, s.workers, g) == {};
      TotalEmpty(InGroup(SentParts(s.workers), plan.group, g));
    }
    assert FailedGroups(s.senders) == {} && ReportedGroups(s.senders) == {};
    TotalEmpty(ClosedParts(s.senders));
  }

  /** What one step of worker `k` does to the channels of namespace `g`. */
  predicate Delivered(plan: Plan, s: State, s': State, k: nat, g: nat)
    requires Fits(plan, s) && Fits(plan, s') && k < |plan.tasks| && g < plan.groups
  {
    var w, w', here := s.workers[k], s'.workers[k], plan.group[k] == g;
    && s'.workers == s.workers[k := w']
    && (w.sent ==> w'.sent) && (Failed(w) ==> Failed(w'))
    && s'.reports[g] == s.reports[g] + (if here && w'.sent && !w.sent then [w'.unprojected] else [])
    && |s'.errs[g]| == |s.errs[g]| + (if here && Failed(w') && !Failed(w) then 1 else 0)
    && (w.sent ==> w'.unprojected == w.unprojected)
  }

  lemma SetsMove(group: seq<nat>, workers: seq<Worker>, k: nat, w': Worker, g: nat)
    requires |group| == |workers| && k < |group|
    requires (workers[k].sent ==> w'.sent) && (Failed(workers[k]) ==> Failed(w'))
    ensures var after := workers[k := w'];
            && |Senders(group, after, g)| ==
               |Senders(group, workers, g)| + (if group[k] == g && w'.sent && !workers[k].sent then 1 else 0)
            && |Failures(group, after, g)| ==
               |Failures(group, workers, g)| + (if group[k] == g && Failed(w') && !Failed(workers[k]) then 1 else 0)
  {
    hide Failed;
    var w, after, here := workers[k], workers[k := w'], group[k] == g;
    OneMore(Senders(group, workers, g), Senders(group, after, g), k, here && w'.sent && !w.sent);
    OneMore(Failures(group, workers, g), Failures(group, after, g), k, here && Failed(w') && !Failed(w));
  }

  lemma CountsMove(plan: Plan, s: State, s': State, k: nat, g: nat)
    requires Fits(plan, s) && Fits(plan, s') && k < |plan.tasks| && g < plan.groups && Delivered(plan, s, s', k, g)
    ensures |s.reports[g]| == |Senders(plan.group, s.workers, g)| ==> |s'.reports[g]| == |Senders(plan.group, s'.workers, g)|
    ensures |s.errs[g]| == |Failures(plan.group, s.workers, g)| ==> |s'.errs[g]| == |Failures(plan.group, s'.workers, g)|
  {
    hide Failed, Senders, Failures;
    SetsMove(plan.group, s.workers, k, s'.workers[k], g);
  }

  lemma TotalsMove(plan: Plan, s: State, s': State, k: nat, g: nat)
    requires Fits(plan, s) && Fits(plan, s') && k < |plan.tasks| && g < plan.groups && Delivered(plan, s, s', k, g)
    requires multiset(Flatten(s.reports[g])) == Total(InGroup(SentParts(s.workers), plan.group, g))
    ensures multiset(Flatten(s'.reports[g])) == Total(InGroup(SentParts(s'.workers), plan.group, g))
  {
    hide Failed, Flatten, Total;
    var w, w', here := s.workers[k], s'.workers[k], plan.group[k] == g;
    var parts, parts' := InGroup(SentParts(s.workers), plan.group, g), InGroup(SentParts(s'.workers), plan.group, g);
    var part := if here then multiset(SentReports(w')) else multiset{};
    assert parts' == parts[k := part];
    TotalUpdate(parts, k, part);
    if here && w'.sent && !w.sent {
      FlattenAppend(s.reports[g], w'.unprojected);
      assert parts[k] == multiset{};
    } else {
      assert s'.reports[g] == s.reports[g];
      assert part == parts[k];
      Cancel(Total(parts'), Total(parts), parts[k]);
    }
  }

  lemma WorkKeepsChannels(plan: Plan, s: State, k: nat, g: nat)
    requires Fits(plan, s) && AllSane(plan, s) && Orderly(plan, s) && Enabled(plan, s, Work(k)) && g < plan.groups
    ensures GroupChannels(plan, Apply(plan, s, Work(k)), g)
  {
    hide NextStep, Sane, SenderOk, TopChannels, Senders, Failures, SentParts, InGroup, Flatten,
      Total;
    var w, s' := s.workers[k], Apply(plan, s, Work(k));
    assert GroupChannels(plan, s, g);
    SendOnce(plan.p, plan.tasks[k], plan.orders[k], w, s.objects);
    assert s.reports[g] + [] == s.reports[g];
    assert Delivered(plan, s, s', k, g);
    CountsMove(plan, s, s', k, g);
    TotalsMove(plan, s, s', k, g);
  }

  lemma WorkKeepsOrderly(plan: Plan, s: State, k: nat)
    requires Fits(plan, s) && AllSane(plan, s) && Orderly(plan, s) && Enabled(plan, s, Work(k))
    ensures Orderly(plan, Apply(plan, s, Work(k)))
  {
    hide NextStep, Sane, GroupChannels;
    var w, s' := s.workers[k], Apply(plan, s, Work(k));
    SendOnce(plan.p, plan.tasks[k], plan.orders[k], w, s.objects);
    forall g | 0 <= g < plan.groups
      ensures GroupChannels(plan, s', g)
      ensures SenderOk(plan, s', g)
    {
      WorkKeepsChannels(plan, s, k, g);
      assert SenderOk(plan, s, g);
      if !s.senders[g].Waiting? {
        assert plan.group[k] != g;
      }
    }
    assert FailedGroups(s'.senders) == FailedGroups(s.senders) && ReportedGroups(s'.senders) == ReportedGroups(s.senders);
  }

  /** While a strict push has sent nothing, a failed namespace loses nothing by reporting only its error. */
  lemma NothingSent(plan: Plan, s: State, g: nat)
    requires Fits(plan, s) && Orderly(plan, s) && g < plan.groups && !plan.p.allowSubset
    ensures multiset(Flatten(s.reports[g])) == multiset{}
  {
    assert GroupChannels(plan, s, g);
    TotalEmpty(InGroup(SentParts(s.workers), plan.group, g));
  }

  lemma CollectKeepsOrderly(plan: Plan, s: State, g0: nat)
    requires Fits(plan, s) && Orderly(plan, s) && Enabled(plan, s, Collect(g0))
    ensures Orderly(plan, Apply(plan, s, Collect(g0)))
  {
    hide GroupDone, Failed, GroupChannels, SenderOk, TopChannels, Flatten;
    var s' := Apply(plan, s, Collect(g0));
    CollectKeepsSender(plan, s, g0);
    forall g | 0 <= g < plan.groups
      ensures GroupChannels(plan, s', g)
      ensures SenderOk(plan, s', g)
    {
      assert GroupChannels(plan, s, g) && SenderOk(plan, s, g);
      if g != g0 {
        SameChannels(plan, s, s', g);
      }
    }
    assert SenderOk(plan, s, g0);
    CollectKeepsTop(plan, s, g0);
  }

  lemma SameChannels(plan: Plan, s: State, s': State, g: nat)
    requires Fits(plan, s) && Fits(plan, s') && g < plan.groups
    requires s'.workers == s.workers && s'.reports == s.reports && s'.errs == s.errs
    ensures GroupChannels(plan, s, g) ==> GroupChannels(plan, s', g)
    ensures GroupDone(plan, s, g) ==> GroupDone(plan, s', g)
    ensures s'.senders[g] == s.senders[g] && SenderOk(plan, s, g) ==> SenderOk(plan, s', g)
  {
    assert Senders(plan.group, s'.workers, g) == Senders(plan.group, s.workers, g);
    assert Failures(plan.group, s'.workers, g) == Failures(plan.group, s.workers, g);
  }

  lemma CollectKeepsSender(plan: Plan, s: State, g: nat)
    requires Fits(plan, s) && Orderly(plan, s) && Enabled(plan, s, Collect(g))
    ensures GroupChannels(plan, Apply(plan, s, Collect(g)), g) && SenderOk(plan, Apply(plan, s, Collect(g)), g)
  {
    hide GroupDone, Failed, TopChannels, GroupChannels, Flatten;
    var s' := Apply(plan, s, Collect(g));
    assert SenderOk(plan, s, g) && GroupChannels(plan, s, g);
    if !plan.p.allowSubset {
      NothingSent(plan, s, g);
    }
    SameChannels(plan, s, s', g);
  }

  /** One namespace's sender moved on to `now`, sending at most once. */
  predicate Forwarded(s: State, s': State, g: nat, now: Sender)
    requires g < |s.senders|
  {
    && !s.senders[g].Closed?
    && s'.senders == s.senders[g := now]
    && |s'.topErrs| == |s.topErrs| + (if now.Closed? && now.failed then 1 else 0)
    && s'.topReports == s.topReports + (if now.Closed? && now.sent != [] then [now.sent] else [])
  }

  lemma GroupSetsMove(senders: seq<Sender>, g: nat, now: Sender)
    requires g < |senders| && !senders[g].Closed?
    ensures var after := senders[g := now];
            && |FailedGroups(after)| == |FailedGroups(senders)| + (if now.Closed? && now.failed then 1 else 0)
            && |ReportedGroups(after)| == |ReportedGroups(senders)| + (if now.Closed? && now.sent != [] then 1 else 0)
  {
    var after := senders[g := now];
    OneMore(FailedGroups(senders), FailedGroups(after), g, now.Closed? && now.failed);
    OneMore(ReportedGroups(senders), ReportedGroups(after), g, now.Closed? && now.sent != []);
  }

  lemma TopMoves(plan: Plan, s: State, s': State, g: nat, now: Sender)
    requires Fits(plan, s) && Fits(plan, s') && g < plan.groups && TopChannels(plan, s) && Forwarded(s, s', g, now)
    ensures TopChannels(plan, s')
  {
    hide Flatten, Total, FailedGroups, ReportedGroups, Shaped;
    GroupSetsMove(s.senders, g, now);
    var parts := ClosedParts(s.senders);
    var part := if now.Closed? then multiset(now.sent) else multiset{};
    assert ClosedParts(s'.senders) == parts[g := part];
    TotalUpdate(parts, g, part);
    assert parts[g] == multiset{};
    assert Total(ClosedParts(s'.senders)) == Total(parts) + part;
    if now.Closed? && now.sent != [] {
      FlattenAppend(s.topReports, now.sent);
      assert multiset(Flatten(s'.topReports)) == multiset(Flatten(s.topReports)) + multiset(now.sent);
    } else {
      assert part == multiset{};
      assert s'.topReports == s.topReports;
    }
    assert multiset(Flatten(s'.topReports)) == multiset(Flatten(s.topReports)) + part;
  }

  lemma CollectKeepsTop(plan: Plan, s: State, g: nat)
    requires Fits(plan, s) && g < plan.groups && TopChannels(plan, s) && SenderOk(plan, s, g)
    requires Enabled(plan, s, Collect(g))
    ensures TopChannels(plan, Apply(plan, s, Collect(g)))
  {
    hide GroupDone, Failed, Flatten, TopChannels;
    var s' := Apply(plan, s, Collect(g));
    assert s.topReports + [] == s.topReports;
    assert Forwarded(s, s', g, s'.senders[g]);
    TopMoves(plan, s, s', g, s'.senders[g]);
  }

  lemma ApplyKeepsOrderly(plan: Plan, s: State, a: Action)
    requires Fits(plan, s) && AllSane(plan, s) && Orderly(plan, s) && Enabled(plan, s, a)
    ensures AllSane(plan, Apply(plan, s, a)) && Orderly(plan, Apply(plan, s, a))
  {
    hide Orderly, NextStep, Sane;
    match a
    case Work(k) =>
      StepKeepsSane(plan.p, plan.tasks[k], plan.orders[k], s.workers[k], s.objects);
      WorkKeepsOrderly(plan, s, k);
    case Collect(g) => CollectKeepsOrderly(plan, s, g);
  }

  lemma SaneInitially(plan: Plan, start: Objects)
    requires Shaped(plan)
    ensures AllSane(plan, Initial(plan, start))
  {
  }

  /** Over every schedule, whatever the names and the answers, the channels hold exactly what was sent. */
  lemma {:induction false} ExecuteOrderly(plan: Plan, s: State, schedule: seq<Action>)
    requires Fits(plan, s) && AllSane(plan, s) && Orderly(plan, s) && Runs(plan, s, schedule)
    ensures AllSane(plan, Execute(plan, s, schedule)) && Orderly(plan, Execute(plan, s, schedule))
    decreases |schedule|
  {
    hide Apply, Enabled, AllSane, Orderly;
    if schedule != [] {
      ApplyKeepsOrderly(plan, s, schedule[0]);
      ExecuteOrderly(plan, Apply(plan, s, schedule[0]), schedule[1..]);
    }
  }

  lemma ScheduleIsOrderly(plan: Plan, start: Objects, schedule: seq<Action>)
    requires Shaped(plan) && Runs(plan, Initial(plan, start), schedule)
    ensures var s := Execute(plan, Initial(plan, start), schedule); AllSane(plan, s) && Orderly(plan, s)
  {
    hide Runs, Execute, AllSane, Orderly;
    SaneInitially(plan, start);
    OrderlyInitially(plan, start);
    ExecuteOrderly(plan, Initial(plan, start), schedule);
  }
}
