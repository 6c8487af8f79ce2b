/** The goroutines of a push run one after another, each in one go: the simplest schedule. */
module PushInTurn {
  import opened Lists
  import opened Store
  import opened Projection
  import opened Worker
  import opened SoloRuns
  import opened AloneRuns
  import opened Sums
  import opened FanOut
  import opened Channels
  import opened PushTheorems
  import opened FanOutTheorems

  datatype Turned = Turned(objects: Objects, sent: seq<Report>, errors: seq<Error>)

  function InTurn(p: Push, tasks: seq<Task>, orders: seq<Order>, start: Objects): Turned
    requires |orders| == |tasks|
  {
    if tasks == [] then Turned(start, [], [])
    else
      var n := |tasks| - 1;
      var before := InTurn(p, tasks[..n], orders[..n], start);
      var last := Solo(p, tasks[n], orders[n], before.objects);
      Turned(last.objects, before.sent + last.sent, before.errors + if last.failure.Some? then [last.failure.value] else [])
  }

  lemma InTurnNothing(p: Push, start: Objects)
    ensures InTurn(p, [], [], start) == Turned(start, [], [])
  {
  }

  lemma InTurnLast(p: Push, tasks: seq<Task>, t: Task, orders: seq<Order>, order: Order, start: Objects)
    requires |orders| == |tasks|
    ensures var before := InTurn(p, tasks, orders, start);
            var last := Solo(p, t, order, before.objects);
            InTurn(p, tasks + [t], orders + [order], start) ==
            Turned(last.objects, before.sent + last.sent,
                   before.errors + if last.failure.Some? then [last.failure.value] else [])
  {
    hide Solo;
    assert (tasks + [t])[..|tasks|] == tasks && (orders + [order])[..|orders|] == orders;
  }

  lemma {:induction false} InTurnConcat(p: Push, a: seq<Task>, b: seq<Task>, oa: seq<Order>, ob: seq<Order>,
                                        start: Objects)
    requires |oa| == |a| && |ob| == |b|
    ensures var first := InTurn(p, a, oa, start);
            var second := InTurn(p, b, ob, first.objects);
            InTurn(p, a + b, oa + ob, start) == Turned(second.objects, first.sent + second.sent, first.errors + second.errors)
  {
    hide Solo, InTurn;
    if b == [] {
      assert a + b == a && oa + ob == oa;
      InTurnNothing(p, InTurn(p, a, oa, start).objects);
    } else {
      var n := |b| - 1;
      InTurnConcat(p, a, b[..n], oa, ob[..n], start);
      InTurnLast(p, a + b[..n], b[n], oa + ob[..n], ob[n], start);
      InTurnLast(p, b[..n], b[n], ob[..n], ob[n], InTurn(p, a, oa, start).objects);
      assert a + b == a + b[..n] + [b[n]] && oa + ob == oa + ob[..n] + [ob[n]];
      assert b == b[..n] + [b[n]] && ob == ob[..n] + [ob[n]];
    }
  }

  /** Strict workers report nothing. */
  lemma {:induction false} StrictSendsNothing(p: Push, tasks: seq<Task>, orders: seq<Order>, start: Objects)
    requires |orders| == |tasks| && !p.allowSubset
    ensures InTurn(p, tasks, orders, start).sent == []
  {
    hide CopyRoles, Bind, BoundRoles;
    if tasks != [] {
      var n := |tasks| - 1;
      StrictSendsNothing(p, tasks[..n], orders[..n], start);
      var o := InTurn(p, tasks[..n], orders[..n], start).objects;
      var names := orders[n](BoundRoles(o.bindings, tasks[n].sa, p.fromNs));
      StrictReportsNothing(p, tasks[n], ManagedRules(p, tasks[n], o.roles), o.roles, names);
    }
  }

  // ---------------------------------------------------------------------------------------------
  // Taking turns is a schedule
  // ---------------------------------------------------------------------------------------------

  lemma {:induction false} RunsConcat(plan: Plan, s: State, a: seq<Action>, b: seq<Action>)
    requires Fits(plan, s) && Runs(plan, s, a) && Runs(plan, Execute(plan, s, a), b)
    ensures Runs(plan, s, a + b) && Execute(plan, s, a + b) == Execute(plan, Execute(plan, s, a), b)
    decreases |a|
  {
    hide Enabled, Apply;
    if a == [] {
      assert a + b == b;
    } else {
      RunsConcat(plan, Apply(plan, s, a[0]), a[1..], b);
      assert (a + b)[1..] == a[1..] + b;
    }
  }

  lemma RunsNothing(plan: Plan, s: State)
    requires Fits(plan, s)
    ensures Runs(plan, s, []) && Execute(plan, s, []) == s
  {
  }

  lemma RunsFirst(plan: Plan, s: State, a: Action, rest: seq<Action>)
    requires Fits(plan, s) && Enabled(plan, s, a) && Runs(plan, Apply(plan, s, a), rest)
    ensures Runs(plan, s, [a] + rest) && Execute(plan, s, [a] + rest) == Execute(plan, Apply(plan, s, a), rest)
  {
    hide Enabled, Apply;
    assert ([a] + rest)[1..] == rest;
  }

  /** Worker `k` alone has moved from `s` to `s'`, and is done. */
  predicate TurnTaken(plan: Plan, s: State, s': State, k: nat)
    requires Fits(plan, s) && Fits(plan, s') && k < |plan.tasks|
  {
    && s'.workers == s.workers[k := s'.workers[k]] && s'.workers[k].pc.Finished?
    && s'.senders == s.senders
  }

  lemma AloneSized(p: Push, t: Task, order: Order, w: Worker, o: Objects, start: Objects)
    requires AloneAt(p, t, order, w, o, start)
    ensures Sized(w, |order(Copies(p, t, start))|)
    ensures w.pc.Listing? ==> o == start
  {
    hide CopyRoles, Bind, BoundRoles, Ended, ManagedRules, CopyKey, CopyRules;
    if !w.pc.Creating? && !w.pc.Updating? {
      FaithfulSized(p, t, order, w, start);
    }
    if w.pc.Listing? {
      assert w.names[..0] == [];
      NothingBound(p, t, w, start);
      NothingCopied(p, t, w, start);
    }
  }

  lemma NothingCopied(p: Push, t: Task, w: Worker, start: Objects)
    requires w.copied == 0
    ensures SoFar(p, t, w, start).roles == start.roles
  {
    assert w.names[..0] == [];
  }

  /** A worker can be run to its end without interruption. */
  lemma {:induction false} TakeTurn(plan: Plan, s: State, k: nat, start: Objects) returns (schedule: seq<Action>)
    requires Fits(plan, s) && AllSane(plan, s) && Orderly(plan, s) && k < |plan.tasks|
    requires AloneAt(plan.p, plan.tasks[k], plan.orders[k], s.workers[k], s.objects, start)
    ensures Runs(plan, s, schedule)
    ensures var s' := Execute(plan, s, schedule);
            && AllSane(plan, s') && Orderly(plan, s') && TurnTaken(plan, s, s', k)
            && AloneAt(plan.p, plan.tasks[k], plan.orders[k], s'.workers[k], s'.objects, start)
    decreases Rank(s.workers[k], |plan.orders[k](Copies(plan.p, plan.tasks[k], start))|)
  {
    hide AloneAt, AllSane, Orderly, NextStep, Rank, BoundRoles, Runs, Execute, Sized;
    var p, t, order, w := plan.p, plan.tasks[k], plan.orders[k], s.workers[k];
    if w.pc.Finished? {
      schedule := [];
      RunsNothing(plan, s);
    } else {
      UnfinishedCanMove(plan, s, k);
      AloneSteps(p, t, order, w, s.objects, start);
      AloneSized(p, t, order, w, s.objects, start);
      WorkerDescends(p, t, order, w, s.objects, |order(Copies(p, t, start))|);
      ApplyKeepsOrderly(plan, s, Work(k));
      var s1 := Apply(plan, s, Work(k));
      var rest := TakeTurn(plan, s1, k, start);
      schedule := [Work(k)] + rest;
      RunsFirst(plan, s, Work(k), rest);
    }
  }

  /** The first `n` workers have taken their turns. */
  ghost predicate AfterTurns(plan: Plan, start: Objects, s: State, n: nat)
    requires Fits(plan, s) && n <= |plan.tasks|
  {
    var turned := InTurn(plan.p, plan.tasks[..n], plan.orders[..n], start);
    && AllSane(plan, s) && Orderly(plan, s)
    && s.objects == turned.objects
    && (forall k :: 0 <= k < n ==> s.workers[k].pc.Finished?)
    && (forall k :: n <= k < |plan.tasks| ==> s.workers[k] == START)
    && (forall g :: 0 <= g < plan.groups ==> s.senders[g] == Waiting)
    && Total(SentParts(s.workers)) == multiset(turned.sent)
    && (turned.errors != [] <==> SomeFailed(s.workers))
  }

  predicate SomeFailed(workers: seq<Worker>) {
    exists k :: 0 <= k < |workers| && Failed(workers[k])
  }

  lemma NoTurnsYet(plan: Plan, start: Objects)
    requires Shaped(plan)
    ensures AfterTurns(plan, start, Initial(plan, start), 0)
  {
    hide Orderly, Total;
    SaneInitially(plan, start);
    OrderlyInitially(plan, start);
    TotalEmpty(SentParts(Initial(plan, start).workers));
    InTurnNothing(plan.p, start);
    assert plan.tasks[..0] == [] && plan.orders[..0] == [];
  }

  lemma OneMoreTurn(plan: Plan, start: Objects, s: State, s': State, k: nat)
    requires Fits(plan, s) && Fits(plan, s') && k < |plan.tasks| && AfterTurns(plan, start, s, k)
    requires AllSane(plan, s') && Orderly(plan, s') && TurnTaken(plan, s, s', k)
    requires AloneAt(plan.p, plan.tasks[k], plan.orders[k], s'.workers[k], s'.objects, s.objects)
    ensures AfterTurns(plan, start, s', k + 1)
  {
    hide AloneAt, AllSane, Orderly, Solo, InTurn, Total;
    var p := plan.p;
    var before := InTurn(p, plan.tasks[..k], plan.orders[..k], start);
    AloneEnds(p, plan.tasks[k], plan.orders[k], s'.workers[k], s'.objects, s.objects);
    InTurnLast(p, plan.tasks[..k], plan.tasks[k], plan.orders[..k], plan.orders[k], start);
    assert plan.tasks[..k + 1] == plan.tasks[..k] + [plan.tasks[k]];
    assert plan.orders[..k + 1] == plan.orders[..k] + [plan.orders[k]];
    var parts, part := SentParts(s.workers), multiset(SentReports(s'.workers[k]));
    assert SentParts(s'.workers) == parts[k := part];
    assert parts[k] == multiset{};
    TotalUpdate(parts, k, part);
    assert multiset(before.sent + SentReports(s'.workers[k])) == multiset(before.sent) + part;
    FailedMoves(s.workers, s'.workers, k);
  }

  lemma FailedMoves(workers: seq<Worker>, workers': seq<Worker>, k: nat)
    requires k < |workers| == |workers'| && workers' == workers[k := workers'[k]] && !Failed(workers[k])
    ensures SomeFailed(workers') <==> SomeFailed(workers) || Failed(workers'[k])
  {
    hide Failed;
    if SomeFailed(workers) {
      var j :| 0 <= j < |workers| && Failed(workers[j]);
      assert Failed(workers'[j]);
    }
  }

  lemma {:induction false} TakeTurns(plan: Plan, start: Objects, n: nat) returns (schedule: seq<Action>)
    requires Shaped(plan) && n <= |plan.tasks|
    ensures Runs(plan, Initial(plan, start), schedule)
    ensures AfterTurns(plan, start, Execute(plan, Initial(plan, start), schedule), n)
  {
    hide Runs, Execute, AloneAt, InTurn, Solo, Orderly;
    if n == 0 {
      schedule := [];
      RunsNothing(plan, Initial(plan, start));
      NoTurnsYet(plan, start);
    } else {
      var before := TakeTurns(plan, start, n - 1);
      var s := Execute(plan, Initial(plan, start), before);
      AloneInitially(plan.p, plan.tasks[n - 1], plan.orders[n - 1], s.objects);
      var turn := TakeTurn(plan, s, n - 1, s.objects);
      schedule := before + turn;
      RunsConcat(plan, Initial(plan, start), before, turn);
      OneMoreTurn(plan, start, s, Execute(plan, s, turn), n - 1);
    }
  }

  // ---------------------------------------------------------------------------------------------
  // Collecting
  // ---------------------------------------------------------------------------------------------

  predicate AllDone(s: State) {
    forall k :: 0 <= k < |s.workers| ==> s.workers[k].pc.Finished?
  }

  /** One namespace is collected. */
  lemma {:induction false} CollectOne(plan: Plan, s: State, g: nat) returns (schedule: seq<Action>)
    requires Fits(plan, s) && AllSane(plan, s) && Orderly(plan, s) && AllDone(s) && g < plan.groups
    ensures Runs(plan, s, schedule)
    ensures var s' := Execute(plan, s, schedule);
            && AllSane(plan, s') && Orderly(plan, s') && s'.workers == s.workers && s'.objects == s.objects
            && s'.senders == s.senders[g := s'.senders[g]] && s'.senders[g].Closed?
    decreases SenderRank(s.senders[g])
  {
    hide AllSane, Orderly, Runs, Execute, Flatten;
    if s.senders[g].Closed? {
      schedule := [];
      RunsNothing(plan, s);
    } else {
      DoneCanCollect(plan, s, g);
      ApplyKeepsOrderly(plan, s, Collect(g));
      var rest := CollectOne(plan, Apply(plan, s, Collect(g)), g);
      schedule := [Collect(g)] + rest;
      RunsFirst(plan, s, Collect(g), rest);
    }
  }

  lemma {:induction false} CollectAll(plan: Plan, s: State, n: nat) returns (schedule: seq<Action>)
    requires Fits(plan, s) && AllSane(plan, s) && Orderly(plan, s) && AllDone(s) && n <= plan.groups
    ensures Runs(plan, s, schedule)
    ensures var s' := Execute(plan, s, schedule);
            && AllSane(plan, s') && Orderly(plan, s') && s'.workers == s.workers && s'.objects == s.objects
            && forall g :: 0 <= g < n ==> s'.senders[g].Closed?
  {
    hide AllSane, Orderly, Runs, Execute;
    if n == 0 {
      schedule := [];
      RunsNothing(plan, s);
    } else {
      var before := CollectAll(plan, s, n - 1);
      var last := CollectOne(plan, Execute(plan, s, before), n - 1);
      schedule := before + last;
      RunsConcat(plan, s, before, last);
    }
  }

  /** Taking turns is one of the schedules, whatever the names and the answers: the same objects, the same
    reports, and an error under the same condition. */
  lemma TurnsAreASchedule(plan: Plan, start: Objects) returns (schedule: seq<Action>)
    requires Shaped(plan)
    ensures Finishes(plan, start, schedule)
    ensures var turned, s := InTurn(plan.p, plan.tasks, plan.orders, start), Execute(plan, Initial(plan, start), schedule);
            && After(plan, start, schedule) == turned.objects
            && multiset(Unprojected(s)) == multiset(turned.sent)
            && (s.topErrs == [] <==> plan.p.allowSubset || turned.errors == [])
  {
    hide Runs, Execute, InTurn, Orderly, AllSane, Total, Flatten, Failed;
    var turns := TakeTurns(plan, start, |plan.tasks|);
    var done := Execute(plan, Initial(plan, start), turns);
    assert plan.tasks[..|plan.tasks|] == plan.tasks && plan.orders[..|plan.tasks|] == plan.orders;
    var collecting := CollectAll(plan, done, plan.groups);
    schedule := turns + collecting;
    RunsConcat(plan, Initial(plan, start), turns, collecting);
    CollectedFromWorkers(plan, start, schedule);
  }
}
