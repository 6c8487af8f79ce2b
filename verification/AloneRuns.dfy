/** A worker whose steps nobody interrupts does what `Solo` does, whatever the names are. */
module AloneRuns {
  import opened Rbac
  import opened Lists
  import opened Store
  import opened Projection
  import opened Worker
  import RulesFilter

  /** A worker that began alone while the objects were `start`, which by now are `o`. */
  predicate AloneAt(p: Push, t: Task, order: Order, w: Worker, o: Objects, start: Objects) {
    && w.copied <= |w.names| && w.bound <= |w.names|
    && o == Objects(SoFar(p, t, w, start).roles, BoundSoFar(p, t, w, start).bindings)
    && match w.pc
       case Creating(rules) => MidRole(p, t, order, w, start) && ToWrite(p, t, w, o, rules)
       case Updating(rules) =>
         && MidRole(p, t, order, w, start) && ToWrite(p, t, w, o, rules)
         && t.faults.create(w.names[w.copied]).NoFault? && CopyKey(p, t, w.names[w.copied]) in o.roles
       case _ => Faithful(p, t, order, w, start)
  }

  predicate MidRole(p: Push, t: Task, order: Order, w: Worker, start: Objects) {
    Started(p, t, order, w, start) && w.copied < |w.names| && w.bound == 0 && !w.sent
  }

  predicate ToWrite(p: Push, t: Task, w: Worker, o: Objects, rules: seq<PolicyRule>)
    requires w.copied < |w.names|
  {
    var role := w.names[w.copied];
    && t.faults.source(role).NoFault? && SourceKey(p, role) in o.roles
    && rules == CopyRules(p, w.managed, o.roles, role) && rules != []
  }

  lemma AloneInitially(p: Push, t: Task, order: Order, start: Objects)
    ensures AloneAt(p, t, order, START, start, start)
  {
    assert START.names[..0] == [];
  }

  /** One Role is dealt with, and the worker goes on. */
  lemma AloneAdvances(p: Push, t: Task, order: Order, w: Worker, o: Objects, start: Objects)
    requires MidRole(p, t, order, w, start)
    requires o == Objects(SoFar(p, t, w, start).roles, BoundSoFar(p, t, w, start).bindings)
    requires CopyRole(p, t, w.managed, o.roles, w.names[w.copied]).error == None
    ensures var last := CopyRole(p, t, w.managed, o.roles, w.names[w.copied]);
            var w' := NextRole(w.(copied := w.copied + 1, unprojected := w.unprojected + last.unprojected));
            AloneAt(p, t, order, w', o.(roles := last.roles), start)
  {
    hide CopyRole, CopyRoles, Bind, BoundRoles, ManagedRules;
    var last := CopyRole(p, t, w.managed, o.roles, w.names[w.copied]);
    var w1 := w.(copied := w.copied + 1, unprojected := w.unprojected + last.unprojected);
    SoFarStep(p, t, w, start);
    NextRoleFaithful(p, t, order, w1, start);
    NextRoleSame(p, t, w1, start);
    assert BoundSoFar(p, t, w1, start) == BoundSoFar(p, t, w, start);
  }

  lemma NextRoleSame(p: Push, t: Task, w: Worker, start: Objects)
    requires w.copied <= |w.names| && w.bound <= |w.names|
    ensures var w' := NextRole(w);
            && w'.names == w.names && w'.copied == w.copied && w'.bound == w.bound && w'.managed == w.managed
            && !w'.pc.Creating? && !w'.pc.Updating?
  {
  }

  lemma AloneAborts(p: Push, t: Task, order: Order, w: Worker, o: Objects, start: Objects, e: Error)
    requires MidRole(p, t, order, w, start)
    requires o == Objects(SoFar(p, t, w, start).roles, BoundSoFar(p, t, w, start).bindings)
    requires var last := CopyRole(p, t, w.managed, o.roles, w.names[w.copied]); last.error == Some(e) && last.roles == o.roles
    ensures AloneAt(p, t, order, Stop(p, w, e), o, start)
  {
    hide CopyRole, CopyRoles, Bind, BoundRoles, Ended, ManagedRules;
    AbortFaithful(p, t, order, w, start);
  }

  lemma AloneReads(p: Push, t: Task, order: Order, w: Worker, o: Objects, start: Objects)
    requires AloneAt(p, t, order, w, o, start) && w.pc.Reading?
    ensures var (w', o') := NextStep(p, t, order, w, o); AloneAt(p, t, order, w', o', start)
  {
    hide CopyRoles, Bind, BoundRoles, CopyKey, ManagedRules, RulesFilter.Filtered, Ended;
    assert MidRole(p, t, order, w, start);
    var last := CopyRole(p, t, w.managed, o.roles, w.names[w.copied]);
    var w' := NextStep(p, t, order, w, o).0;
    if w'.pc.Creating? && w' == w.(pc := w'.pc) {
    } else if last.error == None {
      AloneAdvances(p, t, order, w, o, start);
      assert w' == NextRole(w.(copied := w.copied + 1, unprojected := w.unprojected + last.unprojected));
    } else {
      AloneAborts(p, t, order, w, o, start, last.error.value);
    }
  }

  lemma AloneWrites(p: Push, t: Task, order: Order, w: Worker, o: Objects, start: Objects)
    requires AloneAt(p, t, order, w, o, start) && (w.pc.Creating? || w.pc.Updating?)
    ensures var (w', o') := NextStep(p, t, order, w, o); AloneAt(p, t, order, w', o', start)
  {
    hide CopyRoles, Bind, BoundRoles, CopyKey, ManagedRules, RulesFilter.Filtered, Ended;
    assert MidRole(p, t, order, w, start);
    var last := CopyRole(p, t, w.managed, o.roles, w.names[w.copied]);
    var (w', o') := NextStep(p, t, order, w, o);
    assert w.unprojected + [] == w.unprojected;
    if w.pc.Creating? && w' == w.(pc := Updating(w.pc.rules)) {
    } else if last.error == None {
      AloneAdvances(p, t, order, w, o, start);
      assert w' == NextRole(w.(copied := w.copied + 1, unprojected := w.unprojected + last.unprojected));
    } else {
      AloneAborts(p, t, order, w, o, start, last.error.value);
    }
  }

  lemma AloneBinds(p: Push, t: Task, order: Order, w: Worker, o: Objects, start: Objects)
    requires AloneAt(p, t, order, w, o, start) && w.pc.Binding?
    ensures var (w', o') := NextStep(p, t, order, w, o); AloneAt(p, t, order, w', o', start)
  {
    hide CopyRoles, Bind, BoundRoles, CopyKey, CopyBinding, ManagedRules;
    BoundStep(p, t, w, start);
    BindPrefix(p, t, start.bindings, w.names, w.bound + 1);
    AllCopied(p, t, order, w, start);
    var w' := NextStep(p, t, order, w, o).0;
    if w'.bound == w.bound + 1 {
      StartBindingFaithful(p, t, order, w.(bound := w.bound + 1), start);
      assert SoFar(p, t, w', start) == SoFar(p, t, w, start);
    }
  }

  lemma AloneBegins(p: Push, t: Task, order: Order, w: Worker, o: Objects, start: Objects)
    requires AloneAt(p, t, order, w, o, start) && (w.pc.Listing? || w.pc.Looking?)
    ensures var (w', o') := NextStep(p, t, order, w, o); AloneAt(p, t, order, w', o', start)
  {
    hide CopyRole, Bind, BoundRoles, CopyKey, NextRole;
    NothingBound(p, t, w, start);
    var (w', o') := NextStep(p, t, order, w, o);
    assert w.names[..0] == [];
    assert o == start && o' == o;
    if w.pc.Looking? && t.faults.managed.NoFault? {
      var w1 := w.(managed := ManagedRules(p, t, o.roles));
      NextRoleFaithful(p, t, order, w1, start);
      NextRoleSame(p, t, w1, start);
      NothingBound(p, t, w', start);
      assert w'.names[..0] == [];
    } else {
      assert w'.names[..0] == [];
      NothingBound(p, t, w', start);
    }
  }

  lemma AloneSteps(p: Push, t: Task, order: Order, w: Worker, o: Objects, start: Objects)
    requires AloneAt(p, t, order, w, o, start)
    ensures var (w', o') := NextStep(p, t, order, w, o); AloneAt(p, t, order, w', o', start)
  {
    hide CopyRole, CopyRoles, Bind, BoundRoles, CopyKey, NextRole;
    match w.pc
    case Listing => AloneBegins(p, t, order, w, o, start);
    case Looking => AloneBegins(p, t, order, w, o, start);
    case Reading => AloneReads(p, t, order, w, o, start);
    case Creating(_) => AloneWrites(p, t, order, w, o, start);
    case Updating(_) => AloneWrites(p, t, order, w, o, start);
    case Reporting =>
      NothingBound(p, t, w, start);
      StartBindingFaithful(p, t, order, w.(sent := true), start);
    case Binding => AloneBinds(p, t, order, w, o, start);
    case Failing(_) =>
    case Finished(_) =>
  }

  /** At its end the worker leaves what `Solo` leaves. */
  lemma AloneEnds(p: Push, t: Task, order: Order, w: Worker, o: Objects, start: Objects)
    requires AloneAt(p, t, order, w, o, start) && w.pc.Finished?
    ensures Result(o, SentReports(w), w.pc.failure) == Solo(p, t, order, start)
  {
    hide CopyRoles, Bind, BoundRoles, Solo;
  }
}
