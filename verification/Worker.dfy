/** One goroutine of a push, one API call at a time.

  The program counter names the next API call or channel send.  `Solo` is the same body run in one go,
  composed of what `CreateRole` and `CreateRoleBinding` compute; `StepKeepsFaithful` shows that the small
  steps, taken among arbitrary foreign writes, never leave the track of `Solo`. */
module Worker {
  import opened Rbac
  import opened Lists
  import opened Store
  import opened Projection
  import RulesFilter

  datatype Pc =
    | Listing
    | Looking
    | Reading
    | Creating(rules: seq<PolicyRule>)
    | Updating(rules: seq<PolicyRule>)
    | Reporting
    | Binding
    | Failing(error: Error)
    | Finished(failure: Option<Error>)

  /** `copied` Roles of `names` are dealt with and `bound` bindings are made; `sent` tells whether the
    reports went out on the channel. */
  datatype Worker = Worker(
    pc: Pc,
    names: seq<string>,
    managed: seq<PolicyRule>,
    copied: nat,
    unprojected: seq<Report>,
    bound: nat,
    sent: bool)

  const START := Worker(Listing, [], [], 0, [], 0, false)

  /** The order in which a set is iterated. */
  type Order = set<string> -> seq<string>

  predicate Enumerates(order: Order, s: set<string>) {
    Distinct(order(s)) && Elems(order(s)) == s
  }

  function SentReports(w: Worker): seq<Report> {
    if w.sent then w.unprojected else []
  }

  // ---------------------------------------------------------------------------------------------
  // The steps
  // ---------------------------------------------------------------------------------------------

  /** A Forbidden answer ends the goroutine silently when subset projection is on. */
  function Escalate(p: Push, e: Error): Option<Error> {
    if e == Forbidden && p.allowSubset then None else Some(e)
  }

  function Stop(p: Push, w: Worker, e: Error): Worker {
    w.(pc := if Escalate(p, e).Some? then Failing(e) else Finished(None))
  }

  function StartBinding(w: Worker): Worker {
    w.(pc := if w.bound < |w.names| then Binding else Finished(None))
  }

  function NextRole(w: Worker): Worker {
    if w.copied < |w.names| then w.(pc := Reading)
    else if w.unprojected != [] then w.(pc := Reporting)
    else StartBinding(w)
  }

  function SkipRole(p: Push, w: Worker, role: string, reason: Reason, e: Error): Worker {
    if p.allowSubset then NextRole(w.(copied := w.copied + 1, unprojected := w.unprojected + [Report(role, reason)]))
    else Stop(p, w, e)
  }

  function NextStep(p: Push, t: Task, order: Order, w: Worker, o: Objects): (Worker, Objects)
    requires w.pc.Reading? || w.pc.Creating? || w.pc.Updating? ==> w.copied < |w.names|
    requires w.pc.Binding? ==> w.bound < |w.names|
  {
    match w.pc
    case Listing =>
      if t.faults.list.Fails? then (w.(pc := Failing(t.faults.list.error)), o)
      else (w.(pc := Looking, names := order(BoundRoles(o.bindings, t.sa, p.fromNs))), o)
    case Looking =>
      if t.faults.managed.Fails? then (Stop(p, w, t.faults.managed.error), o)
      else (NextRole(w.(managed := ManagedRules(p, t, o.roles))), o)
    case Reading =>
      var role := w.names[w.copied];
      if t.faults.source(role).Fails? then (SkipRole(p, w, role, FailedToGet, t.faults.source(role).error), o)
      else if SourceKey(p, role) !in o.roles then
        (NextRole(w.(copied := w.copied + 1,
                     unprojected := w.unprojected + if p.allowSubset then [Report(role, NotFound)] else [])), o)
      else
        var rules := CopyRules(p, w.managed, o.roles, role);
        if rules == [] then (SkipRole(p, w, role, Insufficient, Unprojectable(role)), o)
        else (w.(pc := Creating(rules)), o)
    case Creating(rules) =>
      var role := w.names[w.copied];
      if t.faults.create(role).Fails? then (SkipRole(p, w, role, FailedToCreate, t.faults.create(role).error), o)
      else if CopyKey(p, t, role) in o.roles then (w.(pc := Updating(rules)), o)
      else (NextRole(w.(copied := w.copied + 1)), o.(roles := o.roles[CopyKey(p, t, role) := Role(p.labels, rules)]))
    case Updating(rules) =>
      var role := w.names[w.copied];
      if t.faults.update(role).Fails? then (SkipRole(p, w, role, FailedToUpdate, t.faults.update(role).error), o)
      else (NextRole(w.(copied := w.copied + 1)), o.(roles := o.roles[CopyKey(p, t, role) := Role(p.labels, rules)]))
    case Reporting =>
      (StartBinding(w.(sent := true)), o)
    case Binding =>
      var role := w.names[w.bound];
      if t.faults.bind(role).Fails? then (Stop(p, w, t.faults.bind(role).error), o)
      else if CopyKey(p, t, role) in o.bindings then (w.(pc := Finished(None)), o)
      else (StartBinding(w.(bound := w.bound + 1)),
            o.(bindings := o.bindings[CopyKey(p, t, role) := CopyBinding(p, t, role)]))
    case Failing(e) => (w.(pc := Finished(Some(e))), o)
    case Finished(_) => (w, o)
  }

  /** Where a worker can stand, whatever it has read. */
  predicate Sane(p: Push, w: Worker) {
    && (w.sent ==> w.unprojected != [])
    && (!p.allowSubset ==> w.unprojected == [])
    && match w.pc
       case Listing => w == START
       case Looking => w.copied == 0 && w.bound == 0 && !w.sent
       case Reading => w.copied < |w.names| && w.bound == 0 && !w.sent
       case Creating(_) => w.copied < |w.names| && w.bound == 0 && !w.sent
       case Updating(_) => w.copied < |w.names| && w.bound == 0 && !w.sent
       case Reporting => w.bound == 0 && !w.sent && w.unprojected != []
       case Binding => w.bound < |w.names|
       case Failing(_) => true
       case Finished(_) => true
  }

  lemma NextRoleSane(p: Push, w: Worker)
    requires w.bound == 0 && !w.sent && (!p.allowSubset ==> w.unprojected == [])
    ensures Sane(p, NextRole(w))
  {
  }

  lemma SkipRoleSane(p: Push, w: Worker, role: string, reason: Reason, e: Error)
    requires w.bound == 0 && !w.sent && (!p.allowSubset ==> w.unprojected == [])
    ensures Sane(p, SkipRole(p, w, role, reason, e))
  {
    hide NextRole;
    if p.allowSubset {
      NextRoleSane(p, w.(copied := w.copied + 1, unprojected := w.unprojected + [Report(role, reason)]));
    }
  }

  lemma RoleStepKeepsSane(p: Push, t: Task, order: Order, w: Worker, o: Objects)
    requires Sane(p, w) && (w.pc.Reading? || w.pc.Creating? || w.pc.Updating?)
    ensures Sane(p, NextStep(p, t, order, w, o).0)
  {
    hide BoundRoles, CopyKey, CopyRules, ManagedRules, CopyBinding, NextRole, SkipRole, Stop, StartBinding;
    var role := w.names[w.copied];
    forall reason, e {
      SkipRoleSane(p, w, role, reason, e);
    }
    NextRoleSane(p, w.(copied := w.copied + 1));
    NextRoleSane(p, w.(copied := w.copied + 1, unprojected := w.unprojected + if p.allowSubset then [Report(role, NotFound)] else []));
  }

  lemma StepKeepsSane(p: Push, t: Task, order: Order, w: Worker, o: Objects)
    requires Sane(p, w)
    ensures Sane(p, NextStep(p, t, order, w, o).0)
  {
    hide BoundRoles, CopyKey, CopyRules, ManagedRules, CopyBinding, SkipRole, NextRole;
    if w.pc.Reading? || w.pc.Creating? || w.pc.Updating? {
      RoleStepKeepsSane(p, t, order, w, o);
    } else if w.pc.Looking? {
      NextRoleSane(p, w.(managed := ManagedRules(p, t, o.roles)));
    }
  }

  // ---------------------------------------------------------------------------------------------
  // The body in one go
  // ---------------------------------------------------------------------------------------------

  datatype Result = Result(objects: Objects, sent: seq<Report>, failure: Option<Error>)

  function Solo(p: Push, t: Task, order: Order, o: Objects): Result {
    if t.faults.list.Fails? then Result(o, [], Some(t.faults.list.error))
    else
      var names := order(BoundRoles(o.bindings, t.sa, p.fromNs));
      if t.faults.managed.Fails? then Result(o, [], Escalate(p, t.faults.managed.error))
      else
        var c := CopyRoles(p, t, ManagedRules(p, t, o.roles), o.roles, names);
        if c.error.Some? then Result(o.(roles := c.roles), [], Escalate(p, c.error.value))
        else
          var b := Bind(p, t, o.bindings, names);
          Result(Objects(c.roles, b.bindings), c.unprojected,
                 if b.error.Some? then Escalate(p, b.error.value) else None)
  }

  /** The first error that the two creations of a goroutine meet. */
  function FirstError(p: Push, t: Task, o: Objects, names: seq<string>): Option<Error> {
    if t.faults.managed.Fails? then Some(t.faults.managed.error)
    else
      var c := CopyRoles(p, t, ManagedRules(p, t, o.roles), o.roles, names);
      if c.error.Some? then c.error else Bind(p, t, o.bindings, names).error
  }

  /** How a goroutine ends.  Strict projection passes on every error, a Forbidden one too; with subset projection a
    Forbidden answer to a creation or to the lookup of the managed Role is dropped, and only the lookup of the
    account's bindings can end it with Forbidden.  Bindings are made only after all Roles went without error. */
  lemma SoloFailure(p: Push, t: Task, order: Order, o: Objects)
    ensures var r, names := Solo(p, t, order, o), order(BoundRoles(o.bindings, t.sa, p.fromNs));
            && (t.faults.list.Fails? ==> r == Result(o, [], Some(t.faults.list.error)))
            && (t.faults.list.NoFault? && !p.allowSubset ==> r.failure == FirstError(p, t, o, names))
            && (t.faults.list.NoFault? && p.allowSubset && FirstError(p, t, o, names) == Some(Forbidden) ==> r.failure == None)
            && (t.faults.list.NoFault? && p.allowSubset && FirstError(p, t, o, names) != Some(Forbidden) ==>
                  r.failure == FirstError(p, t, o, names))
    ensures var r, names := Solo(p, t, order, o), order(BoundRoles(o.bindings, t.sa, p.fromNs));
            t.faults.list.NoFault? && t.faults.managed.NoFault? ==>
              var c := CopyRoles(p, t, ManagedRules(p, t, o.roles), o.roles, names);
              if c.error.Some? then r.sent == [] && r.objects == o.(roles := c.roles)
              else r.sent == c.unprojected && r.objects == Objects(c.roles, Bind(p, t, o.bindings, names).bindings)
    ensures p.allowSubset ==> (Solo(p, t, order, o).failure == Some(Forbidden) <==> t.faults.list == Fails(Forbidden))
    ensures !p.allowSubset && Solo(p, t, order, o).failure == None ==>
              var names := order(BoundRoles(o.bindings, t.sa, p.fromNs));
              var c, b := CopyRoles(p, t, ManagedRules(p, t, o.roles), o.roles, names), Bind(p, t, o.bindings, names);
              && t.faults.list.NoFault? && t.faults.managed.NoFault? && c.error == None && b.error == None
              && Solo(p, t, order, o).objects == Objects(c.roles, b.bindings)
  {
    hide CopyRoles, Bind, BoundRoles, ManagedRules;
  }

  // ---------------------------------------------------------------------------------------------
  // The small steps stay on the track of the body
  // ---------------------------------------------------------------------------------------------

  function SoFar(p: Push, t: Task, w: Worker, start: Objects): RolesOutcome
    requires w.copied <= |w.names|
  {
    CopyRoles(p, t, w.managed, start.roles, w.names[..w.copied])
  }

  function BoundSoFar(p: Push, t: Task, w: Worker, start: Objects): BindingsOutcome
    requires w.bound <= |w.names|
  {
    Bind(p, t, start.bindings, w.names[..w.bound])
  }

  /** The Roles this worker is about to copy. */
  predicate Started(p: Push, t: Task, order: Order, w: Worker, start: Objects) {
    && t.faults.list.NoFault? && t.faults.managed.NoFault?
    && w.names == order(BoundRoles(start.bindings, t.sa, p.fromNs))
    && w.managed == ManagedRules(p, t, start.roles)
    && w.copied <= |w.names|
    && SoFar(p, t, w, start).error == None
    && w.unprojected == SoFar(p, t, w, start).unprojected
  }

  predicate AboutToWrite(p: Push, t: Task, w: Worker, start: Objects, rules: seq<PolicyRule>)
    requires w.copied < |w.names|
  {
    var role := w.names[w.copied];
    && t.faults.source(role).NoFault?
    && SourceKey(p, role) in start.roles
    && rules == CopyRules(p, w.managed, start.roles, role)
    && rules != []
  }

  predicate Ended(p: Push, t: Task, order: Order, w: Worker, start: Objects, failure: Option<Error>)
    requires w.copied <= |w.names| && w.bound <= |w.names|
  {
    var r := Solo(p, t, order, start);
    && r.failure == failure
    && r.sent == SentReports(w)
    && r.objects == Objects(SoFar(p, t, w, start).roles, BoundSoFar(p, t, w, start).bindings)
  }

  /** What is known of a worker that began while the objects were `start`. */
  predicate Faithful(p: Push, t: Task, order: Order, w: Worker, start: Objects) {
    && w.copied <= |w.names| && w.bound <= |w.names|
    && (w.names != [] ==> w.names == order(BoundRoles(start.bindings, t.sa, p.fromNs)))
    && (w.copied > 0 ==> w.managed == ManagedRules(p, t, start.roles))
    && (w.sent ==> w.unprojected != [])
    && match w.pc
       case Listing => w == START
       case Looking =>
         && t.faults.list.NoFault?
         && w == START.(pc := Looking, names := order(BoundRoles(start.bindings, t.sa, p.fromNs)))
       case Reading =>
         Started(p, t, order, w, start) && w.copied < |w.names| && w.bound == 0 && !w.sent
       case Creating(rules) =>
         && Started(p, t, order, w, start) && w.copied < |w.names| && w.bound == 0 && !w.sent
         && AboutToWrite(p, t, w, start, rules)
       case Updating(rules) =>
         && Started(p, t, order, w, start) && w.copied < |w.names| && w.bound == 0 && !w.sent
         && AboutToWrite(p, t, w, start, rules)
         && t.faults.create(w.names[w.copied]).NoFault?
         && CopyKey(p, t, w.names[w.copied]) in SoFar(p, t, w, start).roles
       case Reporting =>
         && Started(p, t, order, w, start) && w.copied == |w.names| && w.bound == 0 && !w.sent
         && w.unprojected != []
       case Binding =>
         && Started(p, t, order, w, start) && w.copied == |w.names| && w.bound < |w.names|
         && (w.sent <==> w.unprojected != [])
         && !BoundSoFar(p, t, w, start).stopped && BoundSoFar(p, t, w, start).error == None
       case Failing(e) => Ended(p, t, order, w, start, Some(e))
       case Finished(failure) => Ended(p, t, order, w, start, failure)
  }

  lemma FaithfulBounds(p: Push, t: Task, order: Order, w: Worker, start: Objects)
    requires Faithful(p, t, order, w, start)
    ensures w.copied <= |w.names| && w.bound <= |w.names|
  {
  }

  /** The Roles this worker may copy. */
  function Copies(p: Push, t: Task, start: Objects): set<string> {
    BoundRoles(start.bindings, t.sa, p.fromNs)
  }

  /** The copies in the store are the ones the worker has made so far. */
  predicate Footprint(p: Push, t: Task, w: Worker, o: Objects, start: Objects)
    requires w.copied <= |w.names| && w.bound <= |w.names|
  {
    forall r :: r in Copies(p, t, start) ==>
      && Lookup(o.roles, CopyKey(p, t, r)) == Lookup(SoFar(p, t, w, start).roles, CopyKey(p, t, r))
      && Lookup(o.bindings, CopyKey(p, t, r)) == Lookup(BoundSoFar(p, t, w, start).bindings, CopyKey(p, t, r))
  }

  /** What the worker reads is as it was at the start. */
  ghost predicate StableReads(p: Push, t: Task, o: Objects, start: Objects) {
    && BoundRoles(o.bindings, t.sa, p.fromNs) == BoundRoles(start.bindings, t.sa, p.fromNs)
    && ManagedRules(p, t, o.roles) == ManagedRules(p, t, start.roles)
    && (forall r :: Lookup(o.roles, SourceKey(p, r)) == Lookup(start.roles, SourceKey(p, r)))
  }

  ghost predicate OwnKeysDistinct(p: Push, t: Task, start: Objects) {
    && t.toNs != p.fromNs
    && (forall r, r' :: r in Copies(p, t, start) && r' in Copies(p, t, start) && CopyKey(p, t, r) == CopyKey(p, t, r') ==> r == r')
  }

  lemma NamesAreCopies(p: Push, t: Task, order: Order, w: Worker, start: Objects, i: nat)
    requires w.names == order(Copies(p, t, start)) && Enumerates(order, Copies(p, t, start)) && i < |w.names|
    ensures w.names[i] in Copies(p, t, start)
  {
    assert w.names[i] in Elems(w.names);
  }

  lemma SoFarStep(p: Push, t: Task, w: Worker, start: Objects)
    requires w.copied < |w.names| && SoFar(p, t, w, start).error == None
    ensures var last := CopyRole(p, t, w.managed, SoFar(p, t, w, start).roles, w.names[w.copied]);
            CopyRoles(p, t, w.managed, start.roles, w.names[..w.copied + 1]) ==
            RolesOutcome(last.roles, SoFar(p, t, w, start).unprojected + last.unprojected, last.error)
  {
    hide CopyRole;
    assert w.names[..w.copied + 1][..w.copied] == w.names[..w.copied];
  }

  lemma BoundStep(p: Push, t: Task, w: Worker, start: Objects)
    requires w.bound < |w.names|
    ensures var before := BoundSoFar(p, t, w, start);
            var role := w.names[w.bound];
            Bind(p, t, start.bindings, w.names[..w.bound + 1]) ==
            if before.stopped || before.error.Some? then before
            else if t.faults.bind(role).Fails? then before.(error := Some(t.faults.bind(role).error))
            else if CopyKey(p, t, role) in before.bindings then before.(stopped := true)
            else before.(bindings := before.bindings[CopyKey(p, t, role) := CopyBinding(p, t, role)])
  {
    assert w.names[..w.bound + 1][..w.bound] == w.names[..w.bound];
  }

  lemma SourceUnchanged(p: Push, t: Task, w: Worker, start: Objects, r: string)
    requires t.toNs != p.fromNs && w.copied <= |w.names|
    ensures Lookup(SoFar(p, t, w, start).roles, SourceKey(p, r)) == Lookup(start.roles, SourceKey(p, r))
  {
    SourceKept(p, t, w.managed, start.roles, w.names[..w.copied], r);
  }

  /** A whole run of `CopyRoles` that is over when the worker has dealt with its last Role. */
  lemma AllCopied(p: Push, t: Task, order: Order, w: Worker, start: Objects)
    requires Started(p, t, order, w, start) && w.copied == |w.names|
    ensures CopyRoles(p, t, w.managed, start.roles, w.names) == SoFar(p, t, w, start)
  {
    assert w.names[..w.copied] == w.names;
  }

  lemma NothingBound(p: Push, t: Task, w: Worker, start: Objects)
    requires w.bound == 0
    ensures BoundSoFar(p, t, w, start) == BindingsOutcome(start.bindings, false, None)
  {
    assert w.names[..0] == [];
  }

  /** Moving on after the last binding made, or to the first one. */
  lemma StartBindingFaithful(p: Push, t: Task, order: Order, w: Worker, start: Objects)
    requires Started(p, t, order, w, start) && w.copied == |w.names| && w.bound <= |w.names|
    requires w.sent <==> w.unprojected != []
    requires !BoundSoFar(p, t, w, start).stopped && BoundSoFar(p, t, w, start).error == None
    ensures Faithful(p, t, order, StartBinding(w), start)
  {
    hide CopyRoles, Bind, BoundRoles;
    AllCopied(p, t, order, w, start);
    assert w.names[..|w.names|] == w.names;
  }

  lemma NextRoleFaithful(p: Push, t: Task, order: Order, w: Worker, start: Objects)
    requires Started(p, t, order, w, start) && w.bound == 0 && !w.sent
    ensures Faithful(p, t, order, NextRole(w), start)
  {
  }

  /** A Role that ends the worker: `CreateRole` returned an error. */
  lemma AbortFaithful(p: Push, t: Task, order: Order, w: Worker, start: Objects)
    requires Started(p, t, order, w, start) && w.copied < |w.names| && w.bound == 0 && !w.sent
    requires var last := CopyRole(p, t, w.managed, SoFar(p, t, w, start).roles, w.names[w.copied]);
             last.error.Some? && last.roles == SoFar(p, t, w, start).roles
    ensures var e := CopyRole(p, t, w.managed, SoFar(p, t, w, start).roles, w.names[w.copied]).error.value;
            Faithful(p, t, order, Stop(p, w, e), start)
  {
    hide CopyRole, CopyRoles, Bind, BoundRoles;
    SoFarStep(p, t, w, start);
    CopyRolesPrefix(p, t, w.managed, start.roles, w.names, w.copied + 1);
    NothingBound(p, t, w, start);
  }

  /** Only copies of this worker change. */
  ghost predicate OnlyOwnKeys(p: Push, t: Task, o: Objects, o': Objects, start: Objects) {
    forall k :: (forall r :: r in Copies(p, t, start) ==> k != CopyKey(p, t, r)) ==>
      Lookup(o'.roles, k) == Lookup(o.roles, k) && Lookup(o'.bindings, k) == Lookup(o.bindings, k)
  }

  ghost predicate Situation(p: Push, t: Task, order: Order, w: Worker, o: Objects, start: Objects) {
    && Enumerates(order, Copies(p, t, start))
    && Faithful(p, t, order, w, start)
    && Footprint(p, t, w, o, start)
    && StableReads(p, t, o, start)
    && OwnKeysDistinct(p, t, start)
  }

  /** The step finished one Role in the way `CopyRole` says. */
  lemma Advance(p: Push, t: Task, order: Order, w: Worker, o: Objects, roles': map<Key, Role>, start: Objects)
    requires Situation(p, t, order, w, o, start)
    requires Started(p, t, order, w, start) && w.copied < |w.names| && w.bound == 0 && !w.sent
    requires var last := CopyRole(p, t, w.managed, SoFar(p, t, w, start).roles, w.names[w.copied]);
             var key := CopyKey(p, t, w.names[w.copied]);
             && last.error == None
             && Lookup(roles', key) == Lookup(last.roles, key)
             && (forall k :: k != key ==> Lookup(roles', k) == Lookup(o.roles, k))
    ensures var last := CopyRole(p, t, w.managed, SoFar(p, t, w, start).roles, w.names[w.copied]);
            var w' := NextRole(w.(copied := w.copied + 1, unprojected := w.unprojected + last.unprojected));
            && Faithful(p, t, order, w', start)
            && Footprint(p, t, w', o.(roles := roles'), start)
            && OnlyOwnKeys(p, t, o, o.(roles := roles'), start)
  {
    hide CopyRole, CopyRoles, Bind, BoundRoles, CopyKey, Ended, AboutToWrite, ManagedRules;
    var last := CopyRole(p, t, w.managed, SoFar(p, t, w, start).roles, w.names[w.copied]);
    SoFarStep(p, t, w, start);
    NamesAreCopies(p, t, order, w, start, w.copied);
    var w1 := w.(copied := w.copied + 1, unprojected := w.unprojected + last.unprojected);
    NextRoleFaithful(p, t, order, w1, start);
    NextRoleKeeps(p, t, w1, start);
    CopiesAdvance(p, t, w, o, roles', last.roles, w.names[w.copied], start);
  }

  lemma NextRoleKeeps(p: Push, t: Task, w: Worker, start: Objects)
    requires w.copied <= |w.names| && w.bound <= |w.names|
    ensures var w' := NextRole(w);
            && w'.copied <= |w'.names| && w'.bound <= |w'.names|
            && SoFar(p, t, w', start) == SoFar(p, t, w, start) && BoundSoFar(p, t, w', start) == BoundSoFar(p, t, w, start)
  {
  }

  lemma CopiesAdvance(p: Push, t: Task, w: Worker, o: Objects, roles': map<Key, Role>, after: map<Key, Role>,
                      role: string,
                      start: Objects)
    requires w.copied <= |w.names| && w.bound <= |w.names| && Footprint(p, t, w, o, start) && OwnKeysDistinct(p, t, start)
    requires role in Copies(p, t, start) && after == CopyRole(p, t, w.managed, SoFar(p, t, w, start).roles, role).roles
    requires Lookup(roles', CopyKey(p, t, role)) == Lookup(after, CopyKey(p, t, role))
    requires forall k :: k != CopyKey(p, t, role) ==> Lookup(roles', k) == Lookup(o.roles, k)
    ensures forall r :: r in Copies(p, t, start) ==> Lookup(roles', CopyKey(p, t, r)) == Lookup(after, CopyKey(p, t, r))
  {
    hide CopyRole, CopyRoles, Bind, BoundRoles, CopyKey;
    CopyRoleEffect(p, t, w.managed, SoFar(p, t, w, start).roles, role);
    forall r | r in Copies(p, t, start)
      ensures Lookup(roles', CopyKey(p, t, r)) == Lookup(after, CopyKey(p, t, r))
    {
      assert r != role ==> CopyKey(p, t, r) != CopyKey(p, t, role);
    }
  }

  /** A step that only moves the program counter. */
  lemma Unmoved(p: Push, t: Task, w: Worker, w': Worker, o: Objects, start: Objects)
    requires w.copied <= |w.names| && w.bound <= |w.names| && Footprint(p, t, w, o, start)
    requires w'.names == w.names && w'.copied == w.copied && w'.bound == w.bound && w'.managed == w.managed
    ensures Footprint(p, t, w', o, start) && OnlyOwnKeys(p, t, o, o, start)
  {
    hide CopyRoles, Bind, BoundRoles, CopyKey;
  }

  lemma StopKeeps(p: Push, w: Worker, e: Error)
    ensures var w' := Stop(p, w, e);
            w'.names == w.names && w'.copied == w.copied && w'.bound == w.bound && w'.managed == w.managed
  {
  }

  lemma ReadingStep(p: Push, t: Task, order: Order, w: Worker, o: Objects, start: Objects)
    requires Situation(p, t, order, w, o, start) && w.pc.Reading?
    ensures var (w', o') := NextStep(p, t, order, w, o);
            Faithful(p, t, order, w', start) && Footprint(p, t, w', o', start) && OnlyOwnKeys(p, t, o, o', start)
  {
    hide CopyRoles, Bind, BoundRoles, CopyKey, CopyBinding, ManagedRules, RulesFilter.Filtered, Ended, Footprint,
      OnlyOwnKeys;
    var role := w.names[w.copied];
    var c := SoFar(p, t, w, start);
    SourceUnchanged(p, t, w, start, role);
    assert Lookup(o.roles, SourceKey(p, role)) == Lookup(c.roles, SourceKey(p, role)) by {
      assert Lookup(o.roles, SourceKey(p, role)) == Lookup(start.roles, SourceKey(p, role));
    }
    var last := CopyRole(p, t, w.managed, c.roles, role);
    var (w', o') := NextStep(p, t, order, w, o);
    if w'.pc.Creating? && w'.copied == w.copied {
      Unmoved(p, t, w, w', o, start);
    } else if last.error == None {
      assert last.roles == c.roles;
      OwnCopy(p, t, order, w, o, start);
      Advance(p, t, order, w, o, o.roles, start);
      assert w' == NextRole(w.(copied := w.copied + 1, unprojected := w.unprojected + last.unprojected));
    } else {
      AbortFaithful(p, t, order, w, start);
      StopKeeps(p, w, last.error.value);
      Unmoved(p, t, w, w', o, start);
    }
  }

  /** The store agrees with the worker about the copy it is about to make. */
  lemma OwnCopy(p: Push, t: Task, order: Order, w: Worker, o: Objects, start: Objects)
    requires Situation(p, t, order, w, o, start) && w.names != []
    ensures w.copied < |w.names| ==>
              Lookup(o.roles, CopyKey(p, t, w.names[w.copied])) == Lookup(SoFar(p, t, w, start).roles, CopyKey(p, t, w.names[w.copied]))
    ensures w.bound < |w.names| ==>
              Lookup(o.bindings, CopyKey(p, t, w.names[w.bound])) ==
              Lookup(BoundSoFar(p, t, w, start).bindings, CopyKey(p, t, w.names[w.bound]))
  {
    hide CopyRoles, Bind, BoundRoles, CopyKey, Started, Ended, AboutToWrite;
    if w.copied < |w.names| {
      NamesAreCopies(p, t, order, w, start, w.copied);
    }
    if w.bound < |w.names| {
      NamesAreCopies(p, t, order, w, start, w.bound);
    }
  }

  lemma WritingStep(p: Push, t: Task, order: Order, w: Worker, o: Objects, start: Objects)
    requires Situation(p, t, order, w, o, start) && (w.pc.Creating? || w.pc.Updating?)
    ensures var (w', o') := NextStep(p, t, order, w, o);
            Faithful(p, t, order, w', start) && Footprint(p, t, w', o', start) && OnlyOwnKeys(p, t, o, o', start)
  {
    hide CopyRoles, Bind, BoundRoles, CopyKey, CopyBinding, ManagedRules, RulesFilter.Filtered, Ended, Footprint,
      OnlyOwnKeys;
    var role := w.names[w.copied];
    var c := SoFar(p, t, w, start);
    SourceUnchanged(p, t, w, start, role);
    assert Lookup(c.roles, SourceKey(p, role)) == Lookup(start.roles, SourceKey(p, role));
    OwnCopy(p, t, order, w, o, start);
    var last := CopyRole(p, t, w.managed, c.roles, role);
    var (w', o') := NextStep(p, t, order, w, o);
    if w.pc.Creating? && w'.pc.Updating? {
      Unmoved(p, t, w, w', o, start);
    } else if last.error == None {
      Advance(p, t, order, w, o, o'.roles, start);
      assert w.unprojected + [] == w.unprojected;
      assert w' == NextRole(w.(copied := w.copied + 1, unprojected := w.unprojected + last.unprojected));
    } else {
      AbortFaithful(p, t, order, w, start);
      StopKeeps(p, w, last.error.value);
      Unmoved(p, t, w, w', o, start);
    }
  }

  lemma BindingStep(p: Push, t: Task, order: Order, w: Worker, o: Objects, start: Objects)
    requires Situation(p, t, order, w, o, start) && w.pc.Binding?
    ensures var (w', o') := NextStep(p, t, order, w, o);
            Faithful(p, t, order, w', start) && Footprint(p, t, w', o', start) && OnlyOwnKeys(p, t, o, o', start)
  {
    hide CopyRoles, Bind, BoundRoles, CopyKey, CopyBinding, ManagedRules, CopyRules, Footprint, OnlyOwnKeys;
    BoundStep(p, t, w, start);
    BindPrefix(p, t, start.bindings, w.names, w.bound + 1);
    AllCopied(p, t, order, w, start);
    OwnCopy(p, t, order, w, o, start);
    var w' := NextStep(p, t, order, w, o).0;
    if w'.bound == w.bound + 1 {
      StartBindingFaithful(p, t, order, w.(bound := w.bound + 1), start);
      BindingsAdvance(p, t, order, w, o, start);
    } else {
      Unmoved(p, t, w, w', o, start);
    }
  }

  lemma BindingsAdvance(p: Push, t: Task, order: Order, w: Worker, o: Objects, start: Objects)
    requires Situation(p, t, order, w, o, start) && w.pc.Binding?
    requires NextStep(p, t, order, w, o).0.bound == w.bound + 1
    requires Bind(p, t, start.bindings, w.names[..w.bound + 1]).bindings ==
             BoundSoFar(p, t, w, start).bindings[CopyKey(p, t, w.names[w.bound]) := CopyBinding(p, t, w.names[w.bound])]
    ensures var (w', o') := NextStep(p, t, order, w, o);
            && w'.copied <= |w'.names| && w'.bound <= |w'.names|
            && Footprint(p, t, w', o', start) && OnlyOwnKeys(p, t, o, o', start)
  {
    hide CopyRoles, Bind, BoundRoles, CopyKey, CopyBinding, ManagedRules, CopyRules, Started, Ended, AboutToWrite;
    var role := w.names[w.bound];
    NamesAreCopies(p, t, order, w, start, w.bound);
    var (w', o') := NextStep(p, t, order, w, o);
    assert SoFar(p, t, w', start) == SoFar(p, t, w, start);
    forall r | r in Copies(p, t, start)
      ensures Lookup(o'.bindings, CopyKey(p, t, r)) == Lookup(BoundSoFar(p, t, w', start).bindings, CopyKey(p, t, r))
    {
      assert r != role ==> CopyKey(p, t, r) != CopyKey(p, t, role);
    }
  }

  /** Every step keeps the worker on the track of `Solo`, whatever others wrote elsewhere meanwhile. */
  lemma StepKeepsFaithful(p: Push, t: Task, order: Order, w: Worker, o: Objects, start: Objects)
    requires Situation(p, t, order, w, o, start)
    ensures var (w', o') := NextStep(p, t, order, w, o);
            Faithful(p, t, order, w', start) && Footprint(p, t, w', o', start) && OnlyOwnKeys(p, t, o, o', start)
  {
    hide CopyRole, CopyRoles, Bind, BoundRoles, CopyKey;
    match w.pc
    case Listing =>
      assert w.names[..0] == [];
      FirstSteps(p, t, order, w, o, start);
    case Looking =>
      FirstSteps(p, t, order, w, o, start);
    case Reading => ReadingStep(p, t, order, w, o, start);
    case Creating(_) => WritingStep(p, t, order, w, o, start);
    case Updating(_) => WritingStep(p, t, order, w, o, start);
    case Reporting =>
      NothingBound(p, t, w, start);
      StartBindingFaithful(p, t, order, w.(sent := true), start);
    case Binding => BindingStep(p, t, order, w, o, start);
    case Failing(_) =>
    case Finished(_) =>
  }

  lemma FirstSteps(p: Push, t: Task, order: Order, w: Worker, o: Objects, start: Objects)
    requires Situation(p, t, order, w, o, start) && (w.pc.Listing? || w.pc.Looking?)
    ensures var (w', o') := NextStep(p, t, order, w, o);
            Faithful(p, t, order, w', start) && Footprint(p, t, w', o', start) && OnlyOwnKeys(p, t, o, o', start)
  {
    hide CopyRole, Bind, BoundRoles, CopyKey;
    NothingBound(p, t, w, start);
    var (w', o') := NextStep(p, t, order, w, o);
    assert w.names[..0] == w'.names[..0] == [];
    assert BoundSoFar(p, t, w', start) == BoundSoFar(p, t, w, start);
    if w.pc.Looking? && t.faults.managed.NoFault? {
      NextRoleFaithful(p, t, order, w.(managed := ManagedRules(p, t, o.roles)), start);
    }
  }
}
