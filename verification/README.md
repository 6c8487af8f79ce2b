# NamespaceScope operator: a verified model

The operator watches `NamespaceScope` resources. For each of them it copies the Roles that the service
accounts of its own namespace hold into the member namespaces (after filtering them against the rules
the operator itself holds there), publishes the member list in a ConfigMap, asks pods to restart when the
list changes, and removes its copies from namespaces that leave the scope.

The model covers four things.

* **The permission algebra** (`Rbac`, `RulesFilter`). RBAC rules get a meaning as sets of concrete requests;
  the nested loops of `rulesFilter` are proved exact against it.
* **The push** (`Projection`, `Worker`, `SoloRuns`, `AloneRuns`, `FanOut`, `PushPlan`, `PushTheorems`, `PushSafety`,
  `PushGrants`, `StrictPushes`,
  `UnheldGain`, `Channels`, `FanOutTheorems`, `PushInTurn`). One goroutine per member namespace and service account, one API call or channel
  send per step, any interleaving, any API error. The theorems say what every schedule keeps, that every
  schedule ends, and where it ends.
* **Passes and deletions** (`Scope`, `ScopeRuns`, `ScopeCleanup`, `ScopeCoverage`, `ScopeRestarts`, `RuntimeRoles`,
  `ScopeFixpoint`, `Outcomes`, `PassTheorems`, `Controller`).
  The world is the cluster's Roles and RoleBindings, the ConfigMaps, the resources with spec, status and
  deletion mark, and the namespaces. Runs mix completed passes, failed and successful deletions and changes
  by users. `Controller.Reconciler` is the imperative reconciler; for every combination of API answers its methods end
  with exactly the world and the error that `Outcomes` gives, and `Outcomes` ties these to the steps of runs.
* **Lists, names, injection and status** (`Lists`, `Names`, `CsvInjector`, `StatusLog`).

What the model takes as given, in the places named:

* The digest in copied names is a function `hash` of fixed length. That names of different copies differ is
  a premise (`PushPlan.NamesApart`); `PushPlan.DotFreeNamesApart` derives it for dot-free Role names, a
  hexadecimal digest that separates the texts in use and a namespace that does not itself look like a digest, and `Names.DottedNamesCollide` shows why dots spoil it.
* All resources and ConfigMaps live in the operator's namespace, here `home`; it is the source of every push.
* The API server applies each call at once and answers as the stored objects say, or with an error that the
  model chooses freely (`Faults` in a push, `Answers` elsewhere).
* Iteration orders of sets, the order in which the API server lists Roles, and schedules are arbitrary inputs.
* API groups, resources, verbs and names other than `*` are opaque texts.

Places where documentation and code, or expectation and code, differ, each with its exact condition:

* The comment above `rulesFilter` (controllers/namespacescope_controller.go:1281-1288) promises that the result
  never exceeds the managed rules. The code caps only what a wildcard grants. `RulesFilter.CapHoldsIff` says for which
  inputs the promise holds, `RulesFilter.CapFails` gives one where it does not.
* README.md:38 says that the current namespace is always a member. `Scope.OwnNamespaceIff`: it is a validated member iff
  the spec lists it.
* "Every namespace with a labelled object is in the ConfigMap's list" fails once resources are being deleted. A
  successful deletion breaks it iff some labelled object lies in a namespace that neither a survivor claims nor the
  deleted resource had as a member (`ScopeCoverage.DeletionCoversIff`, with an input in `ScopeCoverage.ListLosesPending`).
  A single attempt that fails after it has written the ConfigMap can break it iff some labelled object lies outside the
  claimed namespaces (`ScopeCoverage.FailureCoversIff`, with an input in `ScopeCoverage.FailureLosesCover`). Nothing else breaks it (`ScopeCoverage.CoveredRunIff`). The
  invariant that holds over all runs adds the spec members of resources whose deletion is pending
  (`ScopeRuns.RunKeepsInv`).
* The label value does not identify the ConfigMap: `Names.LabelValueSameIff` says for which names it is shared, and
  `ScopeCleanup.PassTakesOthersIff` and `DeletionTakesOthersIff` that then the objects of the other are cleaned up too.
* An empty member set never compares equal to the stored text, so it asks for a restart in every pass
  (`ScopeRestarts.RestartIff`, `ScopeFixpoint.SecondPassChangesNothingIff`).
* An account can gain in a target what it does not hold at home, because the kind of a reference is ignored:
  `PushSafety.UnheldGainIff`, with an input in `UnheldGain.GainUnheldAtHome`.

`dafny verify dfyconfig.toml --resource-limit 2000000 --verification-time-limit 0` checks the project.

## Model

| member | source | states |
|---|---|---|
| RulesFilter.FilterRules | controllers/namespacescope_controller.go:1289-1351 | the loops compute `Filtered`; the result allows a concrete request iff some source rule allows it with a supported verb and names group and resource literally or the managed rules allow it; `canProject` iff at least one such request exists |
| RulesFilter.FilterExact | controllers/namespacescope_controller.go:1289-1351 | for all sources, managed rules and concrete requests: allowed by the result iff `Projectable`, a meaning stated over requests with no word about lists |
| RulesFilter.FilterSpelledOut | controllers/namespacescope_controller.go:1186-1351 | the same with every term written out: the eight verbs by name, group and resource in the rule itself or the managed rules |
| RulesFilter.StarCapped | controllers/namespacescope_controller.go:1321-1347 | a `*` over API groups is copied for the groups the managed rule names and no other |
| RulesFilter.NeverExceeds | controllers/namespacescope_controller.go:1281-1347 | what the result allows the source allows, and the managed rules allow it unless a source rule names it literally |
| RulesFilter.CapHoldsIff | controllers/namespacescope_controller.go:1281-1319 | the documented cap by the managed rules holds for all requests iff every literal verb, group, resource and name of the source is held by the managed rules, a finite check on the lists |
| RulesFilter.CapFails | controllers/namespacescope_controller.go:1281-1319 | a literal rule is copied although the operator holds nothing |
| RulesFilter.EmittedRule | controllers/namespacescope_controller.go:1321-1347 | a request that an emitted rule admits only through a wildcard is within the managed rules |
| RulesFilter.FilterIdempotent | controllers/namespacescope_controller.go:1267-1347 | filtering the result again allows exactly the same requests |
| RulesFilter.FilterMonotoneInManaged | controllers/namespacescope_controller.go:1321-1347 | managed rules that allow more supported requests never take a permission away |
| RulesFilter.FilterExtensionalInManaged | controllers/namespacescope_controller.go:1321-1347 | managed rules matter only through the supported requests they allow |
| RulesFilter.FilterDistributes | controllers/namespacescope_controller.go:1291-1349 | filtering distributes over concatenation of sources as an equality of rule lists |
| RulesFilter.CanProject | controllers/namespacescope_controller.go:1294-1300 | the result is non-empty iff it allows some concrete request: every emitted rule is satisfiable |
| RulesFilter.NamesMeet | controllers/namespacescope_controller.go:1253-1262 | two name lists clash iff no name matches both, with the empty list matching every name |
| RulesFilter.NormalizeVerbs | controllers/namespacescope_controller.go:1189-1214 | the loop yields, in order and without repetition, the supported verbs that the list matches |
| RulesFilter.NormalizedMeans | controllers/namespacescope_controller.go:1186-1214 | with the eight verbs given by name: a verb comes out, once, iff it is one of them and named or covered by `*` |
| RulesFilter.NormalizedVerbs | controllers/namespacescope_controller.go:1189-1214 | a verb is in the result iff it is supported and named or covered by `*` |
| RulesFilter.SplitWildcard | controllers/namespacescope_controller.go:1217-1228 | the literals in order, and whether `*` occurs |
| RulesFilter.IntersectStrings | controllers/namespacescope_controller.go:1231-1248 | the common entries in the order of the first list, each once |
| RulesFilter.IntersectResourceNames | controllers/namespacescope_controller.go:1253-1262 | the names both lists allow, and whether there are any |
| RulesFilter.IntersectWithWildcard | controllers/namespacescope_controller.go:1267-1279 | the four wildcard cases |
| RulesFilter.MeetMatches | controllers/namespacescope_controller.go:1267-1279 | the intersected list matches a text iff both lists do |
| RulesFilter.BoundWildcards | controllers/namespacescope_controller.go:1325-1347 | the inner loop: one bounded rule per managed rule that meets the source rule |
| RulesFilter.FilterRule | controllers/namespacescope_controller.go:1294-1347 | what one source rule contributes: its explicit part and, with a wildcard, the bounded rules |
| RulesFilter.WildcardMeaning | controllers/namespacescope_controller.go:1321-1347 | the bounded rules allow exactly the supported requests that both the source rule and the managed rules allow |
| Lists.CheckListDifference | controllers/common/util.go:62-74 | false iff the arguments were equal as multisets; sorted in place when the lengths agree, untouched otherwise |
| Lists.SortStrings | controllers/common/util.go:66-67 | in-place sorting leaves the ordered permutation |
| Lists.InOrderEqualIff | controllers/common/util.go:66-72 | the sorted lists agree iff the lists are permutations of each other |
| Lists.InOrderSorts | controllers/common/util.go:66-67 | sorting orders and permutes |
| Lists.ListDifferenceVersusContent | controllers/common/util.go:62-81 | equality as multisets implies equality of contents, and conversely for duplicate-free lists |
| Lists.StringSliceContentEqual | controllers/common/util.go:77-81 | true iff the same elements occur |
| Lists.GetListDifference | controllers/common/util.go:52-60 | the elements of the first list that the second lacks, each once |
| Lists.MakeSet | controllers/common/util.go:36-42 | the elements of the list |
| Lists.ToStringSlice | controllers/common/util.go:44-50 | every element once, in any order |
| Lists.Contains | controllers/common/util.go:91-98 | membership |
| Lists.SplitJoin | controllers/namespacescope_controller.go:391-394 | splitting the joined text gives the comma-free list back |
| Lists.JoinSplit | controllers/namespacescope_controller.go:391-394 | joining the split text gives the text back |
| Lists.JoinedByCommas | controllers/namespacescope_controller.go:391-394 | the published text joins its parts with single commas |
| Lists.FirstNCharacter | controllers/common/util.go:160-165 | the whole text when it fits, otherwise the longest prefix of the first n characters that does not end in `-`, `_` or `.` |
| Lists.TruncatedSameIff | controllers/common/util.go:160-165 | when truncation makes two texts the same, for all pairs: both fit and are equal, or what is kept differs in trailing separators only |
| Names.BeforeDot | controllers/namespacescope_controller.go:864 | the longest prefix of the Role name without a dot |
| Names.ProjectedNameCollides | controllers/namespacescope_controller.go:863-864 | two copies share a name iff their dot-free prefixes and the joined texts of Role and account agree |
| Names.ProjectedNameInjective | controllers/namespacescope_controller.go:863-864 | without dots the name determines Role and account |
| Names.DottedNamesCollide | controllers/namespacescope_controller.go:863-864 | two different pairs with dotted Role names collide under every digest |
| Names.LabelValueSameIff | controllers/namespacescope_controller.go:659-665 | exactly when two ConfigMaps share their label value, for all names: equal while both fit, one the cut of the other, or the same up to trailing separators of the 63 characters kept |
| Names.LabelValueInjective | controllers/namespacescope_controller.go:659-665 | label values that fit are as distinct as the ConfigMaps |
| Names.LongLabelsCollide | controllers/namespacescope_controller.go:659-665 | ConfigMaps that agree on 63 characters share their label value |
| Names.TrimmedLabelsCollide | controllers/namespacescope_controller.go:659-665 | so do ConfigMaps that differ at character 63 in a separator |
| Names.MixedLabelsCollide | controllers/namespacescope_controller.go:659-665 | so can a ConfigMap whose text fits and one whose text does not |
| Projection.Cluster.GetRolesFromServiceAccount | controllers/namespacescope_controller.go:804-825 | a name is returned, once, iff some binding of the namespace has the service account anywhere among its subjects and refers to that name |
| Projection.Cluster.CopyOne | controllers/namespacescope_controller.go:848-906 | one Role: skipped with a report, stopped with an error, or created or updated with its filtered rules |
| Projection.Cluster.CreateRole | controllers/namespacescope_controller.go:827-909 | the loop over all Roles, with every error path; the cap is the rules of `nss-managed-role-from-` + source namespace in the target, and empty without that Role |
| Projection.Cluster.CreateRoleBinding | controllers/namespacescope_controller.go:924-960 | bindings in order up to the first that exists or fails |
| Projection.SubsetPartition | controllers/namespacescope_controller.go:843-909 | with subset projection there is no error and each Role is either written with exactly its filtered rules or reported exactly once |
| Projection.ReportsExactly | controllers/namespacescope_controller.go:843-909 | with subset projection the reason reported for a Role tells exactly which call failed, or that the Role is missing or nothing of it passes the filter |
| Projection.StrictPrefix | controllers/namespacescope_controller.go:843-909 | without it nothing is reported and exactly the found Roles of a prefix are written, of the whole list iff there is no error; the error is that of the first call to fail or the filter's refusal |
| Projection.BindExactly | controllers/namespacescope_controller.go:924-960 | exactly the bindings of a prefix are made; at its end a binding exists already, which ends the loop without an error, or a call fails |
| Projection.CopyRolesFrame | controllers/namespacescope_controller.go:843-909 | nothing but the copies changes |
| Worker.StepKeepsFaithful | controllers/namespacescope_controller.go:674-716 | every API call of a goroutine, among any writes elsewhere, keeps it on the track of its body run alone, and touches its own copies only |
| Worker.SoloFailure | controllers/namespacescope_controller.go:674-717 | strict projection ends a goroutine with the first error it meets, Forbidden too; subset projection drops Forbidden unless it answers the lookup of the bindings; without failure under strict projection every lookup was answered and both creations went through |
| SoloRuns.SoloAgrees | controllers/namespacescope_controller.go:674-716 | a goroutine depends on the sources and its own copies only |
| AloneRuns.AloneSteps | controllers/namespacescope_controller.go:674-716 | a goroutine nobody interrupts stays on the track of its body whatever the names are |
| AloneRuns.AloneEnds | controllers/namespacescope_controller.go:674-716 | at its end it leaves the store, reports and error of its body |
| SoloRuns.FaultlessCopies | controllers/namespacescope_controller.go:843-909 | without API errors every copyable Role has its copy and the others are reported once with their reason |
| SoloRuns.FaultlessBindings | controllers/namespacescope_controller.go:924-960 | with no binding in the way every Role gets its binding |
| SoloRuns.BindExisting | controllers/namespacescope_controller.go:949-953 | existing bindings are left as they are |
| SoloRuns.StrictReportsNothing | controllers/namespacescope_controller.go:843-909 | nothing is reported while subset projection is off |
| FanOut.ApplyKeepsTracked | controllers/namespacescope_controller.go:418-465 | the invariant of the fan-out: after any step every worker is on its own track and nothing but copies has changed |
| FanOut.ExecuteTracked | controllers/namespacescope_controller.go:418-465 | the same over every prefix of every schedule |
| PushPlan.PlanIsShaped | controllers/namespacescope_controller.go:431-434 | no channel is narrower than the number of its senders |
| PushPlan.PlanIsSeparated | controllers/namespacescope_controller.go:434-447 | duplicate-free members and accounts with distinct names give every worker copies of its own, outside the source namespace |
| PushPlan.PlanIsAttributed | controllers/namespacescope_controller.go:434-447 | with distinct names every copy tells its account and Role, members repeated or not |
| PushPlan.PlanIsAbroad | controllers/namespacescope_controller.go:435-437 | no goroutine works on the operator's own namespace |
| PushPlan.TaskListHas | controllers/namespacescope_controller.go:434-447 | every target and account has a goroutine |
| PushPlan.DotFreeNamesApart | controllers/namespacescope_controller.go:863-864 | dot-free names and a separating hexadecimal digest keep copies apart from each other, and from the managed Role unless the operator's namespace is a digest or ends in one |
| PushTheorems.SchedulesAgree | controllers/namespacescope_controller.go:431-461 | any two complete schedules end in the same Roles and RoleBindings, API errors included |
| PushTheorems.InterleavingIsSequential | controllers/namespacescope_controller.go:431-461 | that end is the one of running the goroutines one after another |
| PushTheorems.OrdersAgree | controllers/namespacescope_controller.go:674-716 | in a smooth push the iteration orders of the Role sets do not matter either |
| PushTheorems.SmoothPush | controllers/namespacescope_controller.go:658-739 | a smooth push leaves exactly one copy per copyable Role, one binding per bound name, and everything else as it was |
| PushSafety.GainsAreSourced | controllers/namespacescope_controller.go:804-960 | at every prefix of every push into clean targets, members repeated or not, a request an account gains comes from a Role bound to it at home, filtered |
| PushGrants.GainsAreHandedOn | controllers/namespacescope_controller.go:804-960 | told from the stored objects: at every prefix a request an account gains in a target is allowed with one of the eight verbs by a rule of a Role that a binding at home gives it, and named by that rule or allowed by `nss-managed-role-from-` + home in that target |
| PushGrants.PushGrantsExactly | controllers/namespacescope_controller.go:418-461 | after a complete smooth push over duplicate-free members and accounts: an account may make a request iff it could before, or the namespace is a member other than home, the account is one of the push and the request is handed on in that sense |
| PushGrants.SourcedIffHandedOn | controllers/namespacescope_controller.go:804-909 | what the filter projects for a goroutine is what the bindings, the source Role and the operator's Role in the target hand on |
| PushSafety.ExecuteGenuine | controllers/namespacescope_controller.go:431-461 | over every schedule, members repeated or not, every copy is as it was or exactly its filtered source, a binding changes only where there was none, and nothing else changes |
| PushSafety.GainsAreHeldAtHome | controllers/namespacescope_controller.go:804-960 | at every prefix, members repeated or not: when all references of the account are Roles it could already make such a request at home |
| PushSafety.UnheldGainIff | controllers/namespacescope_controller.go:804-960 | after a complete smooth push an account gains a request it does not hold at home iff a Role projects it that the account is given only under another kind of reference |
| UnheldGain.GainUnheldAtHome | controllers/namespacescope_controller.go:816-821 | a push that gives an account, bound only to a ClusterRole, a request it could make neither in the target nor at home |
| PushSafety.GainsExactly | controllers/namespacescope_controller.go:804-960 | after a complete smooth push an account may make a request iff it could before or a bound Role projects it |
| PushSafety.SettledStays | controllers/namespacescope_controller.go:880-892 | where all copies and bindings are in place no step of any schedule changes anything, members repeated or not |
| PushSafety.PushTwice | controllers/namespacescope_controller.go:658-739 | pushing again, under any schedule and orders, changes nothing |
| Channels.SendOnce | controllers/namespacescope_controller.go:674-716 | a step sends on a channel at most once in the life of a goroutine, whatever it has read |
| Channels.ExecuteOrderly | controllers/namespacescope_controller.go:667-732 | over every schedule, whatever the names and the answers, the channels hold exactly what their senders sent |
| FanOutTheorems.NeverStuck | controllers/namespacescope_controller.go:431-461 | whatever the names and the answers no send ever blocks: an unfinished worker, and a namespace whose workers are done, can move |
| FanOutTheorems.EveryScheduleEnds | controllers/namespacescope_controller.go:431-461 | whatever the members, the names and the answers, schedules are bounded, and one that cannot be continued has passed both waits |
| FanOutTheorems.EveryPushEnds | controllers/namespacescope_controller.go:418-461 | so for every push the operator starts |
| FanOutTheorems.CollectedFromWorkers | controllers/namespacescope_controller.go:458-473 | whatever the names and the answers the returned entries are, as a multiset, what the workers sent; an error is returned iff projection is strict and some worker failed |
| FanOutTheorems.CollectedExactly | controllers/namespacescope_controller.go:458-473 | with names apart these are the reports and failures of the workers run alone, under every schedule |
| StrictPushes.StrictSolo | controllers/namespacescope_controller.go:674-717 | a strict goroutine that ends without failure has copied every Role it found and, with no binding in its way, made every binding |
| StrictPushes.StrictPushArrives | controllers/namespacescope_controller.go:418-473 | whatever the answers and the schedule: if a strict push returns no error every found Role bound to an account of the push has its copy in every target, with exactly what is kept of it, and its binding where none was in the way |
| StrictPushes.StrictPushGrants | controllers/namespacescope_controller.go:418-473 | so the account may afterwards make every request that is handed on |
| StrictPushes.StrictTurnsArrive | controllers/namespacescope_controller.go:418-473 | the same for goroutines in turn, with members repeated or not |
| PushInTurn.TurnsAreASchedule | controllers/namespacescope_controller.go:431-461 | whatever the names and the answers, running the goroutines in turn is one of the schedules, with the same objects, reports and error condition |
| Scope.Validated | controllers/namespacescope_controller.go:1353-1384 | the members that are the operator's namespace, or active, or cannot be looked up for lack of permission |
| Scope.OwnNamespaceIff | controllers/namespacescope_controller.go:1353-1384 | the operator's own namespace is a validated member iff the spec lists it |
| ScopeRuns.MapStepLists | controllers/namespacescope_controller.go:354-416 | after the update the ConfigMap lists exactly the namespaces claimed by surviving resources, other ConfigMaps as before |
| ScopeRuns.MapPublishes | controllers/namespacescope_controller.go:354-416 | told from the resources: the ConfigMap named in the spec, or `namespace-scope` when none is named, holds the status members of all resources that publish under that name and are not being deleted, and no others; the resource becomes an owner and none is dropped |
| ScopeRuns.PassKeepsInv | controllers/namespacescope_controller.go:233-290 | a completed pass keeps every labelled object findable |
| ScopeRuns.AttemptFailsKeepsInv | controllers/namespacescope_controller.go:176-194 | so does a deletion attempt that fails anywhere |
| ScopeRuns.AttemptSucceedsKeepsInv | controllers/namespacescope_controller.go:176-194 | so does one that removes the finalizer |
| ScopeRuns.RunKeepsInv | controllers/namespacescope_controller.go:166-294 | over every run every labelled object lies in a listed namespace or in a spec member of a resource pending deletion, and every listed namespace is claimed or pending |
| ScopeRuns.ListFindsAll | controllers/namespacescope_controller.go:495-548 | over every run, while nothing on a ConfigMap is being deleted its list covers all objects labelled for it |
| ScopeCoverage.CoveredRunIff | controllers/namespacescope_controller.go:166-294 | over every run from the start the list covers all labelled objects all the time iff no deletion step, failed or successful, drops a namespace with objects left |
| ScopeCoverage.StepCoversIff | controllers/namespacescope_controller.go:166-294 | the same for one step of any kind: passes and outside changes never lose coverage |
| ScopeCoverage.PassCoversIff | controllers/namespacescope_controller.go:233-268 | after a pass the list covers everything iff before it every labelled object was in a namespace listed, or claimed after the refresh |
| ScopeCoverage.DeletionCoversIff | controllers/namespacescope_controller.go:176-194 | after a successful deletion iff every labelled object was in a namespace that a survivor claims or the deleted resource had as a member |
| ScopeCoverage.FailureCoversIff | controllers/namespacescope_controller.go:180-186 | all ways of failing after the ConfigMap write keep it covering everything iff every labelled object was in a claimed namespace |
| ScopeCoverage.StoppedCoversIff | controllers/namespacescope_controller.go:180-186 | one such failure does iff every labelled object from before, outside the claimed namespaces, is gone |
| ScopeCoverage.SweptSoFarCoversIff | controllers/namespacescope_controller.go:180-186 | read before the attempt, given how far it gets: iff every labelled Role and binding is in a claimed namespace or in one swept of its kind |
| ScopeCoverage.FailureLosesCover | controllers/namespacescope_controller.go:180-186 | one deletion, one failed attempt: the list covered everything before and does not afterwards |
| ScopeRuns.PassLeavesNoStray | controllers/namespacescope_controller.go:495-548 | after a pass of a run labelled objects remain only where a resource claims the namespace or its cleanup is pending |
| ScopeCleanup.DeletionLeavesNothing | controllers/namespacescope_controller.go:551-589 | when the finalizer goes, no labelled object is left in an unclaimed spec member |
| ScopeCleanup.AttemptsSpare | controllers/namespacescope_controller.go:176-194 | any number of failed attempts change labelled objects of abandoned members only |
| ScopeCleanup.RetriedDeletion | controllers/namespacescope_controller.go:176-194 | failed attempts and the final one together: abandoned members end clean, everything else is untouched |
| ScopeCleanup.PassCleansIff | controllers/namespacescope_controller.go:495-548 | a pass removes a labelled object iff its namespace was listed and is no longer claimed; what is neither listed nor claimed is never removed |
| ScopeCleanup.PassTakesOthersIff | controllers/namespacescope_controller.go:495-548 | a pass removes an object labelled for another ConfigMap iff it lies in a namespace the pass drops and the label values of the two coincide |
| ScopeCleanup.DeletionTakesOthersIff | controllers/namespacescope_controller.go:551-589 | a deletion does iff it lies in an abandoned member and the label values coincide |
| ScopeCoverage.ListLosesPending | controllers/namespacescope_controller.go:180-186 | two deletions on one ConfigMap: the list loses a namespace whose cleanup is still to come |
| ScopeRestarts.RestartIff | controllers/namespacescope_controller.go:391-394 | with a readable ConfigMap present, its list empty or not, a restart is asked for iff the member set is empty or differs from the list |
| ScopeRestarts.EmptyAlwaysRestarts | controllers/namespacescope_controller.go:391-394 | the empty member set always counts as changed |
| ScopeRestarts.MapStepRestarts | controllers/namespacescope_controller.go:354-416 | one update adds one restart iff it creates the ConfigMap, changes its list or publishes nobody, and its text can be read back |
| ScopeRestarts.RunRestarts | controllers/namespacescope_controller.go:354-416 | over every run every published list can be read back, and the restarts counted in the world are exactly the steps that create a ConfigMap, change a list or publish nobody |
| ScopeRestarts.RestartsAreChanges | controllers/namespacescope_controller.go:354-416 | over every run with non-empty lists the restarts are exactly the ConfigMap creations and the real membership changes |
| RuntimeRoles.RuntimeExactly | controllers/namespacescope_controller.go:275-289 | exactly the member namespaces with labelled Roles get a runtime Role; nothing else changes |
| RuntimeRoles.RuntimeRoleAllows | controllers/namespacescope_controller.go:275-283 | a runtime Role allows exactly what the labelled Roles outside the name pattern allow |
| RuntimeRoles.RuntimeRoleInRun | controllers/namespacescope_controller.go:270-290 | at the end of every pass of every run: the same at that moment, and the runtime Role is not among its own sources |
| RuntimeRoles.RuntimeAllowsCopies | controllers/namespacescope_controller.go:270-282 | at the end of every pass of every run the runtime Role of a member allows what any labelled copy there allows, unless the copied Role's name begins like the operator's own |
| RuntimeRoles.RuntimeAllowsOnly | controllers/namespacescope_controller.go:270-282 | and nothing else: what it allows some labelled Role of that namespace allows whose name does not begin with the two prefixes |
| RuntimeRoles.CopyExcludedIff | controllers/namespacescope_controller.go:270-282 | the exclusion pattern passes over a copy iff its Role's own name begins with one of the two prefixes, for every hexadecimal digest |
| RuntimeRoles.RunKeepsRuntimeClean | controllers/namespacescope_controller.go:614-656 | over every run no runtime Role carries the label |
| RuntimeRoles.PatternMissesRuntimeRole | controllers/namespacescope_controller.go:270-274 | the name pattern does not match a runtime Role, so only the missing label keeps it out |
| RuntimeRoles.RuntimeTwice | controllers/namespacescope_controller.go:275-289 | summarizing again changes nothing |
| RuntimeRoles.RuntimeNamesApart | controllers/constant/constants.go:30 | copies never have a runtime Role's name unless the operator's namespace is a digest or ends in one |
| Names.PrefixedEndsInDigest | controllers/constant/constants.go:20-30 | a managed or runtime Role's name looks like a copy's iff the namespace is a digest or ends in one |
| ScopeFixpoint.PassAgreesForPush | controllers/namespacescope_controller.go:233-290 | cleanup and runtime Roles leave alone what the push read and wrote |
| ScopeFixpoint.SecondPassChangesNothingIff | controllers/namespacescope_controller.go:233-290 | a second pass over unchanged inputs leaves the whole world as it is iff some namespace is claimed, and the Roles and RoleBindings in any case |
| Controller.Reconciler.GetAllValidatedNamespaceMembers | controllers/namespacescope_controller.go:1146-1164 | the status members of all surviving resources on the ConfigMap, each once |
| Controller.Reconciler.GetValidatedNamespaces | controllers/namespacescope_controller.go:1353-1384 | the loop over the members: all validated ones or the first error; a member is kept iff it is the operator's namespace, may not be looked up, or exists and is not terminating |
| Controller.Reconciler.Refresh | controllers/namespacescope_controller.go:297-327 | finalizer and status: exact error and state; without error the status holds exactly the members that are the operator's namespace, may not be looked up, or exist and are not terminating |
| Controller.Reconciler.UpdateConfigMap | controllers/namespacescope_controller.go:354-416 | creation, update or no change exactly as `MapStep` says, or nothing when an error comes before the write; which error is fixed by the answers |
| Controller.Reconciler.RewriteMap | controllers/namespacescope_controller.go:388-415 | the same for a ConfigMap that exists, with the in-place sorting of the member list on the way |
| Controller.Reconciler.DeleteRbac | controllers/namespacescope_controller.go:529-547 | the deletion loop over any targets: a Forbidden answer passes on to the next namespace, any other failure ends it; it ends without error iff every deletion it makes is answered or Forbidden, and then exactly what was deletable is gone |
| Outcomes.SweepExactly | controllers/namespacescope_controller.go:529-547 | in whatever order the targets come: no error iff each failing deletion is Forbidden, otherwise the error is one of the failing answers and never Forbidden; then exactly the bindings and Roles whose deletion was answered are gone; nothing outside changes |
| Outcomes.SweepShape | controllers/namespacescope_controller.go:529-547 | wherever it stops, it has swept the Roles of some targets and the bindings of at least these |
| Controller.Reconciler.DeleteRbacFromUnmanagedNamespace | controllers/namespacescope_controller.go:495-549 | sweeps exactly the namespaces listed but no longer claimed, with its exact errors |
| Controller.Reconciler.DeleteAllRbac | controllers/namespacescope_controller.go:552-589 | sweeps exactly the abandoned spec members, with its exact errors |
| Controller.Reconciler.ProjectAccount | controllers/namespacescope_controller.go:674-716 | the body of a goroutine: the exact store, reports and error of `Solo`; strict and without failure means that all lookups and both creations went through, and under subset projection a Forbidden failure can only come from the lookup of the bindings |
| Controller.Reconciler.GenerateRBACToNamespace | controllers/namespacescope_controller.go:658-739 | all accounts of one namespace in turn, reports and first error collected |
| Controller.Reconciler.PushRbacToNamespace | controllers/namespacescope_controller.go:418-479 | all namespaces in turn; the strict-projection error condition; with names apart, a strict push without error has a copy of every found Role of every account in every target |
| Controller.Reconciler.GetRolesFromNamespace | controllers/namespacescope_controller.go:741-765 | the Roles of the namespace that carry the label |
| Controller.Reconciler.CreateRuntimeRole | controllers/namespacescope_controller.go:591-656 | creates or replaces the unlabelled runtime Role, nothing in the operator's namespace, with its exact errors |
| Controller.Reconciler.WriteRuntimeRoles | controllers/namespacescope_controller.go:275-290 | the loop over the members: exact Roles and error for all answers |
| Outcomes.RuntimeClear | controllers/namespacescope_controller.go:275-290 | without answers passed over, an end without error is `WithRuntime` |
| Outcomes.RuntimeEndsExactly | controllers/namespacescope_controller.go:275-290 | for all answers: an error is the answer to a call for some member with labelled Roles, Forbidden on creation only under strict projection; without error every such member has its runtime Role, or its creation was Forbidden and subset projection is on |
| Outcomes.RuntimeWritesOnly | controllers/namespacescope_controller.go:275-290 | whatever fails, only unlabelled runtime Roles of members are written |
| Controller.Reconciler.Finalize | controllers/namespacescope_controller.go:176-194 | exact world and error; it succeeds iff the calls it makes are answered or passed over; a failed attempt or, with nothing passed over, a successful one |
| Outcomes.DeletionEndsExactly | controllers/namespacescope_controller.go:176-194 | when the finalizer goes, as a condition on the answers, and exactly what is left then, Forbidden answers and all |
| Outcomes.DeletionIsAnAttempt | controllers/namespacescope_controller.go:176-194 | every end of the deletion branch is one of the attempts that runs are made of |
| Controller.Reconciler.Reconcile | controllers/namespacescope_controller.go:166-294 | exact world and outcome for all answers; completed iff the calls it makes are answered or passed over, with all calls answered iff the push does not fail; then a pass or deletion of the runs; the objects of the operator's own namespace never change |
| Controller.Reconciler.Pass | controllers/namespacescope_controller.go:196-294 | the branch for a live resource: exact world and error |
| Outcomes.PassEndsExactly | controllers/namespacescope_controller.go:196-294 | when a pass completes, as a condition on the answers and the world before it, and exactly what it leaves then, Forbidden answers and all |
| Outcomes.RefreshAnsweredIff | controllers/namespacescope_controller.go:297-327 | the refresh succeeds iff the finalizer, the operator's namespace, every member that may be looked up and, if it changes, the status are answered |
| Outcomes.MapAnsweredIff | controllers/namespacescope_controller.go:354-416 | the ConfigMap update succeeds iff its two reads, a write when the list differs or the owner is missing, and a restart when the list differs are answered |
| PassTheorems.StrictPassCopies | controllers/namespacescope_controller.go:196-294 | when a pass of a strict resource ends without error, every Role found at home that a binding gives to an account has its labelled copy in every surviving member |
| PassTheorems.PassErrorIsAnAnswer | controllers/namespacescope_controller.go:196-294 | a pass fails with the answer to one of its calls, never with a Forbidden deletion nor, with subset projection, a Forbidden runtime Role, or with the error of a strict goroutine |
| PassTheorems.DeletionErrorIsAnAnswer | controllers/namespacescope_controller.go:176-194 | the deletion branch fails with the answer to one of its calls and never with a Forbidden deletion |
| Outcomes.AnsweredPassSucceedsIff | controllers/namespacescope_controller.go:196-294 | with all calls answered a pass fails iff projection is strict and some goroutine fails |
| Outcomes.InTurnIsAPass | controllers/namespacescope_controller.go:166-294 | a completed reconciliation with nothing passed over is one of the passes that runs are made of, whatever the names |
| CsvInjector.InjectEnv | controllers/namespacescope_controller.go:1479-1511 | the loop over the environment of one container: WATCH_NAMESPACE entries, at least one, all take key `namespaces` of the ConfigMap, and the other entries stay in order |
| CsvInjector.Deployment.Inject | controllers/namespacescope_controller.go:1468-1514 | all containers and the labels of one deployment, updated in place: every container is kept under its name, watches the published list only, and keeps its other entries in order |
| CsvInjector.PatchCsv | controllers/namespacescope_controller.go:1463-1525 | the same for all deployments; a patch is sent iff one of them changed |
| CsvInjector.InjectedPoints | controllers/namespacescope_controller.go:1493-1510 | every container has a WATCH_NAMESPACE and all of them point at the ConfigMap's `namespaces` key |
| CsvInjector.OthersKept | controllers/namespacescope_controller.go:1493-1510 | all other entries stay, in their order |
| CsvInjector.TemplateRedirects | controllers/namespacescope_controller.go:1478-1511 | over a whole pod template: as many containers, the same names, each watching the published list and otherwise unchanged |
| CsvInjector.UnchangedIff | controllers/namespacescope_controller.go:1493-1510 | nothing changes iff the container already watches, and only where it should |
| CsvInjector.NoSecondPatch | controllers/namespacescope_controller.go:1468-1520 | injecting again changes nothing, so the operator's own patch causes no other |
| CsvInjector.LabelsArriveIff | controllers/namespacescope_controller.go:1470-1476 | the restart labels reach the deployment iff its label map is not nil or there are none to add |
| StatusLog.Instance.RecordOperationTimingAndStatus | controllers/namespacescope_controller.go:118-164 | one record: the phase, the entry in front of at most five timings, the error text or the success in front of at most three messages; nothing when a call fails |
| StatusLog.LogsAreNewest | controllers/namespacescope_controller.go:130-158 | over every run of records the bounded logs are the newest five and three entries of the complete logs |
| StatusLog.PhaseIsNewest | controllers/namespacescope_controller.go:118-164 | over every run of records the phase is that of the newest one whose calls succeeded |

## Left out

- Controller.Reconciler.Reconcile: passes that end with an error, or with an answer passed over, have their exact world here but are no steps of the runs. A pass that fails between the push and the ConfigMap update can leave labelled objects in a namespace that is not listed yet, which `ScopeCleanup.PassCleansIff` shows no later pass removes once nobody claims it.
- Controller.Reconciler.PushRbacToNamespace: runs the goroutines in turn. Other interleavings are covered on values by `FanOut` and the theorems about it.
- PushGrants.PushGrantsExactly: needs duplicate-free members, as `PushTheorems` does; of two goroutines for the same target and account one may stop at a binding that the other has made, so which bindings a repeated member gets depends on the schedule. `PushGrants.GainsAreHandedOn` holds with repetitions too.
- Controller.Reconciler.Pass: the list of unprojected Roles in the status is not part of the world; the step that updates it (`UpdateUnprojected`) is one answer that can end the pass.
- Controller.Reconciler.RewriteMap: a ConfigMap made by others whose data is nil, where writing the list would panic, cannot be expressed; its text is then the empty one.
- Controller.Reconciler.Refresh: resources with the helm label, which get no finalizer, are not modelled.
- ScopeRuns.RunKeepsInv: assumes that users do not change `configmapName` of an existing resource, do not edit the operator's ConfigMaps or hand out its label, do not edit the spec of a resource already being deleted, and begin deletions while the status members are spec members; the garbage collection of a ConfigMap through its owner references is not modelled.
- ScopeFixpoint.SecondPassChangesNothingIff: needs the conditions of `Quiet`. A push into targets where some of the bindings exist already may miss later bindings, because `CreateRoleBinding` stops at the first existing one.
- RuntimeRoles.RuntimeRoleInRun: runtime Roles are never deleted by the operator, so an old one may outlive its sources; only the moment of writing is described.
- Lists.SortStrings: stands for the library sort; the array is filled with the ordered permutation.
- CsvInjector.InjectEnv: asks that WATCH_NAMESPACE entries have a `ValueFrom`, which the code follows without a check.
- Resources of the form `*/subresource` and rules for non-resource URLs.
- Copies whose source Role vanished or stopped being projectable: the operator does not remove them while the namespace stays in scope.
- The lookup of service accounts through pods and the resource's own list; the accounts are an input.
- Which pods, Deployments, DaemonSets and StatefulSets a restart touches; the model counts the requests for a restart.
- The licence check, events, logging and message texts.
- Webhook patching, the search for ClusterServiceVersions and their annotations, the mapping of watched objects to requests.
- Clients, caches, watches, leader election and the operator's start-up.
- Byte lengths: texts are sequences of characters, one byte each for the names Kubernetes admits.
- SHA-256, its hexadecimal form and clocks: opaque functions and values.
