# Verification of the member operator's reconcilers

This project models four parts of the member operator and proves properties of them for all inputs, all runs and all
failures of API calls:

- **NSTemplateSet controller** (`controllers/nstemplateset`): drives a space towards its spec in three phases
  (cluster-scoped objects in one pass, one namespace action per reconcile, one namespace's space roles per reconcile)
  and tears it down behind a finalizer.
- **Idler** (`controllers/idler`): idles the owners of pods that ran too long, escalates, and decides when to run again.
- **UserAccount controller** (`controllers/useraccount`): keeps one User and its Identities mutually mapped, and
  deletes them in order.
- **VirtualMachine webhook** (`pkg/webhook/mutatingwebhook`): reads a JSON tree and answers with a JSON Patch.

## How it is built

Reconcilers are step machines over a store. Every API call has a number within its reconcile, and an oracle says what
becomes of it: done, refused without effect, or done while the caller sees an error. A function from state to state
specifies each operation; a class whose methods change fields in place, with the loops and early returns of the program,
is proved to do exactly what that function says (`Controller`, `IdlerController`, `UserAccountController`; the webhook's
methods are in `VmMutator`). The theorems are about the functions, so they hold of the methods.
The modules named `...Laws` state what comes of it on the data itself (templates, labels, users, fields, numbers), so
that no result rests on a definition that only refers to itself.

| files | content |
|---|---|
| Names, Cluster, Applying, Statuses, ClusterResources, Namespaces, SpaceRoles, Reconciler | the store, the API calls and the specification of the NSTemplateSet controller, source file by source file |
| Controller | the same controller as classes |
| Passes, ClusterPasses, NamespacePasses, RolePasses, DeletionPasses | what each phase does to the store when it may stop after any call |
| ClusterRecovery, Provisioned, ReadyReports, CommitMarker, ClusterRuns, QuotaRuns, DeletionRuns, RoleRuns, RoleHistory | crash recovery and safety over runs |
| Convergence, ConvergenceRuns, FailingRounds, Fixpoint | the measure, that the space gets to its spec, also after failures, and that it then rests |
| Plain, ClusterLaws, NamespaceLaws, RoleLaws, ReconcileLaws, FailureLaws | the results of a reconcile in the words of templates, labels, users, features and conditions, without the controller's own functions |
| Scenes, RefreshLoss, DisputedAccount | states in which two expected properties fail |
| Isolation, IsolationRuns | reconciles of two spaces do not affect each other |
| StatusComparison | the comparisons by sorting |
| Idling, IdlerController, IdlerRuns, IdlerLaws | the idler; IdlerLaws says in numbers and owner kinds what it does |
| UserAccounts, UserAccountController, UserAccountRuns, UserAccountTeardown, UserAccountLaws | the UserAccount controller; UserAccountLaws says in names, UIDs and labels what it leaves |
| Json, VmMutator, VmPatches, VmLaws | lookups and JSON Patch (RFC 6902, sections 4.1 and 4.3, with pointers of RFC 6901), the webhook, its theorems; VmLaws says in fields of the machine what is answered and patched |

## What turned out false, and what holds instead

- Applying the cluster resources can delete an object it has just applied: only the first current object of the same kind
  and name is taken off the deletion list. An applied object survives its pass iff the old template does not list its kind
  and name more often than the new one (`ClusterRecovery.SurvivesIff`).
- "The idler always asks to run again" holds iff 240 <= timeout < 2^31 - 1 (`IdlerRuns.RunsAgainIff`): below, 5% of a
  virtual machine's timeout truncates to 0; at the maximum `timeoutSeconds+1` overflows int32.
- A kill that reports success need not have idled anything: a failure is hidden iff the first API error of the attempts
  on the owners is NotFound (`IdlerRuns.HiddenFailureIff`), as when the first owner is gone and idling the second one is
  refused (`IdlerRuns.MissingOwnerHidesFailure`).
- `setLabelsAndAnnotations` reports a change for every User, changed or not (`UserAccountController.Reconciler.SetLabelsAndAnnotations`).
- Nil and empty template references are the same to the cluster-resources pass but not to the status
  (`Statuses.StatusUpdateWithoutObjectChange`).
- Comparing space roles does not always ignore their order: it does iff entries with equal references have equal users
  (`StatusComparison.OrderIgnoredIff`, with `StatusComparison.RepeatedRefs` for a failing spec and status).
- A ready space does not rest at once: the second Ready reconcile relabels a ServiceAccount of a role iff the first one
  created it and the template sets a label of the operator to another value (`Fixpoint.SecondRoundIff`, with
  `DisputedAccount.SecondRoundRelabels` for spaces where it happens); from the third one on nothing changes
  (`Fixpoint.ReadyIsFixpoint`).
- The webhook, if SSH keys are configured, allows a machine without adding them iff its volumes are objects with a
  cloud-init volume among them, but none with a known config
  (`VmPatches.LetThroughWithoutKeys`, with `VmPatches.MachineWithoutKeys` for such machines), although its comment says
  that a request whose cloud-init config cannot be set is blocked.
- If applying an existing object replaces its annotations, refreshing a namespace forgets which space roles it has.
  That strands a role object iff one is alive that only the recorded roles generate
  (`RoleHistory.RefreshKeepsRolesIff`; `RefreshLoss.RefreshStrands` gives a family of states where it happens).
  `Env.keepNotes` says which of the two the library does; only the theorem about role history depends on it.

## Model

| member | source | states |
|---|---|---|
| Controller.Client.ApiGroupIsPresent | controllers/nstemplateset/client.go:80-91 | true iff some served group has the name and lists the version |
| Controller.Client.ApplyToolchainObjects | controllers/nstemplateset/client.go:28-78 | applies the objects in order up to the first failing call, skipping optional ones whose API group is missing, merging into an existing ServiceAccount; reports an application exactly if one went through, also when a later call fails |
| Controller.Client.DeleteObsoleteObjects | controllers/nstemplateset/nstemplateset_controller.go:243-263 | deletes, in order up to the first failure, the current objects that no new object matches by kind and name; missing ones are fine |
| Controller.Client.SetReady | controllers/nstemplateset/status.go:50-58 | writes the condition unless it is already there |
| Controller.Client.SetProvisioningIfNotUpdating | controllers/nstemplateset/status.go:181-194 | leaves an Updating condition alone |
| Controller.Client.SetUpdatingIfNotProvisioning | controllers/nstemplateset/status.go:255-268 | leaves a Provisioning condition alone |
| Controller.Client.UpdateClusterRevision | controllers/nstemplateset/status.go:95-106 | writes the status exactly when the feature sets or the cluster templates differ, with the annotation sorted and compacted |
| Controller.Client.FeatureAnnotationNeedsUpdate | controllers/nstemplateset/status.go:109-131 | sorting, compacting and two scans decide inequality of the two feature sets, and list those of the annotation once each in order |
| Names.CompactIsSortedNames | controllers/nstemplateset/status.go:112-114 | dropping adjacent repeats of the sorted list gives the set in order, without duplicates |
| Names.LeqIsLexicographic | controllers/nstemplateset/namespaces.go:291-294 | names are ordered by the first difference, a prefix before what it starts |
| Statuses.FeatureDrift | controllers/nstemplateset/status.go:109-140 | "changed" is inequality of the two feature sets, although found by scans over a compacted and a raw list; a change for the objects implies one for the status; after the update neither test reports a change |
| Statuses.StatusUpdateWithoutObjectChange | controllers/nstemplateset/cluster_resources.go:62-73 | with equal features, the status alone sees a change iff one reference is nil and the other empty |
| Controller.Client.ProcessRef | controllers/nstemplateset/cluster_resources.go:75-95 | the objects of a reference, none for a missing or empty one, an error if it cannot be fetched or processed |
| Controller.Client.EnsureClusterResources | controllers/nstemplateset/cluster_resources.go:29-60 | the whole pass with its failure conditions: apply the new objects one by one, then clean up |
| Controller.ObjectApplier.ChangeStatusIfNeeded | controllers/nstemplateset/cluster_resources.go:193-207 | Provisioning on first deployment, Updating otherwise, at most once |
| Controller.ObjectApplier.Claim | controllers/nstemplateset/cluster_resources.go:216-221 | the loop removes exactly the first current object of the same kind and name |
| Controller.ObjectApplier.Apply | controllers/nstemplateset/cluster_resources.go:209-234 | an object with a toggle that is not among the features changes nothing; any other is claimed, sets the status and is applied |
| Controller.ObjectApplier.Cleanup | controllers/nstemplateset/cluster_resources.go:236-252 | deletes what is still unclaimed |
| Controller.Client.DeleteClusterResources | controllers/nstemplateset/cluster_resources.go:121-153 | deletes every object of the recorded template that exists and is not terminating, up to the first failure |
| ClusterPasses.DropAllIds | controllers/nstemplateset/cluster_resources.go:209-221 | claiming all new objects leaves the multiset difference of kinds and names |
| ClusterPasses.LeftoverIff | controllers/nstemplateset/cluster_resources.go:216-221 | a new object stays on the deletion list iff the current list has its kind and name more often than the new one |
| ClusterPasses.EnsureCut | controllers/nstemplateset/cluster_resources.go:29-60 | whatever fails, the store is that of the pass cut somewhere: a prefix of the applications, and deletions only after all of them; success means nothing was cut |
| ClusterRecovery.PassSetExpression | controllers/nstemplateset/cluster_resources.go:29-60 | the loop and the clean-up refine (S + enabled(new)) - (current - enabled(new)), for live objects |
| ClusterRecovery.CleanAfterCut | controllers/nstemplateset/cluster_resources.go:29-60 | a clean pass gives the same store with or without an interrupted pass before it |
| ClusterRecovery.CrashRecovery | controllers/nstemplateset/cluster_resources.go:29-60 | any number of attempts failing at any call, then one success, leave the store of one clean pass |
| ClusterRecovery.SurvivesIff | controllers/nstemplateset/cluster_resources.go:209-252 | an applied object is alive after the pass iff the old template does not name it more often than the new one |
| ClusterRecovery.ListedTwiceIsDeleted | controllers/nstemplateset/cluster_resources.go:209-252 | an object listed twice by the old and once by the new template is deleted by the pass that applies it |
| ClusterLaws.FeaturesDecide | controllers/nstemplateset/cluster_resources.go:29-60 | a due pass that works, templates naming each object once: every object of the new template without a feature toggle, or with a toggle among the features, is alive with the operator's five labels; everything of the old template that none of them replaces is gone; one with any other toggle is untouched, or gone if the old template had it |
| ClusterLaws.OthersStay | controllers/nstemplateset/features.go:15-29 | such a pass leaves every other object as it is, those that are switched off included |
| ClusterLaws.NothingDue | controllers/nstemplateset/cluster_resources.go:62-73 | with equal templates, a missing one being the same as an empty one, and equal feature sets nothing is done and no call is made |
| Controller.Client.MapContains | controllers/nstemplateset/namespaces.go:131-146 | true iff every wanted label is there with its value |
| Controller.Client.GetTiers | controllers/nstemplateset/namespaces.go:271-283 | appending in a loop succeeds exactly if every reference is non-empty, known and its lookup goes through; then the tiers are those of the references, in order, for one call each |
| Controller.Client.NextNamespaceToDeprovision | controllers/nstemplateset/namespaces.go:323-334 | the first namespace whose type no tier has |
| Controller.Client.FindNamespace | controllers/nstemplateset/namespaces.go:336-343 | the first namespace of a type |
| Namespaces.NextToDeprovision | controllers/nstemplateset/namespaces.go:323-334 | the first listed namespace whose type no tier has; no result means there is none |
| Controller.Client.IsUpToDateAndProvisioned | controllers/nstemplateset/namespaces.go:355-411 | true iff labels match and every Role and RoleBinding of the template is there with the space label |
| Controller.Client.NextNamespaceToProvisionOrUpdate | controllers/nstemplateset/namespaces.go:301-320 | the first type whose namespace is missing or, if active, not up to date; a namespace that is not active is skipped |
| Controller.Client.NamespaceHasExpectedLabels | controllers/nstemplateset/namespaces.go:105-128 | whether the namespace has the labels of the template's namespace of its name |
| Controller.Client.EnsureNamespaceResource | controllers/nstemplateset/namespaces.go:151-179 | applies the template's namespaces with the space, type and provider labels |
| Controller.Client.DropOld | controllers/nstemplateset/namespaces.go:193-213 | deletes what the previously recorded template has and the new one has not |
| Controller.Client.EnsureInnerNamespaceResources | controllers/nstemplateset/namespaces.go:181-235 | deletions, then applications, then the labels that record the template |
| Controller.Client.EnsureNamespace | controllers/nstemplateset/namespaces.go:77-101 | the namespace itself when missing or mislabelled, its content otherwise |
| Controller.Client.EnsureNamespaces | controllers/nstemplateset/namespaces.go:27-75 | one action: drop an obsolete namespace, else provision or update one |
| Controller.Client.EnsureNamespacesDeleted | controllers/nstemplateset/namespaces.go:248-269 | deletes the first namespace unless it is terminating; done when none is left |
| Controller.Client.SetProvisionedNamespaceList | controllers/nstemplateset/namespaces.go:446-455 | records the namespaces in name order |
| Cluster.OwnedMembers | controllers/nstemplateset/namespaces.go:285-296 | the list holds exactly the namespaces with the space label |
| Controller.Client.UpdateNamespacesStatus | controllers/nstemplateset/status.go:142-156 | sorts copies and compares: a call is made exactly when the two lists differ as collections, and they are equal as collections afterwards |
| StatusComparison.NamespacesComparison | controllers/nstemplateset/status.go:142-156 | the sorted lists are equal exactly when the lists are equal as collections |
| NamespacePasses.EnsureEffect | controllers/nstemplateset/namespaces.go:27-75 | whatever fails, the phase did a part of the one action decided, all of it if it reports a change, and nothing was to be done if it reports none |
| NamespacePasses.FillEffect | controllers/nstemplateset/namespaces.go:181-235 | whatever fails, the content was replaced up to some point of the order deletions, applications, labels |
| NamespaceLaws.OneStepAtATime | controllers/nstemplateset/namespaces.go:27-101 | a phase that does not fail took, completely, the one step that the labels call for: mark the first namespace of a foreign type; else, for the first reference whose namespace is missing or, if active, is not labelled with it or lacks a Role or RoleBinding, create or relabel the namespace if a template label is missing, otherwise apply the other objects, delete those that only the recorded template has, and record the reference; nothing only if nothing is called for |
| Controller.Client.ObjectsOfUsers | controllers/nstemplateset/space_roles.go:108-117 | the objects of all users in order, each user's as the template generates them, or an error if one cannot be processed |
| Controller.Client.GetSpaceRolesObjects | controllers/nstemplateset/space_roles.go:100-120 | the objects of all roles, or an error |
| Controller.Client.SwitchRoles | controllers/nstemplateset/space_roles.go:60-93 | applies the new objects, deletes the old ones not generated any more, records the roles |
| Controller.Client.EnsureSpaceRolesIn | controllers/nstemplateset/space_roles.go:33-93 | one namespace, with the failure conditions of each step |
| Controller.Client.EnsureSpaceRoles | controllers/nstemplateset/space_roles.go:23-96 | namespace by namespace until one was changed or failed |
| Controller.Client.UpdateSpaceRolesStatus | controllers/nstemplateset/status.go:158-179 | sorts both lists and, in place, the usernames they share, then compares: without a call the roles are equal up to order; if repeated references repeat their users, a call is made exactly when they are not |
| StatusComparison.RolesComparison | controllers/nstemplateset/status.go:158-179 | whatever the sort does with equal references: equal after sorting means equal up to order, and the converse holds if in one list repeated references repeat their users |
| StatusComparison.SortedUsersKeep | controllers/nstemplateset/status.go:166-171 | sorting in place keeps each role's usernames as a collection |
| StatusComparison.RepeatedRefs | controllers/nstemplateset/status.go:158-179 | spec [(r,u), (r,v)] against status [(r,v), (r,u)]: no sort makes them equal, so the status is written for order alone |
| StatusComparison.ArrangementsAgreeIff | controllers/nstemplateset/status.go:158-174 | for two lists equal up to order, every pair of arrangements compares equal iff entries with equal references have equal users |
| StatusComparison.OrderIgnoredIff | controllers/nstemplateset/status.go:158-174 | for one given sort: it finds a list equal to all its reorderings iff entries with equal references have equal users |
| StatusComparison.RolesCaughtUp | controllers/nstemplateset/status.go:158-179 | after the update the comparison reports no difference |
| RolePasses.EnsureInEffect | controllers/nstemplateset/space_roles.go:33-93 | whatever fails, a namespace's switch stopped at some point of the order applications, deletions, annotation |
| RolePasses.EnsureEachEffect | controllers/nstemplateset/space_roles.go:23-96 | a prefix of the namespaces is reapplied and at most one more switched, maybe in part |
| RoleRuns.NoAccessGap | controllers/nstemplateset/space_roles.go:60-73 | wherever the role phase is cut, an existing object that the new roles generate still exists |
| RoleRuns.SwitchIsExact | controllers/nstemplateset/space_roles.go:60-93 | a switch of one namespace that went through leaves alive exactly the role objects of the spec that the cluster can hold or still holds |
| RoleRuns.RolePhaseIsExact | controllers/nstemplateset/space_roles.go:23-96 | a role phase that has nothing to switch leaves exactly those in every namespace of the space |
| RoleRuns.RolePhaseLeavesSpec | controllers/nstemplateset/space_roles.go:23-96 | that is, without leftovers of API groups now missing and role objects on their way out, a role object is alive iff the roles of the spec generate it and the cluster can hold it |
| RoleRuns.SwitchedPhaseIsExact | controllers/nstemplateset/space_roles.go:23-96 | a role phase that reports a change has switched one namespace whose recorded roles were others, and exactly so |
| RoleRuns.RolePhaseContained | controllers/nstemplateset/space_roles.go:23-96 | the live role objects of each namespace stay within those of the annotation and those of the spec |
| RoleHistory.RolesContainedInRuns | controllers/nstemplateset/space_roles.go:23-96 | the same in every run with failures, if roles are edited only once every namespace has recorded them and, where applying replaces annotations, no namespace is refreshed that needs the one it has |
| RoleHistory.RecordedIsSafe | controllers/nstemplateset/namespaces.go:151-179 | that is so once every namespace to be refreshed has recorded the roles of the spec |
| RoleHistory.ReadyRolesAreExact | controllers/nstemplateset/nstemplateset_controller.go:163-173 | the reconcile that gets to set Provisioned leaves in each namespace exactly the role objects of the spec |
| RoleLaws.UsersHaveTheirRoles | controllers/nstemplateset/space_roles.go:100-119 | when a reconcile gets to set Provisioned, every user of every role has, in every namespace of the space, all that the role's template generates for that user and namespace, labelled, unless it was on its way out or its API is missing |
| RoleLaws.NobodyElseHas | controllers/nstemplateset/space_roles.go:23-96 | then every live object that a role template generates for some user is generated by a role of the spec for one of its users |
| RoleHistory.RefreshKeepsRolesIff | controllers/nstemplateset/namespaces.go:151-179 | where applying replaces annotations, a successful reconcile that refreshes a namespace keeps its role objects contained iff nothing is alive there that only the recorded roles generate |
| RefreshLoss.RefreshStrands | controllers/nstemplateset/namespaces.go:151-179 | a state of a space following the discipline in which such a reconcile leaves the object of a revoked role alive and on no deletion list |
| Controller.Client.Provide | controllers/nstemplateset/nstemplateset_controller.go:128-173 | finalizer, cluster resources, status, then the rest |
| Controller.Client.ProvideNamespaces | controllers/nstemplateset/nstemplateset_controller.go:147-161 | the namespace phase and its status updates, stopping after a change |
| Controller.Client.ProvideSpaceRoles | controllers/nstemplateset/nstemplateset_controller.go:163-173 | the role phase, its status update, and the Ready condition, whose failed update is the result |
| Controller.Client.Tear | controllers/nstemplateset/nstemplateset_controller.go:188-238 | cluster resources, their status reference, namespaces, finalizer |
| Controller.Client.Reconcile | controllers/nstemplateset/nstemplateset_controller.go:103-173 | one reconcile does to the store and the NSTemplateSet exactly what the specification says |
| ProvisionedSoundness.ProvisionedIsSound | controllers/nstemplateset/nstemplateset_controller.go:139-173 | from any state, under any failures, if the roles of the spec generate no namespaces: a reconcile that gets to set Provisioned leaves status equal to spec, no foreign type, the first namespace of each type there and, if active, marked with all Roles and RoleBindings, and the roles of the spec recorded everywhere; no other reconcile makes Provisioned appear |
| ReadyReports.ReadyIsStored | controllers/nstemplateset/nstemplateset_controller.go:103-173 | from any state, under any failures: a reconcile reports success at the end of its last phase only with all phases through and Provisioned stored |
| ReconcileLaws.ProvisionedMeans | controllers/nstemplateset/nstemplateset_controller.go:139-173 | whatever fails on the way: when a reconcile gets to set Provisioned, every namespace of the space is of a type of the spec and notes its roles, no reference of the spec needs work, and the status records template, features and namespaces of the spec |
| ReconcileLaws.ProvisionedLists | controllers/nstemplateset/status.go:60-80 | then, unless there is none, the status lists exactly the namespaces of the space, each once, in name order |
| ReconcileLaws.WorkIsShown | controllers/nstemplateset/status.go:181-268 | a reconcile that changed something and waits shows Provisioning or Updating: what was under way stays; work on a space with neither cluster resources nor namespaces is Provisioning, on one with both it is Updating |
| ReconcileLaws.FinalizerGuardsChanges | controllers/nstemplateset/nstemplateset_controller.go:128-186 | whatever fails, no object changes before the finalizer is stored or after it is gone |
| ReconcileLaws.DeletionIsShown | controllers/nstemplateset/nstemplateset_controller.go:188-240 | a deletion that goes on has Terminating stored |
| FailureLaws.ClusterFailureIsShown | controllers/nstemplateset/status.go:24-30 | a failing pass over the cluster resources: a first deployment is unable to provision them, an update has failed; only the condition of work begun remains when writing that one failed |
| FailureLaws.NamespaceFailureIsShown | controllers/nstemplateset/namespaces.go:31-41 | namespaces that cannot be listed are UnableToProvision, a reference without a template is UnableToProvisionNamespace |
| FailureLaws.RoleFailureIsShown | controllers/nstemplateset/space_roles.go:36-60 | a new role without a template is UpdateFailed, unless the space is still Provisioning: then it is UnableToProvisionSpaceRoles; nothing is changed |
| FailureLaws.DeletionFailureIsShown | controllers/nstemplateset/nstemplateset_controller.go:188-240 | a failing deletion is TerminatingFailed, or UnableToProvisionClusterResources when the recorded template cannot be read |
| CommitMarker.LabelIsCommitMarker | controllers/nstemplateset/namespaces.go:181-235 | under any failures: if a namespace's reference label comes out changed and not removed, all content of the new template is applied and what only the old one had is gone |
| ClusterRuns.ContainedInRuns | controllers/nstemplateset/nstemplateset_controller.go:133-145 | in every run with failures, if the cluster template changes only after the status caught up, the live cluster objects of the space are in the template of the status or of the spec, features changing at any time, deletion included |
| ClusterRuns.ProvideRefs | controllers/nstemplateset/nstemplateset_controller.go:128-173 | under any failures, namespaces record only template and role references the space looked up before |
| ClusterRuns.NewSpaceIsContained | controllers/nstemplateset/nstemplateset_controller.go:133-145 | a new space is a state that theorem starts from |
| ClusterRuns.WholePassOnlyNew | controllers/nstemplateset/cluster_resources.go:29-60 | after a whole pass nothing outside the new template is left |
| QuotaRuns.QuotaBeforeNamespaces | controllers/nstemplateset/nstemplateset_controller.go:133-156 | in every run with a fixed spec and any failures, no namespace of the space exists unless all enabled cluster objects are in place |
| QuotaRuns.EmptySpace | controllers/nstemplateset/nstemplateset_controller.go:133-156 | an empty space is such a start |
| DeletionPasses.TearEffect | controllers/nstemplateset/nstemplateset_controller.go:188-238 | whatever fails, a deletion pass deletes recorded cluster objects only, then at most marks the first namespace; the reference is dropped only once the objects are gone, the finalizer only once the namespaces are too |
| DeletionRuns.FinalizerGoesLast | controllers/nstemplateset/nstemplateset_controller.go:188-238 | in every run with failures, without the finalizer no namespace of the space is left and every object recorded at the start is gone or marked |
| ReconcileLaws.NothingIsLeft | controllers/nstemplateset/nstemplateset_controller.go:188-240 | in every run of the deletion, failures included: once the finalizer is off, no namespace has the space label, and every object of the template recorded at the start is gone or on its way out |
| DeletionRuns.NamespacesGoOneByOne | controllers/nstemplateset/namespaces.go:248-269 | in every run, no namespace but the alphabetically first is terminating, if it was so at the start |
| DeletionRuns.DeletionEnds | controllers/nstemplateset/nstemplateset_controller.go:188-238 | without failures and with deletions completed in between, the finalizer is off after one reconcile more than there are namespaces |
| ConvergenceRuns.RoundStep | controllers/nstemplateset/nstemplateset_controller.go:139-173 | a reconcile without failures leaves strictly less work, or is Ready and leaves none |
| ConvergenceRuns.Converges | controllers/nstemplateset/nstemplateset_controller.go:139-173 | Ready is reached within one reconcile more than the work at the start |
| ConvergenceRuns.ReadyStays | controllers/nstemplateset/nstemplateset_controller.go:139-173 | and every later reconcile is Ready with no work left |
| Fixpoint.ReadyIsFixpoint | controllers/nstemplateset/nstemplateset_controller.go:139-173 | after the first Ready reconcile the condition is Provisioned and the NSTemplateSet does not change any more, and the store does not from the second one on, or the third if the first created disputed ServiceAccounts |
| Fixpoint.SecondRoundIff | controllers/nstemplateset/client.go:28-78 | with one manifest per object, the second Ready reconcile leaves the store as it is iff no available role object missing before the first is a ServiceAccount whose labels template and operator dispute |
| DisputedAccount.SecondRoundRelabels | controllers/nstemplateset/client.go:28-78 | a family of ready spaces in which the second Ready reconcile does change the store: the account is created with the operator's label and then gets the template's |
| ConvergenceRuns.WorkBound | controllers/nstemplateset/nstemplateset_controller.go:139-173 | the work is at most twice the owned namespaces plus six per namespace template |
| ConvergenceRuns.NewSpaceIsGood | controllers/nstemplateset/nstemplateset_controller.go:128-139 | a new space with well-formed templates is a state these theorems start from |
| FailingRounds.RoundKeepsGood | controllers/nstemplateset/nstemplateset_controller.go:139-173 | whatever fails in a reconcile, once deletions have finished the state is again one these theorems start from |
| FailingRounds.ConvergesAfterFailures | controllers/nstemplateset/nstemplateset_controller.go:139-173 | after any reconciles failing anywhere, those without failures reach Ready within the same bound |
| IsolationRuns.ReconcileFrame | controllers/nstemplateset/nstemplateset_controller.go:103-173 | a reconcile commutes with adding objects outside the keys that the templates the space refers to generate for it |
| IsolationRuns.ReconcileLooks | controllers/nstemplateset/nstemplateset_controller.go:103-173 | whatever fails, spec, status, labels and annotations refer afterwards only to templates they referred to before |
| IsolationRuns.Isolated | controllers/nstemplateset/nstemplateset_controller.go:103-173 | any interleaving of the reconciles of two spaces, failures included, gives each its run alone and leaves the rest, if what the templates the two refer to generate for them is disjoint; other templates of the host may overlap |
| IdlerController.Reconciler.IsOwnedByVm | controllers/idler/idler_controller.go:436-446 | true iff a controller reference is a VirtualMachineInstance |
| IdlerController.Reconciler.GetTimeout | controllers/idler/idler_controller.go:133-141 | a twelfth of the timeout iff a controller reference is a VirtualMachineInstance, the whole timeout otherwise |
| IdlerController.Reconciler.GetHighestRestartCount | controllers/idler/idler_controller.go:251-259 | the largest restart count, at least 0 |
| IdlerController.Reconciler.ScaleOwnerToZero | controllers/idler/owners.go:49-118 | the loop with its flag and early exits equals the declarative description: which owners are acted on, whose name is returned, which errors |
| IdlerRuns.ScaleFacts | controllers/idler/owners.go:61-117 | only the first two live known owners are acted on, the second iff the first failed or the age is past 105%; no name iff there is none, or exactly one that a deleting owner follows past 110%; no error iff all succeeded |
| Idling.DeletingFollowsMeans | controllers/idler/owners.go:65-68 | the flag reset by deleting owners means that one comes after a candidate |
| IdlerController.Reconciler.DeletePodsAndCreateNotification | controllers/idler/idler_controller.go:211-249 | errors returned or swallowed, pod deletion and notification, as a function of pod, owners and results |
| IdlerRuns.KillReaches | controllers/idler/idler_controller.go:211-249 | a success without a swallowed NotFound has deleted the pod or acted on an owner, every call having succeeded |
| IdlerRuns.NoticeFacts | controllers/idler/idler_controller.go:228-249 | a notification is sent iff the kill went through and the pod was running or an owner was idled; it names the first owner acted on, else the pod |
| IdlerRuns.HiddenFailureIff | controllers/idler/idler_controller.go:221-227 | a kill succeeds although a call failed iff the first API error of the attempts on the owners is NotFound; it hides an error of the server iff there is one among them as well |
| IdlerRuns.MissingOwnerHidesFailure | controllers/idler/idler_controller.go:221-227 | an instance: a missing first owner hides that idling the second failed |
| IdlerController.Reconciler.ShorterDuration | controllers/idler/idler_controller.go:196-206 | the smaller duration, at least 0 |
| IdlerController.Reconciler.EnsureIdling | controllers/idler/idler_controller.go:143-194 | the calls and errors of the loop over pods, and the requeue time as the smallest of the timeout and what the pods want, at least 0 |
| IdlerController.Reconciler.Reconcile | controllers/idler/idler_controller.go:91-131 | no idling at timeout 0, a failed status below, otherwise the pass; which status is recorded, and that a failed update of it is returned unless idling failed |
| IdlerRuns.RequeueRange | controllers/idler/idler_controller.go:143-194 | for 240 <= T < 2^31 - 1 a pass without errors asks for between 1 s and T |
| IdlerRuns.RunsAgainIff | controllers/idler/idler_controller.go:171-190 | every pass without errors asks to run again iff 240 <= T < 2^31 - 1 |
| IdlerRuns.DeadlineGuarantee | controllers/idler/idler_controller.go:143-194 | in every run without errors whose passes come no later than asked, a pod seen before its deadline with at most 50 restarts is first idled in (start+t, start+t+1s] |
| IdlerRuns.IdledInTime | controllers/idler/idler_controller.go:143-194 | if passes come exactly when asked, t+2 of them are enough for that |
| IdlerRuns.Escalates | controllers/idler/owners.go:103-114 | a pod that survives is looked at within 5% of its timeout after 105%, when the second owner is acted on, and after 110%, when a pod whose only owner is followed by a deleting one is itself deleted |
| IdlerRuns.FollowUps | controllers/idler/idler_controller.go:171-178 | a follow-up after 5% is past 105%, the third one past 110%, for t >= 20 |
| IdlerLaws.IdledIff | controllers/idler/idler_controller.go:143-194 | whatever fails in a pass, exactly the pods are idled that have started and either restarted more than 50 times or are older than their time: a twelfth of the timeout for a pod of a VirtualMachineInstance, the timeout for any other |
| IdlerLaws.CrashLoopMeans | controllers/idler/idler_controller.go:155-163 | a pod that keeps restarting is idled at any age; if that works it asks for no other look, if it fails it is tried again when it is overdue |
| IdlerLaws.WaitsForStart | controllers/idler/idler_controller.go:150-153 | a pod that has not started is looked at again within its time |
| IdlerLaws.DeadlineByKind | controllers/idler/idler_controller.go:133-194 | in every run without errors whose passes come no later than asked, a pod of a virtual machine is first idled within one second after start + timeout/12, any other within one second after start + timeout |
| IdlerLaws.OwnersIdled | controllers/idler/owners.go:49-118 | by position in the owner list: nobody to act on; the only one, whose name is dropped past 110% iff a deleting owner follows; or the first two, the second iff the first failed or the age is past 105% |
| IdlerLaws.PodFate | controllers/idler/idler_controller.go:211-249 | the pod is deleted iff no owner is reported, it has completed or it was evicted; an error is swallowed iff its first API error is NotFound; a notification names the owner, else the pod, and is sent iff all went through and the pod was running or an owner was idled |
| UserAccountController.Reconciler.SetLabelsAndAnnotations | controllers/useraccount/useraccount_controller.go:374-427 | existing labels and e-mail stay, SSO ids follow the claims; a change is always reported for a User, and for an Identity iff a label was added |
| UserAccountRuns.LabellingIsIdempotent | controllers/useraccount/useraccount_controller.go:374-427 | a second time changes nothing |
| UserAccountController.Reconciler.IdentitiesOf | controllers/useraccount/useraccount_controller.go:656-663 | the identity names of sub, original sub and, if different from sub, user id, in order |
| UserAccountController.Reconciler.NewUser | controllers/useraccount/useraccount_controller.go:656-673 | a User with that list, labels and annotations |
| UserAccountRuns.NewUserNeedsNoRepair | controllers/useraccount/useraccount_controller.go:656-673 | its list is the expected one and labelling it again changes nothing |
| UserAccountController.Reconciler.EnsureUser | controllers/useraccount/useraccount_controller.go:210-283 | create, or write back with labels and repair the list |
| UserAccountController.Reconciler.LoadIdentityAndEnsureMapping | controllers/useraccount/useraccount_controller.go:314-372 | labels the Identity and repairs it, or creates it, with `user.name` the account's name and `user.uid` the User's UID |
| UserAccountController.Reconciler.EnsureIdentity | controllers/useraccount/useraccount_controller.go:285-312 | identity by identity until one was written or failed |
| UserAccountController.Reconciler.DeleteIdentity | controllers/useraccount/useraccount_controller.go:518-539 | deletes one owned Identity |
| UserAccountController.Reconciler.DeleteUser | controllers/useraccount/useraccount_controller.go:466-493 | deletes the console settings of one owned User, then the User |
| UserAccountController.Reconciler.DeleteResource | controllers/useraccount/console_usersettings.go:24-41 | a setting that is missing counts as deleted |
| UserAccountController.Reconciler.EnsureUserAccountDeletion | controllers/useraccount/useraccount_controller.go:177-208 | one deletion, or the finalizer |
| UserAccountController.Reconciler.Reconcile | controllers/useraccount/useraccount_controller.go:88-146 | one reconcile does to the stores and the account exactly what the specification says |
| UserAccountRuns.Progresses | controllers/useraccount/useraccount_controller.go:210-372 | without failures a reconcile either does some of at most four pieces of work, or finds and leaves none |
| UserAccountRuns.WorkDone | controllers/useraccount/useraccount_controller.go:240-279 | no work left iff the User lists exactly the expected identities and each refers back to its name and UID |
| UserAccountRuns.Converges | controllers/useraccount/useraccount_controller.go:210-372 | from any state at most four reconciles act; afterwards User and Identities are mutually mapped and stay so |
| UserAccountRuns.SettledStays | controllers/useraccount/useraccount_controller.go:113-146 | once settled, the next reconcile settles again and changes nothing |
| UserAccountLaws.FourReconciles | controllers/useraccount/useraccount_controller.go:210-372 | after four failure-free reconciles of a wanted account its User lists exactly the identities of sub, original sub and user id, and each of them has `user.name` the account's name and `user.uid` the UID of that User |
| UserAccountLaws.SettledIsMapped | controllers/useraccount/useraccount_controller.go:113-159 | whatever fails, a wanted account is reported settled only if that holds and Provisioned is stored |
| UserAccountLaws.LabelsMean | controllers/useraccount/useraccount_controller.go:374-398 | labels that are there stay; the Owner label is the account, the provider label this operator |
| UserAccountLaws.NotesMean | controllers/useraccount/useraccount_controller.go:398-427 | annotations stay, the e-mail if there is one; the two SSO ids are those of the claims if both are set there, and removed otherwise |
| UserAccountLaws.CreatedBelongs | controllers/useraccount/useraccount_controller.go:210-372 | whatever fails, every User or Identity that a reconcile creates has the Owner label that deletion goes by |
| UserAccountLaws.FinalizerFirst | controllers/useraccount/useraccount_controller.go:102-110 | whatever fails, nothing is created, changed or deleted for an account before its finalizer is stored |
| UserAccountLaws.UserFailureIsShown | controllers/useraccount/useraccount_controller.go:210-283 | a User that is missing or cannot be read fails as UnableToCreateUser, one whose list cannot be repaired as UnableToCreateMapping; only Provisioning remains when a condition could not be written |
| UserAccountLaws.IdentityFailureIsShown | controllers/useraccount/useraccount_controller.go:314-372 | an Identity that is missing or cannot be read fails as UnableToCreateIdentity, one whose reference cannot be repaired as UnableToCreateMapping |
| UserAccountLaws.DeletionFailureIsShown | controllers/useraccount/useraccount_controller.go:113-208 | a failing deletion is Terminating, of a disabled account Disabling, on a cluster without user creation UnableToCreateUser, unless only a status update failed |
| UserAccountTeardown.ReconcileIsOrderly | controllers/useraccount/useraccount_controller.go:452-539 | from any state under any failures: only owned objects are deleted, no User while an owned Identity remains, its console settings before it; the finalizer goes and Disabled is written only when nothing owned is left |
| UserAccountTeardown.FinalizerGoesExactly | controllers/useraccount/useraccount_controller.go:177-208 | with n owned Identities and m owned Users the finalizer stays through n+m reconciles and goes with the next |
| UserAccountLaws.OnlyOwnGoes | controllers/useraccount/useraccount_controller.go:452-539 | whatever fails, only Users and Identities labelled with the account go, a User only when no Identity is labelled so and its three console settings are gone |
| UserAccountLaws.NothingBelongs | controllers/useraccount/useraccount_controller.go:113-208 | whatever fails, when the finalizer goes or Disabled is first stored, no User or Identity is labelled with the account |
| UserAccountLaws.UnwantedEnds | controllers/useraccount/useraccount_controller.go:113-175 | a disabled account, or any on a cluster without user creation, loses one of its n Users and Identities with each failure-free reconcile, has none after n, and if disabled is Disabled with the next |
| VmMutator.EnsureManualRunStrategy | pkg/webhook/mutatingwebhook/vm_mutate.go:263-276 | appends the run strategy unless it is Manual or not a string |
| VmMutator.FillLimits | pkg/webhook/mutatingwebhook/vm_mutate.go:226-247 | a limit for each requested memory or cpu that has none, memory falling back to maxGuest, then guest; reports a change iff the limits differ |
| VmMutator.EnsureLimits | pkg/webhook/mutatingwebhook/vm_mutate.go:192-260 | appends the limits, or resources holding them, if anything changed and everything could be read |
| VmMutator.EnsureTolerations | pkg/webhook/mutatingwebhook/vm_mutate.go:279-297 | appends the list with the toleration added unless one is there or the list cannot be read |
| VmMutator.EnsureVolumeConfig | pkg/webhook/mutatingwebhook/vm_mutate.go:83-152 | the edited list, or why the request is refused or the handler panics |
| VmMutator.HandleVm | pkg/webhook/mutatingwebhook/vm_mutate.go:35-80 | the patch in the order of the steps, or denial; VmLaws.AnswerIff says which |
| VmPatches.FillingFacts | pkg/webhook/mutatingwebhook/vm_mutate.go:226-247 | non-empty limits stay, every requested memory and cpu has a limit, a memory limit still empty takes maxGuest, else guest, and no other limit appears |
| VmPatches.EditedVolumes | pkg/webhook/mutatingwebhook/vm_mutate.go:101-146 | an edited list differs in the user data of one config of one cloud-init volume only |
| VmPatches.LetThroughWithoutKeys | pkg/webhook/mutatingwebhook/vm_mutate.go:35-152 | a request is allowed with the volumes left as they are iff SSH keys are configured, the list has a cloud-init volume, every volume is an object and no cloud-init volume has a known config |
| VmPatches.MachineWithoutKeys | pkg/webhook/mutatingwebhook/vm_mutate.go:35-80 | such machines: those whose only volume has its user data under an unknown name get run strategy and toleration, but no keys |
| VmPatches.PatchIsCorrect | pkg/webhook/mutatingwebhook/vm_mutate.go:35-80 | for every tree the webhook allows the patch applies; run strategy, limits, toleration and volumes are as promised, everything apart from these paths is as before, and the first three steps find nothing to do on the result |
| VmLaws.AnswerIff | pkg/webhook/mutatingwebhook/vm_mutate.go:35-152 | exactly when a request is allowed, denied or panics: denied without keys or a volume list; otherwise the first volume that is no object, or is a cloud-init volume with a known config, decides by whether its user data takes the keys; without one it is allowed iff there is a cloud-init volume |
| VmLaws.KeysArrive | pkg/webhook/mutatingwebhook/vm_mutate.go:83-152 | if the user data of the deciding config takes the keys, or there is none, the request is allowed, the patch applies, and of the volumes exactly that `userData` is new |
| VmLaws.PatchedFields | pkg/webhook/mutatingwebhook/vm_mutate.go:192-297 | on the patched machine: the run strategy is Manual unless it was no string; cpu and memory limits are filled from the requests and memory from maxGuest, then guest, other limits as before; the list of tolerations ends with the one for the metal node unless there was one |

## Left out

- Template processing, decoding and host lookups are deterministic functions of reference and parameters; the host client and the TierTemplateRevision lookups count as one call.
- Stale caches, concurrent writers during a reconcile, and resource-version conflicts other than those of an object the reconcile itself has changed.
- Condition messages and timestamps: a failure condition is always written, and its message is not recorded.
- The library's ApplyToolchainObjects reads and writes in one call except for ServiceAccounts; owner references and the last-applied-configuration annotation are not part of this model.
- Kinds are compared exactly, where `template.RetainNamespaces` and the role checks of the source may ignore case.
- The error returned when a namespace is stuck in deletion for more than a minute is not part of this model; it does not change what is done.
- Nil and empty lists of usernames are one value, which the status comparison and the test for changed roles of the source tell apart; a list of roles may be nil.
- Annotation JSON is a value that may be nil, a list or text that does not decode; the encoding is not part of this model.
- Sorting: strings are sorted by insertion, which gives the one sorted list; how `sort.Slice` arranges space roles with equal references is a parameter (`Env.order`), of which the theorems assume at most that the result is a sorted permutation.
- In-place shrinking by `slices.Delete` is an assignment of the shorter list; the shared backing array is not part of this model.
- ConvergenceRuns.Converges: assumes that between reconciles deletions finish and namespaces become Active, that namespace types and names are distinct, that templates keep their objects in their namespace and free of the marker labels and of other values for the operator's labels, and that role objects are not also template objects; without these the controller can loop or skip a namespace.
- Idler: one clock reading per pass; `float32` and `float64` factors are exact fractions rounded down, which agrees with the floats for timeouts below about ten million seconds.
- Idler: an action on an owner is one call, although scaling, stopping, idling and deleting differ, and an already idled owner needs none; owner discovery and its errors are an input list; the notification itself is not part of this model.
- UserAccount: deleted Users and Identities are gone at once; the order of an unsorted list is arbitrary but fixed per reconcile; encoding of identity names and the provider fields of an Identity are a function of the subject.
- UserAccount: the postponement within a second of an Updating condition is an input, since nothing in this controller sets that condition.
- Webhook: what the decoding library asks of an object besides being one, such as a kind, is not part of this model.
- Webhook: YAML parsing of user data and formatting of SSH keys are one function that may fail or panic; HTTP handling is not part of this model.
- Watches, predicates, mappers, logging, metrics, `controllers/memberstatus`, `pkg/cert`, `pkg/autoscaler`, the validating webhooks and the pod mutator: no state worth proving, or single-branch checks.
