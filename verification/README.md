# Verification of the Tekton Tasks Operator

The operator reconciles one TektonTasks custom resource (CR) with a fixed bundle of cluster objects: Tasks,
Pipelines, ConfigMaps, RoleBindings, ServiceAccounts and ClusterRoles. It drives the cluster towards the bundle,
remembers in a version cache what it has synced, reports its state in the CR's status, and tears everything down
behind a finalizer. This project models that machine in Dafny and proves what it keeps and what it achieves.

## How it is modelled

* `Kube.dfy` and `ApiServer.dfy` hold the cluster: objects, the CR, and an API server with optimistic concurrency,
  generations, deletion marks and finalizers, as the sections "Metadata" and "Concurrency Control and Consistency" of
  the Kubernetes API conventions describe them. Everything outside the operator is a script with one turn for each
  client call: the edits that users make before the call is served, and its fault (served, rejected, or carried out
  with the answer lost). Quantifying over all scripts covers every interleaving with users and every pattern of faults.
  The server logs the operator's effective writes and the users' changes to objects, so that results can speak about
  every single one, also in the middle of a pass.
* `Labels`, `Cache`, `Ownership`, `Resource`, `Operands`, `StatusReport`, `Controller` and `CrdGate` follow the source
  files. Their classes change their fields step by step and loop as the source does; every method is proved equal to a
  function of the old state. The theorems are about those functions: `Controller.Pass` is one call of Reconcile, and
  `Runs.Run` a run of passes and restarts.
* `Tracking`, `Expectations` and `Invariants` hold what the theorems share: what a copy of the CR is worth while others
  write, what an operand expects at which key, and how a property of single objects is carried through whole runs.
* `CacheRefinement`, `Convergence`, `Contents`, `Lifecycle`, `Triggers`, `Pausing`, `Outcomes`, `Cleaning`, `Deletion`,
  `Vanishing`, `Coverage`, `Leftovers` and `UserData` hold the main results. `Contents` and `Outcomes` say in plain
  terms, without the functions of the model, what is stored and what the CR says after a pass.

## Where the code does not do what one expects

Each of these is a lemma, with the exact condition where there is one:

* When the server turns the first finalizer write away, the error status is written all the same; from then on the CR
  counts as initialized and is never given a finalizer (`Lifecycle.InitializationLosesFinalizer`,
  `Lifecycle.LostFinalizerOrphans`).
* The gate that waits for CRDs writes phase Deployed to a CR that was never served, which then gets no finalizer either
  (`CrdGate.ConditionsSkipInitialization`); and the check at start-up accepts a CRD that is being deleted
  (`CrdGate.GateDisagreesExactly`).
* A CR created with the finalizer already on it is marked as deploying, and nothing starts the next pass
  (`Triggers.InitializationStarts`).
* With several CRs the conditions change but the phase does not (`Lifecycle.MultipleStepBreaksCoherence`).
* With the feature gate off the CR says Deployed although nothing is deployed (`Outcomes.GateOffIsDeployed`).
* The ownership test can index an empty list (`Ownership.IndexOutOfBoundsExactly`), and takes any ClusterTask with a
  reference for owned (`Ownership.ForeignReferencePassesForOwned`).
* The delete request carries neither uid nor resource version (`Deletion.DeletesStrangerExactly`,
  `Deletion.DeleteCanHitStranger`).
* Two entries at one key defeat the cache (`Convergence.DuplicateKeysDefeatCache`); the bundle for OKD has such a pair
  for a CR in one particular namespace (`Expectations.BindingsCollideExactly`).
* Moving a namespace leaves the old Tasks, Pipelines and ConfigMaps behind (`Leftovers.MovedIsForgottenExactly`,
  `Leftovers.MovedStaysExactly`).
* An operator that restarts while the CR is being deleted no longer knows where it has put the objects: it looks for
  them at the keys of the bundle, whose namespaces are mostly empty, and lets go of the CR
  (`Leftovers.RestartForgetsExactly`, `Leftovers.RestartOrphans`).
* The update functions of the pipelines operand's ClusterRoles and ServiceAccounts wipe the labels and annotations of
  users (`UserData.AssignedMetadataIsExact`).

## Model

| member | source | states |
|---|---|---|
| CacheRefinement.CacheIsInvisible | pkg/common/resource.go:160-208 | Main result. From a fresh start, over any run of passes and restarts, under any faults and any edits by users between and during the passes, the version cache leaves the same cluster, the same verdicts and results and the same operand lists as calling every update function every time; the only assumption is that the bundle's entries have distinct identities |
| CacheRefinement.CacheRefinesNoCache | controllers/tektontasks_controller.go:265-275 | The same from any memory whose stamps are honest, and honesty is kept by the run, including the clearing of the cache when the spec changes |
| CacheRefinement.HonestEvolves | pkg/common/cache.go:22-35 | A stamp that matches implies that the stored object is in sync; this survives whatever users and the operator do to the cluster |
| CacheRefinement.EngineRefines | pkg/common/resource.go:185-189 | For one object an honest cache never changes what the engine does |
| CacheRefinement.EngineSettles | pkg/common/resource.go:160-208 | When the engine succeeds without deleting, the stored object is the reported one, has the expected payload, exactly the expected owner references and all expected labels and annotations, unless it is being deleted |
| Convergence.CacheAgreesExactly | pkg/common/resource.go:185-189 | On an object the cache knows, the engine with the cache does what it would do without it if and only if the object is in sync with what is expected now |
| Convergence.DuplicateKeysDefeatCache | pkg/common/resource.go:185-203 | Two expected objects at one key: right after syncing the first, the cached engine leaves the first one's payload stored for the second; its outcome is that of the engine without cache if and only if the two payloads are the same |
| Convergence.ImmutableConverges | pkg/common/resource.go:291-328 | An immutable resource needs at most two writing runs, delete then create, and the third changes nothing; the delete happens exactly if the payload has to change, and the create waits until the finalizers of the old object are gone |
| Convergence.FirstPassConverges | controllers/tektontasks_controller.go:152-184 | Left alone, the first full pass over any cluster in which nothing is being deleted makes every entry as expected and the CR deployed |
| Convergence.FreshConverges | controllers/tektontasks_controller.go:80-185 | The same from any CR that is not paused, gated off or being deleted, be it new or with the old finalizer: after at most two preliminary passes, which touch no object, the next one makes everything as expected, and all later ones report unchanged and write no operand object |
| Coverage.PassWritesOnce | controllers/tektontasks_controller.go:230-244 | A pass for a CR that is not being deleted creates, updates or deletes at most once at each key, under any faults and any edits |
| Convergence.Converges | controllers/tektontasks_controller.go:80-185 | After that, any number of passes report unchanged for every resource and write and delete no operand object |
| Convergence.ExampleConverges | controllers/tektontasks_controller.go:80-185 | The assumptions of these results can be met: from an empty cluster with a ready CR the first pass stores the one object of an example bundle, and later passes change nothing |
| Convergence.DeployedIsTruthful | controllers/tektontasks_controller.go:159-176 | If a pass that users leave alone ends with phase Deployed, every entry that was not skipped is stored, not terminating, with the expected payload, labels, annotations and owner references; calls may fail |
| Convergence.ReachableDeployedIsTruthful | controllers/tektontasks_controller.go:230-244 | The same in every state reachable from a fresh start |
| Convergence.DoneIsOwned | pkg/common/resource.go:345-354 | An object stored as expected carries the owner marks of the CR |
| Contents.DeployedHoldsBundle | pkg/tekton-tasks/tekton-tasks.go:220-313 | Main result. After any run of passes and restarts, under any faults and edits, whatever the CR was like meanwhile: a pass that users leave alone and that ends with phase Deployed leaves every object that the bundle ships, adapted to the CR as it is now. The contract spells out for each list the key, the payload (a task's step images, a pipeline's virtio parameters, a binding's role and subjects, a ConfigMap's data, a ClusterRole's rules), the labels, the annotations and the owner |
| Contents.DeployedAnswers | pkg/tekton-pipelines/tekton-pipelines.go:134-260 | The same for one pass, from any honest memory and any store |
| Contents.FirstPassAnswers | controllers/tektontasks_controller.go:152-184 | The same for the first full pass of an operator that is left alone, if the tasks are fit |
| Contents.FitIsPreparable | pkg/tekton-tasks/tekton-tasks.go:231-252 | If and only if: preparing an entry panics exactly for a task without a step or of an unknown name, the Windows ISO task excepted |
| Contents.UnfitPanicsExactly | pkg/tekton-tasks/tekton-tasks.go:243-246 | Reconciling an entry panics exactly if it is not fit, and then before any call |
| Contents.LeftOutExactly | pkg/tekton-pipelines/tekton-pipelines.go:184-194 | Exactly the service account named pipeline, outside the namespaces that start with openshift- or kube-, is left out, at no call; every other entry reports a result or fails |
| Contents.AccountKeepsPayload | pkg/tekton-tasks/tekton-tasks.go:277-291 | Reconciling a service account leaves alone what others put into it, and creates it empty |
| Resource.ReconcileBuilder.Reconcile | pkg/common/resource.go:160-208 | The builder's Reconcile in place: labels, owner, mutation, create or update, cache bookkeeping; equals the function that the results above are about |
| Resource.ReconcileBuilder.CreateOrUpdateWithImmutableSpec | pkg/common/resource.go:290-328 | Get, create, compare, delete or update, with every error path |
| Resource.ReconcileBuilder.Mutate | pkg/common/resource.go:173-191 | The mutation with its exception for objects being deleted and its use of the cache |
| Resource.UpdateStringMap | pkg/common/resource.go:376-383 | Merges the expected map into the found one, key by key |
| Resource.SetVirtioImage | pkg/tekton-pipelines/tekton-pipelines.go:146-156 | The loop over the pipeline parameters |
| Resource.VirtioParamsAt | pkg/tekton-pipelines/tekton-pipelines.go:148-155 | Exactly the parameters with the prefix get the image |
| Cache.VersionCache.Contains | pkg/common/cache.go:22-35 | Looks a version up: by uid and generation, or by resource version when the generation is 0 |
| Cache.VersionCache.Add | pkg/common/cache.go:37-48 | Stores the stamp, never for an object without a kind |
| Cache.VersionCache.RemoveObj | pkg/common/cache.go:50-52 | Forgets the object's key |
| Cache.AddedKnows | pkg/common/cache.go:22-48 | After adding, exactly the versions with the same stamp are known, and nothing changes for other objects |
| Cache.ForgottenUnknown | pkg/common/cache.go:50-60 | After removing, no version under that key is known, and nothing changes for other keys |
| Labels.AddAppLabels | pkg/common/labels.go:26-57 | Writes the labels into the object's map |
| Labels.LabelsWritten | pkg/common/labels.go:26-57 | The three operator labels are set, the two copied ones exactly if the CR has a label map, and no other label changes |
| Ownership.CheckOwned | pkg/common/resource.go:402-429 | The ownership test as a loop over the found references, with the panic of indexing an empty list |
| Ownership.OwnershipTestExact | pkg/common/resource.go:402-429 | For a list entry the test says exactly whether the CR owns the object, or panics exactly on a foreign-namespace object with references |
| Ownership.IndexOutOfBoundsExactly | pkg/common/resource.go:416-419 | If and only if: the index is out of bounds exactly for a found object with references, an expected one without, outside the CR's namespace |
| Ownership.ForeignReferencePassesForOwned | pkg/tekton-tasks/tekton-tasks.go:191-202 | A listed ClusterTask passes for owned exactly if it has any reference or the CR owns it, because the expected object is the found one |
| Ownership.OwnerNameInjective | pkg/common/resource.go:345-354 | Namespace and name can be read back from the owner annotation if namespaces contain no slash |
| Ownership.OwnerNameAmbiguousWithSlash | pkg/common/resource.go:345-354 | Without that rule on namespaces two CRs can share the annotation |
| Ownership.ClusterRoundTrip | pkg/common/resource.go:345-354 | An object written as a cluster resource is recognised as owned by its CR and by no CR with another namespace or name |
| Ownership.NamespacedRoundTrip | pkg/common/resource.go:349-353 | A freshly created namespaced resource is recognised as owned by its CR and by no other |
| Ownership.ControllerReferenceExactly | pkg/common/resource.go:349-353 | Setting the controller reference succeeds if and only if the object is in the CR's namespace and has no other controller; then the reference is there, an earlier one of the CR is replaced, and the others stay |
| Operands.Prepare | pkg/tekton-tasks/tekton-tasks.go:220-252 | How an entry of each list is adapted in place: namespace, images, version label, subjects |
| Operands.AssignIsoImages | pkg/tekton-tasks/tekton-tasks.go:231-239 | The loop that fills in the images of the ISO task |
| Operands.IsoStepsAt | pkg/tekton-tasks/tekton-tasks.go:231-239 | Which step gets which image, and that other steps stay |
| Operands.AssignSubjects | pkg/tekton-pipelines/tekton-pipelines.go:243-246 | The loop that moves the subjects to the CR's namespace |
| Operands.ReconcileList | pkg/common/resource.go:57-67 | Runs the reconcile functions of one list in order, writing entries back in place, and stops at the first error without results |
| Operands.ReconcileAppend | pkg/tekton-pipelines/tekton-pipelines.go:81-94 | Appending lists of reconcile functions is running them one after the other |
| Operands.TektonTasks.Reconcile | pkg/tekton-tasks/tekton-tasks.go:149-169 | The tasks operand over its four lists |
| Operands.TektonTasks.Cleanup | pkg/tekton-tasks/tekton-tasks.go:171-202 | What the tasks operand removes: its lists and the deprecated ClusterTasks |
| Operands.TektonTasks.FilterUnusedObjects | pkg/tekton-tasks/tekton-tasks.go:115-147 | Rebuilds the four lists with the objects of allowed tasks |
| Operands.FilteredCount | pkg/tekton-tasks/tekton-tasks.go:115-147 | Filtering keeps a task as often as it was there if its name is one of the twelve, any other object if its name is one of the twelve with or without -task after it, and drops everything else |
| Operands.FilteredInOrder | pkg/tekton-tasks/tekton-tasks.go:115-147 | What is kept keeps its order |
| Operands.TektonPipelines.Reconcile | pkg/tekton-pipelines/tekton-pipelines.go:81-102 | The pipelines operand over its five lists |
| Operands.TektonPipelines.Cleanup | pkg/tekton-pipelines/tekton-pipelines.go:104-128 | What the pipelines operand removes |
| Operands.CleanupOrder | pkg/tekton-tasks/tekton-tasks.go:171-202 | Tasks go first, then ClusterRoles, RoleBindings and ServiceAccounts |
| Operands.PipelinesCleanupOrder | pkg/tekton-pipelines/tekton-pipelines.go:104-128 | Pipelines go first, then ConfigMaps, RoleBindings, ServiceAccounts and ClusterRoles |
| Expectations.PreparedAgain | pkg/tekton-tasks/tekton-tasks.go:220-256 | An entry written back after a pass is expected unchanged by the next one: preparing and marking are idempotent |
| Expectations.IdentitiesSeparateKeys | pkg/tekton-pipelines/tekton-pipelines.go:134-260 | Entries with different identities never meet at one key, for any spec |
| Expectations.BindingsCollideExactly | data/tekton-pipelines/okd/windows-bios-installer-pipeline.yaml:2-20 | Two role bindings of one name, one with a fixed namespace, meet at one key exactly if the CR lives in that namespace |
| Resource.Cleanup | pkg/common/resource.go:231-276 | Removes one object if it is owned and not already going |
| Resource.DeleteAll | pkg/common/resource.go:278-288 | Removes a list of objects and stops at the first error |
| Cleaning.CleanupComplete | controllers/tektontasks_controller.go:334-400 | Cleanup completeness: when a cleanup lets go of the CR, the CR owns nothing any more at the keys of the operand lists nor among the deprecated ClusterTasks; and a cleanup without error leaves nothing live there. Any faults, and any edits but those that make an object the CR's there |
| Cleaning.CleanupLetsGo | controllers/tektontasks_controller.go:364-388 | A cleanup lets go of the CR only if it found nothing pending; and if it found nothing pending and made no error, it did let go. Any faults and any edits |
| Cleaning.CleanupLowersWork | controllers/tektontasks_controller.go:364-388 | The lexicographic measure (live owned, dying owned, finalizer) never rises over a cleanup pass, and falls if the pass makes no error and finds something live or finds nothing pending, and if it lets go of the CR |
| Cleaning.CollectionLowersWork | pkg/common/resource.go:258-275 | Each garbage-collected object lowers that measure |
| Vanishing.CleanupFinishes | controllers/tektontasks_controller.go:334-400 | Left alone, a cleanup makes no error and lets go of the CR once the CR owns nothing any more; the CR vanishes then unless somebody else's finalizer holds it |
| Vanishing.DeletedCrVanishes | controllers/tektontasks_controller.go:113-130 | A deleted CR vanishes in a bounded number of steps: one calm pass marks all it owns, at most as many objects as it owned are collected, in any order, and the next pass lets it go; at once if it owned nothing |
| Vanishing.DeletedCrMigrates | controllers/tektontasks_controller.go:305-321 | A deleted CR with the old finalizer takes one pass more, which touches no object |
| Deletion.TeardownInBounds | pkg/common/resource.go:402-429 | While tearing down the index into the expected owner references stays in bounds, if only the operator puts owner references outside the CR's namespace; any other edits are allowed |
| Deletion.TeardownDeletesOwned | pkg/common/resource.go:231-288 | Safe deletion: only objects with the CR's controller reference or both owner annotations are deleted, if only the operator puts owner references outside the CR's namespace and nobody replaces an owned object by a stranger's, or creates one, at a key that is looked up |
| UserData.ReachableTeardownIsSafe | pkg/common/resource.go:402-429 | Both in every state that any run reaches: the index in bounds whatever else users do, and only owned objects deleted |
| Deletion.DeletesStrangerExactly | pkg/common/resource.go:258-259 | The delete names only a key. If and only if: for every script, the cleanup of an object found live and owned deletes a stranger exactly if a live object that the CR does not own is stored there when the request is served, and the request is not turned away |
| Deletion.DeleteCanHitStranger | pkg/common/resource.go:258-259 | It does happen: a user replaces the object between the ownership test and the request |
| Coverage.WrittenIsLookedUp | pkg/tekton-tasks/tekton-tasks.go:171-202 | Coverage, entry by entry: after any number of passes of a process, whatever failed midway, was skipped, or was read meanwhile, cleanup looks up the key of every object that the process ever wrote, if and only if no later pass has moved that very entry away without a later one moving it back; keys of kinds that no spec moves it always looks up |
| Coverage.PassMoves | controllers/tektontasks_controller.go:80-185 | A pass whose CR is being deleted, paused or gated off leaves the operand lists as they are and writes no operand object; any other moves entries only to the places of the spec it read, and every object it writes is named by an entry afterwards, also if it stops midway |
| Leftovers.NothingLeftBehind | controllers/tektontasks_controller.go:113-130 | Whenever a pass of a process lets go of the CR, no object the process ever wrote belongs to the CR, but those whose entry was moved away for good, unless somebody made one the CR's again during that pass |
| Leftovers.LeftBehindExactly | controllers/tektontasks_controller.go:113-130 | And exactly those: if users leave that pass alone, an object the process wrote and the CR still owned is its own afterwards if and only if its entry was moved away for good |
| Leftovers.ReleaseLeavesExactly | controllers/tektontasks_controller.go:364-388 | From any state: an object the CR owned, other than a ClusterTask, survives as its own a pass that lets go of the CR if and only if the pass does not look up its key, and is then unchanged |
| Coverage.EntryLogs | pkg/tekton-pipelines/tekton-pipelines.go:184-260 | Reconciling one entry writes only at the key the entry names afterwards, also if it fails; an entry in place stays there |
| Leftovers.MovedIsForgottenExactly | pkg/tekton-pipelines/tekton-pipelines.go:134-141 | After a full pass, of the Tasks, Pipelines and ConfigMaps cleanup looks up exactly those that an entry stands for and that are in the namespace that the spec gives their kind |
| Leftovers.MovedStaysBehind | pkg/tekton-pipelines/tekton-pipelines.go:134-141 | So a Task, Pipeline or ConfigMap in any other namespace, owned or not, is stored unchanged after a cleanup that users leave alone, whether or not that lets go of the CR |
| Leftovers.MovedStaysExactly | pkg/tekton-pipelines/tekton-pipelines.go:134-141 | And when such a pass lets go of the CR, an object of the CR's that an entry stands for is still its own if and only if it is not where the spec puts its kind |
| Leftovers.RestartForgetsExactly | pkg/tekton-tasks/tekton-tasks.go:78-89 | What a restart costs: if the operator lets go of the CR before a pass has placed the entries again, an object of the CR's other than a ClusterTask is still its own afterwards, unchanged, if and only if no object of the bundle as it is shipped has its key |
| Leftovers.RestartOrphans | pkg/tekton-tasks/tekton-tasks.go:171-202 | It does happen: left alone, an operator that restarts while the CR is being deleted lets go of it at once if it owns nothing at the bundle's keys and no deprecated ClusterTask, and all its other objects stay |
| UserData.UserMetadataSurvives | pkg/common/resource.go:183-189 | Over any run, a label or annotation that the operator does not set and users leave alone stays on the object for as long as the object exists, whether or not the cache hits, for all lists but the ClusterRoles and ServiceAccounts of the pipelines operand |
| UserData.AssignedMetadataIsExact | pkg/tekton-pipelines/tekton-pipelines.go:213-230 | Where the update function assigns metadata, the object ends with exactly the expected labels and annotations: nothing of the user's survives |
| Controller.TektonTasksReconciler.Reconcile | controllers/tektontasks_controller.go:80-185 | One pass in place, with every early return and error path; equals the function that the results are about |
| Controller.TektonTasksReconciler.ReconcileLive | controllers/tektontasks_controller.go:132-184 | The part of a pass for an initialized CR: several CRs, pause, gate, operands, status |
| Controller.TektonTasksReconciler.ReconcileOperands | controllers/tektontasks_controller.go:230-244 | Both operands in order, stopping at the first error |
| Controller.TektonTasksReconciler.Cleanup | controllers/tektontasks_controller.go:334-400 | The cleanup with its status writes, pending count and finalizers |
| Controller.TektonTasksReconciler.ClearCacheIfNeeded | controllers/tektontasks_controller.go:265-270 | Empties the cache when the spec differs from the last one |
| Controller.TektonTasksReconciler.ClearCache | controllers/tektontasks_controller.go:272-275 | Empties the cache and forgets the spec |
| Controller.Request.Initialize | controllers/tektontasks_controller.go:300-303 | Adds the finalizer and marks the CR as deploying |
| Controller.Request.UpdateTektonTasks | controllers/tektontasks_controller.go:305-321 | Replaces the old finalizer by the new one |
| Controller.Request.PreUpdateStatus | controllers/tektontasks_controller.go:430-473 | The status before the operands |
| Controller.Request.PostUpdateStatus | controllers/tektontasks_controller.go:475-576 | The status from the results |
| Controller.Request.HandleError | controllers/tektontasks_controller.go:586-625 | Requeues on a conflict; otherwise reports the error in the status |
| StatusReport.AggregationExact | controllers/tektontasks_controller.go:475-576 | Phase Deployed exactly when every result is a success; each condition is the matching existential over the results |
| StatusReport.AggregationUnordered | controllers/tektontasks_controller.go:475-576 | The whole written status, messages included, is the same for every permutation of the results |
| StatusReport.SplitResults | controllers/tektontasks_controller.go:476-489 | The loop that sorts the results |
| StatusReport.ConditionsWritten | controllers/tektontasks_controller.go:445-470 | What the three conditions say after each kind of write, and which writes leave them alone |
| StatusReport.MessagesExact | controllers/tektontasks_controller.go:493-570 | What each condition of the aggregated status says: that all is well, what is wrong with the one resource by kind, namespace and name, or how many there are |
| StatusReport.DecimalIsDecimal | controllers/tektontasks_controller.go:511-514 | The number in such a message is the decimal numeral of the count, without leading zeros |
| StatusReport.StepMessages | controllers/tektontasks_controller.go:338-357 | What all three conditions say while deleting, with several CRs, and after an error |
| StatusReport.ReconcilingMessages | controllers/tektontasks_controller.go:445-470 | Before the operands are reconciled a condition that already has its truth value keeps its message, and any other one says that reconciling has begun |
| Outcomes.PauseIsRecorded | controllers/tektontasks_controller.go:141-150 | The pass for a single paused CR finishes and records the pause, with the generation if it was not recorded before; nothing else in the status, the CR, the cluster or, but for another spec, the cache changes |
| Outcomes.MultipleIsReported | controllers/tektontasks_controller.go:137-139 | With several CRs, paused or not, the pass finishes, sets the three conditions of its own CR and changes nothing else |
| Outcomes.GateOffIsDeployed | controllers/tektontasks_controller.go:152-174 | With the gate off the pass finishes with phase Deployed, the generation and the versions of the operator, and touches no object |
| Outcomes.FullPassReports | controllers/tektontasks_controller.go:430-576 | A full pass that finishes reports this generation and these versions and is not paused, and says Deployed if and only if every result is a success |
| Outcomes.InitializationIsRecorded | controllers/tektontasks_controller.go:300-303 | A new CR gets the finalizer, phase Deploying and the generation, and nothing else |
| Outcomes.MigrationIsRecorded | controllers/tektontasks_controller.go:305-321 | The old finalizer is replaced by the new one and all others stay, also for a CR that is being deleted |
| Outcomes.DeletionIsRecorded | controllers/tektontasks_controller.go:334-400 | A cleanup pass leaves phase Deleting as long as the CR is held, and phase Deleted when only others hold it, with the generation; and an empty cache |
| Outcomes.NothingWithoutCr | controllers/tektontasks_controller.go:90-101 | Without a CR the pass finishes; if the CR cannot be read, that is the verdict; nothing is written |
| Outcomes.ErrorIsRecorded | controllers/tektontasks_controller.go:586-625 | A conflict is requeued and says nothing; any other error is the verdict and is recorded, unless that write is rejected |
| Outcomes.OperandErrorStops | controllers/tektontasks_controller.go:157-163 | An operand's error ends the pass without results, and the status says so |
| Outcomes.PanicIsNotRecorded | pkg/tekton-tasks/tekton-tasks.go:243-246 | A panic while preparing ends the pass at once, with the status as it was while reconciling |
| Outcomes.LateStatusIsNoError | controllers/tektontasks_controller.go:392-399 | The last status write of a cleanup fails exactly for an error other than that the CR has changed or gone |
| Outcomes.CacheFollows | pkg/common/resource.go:192-208 | What a resource does to the cache: an error leaves it, a deleted or terminating object is forgotten, any other is known with its version, and nothing else is touched |
| Outcomes.DeletionCountsThrice | pkg/common/resource.go:431-440 | A resource that is being deleted counts against all three conditions |
| Outcomes.UnreadIsUntouched | pkg/common/resource.go:295-300 | An object that cannot be read is neither created nor changed |
| Outcomes.EngineReportsExactly | pkg/common/resource.go:290-328 | What the engine reports is what it did: only a read, or one create, update or delete of that key |
| Outcomes.EngineFailsExactly | pkg/common/resource.go:290-328 | When the engine fails, from the script and what is stored when its calls are served: it cannot read; its write is not served; the object to create is there, or the one to change is gone or has changed |
| Outcomes.CleanedExactly | pkg/common/resource.go:253-275 | How the cleanup of an owned object ends: still there if it was terminating or the request was served, gone if somebody else deleted it first, otherwise the request's error |
| Outcomes.FailedCallsDecide | controllers/tektontasks_controller.go:132-155 | Which verdict a failed list or first status write gives a pass for a CR that is being served: with several CRs or for a pause even a conflict is the verdict, before a full pass it is tried again |
| Outcomes.FailedFinalizerWriteDecides | controllers/tektontasks_controller.go:115-123 | While initializing and migrating a conflict is tried again and any other error is the verdict |
| Outcomes.FailedCleanupDecides | controllers/tektontasks_controller.go:125-130 | While cleaning up any error of the first status write is the verdict, and the cache stays |
| Outcomes.ConflictsAreRetried | controllers/tektontasks_controller.go:586-597 | Under any edits and faults a conflict never fails a pass that initializes, migrates or serves a single unpaused CR |
| Outcomes.FailedLastWriteDecides | controllers/tektontasks_controller.go:165-174 | The last status write of a full pass is judged like the first |
| Outcomes.GateSaysDeployed | controllers/crd_controller.go:111-132 | What the gate writes into a single CR, whatever was there |
| Lifecycle.StatusStaysCoherent | controllers/tektontasks_controller.go:323-473 | In every run without the multiple-CR step every status ever written has at most one condition of each type, and says Deployed only with Available true and the others false |
| Lifecycle.MultipleStepBreaksCoherence | controllers/tektontasks_controller.go:198-228 | The multiple-CR step breaks that exactly if the status says Deployed |
| Lifecycle.ObservedGenerationAdvances | controllers/tektontasks_controller.go:323-339 | In every run, no write lets the observed generation exceed the generation or fall, and metadata writes leave the status alone |
| Lifecycle.FinalizerGuard | controllers/tektontasks_controller.go:113-130 | In every run in which the first finalizer write is never turned away with another error than a conflict, operand objects are written only while the CR carries a finalizer; and from any moment of the run at which the operator has written one and not released the CR, the CR stays and keeps a finalizer until a cleanup pass that found nothing pending lets it go |
| Lifecycle.PassLetsGo | controllers/tektontasks_controller.go:364-388 | A pass, whatever the state, edits and faults, lets go of a held CR only if it read it as being deleted, recorded that, and then found nothing pending |
| Lifecycle.InitializationLosesFinalizer | controllers/tektontasks_controller.go:597-619 | If and only if: an initializing pass leaves a served CR without finalizer exactly when the server turns the finalizer write away and takes the error status |
| Lifecycle.LostFinalizerOrphans | controllers/tektontasks_controller.go:323-327 | What that costs: the CR gets all its objects and, when deleted, vanishes at once and leaves them all behind |
| Lifecycle.PassAdvances | controllers/tektontasks_controller.go:80-185 | One pass keeps the invariant behind these results, whatever happens around it |
| Tracking.StatusWriteEffect | controllers/tektontasks_controller.go:323-332 | Optimistic concurrency: a status write changes nothing, or exactly the status of the version that was read |
| Tracking.MetaWriteEffect | controllers/tektontasks_controller.go:323-327 | A metadata write changes nothing, or exactly the finalizers of the version that was read |
| Triggers.SelfTriggersEnd | controllers/tektontasks_controller.go:627-648 | Over any run at most two of the operator's own writes start a pass, plus two for each change a user makes to the CR; no status write does |
| Triggers.WatchedExactly | controllers/tektontasks_controller.go:637-645 | Whatever a user does to the CR or the operator writes starts a pass if and only if the spec, the labels, the annotations, the finalizers or the deletion mark differ |
| Triggers.UsersAreHeard | controllers/tektontasks_controller.go:628-636 | So an edit of the CR starts a pass exactly if it changes one of the three things users can edit, and deleting a CR that finalizers hold starts one |
| Triggers.CoalescedAreHeard | controllers/tektontasks_controller.go:637-645 | Also when several changes reach the operator as one: a difference that matters starts a pass |
| Triggers.InitializationStarts | controllers/tektontasks_controller.go:300-303 | Initializing starts the next pass exactly if the finalizer was not there yet |
| Triggers.MigrationStarts | controllers/tektontasks_controller.go:305-321 | Migrating the finalizer always starts the next pass |
| Pausing.OffPassWritesNothing | controllers/tektontasks_controller.go:141-174 | A pass that reads a paused CR, or one with the gate off, writes and deletes no operand object and reports no result |
| Pausing.OffRunWritesNothing | controllers/tektontasks_controller.go:141-174 | The same over any run while users leave the CR alone |
| Pausing.PausedRunWritesOnce | controllers/tektontasks_controller.go:141-150 | A paused run of any length makes at most one write, of the status, and none if the pause is already recorded |
| Pausing.UnpausedPassClearsRecord | controllers/tektontasks_controller.go:439-443 | The first full pass that succeeds after unpausing clears the record |
| CrdGate.WaitForCrds.Reconcile | controllers/crd_controller.go:56-83 | One event of the gate, with its failures |
| CrdGate.WaitForCrds.AllCrdsExist | controllers/crd_controller.go:100-109 | The fold over the map |
| CrdGate.WaitForCrds.UpdateConditions | controllers/crd_controller.go:111-132 | The status write that every event starts with |
| CrdGate.RefusedExactly | controllers/crd_controller.go:56-70 | An event is answered with an error if and only if its list is not answered, there are several CRs, its status write fails, or its lookup fails; stated from the script, the stored CR and the count. A missing CRD is no error |
| CrdGate.GateKnowsLastSeen | controllers/crd_controller.go:56-98 | Over every sequence of events the map keeps exactly the required names, each with whether it was found and not terminating in the last event about it that was not turned away |
| CrdGate.FinishedExactly | controllers/crd_controller.go:77-83 | An event that is not turned away finishes the wait if and only if by then every required CRD was last seen existing and not terminating; one that is turned away gets an error |
| CrdGate.RequiredCrdsExist | controllers/setup.go:79-90 | The nested loop says whether every required name is listed |
| CrdGate.CollectRequired | controllers/setup.go:34-37 | The required names of all operands, collected by appending |
| CrdGate.GateAgreesWithCheck | controllers/setup.go:46-50 | Fed one event per listed CRD, in any order and with repetitions, the gate ends with the start-up answer, if no listed CRD is being deleted |
| CrdGate.GateDisagreesExactly | controllers/setup.go:79-90 | With names listed once they disagree exactly if all required CRDs are listed and one of them is being deleted: the start-up check ignores the deletion |
| CrdGate.ConditionsSkipInitialization | controllers/crd_controller.go:127-131 | If and only if: while users leave the CR alone, the gate marks a never-served CR as deployed, hence initialized, without a finalizer, exactly when it is the only CR, the list is answered and the status write is not rejected |

## Left out

- Caching reads: the client is taken to read the server's state, while the real one reads an informer cache that may be behind.
- API server: conversions, defaulting and admission; the server stores what is sent. Marking an object for deletion does not raise its generation here.
- API server: the rule that no finalizer may be added to an object that is being deleted; finalizer migration is taken to come first.
- API server: namespaces, garbage collection by owner reference and the watches; a run is any sequence of passes, and `Controller.WatchPredicate` says which CR events cause one.
- Concurrency: one pass at a time, as the controller's single worker runs them; the interleaving is with users and other controllers.
- Controller.TektonTasksReconciler.ReconcileLive: the followed CR has one namespace and name; the others are counted, and the multiple-CR step's status writes of them are not modelled.
- Edits: users and other controllers give a CR its finalizers when they create it and never change them afterwards; finalizers of others therefore hold a deleted CR for good.
- Aliasing: maps and slices that the Go code shares between expected and found objects are values here; the update functions are idempotent on them.
- Operands.Prepare: writing the version label into a nil label map panics in Go; here a nil and an empty label map of an entry are the same.
- CrdGate.WaitForCrds.UpdateConditions: the source lists the CRs of the operator's namespace only, the model counts all CRs.
- CrdGate.RequiredCrdsExist: a CRD is its name and its deletion mark.
- Pausing.UnpausedPassClearsRecord: a pass that fails may leave the record of the pause behind, as in the code.
- StatusReport.AggregationExact: conditions carry no time stamps and no reason; the reason never changes.
- The option for a resource's own status function: no operand uses it, so every live object counts as healthy.
- Environment variables: the images and the operator version are constants of the environment.
- The bundle: reading and decoding it is not modelled; it is any list of entries with distinct identities.
- Empty namespaces: looking up a namespaced object without a namespace finds nothing here, as in the client's cache; a client without cache reports an error.
- The text of error messages beyond a prefix.
- Logging, the gauge, the manager and its wiring, scheme registration, generated code, scripts and manifests.
- `pauseCRs`: nothing calls it.
- The end of the wait phase through a cancelled context: `Finished` is the only end.
