# AgentTier: a model of its protocols, and proofs about them

AgentTier runs interactive and agent sandboxes on Kubernetes. This project models the parts of it
where a mistake is hard to see by reading one function, and proves what they promise.

`dafny verify dfyconfig.toml` checks everything.

How to read it: where the Go code changes an object step by step, the model is a class or a method
with the same branches, proved equal to a function on values (`Dispatch`, `Gate`, `Batch`, `Step`);
the theorems are lemmas about that function, over every input or every run. What the function
computes is stated apart from it, in terms of the stored objects, the request's own fields and the
calls that fail: `LifecycleOutcomes`, `GovernanceMeaning` and `BulkMeaning` hold nothing else. Failing API calls are
inputs everywhere: each pass, request or attempt carries the set of calls that fail in it.

| file | what it is about |
|---|---|
| `Lifecycle.dfy`, `SandboxReconciler.dfy`, `LifecycleOutcomes.dfy`, `LifecycleRuns.dfy`, `RestartBudget.dfy`, `Timeouts.dfy` | the sandbox state machine with pods, users, the clock and failing calls interleaved |
| `Deletion.dfy` | the deletion pass and the key stores together |
| `OrderedMerge.dfy`, `TemplateMerge.dfy`, `TemplateChain.dfy`, `PodConfig.dfy` | template inheritance: resolving a chain, merging it, the pod configuration |
| `ScopedKeys.dfy` | minting and revoking the sandbox-scoped API key over two stores without a transaction |
| `Governance.dfy`, `GovernanceMeaning.dfy`, `BulkCreate.dfy`, `BulkMeaning.dfy`, `PolicyStore.dfy` | admission of one sandbox and of a batch, and the policy ConfigMap under concurrent writers |
| `TokenBucket.dfy`, `RateLimiter.dfy` | keyed token buckets with eviction of idle entries |
| `NetworkPolicies.dfy` | a network specification compiled to a NetworkPolicy, under Kubernetes' reading of it |
| `ShellQuote.dfy`, `Base64.dfy`, `Sse.dfy`, `SseStandard.dfy` | three codecs, each against an independent reader |
| `BoundedWriters.dfy` | the writers that bound output |

## What turned out not to hold as described

Each of these is a lemma below that says exactly when the stated property does hold.

- Two replicas that both find no governance ConfigMap can lose one policy: the create race falls
  through to an update with the map read before the race (`PolicyStore.NoLostUpdates`).
- Auto-stop can be late when a limit is shorter than the first sleep: the pass that marks a sandbox
  Running always asks for thirty seconds. It can also be late for a sandbox that was restarted: the
  pass that finds the limit passed may reset the restart counter instead, and the stop waits for the
  next one. `Timeouts.AutoStopIsOnTime` has both conditions; with a limit of exactly five minutes any
  delay of that next pass is too much (`Timeouts.ResetAndLimitTogether`).
- The idle limit counts from the start: the field documented as the last exec session or API
  interaction is written by nothing but a start (`LifecycleRuns.ActivityIsTheStart`).
- A stop request is lost if the pod delete or the status write fails after the annotation was
  cleared (`LifecycleRuns.StopRequestHonoured`).
- Resuming with a warm pool gives the sandbox another claim (`LifecycleRuns.WarmResumeReplacesWorkspace`);
  `LifecycleRuns.WorkspaceChangesOnlyByWarmClaim` says exactly when.
- An automatic restart after a failed pod that nobody deleted ends in an Error without retry
  (`LifecycleRuns.RestartRebuildsOnlyAbsentPod`), for good (`LifecycleRuns.FailedPodIsNeverRecovered`).
- A comment gives the first backoff as 10 seconds. The count is raised first, so it is 20
  (`LifecycleRuns.BackoffOfRestart`).
- A create attempt that stops between its two creates leaves a hashed record that no deletion pass
  finds (`ScopedKeys.AbandonedRecordCanSurvive`). So does one that loses the race for the plaintext,
  which a comment calls free of double mints (`ScopedKeys.LostRaceLeavesRecord`). Deletion leaves
  exactly the records leaked in these ways (`ScopedKeys.OnlyLeakedRecordsSurvive`).
- A namespace policy's three agent fields never override the cluster's
  (`Governance.NamespaceAgentFieldsAreIgnored`), and a namespace cap that does not parse lifts the
  cluster's cap (`Governance.NamespaceCapCanLiftCluster`).
- A batch that passes the gate keeps the caps only as far as nobody else creates sandboxes between
  the gate's count and its own creates (`BulkCreate.CapsAmidOthers`).
- The router reads the mode of a template whose reference names no kind as that of the cluster-wide
  template of that name, the controller resolves the namespaced one: an agent can pass as a workspace
  and the other way round (`BulkMeaning.RouterReadsTheTemplate`).
- Templates are documented to override one field at a time. A child's service account is never used
  (`PodConfig.PodServiceAccount`), and a child that sets storage without a mount path drops its
  parents' path (`PodConfig.InheritedMountPath` has the exact condition).
- `allowInternet` closes the sandbox to everyone the ingress and peer rules let in
  (`NetworkPolicies.IngressIsMonotone`).
- The ceiling on concurrent invokes is converted to 32 bits, so a larger one may clamp to less or to a
  negative number (`Governance.ClampHoldsUpTo32Bits`).
- An empty write to a full output buffer marks the output truncated though nothing was lost
  (`BoundedWriters.CappedKeepsPrefix`).
- The command line does not read every event stream as the WHATWG standard does: it keeps an event
  name without data for the next event (`SseStandard.NameIsKept`, `SseStandard.NameIsForgotten`),
  delivers an event whose stream was cut short, with what there is of its data
  (`Sse.PrefixArrives`, `SseStandard.CutEventIsDelivered`), and trims names.
  `SseStandard.AgreesExactly` has the exact condition.
- With an idle bucket evicted before it can have refilled, eviction gives a caller tokens back
  (`RateLimiter.EvictionIsUnobservable`, `RateLimiter.WindowBound`).

## Model

| member | source | states |
|---|---|---|
| SandboxReconciler.Reconciler.StopSandbox | pkg/controller/sandbox_controller.go:681-712 | deletes the recorded pod, then writes Stopped without pod name and start; a failing delete or write leaves the status as it was |
| SandboxReconciler.Reconciler.HandleInfrastructureFailure | pkg/controller/sandbox_controller.go:775-813 | raises the restart counter, writes a retry with its backoff below the limit and a final Error at it; other failures are final |
| SandboxReconciler.Reconciler.TransitionToError | pkg/controller/sandbox_controller.go:816-825 | writes Error and the reason, or nothing when the write fails |
| SandboxReconciler.Reconciler.ReconcileCreating | pkg/controller/sandbox_controller.go:191-463 | a pass over a creating sandbox does what its plan commits, whatever calls fail |
| SandboxReconciler.Reconciler.StartWarmPod | pkg/controller/sandbox_controller.go:282-325 | the network policy is in place before the status that says Running, and the claim is the pool's |
| SandboxReconciler.Reconciler.CreateCold | pkg/controller/sandbox_controller.go:355-397 | secrets, then storage and isolation, then the pod; the first failure ends the pass in Error |
| SandboxReconciler.Reconciler.EnsureStorage | pkg/controller/sandbox_controller.go:375-397 | the claim is created if absent and recorded, then isolation; both survive a later failure |
| SandboxReconciler.Reconciler.EnsurePod | pkg/controller/sandbox_controller.go:399-463 | the pod is built when absent, and Running written when it is ready: the pass is that of the plan, whose outcomes LifecycleOutcomes states |
| SandboxReconciler.Reconciler.ReconcileRunning | pkg/controller/sandbox_controller.go:466-529 | stop annotation, lost and failed pods and the counter reset, in that order |
| SandboxReconciler.Reconciler.CheckTimeouts | pkg/controller/sandbox_controller.go:531-569 | stops at a passed limit, and otherwise sleeps until the nearest one |
| SandboxReconciler.Reconciler.ReconcileError | pkg/controller/sandbox_controller.go:590-624 | restarts only a retry under the limit whose backoff has passed, and otherwise waits for it |
| SandboxReconciler.Reconciler.ReconcileDelete | pkg/controller/sandbox_controller.go:627-678 | deletes pod, claim and policy and revokes the key, and only then removes the finalizer |
| SandboxReconciler.Reconciler.Reconcile | pkg/controller/sandbox_controller.go:140-182 | dispatches on deletion, finalizer and phase; the whole new state is that of the protocol's step |
| SandboxReconciler.Reconciler.DirectStopSandbox | pkg/controller/lifecycle.go:34-73 | stops a running sandbox and refuses any other |
| SandboxReconciler.Reconciler.ResumeSandbox | pkg/controller/lifecycle.go:76-111 | sends a stopped or failed sandbox back to Creating and refuses any other |
| SandboxReconciler.Reconciler.HandleStop | pkg/router/handlers.go:275-305 | sets the stop annotation on a running sandbox only |
| SandboxReconciler.Reconciler.HandleResume | pkg/router/handlers.go:307-335 | sets Creating on a stopped or failed sandbox and keeps its restart count |
| LifecycleRuns.BackoffDelayDoubles | pkg/controller/lifecycle.go:158-165 | the delay is ten seconds doubled per restart, at most 160, exactly until the 64-bit product wraps |
| LifecycleRuns.BackoffOfRestart | pkg/controller/lifecycle.go:156-165 | the delays the controller can ask for are 20, 40, 80 and 160 seconds |
| LifecycleRuns.ReachableInvariant | pkg/controller/sandbox_controller.go:301-315 | in every run Running has a pod, a start and a network policy, Stopped has neither pod nor start, and a pending retry is between one and four |
| LifecycleRuns.PhaseMoves | pkg/controller/sandbox_controller.go:140-182 | phases move along the documented edges; only users leave Stopped, and Error is left by the controller only when the backoff since the start is over |
| LifecycleRuns.WorkspaceChangesOnlyByWarmClaim | pkg/controller/sandbox_controller.go:230-315 | the recorded claim is replaced exactly when a pass adopts a warm pod with another claim and no call of it fails |
| LifecycleRuns.SameWorkspace | pkg/controller/pvc.go:62-63 | in a run without warm claims a set claim name stays the workspace's for ever and the claim exists until deletion |
| LifecycleRuns.EveryBuiltPodMountsWorkspace | pkg/controller/sandbox_controller.go:380-415 | every pod ever built, in any run, mounts the workspace claim |
| LifecycleRuns.OnlyDeletionRemovesClaims | pkg/controller/sandbox_controller.go:627-678 | no step but a deletion pass removes a claim, and that one only the recorded claim |
| LifecycleRuns.WarmResumeReplacesWorkspace | pkg/controller/sandbox_controller.go:233-315 | any stopped sandbox resumed while a pool pod can be adopted comes back on the pool's claim |
| LifecycleRuns.FinalizerGoesLast | pkg/controller/sandbox_controller.go:627-678 | the finalizer goes only in a pass that issued every delete in order and whose key step did not fail |
| LifecycleRuns.FinalErrorStays | pkg/controller/sandbox_controller.go:590-606 | an Error without retry keeps its status in every run without a user's resume |
| LifecycleRuns.ActivityIsTheStart | pkg/controller/sandbox_controller.go:433-437 | in every run a running sandbox's last activity is its start |
| Deletion.FinalizerGoesAfterEverything | pkg/controller/sandbox_controller.go:627-678 | when the finalizer goes the recorded pod, claim and policy are gone, the stored key has no record, and the records left are those of leaked keys |
| LifecycleRuns.StopRequestHonoured | pkg/controller/sandbox_controller.go:472-483 | a stop request is honoured exactly when neither the pod delete nor the status write fails, and otherwise lost |
| LifecycleRuns.RestartRebuildsOnlyAbsentPod | pkg/controller/sandbox_controller.go:408-458 | a pass that adopts no warm pod rebuilds the pod exactly when none is left, and ends in an Error without retry exactly when a failed one is |
| LifecycleRuns.FailedPodIsNeverRecovered | pkg/controller/sandbox_controller.go:455-813 | a failed cold pod that nobody deletes is retried once after its backoff, and that ends in an Error no later step but a user's leaves |
| LifecycleOutcomes.CreatingEndsInRunning | pkg/controller/sandbox_controller.go:191-463 | a pass over a creating sandbox ends in Running exactly when it adopts and isolates a warm pod, or reaches its own pod and finds that running and ready, and the status write goes through |
| LifecycleOutcomes.CreatingEndsInError | pkg/controller/sandbox_controller.go:191-463 | and in Error exactly when a step before the look at the pod fails, the pod cannot be created, or the pod has failed |
| LifecycleOutcomes.CreatingStays | pkg/controller/sandbox_controller.go:399-463 | and otherwise stays in Creating, with its new pod's name and claim or as it was, and asks again in a second unless the look at the pod or the write failed |
| LifecycleOutcomes.RunningHasItsFields | pkg/controller/sandbox_controller.go:293-452 | Running is written with its pod's name, its claim, start and activity at the clock, no message and the old restart count, and looks again in thirty seconds |
| LifecycleOutcomes.CreatingErrorIsPlain | pkg/controller/sandbox_controller.go:816-825 | an Error of this phase is final and changes nothing but phase, message and the recorded claim |
| LifecycleOutcomes.CreatingLeaves | pkg/controller/sandbox_controller.go:355-428 | the claim, the policy and the pod left behind are exactly those of the steps the pass got through, the new pod on the workspace claim |
| LifecycleOutcomes.DownPodIsQuoted | pkg/controller/sandbox_controller.go:453-458 | a failed pod's own reason is the Error's message |
| LifecycleOutcomes.ReasonIsTheFirst | pkg/controller/sandbox_controller.go:841-858 | that reason is the first terminated or crash-looping container's |
| LifecycleOutcomes.SilentContainersGiveNoReason | pkg/controller/sandbox_controller.go:841-858 | and where there is none the pod's own, or unknown |
| LifecycleOutcomes.ColdStartSucceeds | pkg/controller/sandbox_controller.go:355-452 | as a run: a pass without faults builds the pod, the pod comes up after any wait, and the next pass ends in Running on it with claim, policy and start |
| LifecycleOutcomes.VerdictIsTheFirst | pkg/controller/lifecycle.go:167-200 | the application is to blame exactly when the first container that says who ended it says so |
| LifecycleOutcomes.VanishedPodIsRetried | pkg/controller/sandbox_controller.go:488-500 | a running sandbox whose pod is gone is retried with its backoff below the limit and fails for good at it |
| LifecycleOutcomes.FailedPodIsJudged | pkg/controller/sandbox_controller.go:504-507 | a failed pod is retried so exactly unless the application failed, which is a final Error that costs no restart |
| LifecycleOutcomes.CompletedPodIsStopped | pkg/controller/sandbox_controller.go:508-510 | a completed pod is deleted and the sandbox stopped, a failing delete or write changing no status |
| LifecycleOutcomes.RequestedStop | pkg/controller/sandbox_controller.go:472-483 | a requested stop clears the request first and then stops; if clearing fails nothing happens |
| LifecycleOutcomes.KeptPodIsTimed | pkg/controller/sandbox_controller.go:512-569 | any other pod is kept: the counter is reset when a ready pod has outlasted the window, else the idle limit stops it before the runtime limit, else nothing changes |
| LifecycleOutcomes.ErrorWaitsForItsBackoff | pkg/controller/sandbox_controller.go:590-624 | an Error is left only for a pending retry under the limit whose backoff since the start is over, and until then the pass asks to be woken exactly then |
| LifecycleOutcomes.FinalizerComesFirst | pkg/controller/sandbox_controller.go:140-182 | a live object without the finalizer is given it and nothing else happens |
| LifecycleOutcomes.DeletionCompletes | pkg/controller/sandbox_controller.go:627-678 | the finalizer goes exactly when none of the deletion's calls fails |
| LifecycleOutcomes.DeletionGoesInOrder | pkg/controller/sandbox_controller.go:627-678 | a deletion that stops short has taken away exactly what comes before the failing call |
| LifecycleOutcomes.UsersAct | pkg/router/handlers.go:275-335 | a stop is noted on a running sandbox, a resume sends a stopped or failed one back to Creating with counter, claim and start kept, and neither changes one in another phase |
| LifecycleOutcomes.DirectStopStops | pkg/controller/lifecycle.go:34-73 | a stop by call does the same to a running sandbox as a stop by the controller, and nothing to any other |
| LifecycleOutcomes.DirectResumeNeedsItsClaim | pkg/controller/lifecycle.go:76-111 | a resume by call succeeds only on a stopped or failed sandbox whose recorded claim is there |
| LifecycleOutcomes.LogIsTrue | pkg/controller/sandbox_controller.go:140-182 | the history the budget theorem counts over says exactly what each pass did: a restart, a reset, a pod built |
| RestartBudget.BudgetHolds | pkg/controller/sandbox_controller.go:519-529 | in every run at most four restarts lie between two resets, resets are five minutes apart, and no restart is early |
| RestartBudget.RestartsPerSegment | pkg/controller/sandbox_controller.go:775-813 | a window holds at most four restarts per reset in it, and four more |
| RestartBudget.ResetsAreSpaced | pkg/controller/sandbox_controller.go:519-529 | a window of length T holds at most T/5min + 1 resets |
| RestartBudget.RestartBudgetTheorem | pkg/controller/sandbox_controller.go:590-624 | whatever pods, users and failing calls do, a window of length T holds at most 4*(T/5min + 2) automatic restarts |
| Timeouts.ResolvedTimeoutIsGoverned | pkg/controller/timeout.go:71-90 | a resolved timeout never passes the governance limit nor loosens the request, and is infinite exactly when allowed to be |
| Timeouts.NextLookIsClose | pkg/controller/timeout.go:151-172 | the next look comes at most a second after any deadline ahead, and no sooner than the earliest |
| Timeouts.HealthyPassStopsWhenDue | pkg/controller/sandbox_controller.go:519-569 | a pass over a healthy sandbox resets the restart counter if that is due, else stops it exactly when a limit has passed, else sleeps until the nearest one |
| Timeouts.AutoStopIsOnTime | pkg/controller/sandbox_controller.go:531-569 | over every watch of passes from the starting to the stopping one, for any restart count and any delay of requeued passes, a sandbox is stopped not before a deadline, under two seconds after an idle and within one after a runtime deadline, exactly when the limits outlast the first sleep and the pass that resets the counter |
| Timeouts.ResetAndLimitTogether | pkg/controller/sandbox_controller.go:519-569 | when the reset and the runtime limit fall due together the stop is on time only if the requeued pass is immediate |
| Timeouts.ResetDelaysOnlyNearTheWindow | pkg/controller/sandbox_controller.go:519-569 | limits not around the five minutes are met by restarted sandboxes too |
| OrderedMerge.DedupMeaning | pkg/controller/template_resolver.go:322-388 | the merged list has each key once, in first-occurrence order with the last occurrence's value |
| OrderedMerge.DedupAbsorbs | pkg/controller/template_resolver.go:322-388 | deduplicating either part before the whole changes nothing |
| OrderedMerge.MergeIsAssociative | pkg/controller/template_resolver.go:322-388 | merging keyed lists is associative, empty sides included |
| OrderedMerge.Collect | pkg/controller/template_resolver.go:331-347 | one map-and-order loop leaves a map and an order that together stand for the merged list |
| OrderedMerge.MergeEntries | pkg/controller/template_resolver.go:322-388 | the two loops and the final pass over the order give the ordered merge |
| OrderedMerge.MergeAllIsDedup | pkg/controller/template_resolver.go:171-188 | along a chain the merge is one deduplication of the concatenation, unless at most one list says anything |
| TemplateMerge.MergeSpecsIsAssociative | pkg/controller/template_resolver.go:193-248 | merging template specs is associative in every field, harness and agent included |
| TemplateMerge.MergeChain | pkg/controller/template_resolver.go:171-188 | the loop folds the chain root first |
| TemplateMerge.AnyGroupingAgrees | pkg/controller/template_resolver.go:171-319 | every bracketing of a chain merges to the same spec |
| TemplateMerge.DeepestMeaning | pkg/controller/template_resolver.go:193-248 | the deepest value is the last set one, and none exactly when none is set |
| TemplateMerge.ScalarsAreDeepest | pkg/controller/template_resolver.go:193-319 | each scalar, nested agent fields included, is that of the deepest template that sets it |
| TemplateMerge.RootFields | pkg/controller/template_resolver.go:193-248 | service account and parent reference are the root's, never a child's |
| TemplateMerge.ListsAreConcatenated | pkg/controller/template_resolver.go:193-295 | additive lists are the chain's concatenation |
| TemplateMerge.KeyedAreMerged | pkg/controller/template_resolver.go:193-319 | environment, files and the agent's environment are the ordered merge along the chain |
| PodConfig.MergeSandboxWithTemplate | pkg/controller/template_resolver.go:392-515 | the pod's lists are template then sandbox, the memory sidecar and its variable last and only for agents with an image for it, the harness the template's, and the scalars those of the layers |
| PodConfig.PodEnvAlongChain | pkg/controller/template_resolver.go:472-477 | the pod's environment is one ordered merge from the root to the sandbox |
| PodConfig.ScalarsByLayer | pkg/controller/template_resolver.go:400-448 | each of the six scalars is the innermost one set, of default, template and sandbox |
| PodConfig.PodScalarsAlongChain | pkg/controller/template_resolver.go:171-448 | image, resources, runtime class and privilege are the innermost one set over defaults, root, every child and sandbox |
| PodConfig.PodServiceAccount | pkg/controller/template_resolver.go:193-440 | the service account is the sandbox's or the root template's, whatever the children say |
| PodConfig.InheritedMountPath | pkg/controller/template_resolver.go:193-425 | the mount path is the innermost one set along the chain exactly unless the deepest template with storage leaves it out and another is set above |
| TemplateChain.PathIsDistinct | pkg/controller/template_resolver.go:85-121 | a chain that ends never meets a stored template twice |
| TemplateChain.SpellingIsInjective | pkg/controller/template_resolver.go:85-98 | references to stored templates with one spelling are the same reference |
| TemplateChain.RepeatedSpellingNeverEnds | pkg/controller/template_resolver.go:85-98 | a spelling met before is reported only where following parents never ends |
| TemplateChain.TemplateResolver.ResolveChain | pkg/controller/template_resolver.go:85-121 | terminates, and succeeds exactly when a parentless template is reached within the depth left, with that path root first; an error is a cycle only where a spelling recurs and no end is reached, the depth only where more references follow, and otherwise the failure met |
| TemplateChain.ResolvedExactly | pkg/controller/template_resolver.go:51-81 | resolving succeeds exactly when the chain ends within ten templates, and merges the whole path under the name of the referenced one |
| TemplateChain.TemplateResolver.Resolve | pkg/controller/template_resolver.go:51-81 | no reference resolves to nothing; any other to what its exact chain gives |
| TemplateChain.FetchedObject | pkg/controller/template_resolver.go:124-161 | no kind means a namespaced template, no namespace the sandbox's; an unknown kind, a missing object and a failing read are told apart |
| TemplateChain.FailureIsReported | pkg/controller/template_resolver.go:85-121 | a reference on the way that cannot be fetched is what is reported, unless a spelling recurs before it |
| ScopedKeys.RunInv | pkg/controller/scoped_key.go:115-217 | in every run every minted key is stored, held by one attempt or abandoned, and every record is of a minted key |
| ScopedKeys.PlaintextIsForever | pkg/controller/scoped_key.go:115-183 | once created the plaintext key never changes, whatever attempts interleave, fail or stop |
| ScopedKeys.CrashConsistency | pkg/controller/scoped_key.go:115-283 | until deletion starts the stored key has its record, and once the finalizer is gone it has none |
| ScopedKeys.OnlyLeakedRecordsSurvive | pkg/controller/scoped_key.go:251-283 | a completed deletion leaves exactly the records of leaked keys, and none exactly when none leaked |
| ScopedKeys.RecordsAtRest | pkg/controller/scoped_key.go:115-217 | before deletion, with no attempt under way, the records are those of the stored key and of the leaked ones |
| ScopedKeys.RunTraced | pkg/controller/scoped_key.go:115-283 | in every run an abandoned key has a record exactly if its attempt ended after writing one |
| ScopedKeys.AbandonedRecordCanSurvive | pkg/controller/scoped_key.go:144-181 | such a record is reachable: an attempt that stops between its two creates |
| ScopedKeys.LostRaceLeavesRecord | pkg/controller/scoped_key.go:173-181 | an attempt that loses the race for the plaintext leaves its record beside the winner's |
| ScopedKeys.KeySecrets.EnsureHashedScopedKeyRecord | pkg/controller/scoped_key.go:191-217 | success means the record is there; a record already there makes the create a success |
| ScopedKeys.KeySecrets.EnsureSandboxAPIKeySecret | pkg/controller/scoped_key.go:115-183 | for every answer of its calls, with another attempt storing a key in between or not: when it succeeds, which key is stored and which records are there; a stored key is kept and its record restored, a new key stored only after its record; all as the state machine's steps do |
| ScopedKeys.AttemptIsARun | pkg/controller/scoped_key.go:115-183 | from any reachable state of a live sandbox the method leaves both stores as some run of the state machine does |
| ScopedKeys.KeySecrets.RevokeSandboxAPIKey | pkg/controller/scoped_key.go:251-283 | fails exactly when the key cannot be read, or its record cannot be looked up, or a record that is there cannot be deleted; the record goes exactly when the delete takes effect; the calls are the state machine's |
| ScopedKeys.AppliedPassDeletes | pkg/controller/scoped_key.go:251-283 | in every run a deletion pass whose calls are all applied ends with the stored key's record and the finalizer gone, and no other record |
| ScopedKeys.DeletionCanFinish | pkg/controller/scoped_key.go:251-283 | from every reachable deleting state with nothing under way such a pass leads to a reachable deleted one |
| RateLimiter.GateCostsItsItems | pkg/router/ratelimit.go:280-314 | a request of cost N passes both layers exactly when N single ones at that instant would, and leaves both tables as they would |
| RateLimiter.Limiter.GateRequestN | pkg/router/ratelimit.go:280-333 | charges the address first, then the user; both tables and the answer are those of the reference gate |
| RateLimiter.Limiter.EvictStale | pkg/router/ratelimit.go:241-255 | removes exactly the entries not seen within the time to live |
| RateLimiter.GateAsks | pkg/router/ratelimit.go:280-333 | a request passes when first its address's and then its user's bucket, full when new and refilled since, holds its cost; only what is asked changes, only the admitting bucket pays, and a cost below one is one |
| RateLimiter.EvictionIsUnobservable | pkg/router/ratelimit.go:241-333 | for every request sequence and eviction schedule the answers are those of a limiter that never evicts, exactly when each layer in use refills within the time to live |
| RateLimiter.DefaultEvictionIsUnobservable | pkg/router/ratelimit.go:84-93 | the default configuration meets that condition |
| RateLimiter.WindowBound | pkg/router/ratelimit.go:241-333 | over every run, every schedule of evictions and any window, the requests of a key that the limiter lets through cost at most its burst and what the window refills, exactly when its layer refills within the time to live |
| Governance.NamespaceAgentFieldsAreIgnored | pkg/governance/policy.go:284-332 | a resolved policy overrides field by field exactly when the namespace sets no agent field of its own |
| Governance.NamespaceCapCanLiftCluster | pkg/governance/policy.go:299-332 | what the cluster's cap on a resource refuses stays refused exactly when the namespace sets none, or one as tight that parses |
| Governance.CountUsage | pkg/governance/policy.go:346-364 | counts each sandbox neither deleting nor failed, by owner and by mode |
| Governance.CheckResourceLimits | pkg/governance/engine.go:147-200 | appends the violated value caps and nothing else, in order |
| Governance.Check | pkg/governance/engine.go:62-133 | lists every violated rule in order |
| Governance.ViolationsMean | pkg/governance/engine.go:62-200 | each violation is listed exactly when its own rule refuses |
| Governance.NoViolationMeans | pkg/governance/engine.go:62-200 | the list is empty exactly when every allowlist, count and value rule is met |
| Governance.ClampHoldsUpTo32Bits | pkg/governance/engine.go:276-292 | for every request the result is the tighter of request and ceiling, zero being no limit, exactly when the ceiling fits in 32 bits |
| Governance.CheckBulk | pkg/governance/engine.go:209-232 | passes exactly when the counts with the batch added stay within the caps, each violation for its own cap |
| Governance.AgentFieldsDecide | pkg/governance/policy.go:284-332 | in a resolved policy the three agent fields are the cluster's whenever it has a policy |
| Governance.ResolvedPolicyIsMixed | pkg/governance/policy.go:284-332 | every other field is the namespace's where it sets one and the cluster's where not |
| GovernanceMeaning.UsageIsCounting | pkg/governance/policy.go:346-364 | usage is the number of sandboxes neither deleting nor failed, of those the user's, and of those agents; a stopped one counts |
| GovernanceMeaning.ApprovedImages | pkg/governance/engine.go:243-253 | an image is approved exactly when it continues a non-empty registry of the list |
| GovernanceMeaning.ViolationsAreInOrder | pkg/governance/engine.go:62-200 | each violation is listed once, in the order of the rules |
| GovernanceMeaning.EmptyPolicyAllowsAll | pkg/governance/policy.go:112-126 | skipping the rules of an empty policy skips nothing |
| Governance.BulkIsSequential | pkg/governance/engine.go:209-232 | the batch gate passes exactly when the items pass one after another with usage recounted after each |
| Governance.BulkIsEveryOrder | pkg/governance/engine.go:202-232 | and that for every order of the items |
| Governance.GateCoversItems | pkg/governance/engine.go:87-109 | past the gate no single item is refused by a count rule |
| BulkCreate.Server.GroupByNamespace | pkg/router/bulk_handlers.go:114-122 | groups the item indices under their namespace, the default one for none |
| BulkCreate.Server.CreateOne | pkg/router/bulk_handlers.go:184-249 | creates the item or answers its first error, and appends at most its own sandbox |
| BulkCreate.Server.OpenGate | pkg/router/bulk_handlers.go:123-156 | refuses exactly when some governed namespace of the batch cannot be listed or lacks room, naming one |
| BulkCreate.Server.HandleBulkCreate | pkg/router/bulk_handlers.go:68-169 | creates nothing unless every gate opens, and otherwise does each item in turn with its result by index; BulkMeaning says what each result is |
| BulkCreate.BatchIsOneByOne | pkg/router/bulk_handlers.go:158-165 | a batch past the gate does exactly what its items do one request after another, each checked on the usage it finds |
| BulkCreate.UsageGrowsByAsked | pkg/router/bulk_handlers.go:158-165 | a namespace gains at most what was asked of it |
| BulkCreate.BatchStaysWithinCaps | pkg/router/bulk_handlers.go:112-165 | every governed namespace of the batch ends within its caps, or with no agent more where the agent cap was passed before |
| BulkCreate.CapsAmidOthers | pkg/router/bulk_handlers.go:123-165 | with others creating in between, a batch all of whose items are created ends within the caps exactly when it fits on top of the others' sandboxes too |
| BulkCreate.ItemsAreIndependent | pkg/router/bulk_handlers.go:184-249 | past the gate an item is created exactly when it is acceptable by itself, and no count rule is among its errors |
| BulkCreate.BatchAccountsForResults | pkg/router/bulk_handlers.go:158-249 | a batch keeps what was there, gives no name out twice, and adds exactly one sandbox, with the item's name, namespace, owner and mode, for each result that says created |
| BulkMeaning.GateOpensIff | pkg/router/bulk_handlers.go:112-156 | the gate opens exactly when every governed namespace of the batch can be listed and has room, counted out over sandboxes and items, for all of them, the caller's and the agents |
| BulkMeaning.ItemIsCreatedIff | pkg/router/bulk_handlers.go:184-249 | past the gate an item is created exactly when it is complete, each of its own fields conforms to its namespace's policy, its name is free by then and the server takes it |
| BulkMeaning.ItemErrorIsItsOwn | pkg/router/bulk_handlers.go:184-249 | otherwise the first thing wrong is its error, and the listed violations are exactly those of its own timeout, idle timeout, storage, template, image and resources |
| BulkMeaning.CreatedSandbox | pkg/router/bulk_handlers.go:243-249 | a created item's sandbox has its name, namespace and mode, is the caller's and counts at once |
| BulkMeaning.ItemModeIsTheTemplates | pkg/router/handlers.go:2085-2120 | an item is an agent exactly when the template object the router reads is one of that mode |
| BulkMeaning.RouterReadsTheTemplate | pkg/router/handlers.go:2093-2120 | that object is the one the controller resolves exactly when the reference names its kind |
| PolicyStore.ConfigMapStore.LoadAndApply | pkg/governance/policy.go:157-176 | reads the map and its version and applies the operation to the copy in hand |
| PolicyStore.ConfigMapStore.Save | pkg/governance/policy.go:178-212 | updates under the version read, or creates, with other replicas running before each call; success exactly when its last call took effect |
| PolicyStore.ConfigMapStore.Overwrite | pkg/governance/policy.go:192-212 | a lost create race fetches the current version and writes the map in hand over it |
| PolicyStore.ConfigMapStore.Change | pkg/governance/policy.go:248-277 | with nothing written between load and save and no call failing, the policy is set or gone and no other changes, and that is reported; with a ConfigMap there it succeeds only then; call by call it is the state machine |
| PolicyStore.ChangeAlone | pkg/governance/policy.go:248-277 | with nobody else about, setting or deleting takes effect at the first call and changes its own entry alone |
| PolicyStore.RaceFreeLosesNothing | pkg/governance/policy.go:157-212 | without a lost create race the stored map is the fold of exactly the successful operations in the order they took effect |
| PolicyStore.FirstWritersRace | pkg/governance/policy.go:190-212 | two first writers both succeed and only the second's operation is stored |
| PolicyStore.ChangeLosesNothing | pkg/governance/policy.go:248-277 | the store's own set and delete lose no update once the ConfigMap exists, amid any other replicas and failing calls |
| PolicyStore.NoLostUpdates | pkg/governance/policy.go:157-212 | no interleaving loses an update exactly when the ConfigMap exists at the start |
| PolicyStore.LastWriteStands | pkg/governance/policy.go:157-277 | in every run with a ConfigMap at the start each entry is that of the last successful operation on it, gone if that was a delete, and the first one if there was none |
| NetworkPolicies.BuildRouterIngressRule | pkg/controller/networkpolicy.go:137-162 | lets in exactly router pods of that namespace on TCP 9000 |
| NetworkPolicies.BuildDNSRule | pkg/controller/networkpolicy.go:165-176 | lets out exactly UDP and TCP on port 53 |
| NetworkPolicies.BuildPeerRule | pkg/controller/networkpolicy.go:240-267 | matches exactly the selected pods of the namespace, managed sandboxes by default |
| NetworkPolicies.BuildEgressRule | pkg/controller/networkpolicy.go:179-212 | matches the block, any pod when a service is named, anything when neither is, on the ports listed or all |
| NetworkPolicies.BuildIngressRule | pkg/controller/networkpolicy.go:215-237 | matches the block or anyone, on the ports listed or all; a service named here says nothing |
| NetworkPolicies.Build | pkg/controller/networkpolicy.go:53-131 | under Kubernetes' semantics a flow goes out iff it is name lookup, the Internet is allowed or a rule or peer rule means it, and comes in iff the user's rules or the router option mean it, on every return path |
| NetworkPolicies.EgressIsExactly | pkg/controller/networkpolicy.go:53-212 | what may go out, spelled out over ports, blocks, services and peers: without a specification only name lookups |
| NetworkPolicies.IngressIsExactly | pkg/controller/networkpolicy.go:105-162 | what may come in, spelled out: without the Internet the user's rules and peers, and the router on TCP 9000 where opted for |
| NetworkPolicies.EgressIsMonotone | pkg/controller/networkpolicy.go:105-128 | more in a specification never closes a way out |
| NetworkPolicies.IngressIsMonotone | pkg/controller/networkpolicy.go:105-128 | more in a specification closes no way in exactly unless it newly allows the Internet to a sandbox that some rule or possible peer could reach |
| NetworkPolicies.Reconciler.EnsureNetworkPolicy | pkg/controller/networkpolicy.go:276-310 | success puts the specification in force under its own name, failure changes nothing |
| ShellQuote.PtyShellQuote | pkg/sandboxruntime/pty.go:549-563 | the quoted text is read by a POSIX shell as one word, the text itself |
| ShellQuote.ScanQuoted | pkg/sandboxruntime/pty.go:549-563 | wherever a word may stand, the quoted text adds exactly the text to it |
| ShellQuote.QuotingIsInjective | pkg/sandboxruntime/pty.go:549-563 | different texts are never quoted alike |
| ShellQuote.WrapperTokens | pkg/sandboxruntime/pty.go:522-539 | for every session and shell the wrapper is read as the intended commands, session, shell and configuration each one unchanged word |
| ShellQuote.BuildPTYCommand | pkg/sandboxruntime/pty.go:512-542 | the shell itself without a session, and otherwise the wrapper that is read so |
| Base64.Base64Encode | cmd/cli/main.go:332-361 | the bit-shifting loop writes a text that a decoder of RFC 4648 section 4 turns back into the input |
| Base64.RoundTrip | cmd/cli/main.go:332-361 | decoding inverts encoding for every byte sequence |
| Base64.DecodesOnlyEncodings | cmd/cli/main.go:332-361 | and encoding inverts decoding: no two texts decode alike |
| Base64.EncodedShape | cmd/cli/main.go:345-358 | four characters per three bytes begun, and padding as the remainder asks, at the end only |
| Base64.CharactersOf | cmd/cli/main.go:345-358 | each character spelled out in the bits of its octets, for one, two and three octets, and longer texts three by three |
| Sse.Stream.WriteEvent | pkg/sandboxruntime/invoke.go:314-321 | appends the event's two field lines and an empty line |
| Sse.ParseSSE | cmd/cli/main.go:556-597 | the line loop is the parser the theorems speak of |
| Sse.StreamArrives | cmd/cli/main.go:556-597 | any stream of events and comments arrives as its own trimmed events in order, up to the first line too long |
| Sse.RoundTrip | cmd/cli/main.go:556-597 | the list comes back exactly when no name has surrounding blanks and no body ends in a carriage return |
| Sse.PrefixArrives | cmd/cli/main.go:556-597 | of a stream cut after any number of characters the events before the cut arrive, and the one it falls in exactly if the cut is behind its data field's name, with so much of its data |
| SseStandard.AgreesWithStandard | pkg/sandboxruntime/invoke.go:311-321 | a parser of WHATWG HTML sections 9.2.5 and 9.2.6 reads what was written, and the command line's agrees with it |
| SseStandard.AgreesExactly | cmd/cli/main.go:556-597 | over all texts of comment, event, data, empty and unknown lines and any unterminated rest, the command line reads what the standard does exactly when no data is left open at the end and each event's own name reads alike, or it has none and none was carried over an empty line |
| SseStandard.CutEventIsDelivered | cmd/cli/main.go:594 | with data left open at the end the command line delivers one event more than the standard |
| SseStandard.NameIsKept | cmd/cli/main.go:566-593 | a name without data is taken by the next event |
| SseStandard.NameIsForgotten | cmd/cli/main.go:566-593 | where the standard's parser falls back to the default name |
| BoundedWriters.CappedBuffer.Write | pkg/sandboxruntime/exec.go:209-223 | reports every byte consumed, keeps what fits and notes what does not |
| BoundedWriters.CappedKeepsPrefix | pkg/sandboxruntime/exec.go:209-223 | for every cut into writes the first max bytes are kept, and truncated means that bytes were lost or an empty write met a full buffer |
| BoundedWriters.CappedIgnoresChunking | pkg/sandboxruntime/exec.go:209-223 | without empty writes the cut makes no difference and truncated says exactly whether bytes were lost |
| BoundedWriters.BoundedBuffer.Write | pkg/router/archive.go:369-379 | reports every byte consumed and keeps what fits |
| BoundedWriters.BoundedKeepsPrefix | pkg/router/archive.go:369-379 | for every cut into writes the first max bytes are kept |
| BoundedWriters.CountingWriter.Write | pkg/router/archive.go:341-360 | hands on what is left of the limit and fails where that is not all, whatever the writer underneath answers |
| BoundedWriters.WriteIsAccountedFor | pkg/router/archive.go:341-360 | a write reports exactly the bytes it added, from the front of its own, and fewer than given only with a failure; it hits the limit exactly when they do not fit |
| BoundedWriters.SinkIsBounded | pkg/router/archive.go:341-360 | no more than max bytes reach the writer underneath, in any run |
| BoundedWriters.ExceededIsForEver | pkg/router/archive.go:341-360 | once the limit is hit every write fails and nothing more gets through |
| BoundedWriters.FailureLeavesPrefix | pkg/router/archive.go:341-360 | a copy that stops at its first failure leaves a prefix of its bytes |
| BoundedWriters.CopySucceedsIffItFits | pkg/router/archive.go:341-360 | a copy of non-empty writes goes through exactly when it fits and nothing underneath fails |
| BoundedWriters.CountingIgnoresChunking | pkg/router/archive.go:341-360 | over a writer that never fails the first max bytes get through, and the limit is reported exactly when some did not |

## Left out

Assumptions of the lifecycle model:

- One clock reading per pass, whole timestamps: rounding of stored times to seconds is not modelled.
- Integers are unbounded except in the backoff delay, where 64-bit wrap-around is written out.
- Reads see the current object, passes over one sandbox do not overlap, and the pool's answer to a claim is an input.
- A status write that was applied but reported as failed, and claims, policies and secrets deleted by others.
- Failure to adopt a pool's claim, which the code only logs; snapshots on stop; events, notifications and metrics.
- The status fields that record the resolved template and agent, and the runtime-token Secret beyond its failure.
- Error texts: only the retry message is taken to hold the marker that the retry gate searches for.

Assumptions elsewhere:

- SHA-256 is injective, also on the prefix used in Secret names, generated keys never repeat, and the install namespace is not empty.
- Deletion passes over a sandbox do not overlap its create attempts.
- In the policy store a write is either reported truthfully or not applied, and JSON is the map itself.
- A batch reads a template's mode once; the code reads it twice.
- How long the work queue holds a pass back that asks to be requeued at once is a parameter of the auto-stop theorem.
- SseStandard.AgreesExactly: lines that do not fit the scanner's buffer, lines that are a field name without a colon, and carriage returns are not among its texts.
- Quantities and durations are numbers; a cap that does not parse is a value of its own.
- BulkCreate.BatchStaysWithinCaps: assumes that nobody else creates sandboxes during the batch; CapsAmidOthers says when the bound holds without that.
- Membership of an address in a block is given with the flow; the ends of a service are not resolved, as in the code.
- Shell text that needs an expansion, a comment or double quotes outside single quotes is not read by the model's lexer; the wrapper has none.
- Texts are sequences of bytes: white space beyond ASCII is not trimmed, and no stream starts with a byte order mark.
- A slice shared between a merged list and its parent is not modelled: appending never writes through.

Not modelled:

- HTTP routing, authentication, WebSocket and SPDY streams, health probes, the Python SDK and the web interface.
- JSON encoding of event bodies: a body is its text; what the parser makes of JSON is left to the caller.
- The delay a refused request is told to wait, the limiter's locks and the library's reservations.
- The warm pool, backups, webhooks, SQL storage and the memory service behind the sidecar.
- Mounts, security contexts and labels of pods, owner references, and the size and class of claims.
- The registry of running invocations, and the text that marks truncated output.
