# Verification model of the SFS Turbo operator

The operator keeps one `SfsTurboInstance` resource in step with one SFS Turbo
share. It works in passes over two stores that it does not control, the
Kubernetes API and the cloud, and its only memory between passes is the status
of the resource. This project models that and proves what follows from it.

- `Errors`, `Conditions`, `Types`, `Poll`: the values. The error chain and its
  classification, the condition list, the objects of the stores, and what a full
  poll writes as a function of what it read.
- `Protocol`: the reconcile protocol as a step system. A step is one API call of
  the worker with its outcome (answered, applied with the answer lost, refused),
  the end of a pass, or a step of the environment: a user edits the spec, deletes
  the resource or strips the finalizer, the cloud makes progress or completes a
  deletion, somebody removes or re-tags a share, another share or volume object
  appears or goes, the operator crashes. Any of them may come between any two
  calls. Reads may be stale, and a write is accepted only at the current version.
- `PollEnds`: every way in which the poll branch writes the status, what it writes,
  and what that says. `Branches`: what the protocol allows after each reply.
- `Safety`: an invariant that every step keeps. `Guarantees`, `Orphans`,
  `Markers`, `Passes`, `Tags`, `PollRuns`, `Volumes`: what holds in every run, by that
  invariant and by others built on it.
- `Decisions`: on plain values, what a pass does next on each answer, in which order the
  calls of a pass come, and what its notes say. `Results`: what the answer of a pass means.
- `Calm`, `Convergence`, `Quiescence`, `Deletion`: what passes do when nothing goes
  wrong, where they lead, that they come to rest, and that deletion ends.
- `Credentials`: the credential cache and the rule for building the SDK client.
- `Stores`, `Instance`, `Operator`: the reconciler statement by
  statement, over an in-memory object whose fields and condition list are updated
  in place, against stores whose behaviour is chosen by an adversary. Every method
  is proved to make only calls that the protocol allows at that point and to
  return the result that the protocol ends the pass with, so the theorems about
  runs are theorems about these methods.
- `Witnesses`: concrete runs that show that the exceptions in the theorems are real.

Where the code does less than its comments or documentation say, the code is
followed, a run shows it, and the exact condition is proved:

- A share can outlive its resource under policy Delete
  (`docs/ARCHITECTURE.md:82-84` says otherwise). It does exactly when a share of
  the resource is alive whose id was never persisted. With fresh reads this takes
  the branch for an empty id; with a stale read it can also happen behind a
  recorded id.
- Raising `spec.size` again while the first expansion is marked leaves the
  resource stuck. Calm passes reach the spec exactly when this is not the case.
- Deletion is handled before the pause, so a paused resource that is deleted
  loses its share (`docs/EXAMPLES/06-paused-reconcile.yaml:8` says otherwise). A
  pause holds back exactly everything else.
- A failure that stays makes the transition time of Failed move in every pass over an
  available share, because Failed is set to False first. No other time moves without
  a change of status: over every poll, a condition with the same status before and
  after is re-timed exactly when it is Failed, the share is available and Failed is
  True. Two passes over a refused shrink, and over a changed immutable field, show it.
- The rebuild guard of the SDK client never fires after the first build, so the client
  has the current key exactly when the key has not changed since. Two uses with a key
  that changes in between show it.

## Model

| member | source | states |
|---|---|---|
| Errors.ChainEnd | internal/huawei/errors.go:42-66 | the classes exclude each other: a chain with a service error satisfies neither not-found sentinel |
| Errors.InnermostDecides | internal/huawei/errors.go:26-50 | every test of an error reads the end of its chain, however often it was wrapped |
| Errors.NameTakenExactly | internal/huawei/errors.go:52-72 | a name is taken if and only if the chain ends in HTTP 409 with the service's code in its text, in just that case, or one of the two phrases in any case |
| Conditions.UpsertShape | internal/controller/sfsturboinstance_controller.go:645-668 | one call changes the first entry of its type in place, or appends one |
| Conditions.ReplayHasTrue | internal/controller/sfsturboinstance_controller.go:300-307 | after any calls, the scan for True agrees with the last call for the type, and with the list before if there was none |
| Conditions.ListRecordsHistory | internal/controller/sfsturboinstance_controller.go:643-668 | for every sequence of calls from the empty list: types are unique and in first-insertion order, each entry is its type's last call, and its transition time is exactly that of the type's last change of status |
| Conditions.SinceNeverGoesBack | internal/controller/sfsturboinstance_controller.go:643-668 | under a clock that does not go back, no transition time goes back or lies in the future |
| Conditions.ReplayIdle | internal/controller/sfsturboinstance_controller.go:645-668 | saying what is already there changes nothing, transition times included |
| Conditions.RetimedExactly | internal/controller/sfsturboinstance_controller.go:643-668 | over any calls after which a condition has the status it had, its transition time stays unless a call in between said another status; if the clock has moved on, it moves if and only if one did |
| Instance.SfsTurboInstance.SetCondition | internal/controller/sfsturboinstance_controller.go:645-668 | the in-place loop is the upsert of the call at the time read, and touches nothing else |
| Instance.SfsTurboInstance.PutCondition | internal/controller/sfsturboinstance_controller.go:647-667 | the loop finds the first entry of the type whatever the list is |
| Instance.SfsTurboInstance.HasConditionTrue | internal/controller/sfsturboinstance_controller.go:300-307 | the scan decides whether an entry of the type is True |
| Poll.FullSetsSay | internal/controller/sfsturboinstance_controller.go:391-516 | the last thing a full poll says of each condition type |
| Poll.DriftIsFirst | internal/controller/sfsturboinstance_controller.go:566-587 | there is a changed field if and only if one of the five plain comparisons says so (an unreported field other than the key does not count, nor does an unset type), and it is the first in the order type, zone, vpc, subnet, key |
| Poll.PollVerdict | internal/controller/sfsturboinstance_controller.go:383-525 | after a full poll Failed is True if and only if the share is larger than wanted, or one of type, zone, vpc and subnet was reported and differs (an unset type differs from none), or the key differs, or the tags failed; the reason is that of the last of these, and the message names the field that differs first; Ready is True; a finished expansion or group change is noted; nothing is said about deletion |
| PollEnds.EndVerdict | internal/controller/sfsturboinstance_controller.go:359-551 | after every poll that writes the status, Failed is True exactly when the share could not be shown, is in an error state or could not be expanded, or when an available share that is large enough is too large, differs in one of the five fixed fields or, at the end, has failed tags; a share that is gone leaves Failed alone |
| PollEnds.EndValues | internal/controller/sfsturboinstance_controller.go:359-551 | every way in which a poll writes the status leaves these values of the conditions, id, path, size, group and tags, and changes nothing else |
| PollEnds.RetimedOverPoll | internal/controller/sfsturboinstance_controller.go:387-461 | over every such poll, a condition with the same status before and after keeps its transition time, except Failed when it stays True on an available share, which gets a time of this pass; if the clock has moved on, that is exactly when a time moves |
| Safety.FollowsOk | internal/controller/sfsturboinstance_controller.go:99-551 | every call that the control flow reaches rests on the guards it has passed, in terms of the version that was read |
| Safety.EnvKeeps | internal/controller/sfsturboinstance_controller.go:99-169 | nothing that anybody else does between two calls breaks the invariant |
| Safety.PerformKeeps | internal/controller/sfsturboinstance_controller.go:99-551 | no outcome of a call breaks it: answered, lost or refused |
| Safety.RunKeeps | internal/controller/sfsturboinstance_controller.go:99-551 | the invariant holds in every world of every run |
| Guarantees.CrashSafeCreate | internal/huawei/client.go:197-281 | in every reachable state at most 1 + (removals by others) shares were ever created, at most one is alive, and every id persisted or in memory is that of a share created under the resource's name |
| Guarantees.DestructionIsAuthorised | internal/controller/sfsturboinstance_controller.go:190-265 | every DeleteShare was made from a version with the deletion mark, the finalizer and policy Delete, for the id recorded there, which came from Create |
| Guarantees.RetainedSharesSurvive | internal/controller/sfsturboinstance_controller.go:200-209 | if no version marked for deletion asks for deletion, the operator never deletes a share: what is missing was removed by others |
| Guarantees.DeletionStep | internal/controller/sfsturboinstance_controller.go:132-135 | one step after a read of the deletion mark issues deletions, the finalizer's removal or a status write only |
| Guarantees.PhasesNeverGoBack | internal/controller/sfsturboinstance_controller.go:132-168 | from the first read of the deletion mark to the end of the run, nothing is created, expanded, moved or tagged |
| Guarantees.CreateNeedsFinalizer | internal/controller/sfsturboinstance_controller.go:137-165 | every CreateShare was made from a version with the finalizer persisted, no deletion mark and no id |
| Guarantees.SizesAreSubmitted | internal/controller/sfsturboinstance_controller.go:401-427 | every expansion asks for a submitted size above the one just reported; the live size and the size in progress were submitted and are at most the largest submitted |
| Guarantees.SizesNeverFall | internal/huawei/client.go:386-409 | between any two states of a run the size of a share that stays does not go down |
| Guarantees.VolumesPointAtTheShare | internal/controller/sfsturboinstance_controller.go:797-838 | while the id was never cleared, every volume asked for is backed by the share the status records |
| Orphans.OrphansAreUnrecorded | internal/controller/sfsturboinstance_controller.go:184-232 | when the finalizer goes under policy Delete, a share of ours is left if and only if one is alive whose id no version ever recorded |
| Orphans.FreshOrphansNeedTheEmptyId | internal/controller/sfsturboinstance_controller.go:194-198 | with fresh reads a share is left only when the branch for an empty id was taken |
| Orphans.FreshRunKeeps | internal/controller/sfsturboinstance_controller.go:330-351 | with fresh reads, a live share of ours is the recorded one unless none is recorded |
| Markers.DeleteShareIsIssuedOnce | internal/controller/sfsturboinstance_controller.go:234-273 | accepted DeleteShare calls are at most 1 + those whose reply or marker write was lost + marker resets by policy Retain |
| Markers.UnderDeleteNothingIsReset | internal/controller/sfsturboinstance_controller.go:200-273 | if every version marked for deletion has policy Delete, no marker is reset, and accepted DeleteShare calls are at most 1 + the lost ones |
| Markers.ExpandShareIsIssuedOnce | internal/controller/sfsturboinstance_controller.go:403-426 | accepted ExpandShare calls since the last change of spec.size are at most 1 + those whose reply or marker write was lost |
| Markers.MarkersKept | internal/controller/sfsturboinstance_controller.go:237-273 | in every run each accepted call has its marker written, lost or about to be written, and the persisted condition is what stops the next |
| Passes.OneMutationClassPerPass | internal/controller/sfsturboinstance_controller.go:133-168 | in every pass of every run the cloud-changing calls are none, one Create, Delete, Expand or ChangeSecurityGroup, or additions of tags followed by deletions; none touches group or tags when the pass was told that the group is changing |
| PollRuns.EveryPollIsDeclared | internal/controller/sfsturboinstance_controller.go:359-551 | in every run and at every status write of a poll, early returns included, the object in memory is the declared function of the version read, the report, and how the pass's calls went |
| PollRuns.PollWritesTheDeclaredStatus | internal/controller/sfsturboinstance_controller.go:359-551 | so whatever a poll writes, and whichever way it ended, is that function, has the values stated for that end, and Failed in it is the declared verdict; after a full poll the tag calls are exactly one per key that differed, or stopped at a key still to do |
| Tags.AddCloses | internal/controller/sfsturboinstance_controller.go:608-617 | an addition brings live and desired tags closer by exactly one |
| Tags.DeleteCloses | internal/controller/sfsturboinstance_controller.go:622-631 | so does a deletion |
| Tags.TagStep | internal/controller/sfsturboinstance_controller.go:607-631 | no step moves the tags away, and the local map equals the share's tags at every step of the loops |
| Tags.TagCallsArePaidFor | internal/controller/sfsturboinstance_controller.go:598-641 | over any run without outside edits, all tag calls together are at most the initial distance plus the failed calls, applied or not |
| Tags.DidMore | internal/controller/sfsturboinstance_controller.go:608-631 | one more call on a key still to do keeps the account: one call per differing key, none twice, none for another key |
| Tags.WorkDone | internal/controller/sfsturboinstance_controller.go:633-640 | when nothing is left to do the live tags are the desired ones |
| Tags.TagCallsAreExact | internal/controller/sfsturboinstance_controller.go:598-641 | in every pass of every run, whatever fails and wherever it stops, every tag call is for a key that differed in the tags the pass had listed, no key has two, and additions come before deletions |
| Tags.ListedIsAnswered | internal/controller/sfsturboinstance_controller.go:599-602 | that listing is what ShowTags answered in the run, with no read of the resource since |
| Passes.PausedIsInert | internal/controller/sfsturboinstance_controller.go:137-160 | from a paused version that is not deleted, nothing is ever issued but the finalizer and the pause note; a cloud change from a paused version is a DeleteShare of a deleted one |
| Volumes.VolumesTouched | internal/controller/sfsturboinstance_controller.go:718-771 | whatever happens, only the named volume is touched; it appears backed by the recorded share; an existing one only loses its claim, and only if it is released, carries the label huawei-sfs-operator and has a claim, or is deleted under policy Delete; it is never re-pointed |
| Volumes.ClaimsTouched | internal/controller/sfsturboinstance_controller.go:773-787 | whatever happens, a claim appears only under its name in the resource's namespace and names the volume; an existing one is only ever deleted, for a deleted version with policy Delete |
| Volumes.FreedExactly | internal/controller/sfsturboinstance_controller.go:725-771 | a calm pass that reaches the volumes frees the named volume if it is released, labelled and claimed, leaves it as it is otherwise, and changes no other volume and no existing claim |
| Volumes.PairIsMutual | internal/controller/sfsturboinstance_controller.go:689-869 | a calm pass that reaches the volumes and finds neither object leaves a volume and a claim that point at each other, the volume backed by the recorded share at its path, both with the operator's label, the wanted class, and the claim size in bytes, which is the size of the share times 2^30 when none is given |
| Calm.CalmPassEffect | internal/controller/sfsturboinstance_controller.go:99-551 | a pass in which nothing goes wrong leaves exactly the declared object, cloud, volumes and claims, up to clock readings, whatever the order of tag calls and of a listing |
| Calm.CreatesOrAdopts | internal/controller/sfsturboinstance_controller.go:312-354 | a calm pass without an id creates exactly one share, as the spec says in every field that a poll compares, if none has the name; otherwise it changes no share and records that one |
| Calm.FirstNamedIs | internal/huawei/client.go:289-323 | the scan of a complete listing finds the share of the name |
| Convergence.RankFalls | internal/controller/sfsturboinstance_controller.go:99-169 | a calm pass and a settling cloud bring a resource that is not stuck strictly closer, until nothing is left to do |
| Convergence.RoundFacts | internal/controller/sfsturboinstance_controller.go:403-426 | such a round keeps the resource workable, and stuck exactly if it was |
| Convergence.Converges | internal/controller/sfsturboinstance_controller.go:99-551 | after eight rounds and for ever after, the live share is available, not smaller than wanted, in the group that the spec names, if it names one, and with exactly the wanted tags, and both volume objects exist, if and only if the resource was not stuck; if no share was too large, its size is the wanted one |
| Convergence.RefusedShrinkStays | internal/controller/sfsturboinstance_controller.go:428-435 | a share that is too large stays so and is not stuck, so everything else converges |
| Quiescence.OnePassBringsToRest | internal/controller/sfsturboinstance_controller.go:383-537 | one calm pass over a share that matches the spec leaves a status that says so and volumes that need nothing |
| Quiescence.PassAtRest | internal/controller/sfsturboinstance_controller.go:383-537 | a pass at rest is the identity on every store at every step, transition times included; its one write changes nothing |
| Quiescence.Quiescent | internal/controller/sfsturboinstance_controller.go:383-537 | so every world of every later pass has the stores of the world after that pass |
| Quiescence.ReconciledMatches | internal/controller/sfsturboinstance_controller.go:383-537 | what convergence ends in is what quiescence starts from, unless an immutable field differs |
| Deletion.MarkerIsTrue | internal/controller/sfsturboinstance_controller.go:234-273 | in every run, when the status says that deletion is in flight, an accepted DeleteShare is in progress on the recorded share or the share is gone |
| Deletion.LeavePassEffect | internal/controller/sfsturboinstance_controller.go:184-278 | a calm pass over a deleted resource releases it, waits, or marks claim and volume for deletion where they exist, has the share deleted and the marker set, by policy, recorded share and marker; no other volume or claim changes, and on the other ways none does |
| Deletion.DeletionCompletes | docs/ARCHITECTURE.md:75-91 | from any state of any run with the deletion mark and the finalizer, one calm pass removes the resource, or one more does once the cloud has completed the deletion; then the recorded share is gone under policy Delete |
| Decisions.AfterRead | internal/controller/sfsturboinstance_controller.go:118-209 | which call or note follows the read, if and only if: by deletion mark, finalizer, id, policy and pause |
| Decisions.AfterReport | internal/controller/sfsturboinstance_controller.go:383-549 | which call or note follows a report on a living share, if and only if: by its state, the two sizes, the two groups, the group change in flight and the marker |
| Decisions.AfterShow | internal/controller/sfsturboinstance_controller.go:211-377 | a share that is gone ends the deletion or starts a new creation, exactly on a 404 anywhere in the chain; a share that is there is cascaded or deleted only without the marker |
| Decisions.AfterCascade | internal/controller/sfsturboinstance_controller.go:881-918 | the claim is deleted exactly when it is there and not going already, then the volume likewise; whatever comes of either, the next call is one of these or DeleteShare |
| Decisions.AfterVolume | internal/controller/sfsturboinstance_controller.go:718-790 | a missing volume and a missing claim are created; a volume is updated exactly when it is released, labelled and claimed |
| Decisions.AfterWrite | internal/controller/sfsturboinstance_controller.go:672-678 | a pass goes on after a status write only if the write went through or the resource is gone, and only at the end of a deletion or of a poll that has what a volume needs |
| Decisions.AfterCreate | internal/huawei/client.go:255-281 | the search by name follows exactly a name collision; a created id is recorded at once; any other error is noted |
| Decisions.AfterDeletedTag | internal/controller/sfsturboinstance_controller.go:622-631 | a tag that is gone already counts as deleted, and the pass goes on without it |
| Decisions.AfterChange | internal/controller/sfsturboinstance_controller.go:257-501 | a deletion, expansion or group change that was accepted is marked at once, and one that failed is noted as failed, exactly |
| Decisions.FailureCarries | internal/huawei/errors.go:26-40 | which error a failed call leaves in the status and the answer: its own, a 404 replaced by the sentinel, and after a failed search that of the creation |
| Decisions.CallsClimb | internal/controller/sfsturboinstance_controller.go:99-551 | in every pass of every run, whatever fails, each call belongs further into a pass than all calls before it; only tag calls repeat |
| Decisions.ClaimThenVolumeThenShare | internal/controller/sfsturboinstance_controller.go:881-918 | in every pass the claim is asked for before the volume and both before the share; the finalizer goes last; nothing changes the cloud after the status is written |
| Decisions.NoteValues | internal/controller/sfsturboinstance_controller.go:159-377 | in every run, what each note outside a full poll says of each condition it names, its reason and message, and that it changes nothing else |
| Results.AnswersExactly | internal/controller/sfsturboinstance_controller.go:99-551 | in every run a pass ends without requeue or error if and only if the resource is gone or released, paused, in an error state, or the poll ran to its end; asks to be run again at once, after the delay for provisioning or after the one for deletion, or returns an error, and which, if and only if its last call and the reply were the ones listed |
| Results.DeletionIsNotForgotten | internal/controller/sfsturboinstance_controller.go:184-278 | in every run, a pass that read a deleted resource with the finalizer and ends without requeue and error leaves the resource gone |
| Witnesses.CrashBeforeRecording | docs/ARCHITECTURE.md:77-84 | a run with fresh reads in which a share outlives its resource under policy Delete |
| Witnesses.OrphanBehindAnId | internal/controller/sfsturboinstance_controller.go:213-223 | a run with a stale read in which that happens although the status holds an id |
| Witnesses.PausedAndDeleted | docs/EXAMPLES/06-paused-reconcile.yaml:4-8 | a run in which a paused resource's share is deleted |
| Witnesses.RaisedTwice | internal/controller/sfsturboinstance_controller.go:403-426 | a run without any fault that ends stuck |
| Witnesses.RefusalKeepsMoving | internal/controller/sfsturboinstance_controller.go:391-461 | runs without any fault, over a refused shrink and over a changed immutable field, in which Failed is True after two passes with different transition times |
| Credentials.Rounding | internal/huawei/podagency.go:85-86 | the conversion to double is exact up to 2^53 and at most half a spacing off beyond |
| Credentials.FloatIsHarmless | internal/huawei/podagency.go:80-88 | for all 64-bit durations the decision is that of exact integers |
| Credentials.KeptExactly | internal/huawei/podagency.go:80-88 | for any two times, saturation included: kept exactly while at most ten minutes old and younger than half the life or sixty seconds |
| Credentials.KeptPastExpiry | internal/huawei/podagency.go:80-94 | credentials can be kept past their expiry exactly when they live for less than sixty seconds |
| Credentials.GetExactly | internal/huawei/podagency.go:119-139 | cached credentials are handed out while they are kept; else a payload with both keys and an expiry is handed out and cached as it came; else the error comes, with the cached credentials while these are not expired |
| Credentials.PodAgencyProvider.Get | internal/huawei/podagency.go:119-139 | the result and the cache are the declared functions of cache, time and answer |
| Credentials.PodAgencyProvider.Reset | internal/huawei/podagency.go:190-194 | the cache is empty |
| Credentials.NeverExpired | internal/huawei/podagency.go:116-139 | over every run with lives of sixty seconds at least, no returned credentials are expired at the captured time |
| Credentials.Fallback | internal/huawei/podagency.go:129-136 | the fallback never returns expired credentials, for any life; nothing is returned exactly when the service fails and the cache is empty or due and expired |
| Credentials.RefreshesAreSpaced | internal/huawei/podagency.go:50-56 | between resets, any two refreshes are sixty seconds apart |
| Credentials.Client.EnsureSdk | internal/huawei/client.go:150-185 | with static keys the client is kept; otherwise the guard on the cached key adds nothing to "no client yet" |
| Credentials.BuiltOnce | internal/huawei/client.go:171-184 | over every run the client is built once and never again, however often the credentials change |
| Credentials.SdkIsCurrent | internal/huawei/client.go:141-149 | so it has the current key exactly when the key has not changed since |
| Credentials.RefreshedNotRebuilt | internal/huawei/client.go:171-184 | two uses between which the key changes: the second refreshes the cache and hands out the client with the first key |
| Operator.SfsTurboInstanceReconciler.Reconcile | internal/controller/sfsturboinstance_controller.go:99-169 | a pass extends the run by protocol steps, whatever the stores do; when nothing goes wrong it is a calm pass with that effect, and at rest it changes nothing |
| Operator.SfsTurboInstanceReconciler.ReconcileDelete | internal/controller/sfsturboinstance_controller.go:184-278 | the deletion branch makes the protocol's calls and ends with its result, which `Results.AnswersExactly` gives on values |
| Operator.SfsTurboInstanceReconciler.RemoveFinalizer | internal/controller/sfsturboinstance_controller.go:282-291 | a resource that is gone is a success |
| Operator.SfsTurboInstanceReconciler.ReconcileCreate | internal/controller/sfsturboinstance_controller.go:312-354 | the creation branch, with the id written at once |
| Operator.SfsTurboInstanceReconciler.Create | internal/huawei/client.go:206-281 | a name collision adopts the share of the name, any other error is returned |
| Operator.SfsTurboInstanceReconciler.FindByName | internal/huawei/client.go:289-323 | the loop returns the first share of the name |
| Operator.SfsTurboInstanceReconciler.Show | internal/huawei/client.go:328-384 | the report, or the classified error |
| Operator.SfsTurboInstanceReconciler.ReconcilePoll | internal/controller/sfsturboinstance_controller.go:359-551 | the poll branch, with its early returns |
| Operator.SfsTurboInstanceReconciler.PollAvailable | internal/controller/sfsturboinstance_controller.go:383-537 | the order of the drift checks on an available share |
| Operator.SfsTurboInstanceReconciler.Grow | internal/controller/sfsturboinstance_controller.go:403-426 | expands unless the marker says that this was done |
| Operator.SfsTurboInstanceReconciler.NoteDrift | internal/controller/sfsturboinstance_controller.go:428-461 | the updates made for a refused shrink, a finished expansion and an immutable field |
| Operator.SfsTurboInstanceReconciler.Regroup | internal/controller/sfsturboinstance_controller.go:471-501 | changes the group unless a change is in flight |
| Operator.SfsTurboInstanceReconciler.Complete | internal/controller/sfsturboinstance_controller.go:502-537 | the rest of a full poll |
| Operator.SfsTurboInstanceReconciler.AddTags | internal/controller/sfsturboinstance_controller.go:607-617 | in any order of the map, exactly one AddTag per missing or differing key, until one fails |
| Operator.SfsTurboInstanceReconciler.DropTags | internal/controller/sfsturboinstance_controller.go:622-631 | in any order of the map it deletes from, exactly one DeleteTag per extra key, until one fails |
| Operator.SfsTurboInstanceReconciler.ReconcileTagsDrift | internal/controller/sfsturboinstance_controller.go:598-641 | additions come first; on success status.tags is the desired set and the calls are exactly one per key that differed from what ShowTags answered; on failure the last call is for a key that the calls before it had left to do |
| Operator.SfsTurboInstanceReconciler.PatchStatus | internal/controller/sfsturboinstance_controller.go:672-678 | a resource that is gone is a success; what was stored is what was sent |
| Operator.SfsTurboInstanceReconciler.EnsureVolumes | internal/controller/sfsturboinstance_controller.go:689-790 | creates what is missing, frees a stale volume, and returns the first error |
| Operator.SfsTurboInstanceReconciler.CascadeDelete | internal/controller/sfsturboinstance_controller.go:881-918 | claim first, then volume; whatever comes of it, DeleteShare is next |

## Left out

- HTTP, JSON and time parsing, and the SDK calls themselves: a call is answered, applied with the answer lost, or refused.
- An error of the cloud or the API says only what is the case when it says "not found" or "name exists"; any other error may come at any time.
- The file-system name is constant and used only by this resource; other shares appear under other names, and a complete listing is read in one response.
- Parsing of sizes and quantities: a size that does not parse is reported as 0, as in the code; a claim size is unset, a number of bytes or malformed.
- The wording of condition messages: a message is kept as the values it is built from.
- Times in conditions are those of the clock; their truncation to seconds when stored is not modelled.
- Fields that are passed through to CreateShare without being looked at again: share protocol, encryption metadata, automatic group rules.
- The merging of the tag list of a response into a map in `ListTags`: the reply is a map.
- Leader election, queueing and rate limiting: one worker per resource. A failed tag reconciliation and a group change without drift end without asking to be run again, so convergence is stated for passes that are run.
- Reads may be stale but do not go back to an older version than an earlier read returned, across restarts too.
- The resource's generation moves with the spec only.
- A crash is a step of the protocol and not of the methods in `Operator`, which are passes that return.
- The credential cache and the client run on one clock for ages and expiry, and the client's mutex makes its calls a sequence; the source also has a monotonic clock reading.
- Ownership of volume objects in the cascade: the code does not check it, and the theorems do not claim it.
- The lengths of the two requeue delays: an answer says which of them applies.
- Metrics, logging, flags, RBAC, charts and the validation of the resource's fields.
