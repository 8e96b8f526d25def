# Verified model of the Code Engine task controller

A Tekton `Run` that names a `CodeEngineTask` makes this controller create a `JobRun` in IBM Code
Engine, follow it, and write the result back into the status of the Run. The project models that
reconciler as a protocol and proves what survives when several reconciles overlap, caches lag, status
writes get lost and job runs move on in between. Smaller parts model the informer factory, the deep
copies and the lister.

## How it is built

| file | what it holds |
|---|---|
| `Types.dfy` | Run, status, extra fields, JobRun; the operations of the Tekton status that the controller calls |
| `ReconcileSpec.dfy` | every stage of one reconcile as a function, and the whole |
| `Reconciler.dfy` | the reconciler as classes whose methods change the Run, the decoded status and the job runs in place; each method is proved equal to its stage |
| `ReconcileProperties.dfy` | what one reconcile guarantees, for every input |
| `SequentialHistory.dfy` | what any number of reconciles guarantee, one after the other |
| `Protocol.dfy`, `ProtocolInvariant.dfy`, `Ledger.dfy` | overlapping reconciles of one Run as a state machine, and its invariant |
| `ProtocolTheorems.dfy`, `ProtocolCounterexamples.dfy` | what that machine guarantees, and what it does not |
| `Wakeup.dfy`, `WakeupCounterexamples.dfy` | one controller process around it: informers, their handlers, the work queue |
| `CreatedJobRuns.dfy` | the memo of created job runs, as it is and with the missing call |
| `Routing.dfy` | labels, event filters, and the key that an event enqueues |
| `InformerFactory.dfy`, `TaskObjects.dfy`, `Lister.dfy` | the generated client code |

A reconcile is split in two, because other steps can come between: the first half ends after the job
run has been created, the second looks it up and encodes the result. What the environment answers is an
argument: the clock, the task lister, the known job definitions, the create call, the job run cache,
and failures of the lookup and of the encoder. Theorems hold for all answers.

## What turned out

- Any committed history, however the reconciles overlapped, is that of a sequential run
  (`CommitsAreSequential`), so everything proved about sequential runs holds for it.
- "At most one job run for one Run" does not hold, for any Run that can have a job run at all. The memo
  `createdJobRuns` is read and never written, so it never holds anything back (`MemoStaysEmpty`). A
  status read from before the last write is enough for a second job run (`StaleReadCreatesAgain`), and so
  is an overlap (`OverlapCreatesTwice`). One process alone gets there without any failure: the event about
  its own job run overtakes its own write (`OwnJobRunCreatesAgain`). When the lookup right after the
  create fails, the early return skips the encoding and the new name is forgotten
  (`LookupErrorForgetsTheName`); so job runs can pile up without bound, although reconciles do not
  overlap, every read is fresh and every create and write succeeds (`CreatesCanPileUp`). The exact count
  holds instead: the recorded job run, one for each loss, and those that reconciles under way still carry
  (`JobRunsAreAccountedFor`).
- The missing call would keep the creates of one process for one Run more than five minutes apart, if
  the earlier one has answered (`CreatesAreApart`); a create whose answer got lost it could not see
  (`LostAnswersAreNotEntered`). Five minutes is all it would keep them apart (`CreatesCanFollowLater`).
- "Nothing is created once the Run is done" does not hold for outdated reads (`CreatesAfterTheEnd`). It
  holds for every reconcile that reads the final status (`DoneIsQuiet`). `AfterTheEnd` has the exact
  condition; the committed status never changes again in any case.
- A foreign embedded spec that stands alone makes the gate dereference a nil reference while it logs
  (`GateIsExact`). The filter for events about Runs lets no such Run pass (`AcceptedRunsPassTheFilter`).
  Events about job runs are not filtered by the Run's spec: a job run with such a Run's labels would
  enqueue it (`LabelledJobRunsAlwaysEnqueue`). The controller never makes one, so only the assumption
  that nobody else labels a job run with the Run keeps that from happening.
- An embedded spec that does not parse is retried for ever and never fails its Run
  (`UnparsableSpecsNeverEnd`). A deleted CodeEngineTask fails its Run although the stored spec would do,
  while an edited one has no effect (`StoredSpecsNeedTheirTask`).
- No wakeup is lost (`NoWakeupIsLost`) and no reconcile comes without a cause (`ReconcilesHaveCauses`). No
  Run that can have a job run is ever stuck: in every state some moves end it (`StartableRunsCanEnd`).
- The start of a Run is announced twice, because the deferred event of the first reconcile also starts
  from no condition; the end is announced once (`EndIsAnnouncedOnce`), and as it is
  (`EndIsAnnouncedAsItIs`).

## Assumptions

- Status writes. The generated Knative reconciler that writes the status is not part of this model.
  Assumed of it: a write goes through only when nobody has written since the reconcile read, an
  unchanged status is not written, and a lost write or an error leads to a retry. The second part of
  `StaleReadCreatesAgain` shows what a writer that overwrites would do.
- Tekton and Knative. `InitializeConditions`, `MarkRun*`, `HasStarted`, `IsDone` and the codec of the
  extra fields are small functions in `Types.dfy`, `ReconcileSpec.dfy` and `Reconciler.dfy`; what was
  encoded decodes to the same value. Filtering handlers and the filter for Runs are in `Routing.dfy`.
- Code Engine. Generated names are fresh and not empty; `SetDefaultsFromJobDefinition` leaves labels and
  definition alone; conditions of a job run are only added; labels do not change; nobody else labels a
  job run with this Run. A create can succeed although its answer gets lost.
- The API server stamps every Run with a creation time that is not zero, and only this controller
  writes the status.
- The work queue is that of `client-go` for one key, with one worker for each key. Informers change
  their cache before they tell their handlers.

## Model

| member | source | states |
|---|---|---|
| ReconcileProperties.GateIsExact | pkg/reconciler/codeenginetask/codeenginetask.go:66-140 | A Run is reconciled if and only if it names something and everything it names is a CodeEngineTask, and is otherwise left alone: status, job runs and events; the nil dereference happens if and only if a foreign embedded spec stands alone |
| ReconcileProperties.ReconcileKeepsWellFormed | pkg/apis/codeenginetask/v1alpha1/code_engine_task_types.go:67-88 | Every reconcile keeps the table of legal truth, reason and recorded name; start time, stored spec and name are write-once, a final status is final, the rank never grows |
| ReconcileProperties.StartTimeIsLatest | pkg/reconciler/codeenginetask/codeenginetask.go:143-151 | For any clock the start time stays if it is set, and else is the later of clock and creation time; it counts as set if and only if one of them is not zero |
| ReconcileProperties.DoneIsQuiet | pkg/reconciler/codeenginetask/codeenginetask.go:82-104 | A done Run is not changed, resolved or created for, whatever the environment answers |
| ReconcileProperties.TaskResolvesExactly | pkg/reconciler/codeenginetask/codeenginetask.go:182-226 | When the task resolves, and which spec then counts: the stored one, else the embedded one, else the listed one |
| ReconcileProperties.CreatesExactlyWhenWanted | pkg/reconciler/codeenginetask/codeenginetask.go:235-276 | The exact condition for a create, and that the job run is made for the chosen spec with this Run's labels |
| ReconcileProperties.OnlyStartableRunsCreate | pkg/reconciler/codeenginetask/codeenginetask.go:182-219 | The Runs that can have a job run: accepted, with an embedded spec that parses or a reference with a name; for no other Run is one created |
| ReconcileProperties.ExtraFieldsAreExact | pkg/reconciler/codeenginetask/codeenginetask.go:86-104 | What is stored: after success the spec and the old or the new name; in every other case the extra fields stay as they were |
| ReconcileProperties.NameSurvivesExactly | pkg/reconciler/codeenginetask/codeenginetask.go:94-103 | A name just created reaches the status if and only if the create answered and neither lookup nor encoder failed; otherwise it is forgotten with an error |
| ReconcileProperties.StoredSpecsNeedTheirTask | pkg/reconciler/codeenginetask/codeenginetask.go:160-226 | Once a spec is stored, editing the CodeEngineTask does not influence a reconcile, but deleting it fails an unfinished Run that refers to it |
| ReconcileProperties.ErrorsAreExact | pkg/reconciler/codeenginetask/codeenginetask.go:160-315 | For each error the exact situation in which it is returned |
| ReconcileProperties.ErrorsLeaveTheirMark | pkg/reconciler/codeenginetask/codeenginetask.go:182-310 | For each error the condition it leaves; every error leaves the extra fields alone |
| ReconcileProperties.ConditionIsExact | pkg/reconciler/codeenginetask/codeenginetask.go:280-315 | The condition after a reconcile without error, in every case; in particular a recorded job run that is not finished, or not in the cache, leaves it alone |
| ReconcileProperties.VerdictIsObserved | pkg/reconciler/codeenginetask/codeenginetask.go:286-313 | Success if and only if the recorded job run was seen complete and not failed; failure if and only if it was seen failed, complete or not |
| ReconcileProperties.EndsHaveACause | pkg/reconciler/codeenginetask/codeenginetask.go:160-313 | Each of the four final reasons if and only if the observation or the errors that bring it about |
| ReconcileProperties.ReconcileConverges | pkg/reconciler/codeenginetask/codeenginetask.go:66-107 | Reconciling the result of a reconcile without error again, in the same views of task and job runs, changes nothing and creates nothing |
| ReconcileProperties.HelpfulReconcileLowersRank | pkg/reconciler/codeenginetask/codeenginetask.go:82-104 | A reconcile that can start the job run or finds it finished has no error and lowers the rank |
| ReconcileProperties.RankFallsExactly | pkg/reconciler/codeenginetask/codeenginetask.go:160-180 | The rank falls if and only if the reconcile was helpful or ended with a failure of the Run's own |
| SequentialHistory.ReplayEvolves | pkg/reconciler/codeenginetask/codeenginetask.go:66-107 | Over any history, an earlier and a later status agree on all that is write-once or final |
| SequentialHistory.RecordedRunsNameATask | pkg/reconciler/codeenginetask/codeenginetask.go:182-219 | Only a Run that is ours and names a task that can be resolved ever gets a job run recorded |
| SequentialHistory.UnparsableSpecsNeverEnd | pkg/reconciler/codeenginetask/codeenginetask.go:186-189 | An embedded spec that does not parse leaves its Run started, without end and without job run, for ever |
| SequentialHistory.EndIsAnnouncedOnce | pkg/reconciler/codeenginetask/codeenginetask.go:75-88 | Over any history exactly one event announces the end if the Run has ended and none otherwise; exactly two announce the start |
| SequentialHistory.EventsTellTheHistory | pkg/reconciler/codeenginetask/codeenginetask.go:75-88 | Over any history of an accepted Run the events are, one by one, the start and then for each reconcile the condition it found and the one it left |
| SequentialHistory.EndIsAnnouncedAsItIs | pkg/reconciler/codeenginetask/codeenginetask.go:76-80 | An event that shows an end shows the condition that the Run has ended with |
| SequentialHistory.VerdictWasObserved | pkg/reconciler/codeenginetask/codeenginetask.go:302-312 | In a history that has ended there is the one reconcile that ended it, and it saw the recorded job run complete and not failed, saw it failed, or met the error that the final reason names |
| SequentialHistory.TwoHelpfulReconcilesSuffice | pkg/reconciler/codeenginetask/codeenginetask.go:66-107 | Whatever the other reconciles meet, the second helpful one ends the Run |
| ProtocolTheorems.CommitsAreSequential | pkg/reconciler/codeenginetask/codeenginetask.go:66-107 | With any overlap, outdated reads and lost writes, every committed status is the reconcile of the one before, and differs from it |
| ProtocolTheorems.CommitsEvolve | pkg/apis/codeenginetask/v1alpha1/code_engine_task_types.go:126-145 | Every committed status is legal; start time, spec and name are written once; a final status stays; the rank never grows |
| ProtocolTheorems.CommitsProgress | pkg/reconciler/codeenginetask/codeenginetask.go:75-104 | At most two committed reconciles are helpful; the committed history announces its end once |
| ProtocolTheorems.RecordedJobRunIsOurs | pkg/reconciler/codeenginetask/codeenginetask.go:252-272 | A committed name is that of an existing job run with this Run's labels, made for the stored spec |
| ProtocolTheorems.SuccessIsTrue | pkg/reconciler/codeenginetask/codeenginetask.go:286-307 | After a committed success the recorded job run is complete in Code Engine, and a reconcile saw it complete and not failed, although its view may lag |
| ProtocolTheorems.FailureIsTrue | pkg/reconciler/codeenginetask/codeenginetask.go:286-312 | After a committed failure the recorded job run has failed in Code Engine, or the reconcile that committed it met the error that the reason names |
| ProtocolTheorems.JobRunsAreAccountedFor | pkg/reconciler/codeenginetask/codeenginetask.go:235-276 | The job runs of a Run number one if a name is recorded, plus the losing steps, plus those still carried; at most one plus losses plus reconciles under way; exactly the recorded one when nothing was lost and nothing is under way |
| ProtocolTheorems.OrphansCountLosses | pkg/reconciler/codeenginetask/codeenginetask.go:94-103 | Job runs that nobody can record any more number exactly the lost answers, early error returns, late writes and lost writes after a create |
| ProtocolTheorems.OrphansWereNeverRecorded | pkg/reconciler/codeenginetask/codeenginetask.go:169-177 | An orphaned job run belongs to this Run and is recorded in no committed status |
| ProtocolTheorems.ForeignJobRunsDoNotCount | pkg/reconciler/codeenginetask/codeenginetask.go:254-257 | Job runs without the two labels of the Run can appear at any time and change none of its accounts |
| ProtocolTheorems.AfterTheEnd | pkg/reconciler/codeenginetask/codeenginetask.go:82-93 | Once done, no step changes the committed status; a reconcile still creates if and only if the status it read wants a job run and the server does not refuse, and that status is an outdated one |
| ProtocolInvariant.InvAlways | pkg/reconciler/codeenginetask/codeenginetask.go:66-315 | After any steps: the history is sequential, names are coherent with the job runs, and every job run of the Run is in exactly one of recorded, orphaned and carried by one reconcile |
| ProtocolCounterexamples.LookupErrorForgetsTheName | pkg/reconciler/codeenginetask/codeenginetask.go:94-98 | For every Run that can have a job run: after any number of reconciles whose lookup fails there are as many job runs, and none is recorded |
| ProtocolCounterexamples.CreatesCanPileUp | pkg/reconciler/codeenginetask/codeenginetask.go:94-103 | For every such Run the job runs are unbounded, although reconciles do not overlap, reads are fresh, creates are answered and writes go through |
| ProtocolCounterexamples.StaleReadCreatesAgain | pkg/reconciler/codeenginetask/codeenginetask.go:235-240 | For every such Run: two job runs without any failure, and a late writer that would change the recorded name if it could overwrite |
| ProtocolCounterexamples.OverlapCreatesTwice | pkg/reconciler/codeenginetask/codeenginetask.go:235-272 | For every such Run: two reconciles that overlap create two job runs, although both read the latest status |
| ProtocolCounterexamples.EveryLossHappens | pkg/reconciler/codeenginetask/codeenginetask.go:94-103 | For every such Run each of the four kinds of loss can happen: a lost answer, an early return, a late write, a lost write |
| ProtocolCounterexamples.CreatesAfterTheEnd | pkg/reconciler/codeenginetask/codeenginetask.go:82-93 | For every such Run: a reconcile of an outdated status creates a job run after the end |
| Wakeup.MovesFollowTheProtocol | pkg/reconciler/codeenginetask/controller.go:95-113 | Everything the controller process does is a run of the protocol |
| Wakeup.ProtocolIsCovered | pkg/reconciler/codeenginetask/controller.go:95-113 | Every run of the protocol can happen around the controller process |
| Wakeup.NoWakeupIsLost | pkg/reconciler/codeenginetask/controller.go:103-113 | While an accepted Run is unfinished and has no job run recorded, or the cache shows its job run finished, its key is dirty or in work, or a retry or an event that concerns it is on its way |
| Wakeup.NudgesQueueTheKey | pkg/reconciler/codeenginetask/controller.go:118-137 | Each of those does queue the key when it arrives |
| Wakeup.AnythingCanGetLost | pkg/reconciler/codeenginetask/controller.go:95-113 | At any time the process can restart, a write get lost and a cached job run vanish; each leaves an event or a retry behind |
| Wakeup.ReconcilesHaveCauses | pkg/reconciler/codeenginetask/controller.go:103-137 | Over any moves, every reconcile has a retry or an event of its own about this Run or its job runs, every retry a failed write, every event about the Run a change of it |
| Wakeup.JobEventsHaveCauses | pkg/reconciler/codeenginetask/controller.go:109-113 | An event about a job run goes back to a change of that job run in the lister |
| Wakeup.ServedKeyMakesProgress | pkg/reconciler/codeenginetask/codeenginetask.go:228-313 | A queued key that is served with an up-to-date Run and without failures starts the job run, or ends the Run |
| Wakeup.ProgressIsAlwaysInReach | pkg/reconciler/codeenginetask/controller.go:103-113 | From every such state the controller can start the job run or end the Run by moves of its own |
| Wakeup.TheEndIsAlwaysInReach | pkg/reconciler/codeenginetask/controller.go:82-113 | From every state of the controller, every accepted Run that is not done can still be ended, without other replicas, and with no more from Code Engine than that it finishes the job run |
| Wakeup.StartableRunsCanEnd | pkg/reconciler/codeenginetask/controller.go:82-113 | No Run that can have a job run is ever stuck: from every state of the controller some moves end it |
| WakeupCounterexamples.OwnJobRunCreatesAgain | pkg/reconciler/codeenginetask/codeenginetask.go:236-240 | For every Run that can have a job run: one process creates two, without failure, restart or other replica, because the event about its own job run overtakes its own write |
| WakeupCounterexamples.RestartCreatesAgain | pkg/reconciler/codeenginetask/codeenginetask.go:266-272 | For every such Run: a process that is restarted between create and write creates again |
| CreatedJobRuns.MemoStaysEmpty | pkg/reconciler/codeenginetask/codeenginetask.go:236-240 | A memo that nothing enters never holds a Run back (that a reconcile enters nothing, and with an empty memo never asks for a requeue, is part of `ReconcileKind`) |
| CreatedJobRuns.CreatesAreApart | pkg/reconciler/codeenginetask/controller.go:92-93 | With an answered create entered in the memo, it is more than five minutes older than any later create for the same Run in the process |
| CreatedJobRuns.CreatesCanFollowLater | pkg/reconciler/codeenginetask/controller.go:92-93 | After any time longer than five minutes the next create can follow |
| CreatedJobRuns.LostAnswersAreNotEntered | pkg/reconciler/codeenginetask/codeenginetask.go:266-271 | Without an answer that does not hold, also with the call: two creates for one Run at the same time |
| CreatedJobRuns.HitsAreOnesOwn | pkg/reconciler/codeenginetask/codeenginetask.go:236-240 | The key of the memo is unique for each Run, so a Run is only held back by its own job run |
| Routing.JobRunEnqueue | pkg/reconciler/codeenginetask/controller.go:130-137 | Adds one key, with name and namespace from the two labels, empty where a label is missing |
| Routing.EnqueuedExactlyWhenConcerned | pkg/reconciler/codeenginetask/controller.go:109-137 | Over any events a Run is enqueued if and only if one of them concerns a job run of it |
| Routing.AcceptedRunsPassTheFilter | pkg/reconciler/codeenginetask/controller.go:103-107 | No Run that the gate accepts is filtered out, none that would panic passes, and where the two differ |
| Routing.LabelledJobRunsAlwaysEnqueue | pkg/reconciler/codeenginetask/controller.go:109-137 | An event about a job run with the two labels of a Run enqueues exactly that Run, whatever its spec is, also one that would panic |
| Reconciler.Reconciler.VerifyCodeEngineSpec | pkg/reconciler/codeenginetask/codeenginetask.go:110-140 | Accepts if and only if something is named and all of it has the API version and the kind; panics if and only if a foreign embedded spec stands alone |
| Reconciler.Reconciler.InitializeRun | pkg/reconciler/codeenginetask/codeenginetask.go:143-154 | Sets condition and start time in place, corrects the start time, emits |
| Reconciler.Reconciler.GetCodeEngineTask | pkg/reconciler/codeenginetask/codeenginetask.go:182-219 | The very object of the lister, or a new task built from the embedded spec with its type, labels and annotations; marks the Run failed when there is none |
| Reconciler.StoreCodeEngineTaskSpec | pkg/reconciler/codeenginetask/codeenginetask.go:221-226 | Stores the spec once, by reference |
| Reconciler.Reconciler.RunCodeEngineJob | pkg/reconciler/codeenginetask/codeenginetask.go:228-278 | The exact job runs afterwards, with labels and definition, also after a lost answer; the name in the decoded status; the mark of each failure |
| Reconciler.Reconciler.CheckCodeEngineJobRunStatus | pkg/reconciler/codeenginetask/codeenginetask.go:280-315 | The exact condition and error: unchanged while the job run is unknown or unfinished, the second mark winning |
| Reconciler.DecodeStatusFromRun | pkg/apis/codeenginetask/v1alpha1/code_engine_task_types.go:126-135 | A fresh decoded status, or a failed Run |
| Reconciler.EncodeIntoRun | pkg/apis/codeenginetask/v1alpha1/code_engine_task_types.go:137-145 | Writes the extra fields, or fails the Run |
| Reconciler.Reconciler.ReconcileKind | pkg/reconciler/codeenginetask/codeenginetask.go:66-107 | Status, error and events are those of the specification for every input, the last event with the condition found and the one left; the exact job runs afterwards; a name recorded now is that of a job run of this Run made for the stored spec; memo, lister and listed tasks stay as they are; an empty memo never holds back |
| InformerFactory.SharedInformerFactory.constructor | pkg/client/informers/externalversions/factory.go:92-108 | The options are applied in order over the defaults |
| InformerFactory.LastOptionCounts | pkg/client/informers/externalversions/factory.go:51-76 | The last namespace, the last tweak, and for each type the last period counts |
| InformerFactory.NoOptionLeavesDefaults | pkg/client/informers/externalversions/factory.go:92-101 | Without such an option: all namespaces, no tweak, no period of its own for the type |
| InformerFactory.SharedInformerFactory.InformerFor | pkg/client/informers/externalversions/factory.go:147-166 | The informer that the type already has, or a new one with the custom period of the type if there is one and the default period otherwise |
| InformerFactory.SharedInformerFactory.Start | pkg/client/informers/externalversions/factory.go:111-121 | Launches exactly what is registered and not started, once |
| InformerFactory.SharedInformerFactory.PerformAll | pkg/client/informers/externalversions/factory.go:111-166 | Over any operations every type keeps its first informer, made with its period, and no informer is launched twice |
| InformerFactory.SharedInformerFactory.WaitForCacheSync | pkg/client/informers/externalversions/factory.go:124-143 | Reports exactly the types started at its snapshot, whatever others do meanwhile |
| InformerFactory.StartedExactlyWhenStartedLater | pkg/client/informers/externalversions/factory.go:111-166 | A type is started if and only if some start came after it was asked for |
| TaskObjects.CodeEngineTaskStatus.DeepCopyInto | pkg/apis/codeenginetask/v1alpha1/zz_generated.deepcopy.go:106-115 | Equal value, new memory behind every pointer |
| TaskObjects.CodeEngineTask.DeepCopyInto | pkg/apis/codeenginetask/v1alpha1/zz_generated.deepcopy.go:29-36 | Equal value, new memory behind every pointer |
| TaskObjects.CodeEngineTaskList.DeepCopyInto | pkg/apis/codeenginetask/v1alpha1/zz_generated.deepcopy.go:57-69 | Equal metadata with a count of its own; same nil-ness, length and order; every slot is equal, new, and shares nothing with another |
| TaskObjects.DeepCopyList | pkg/apis/codeenginetask/v1alpha1/zz_generated.deepcopy.go:72-79 | Nil for nil, otherwise a list of equal value in memory of its own |
| TaskObjects.StatusValuesAreEqualExactly | pkg/apis/codeenginetask/v1alpha1/zz_generated.deepcopy.go:106-115 | Equal values mean equal fields and equal contents behind every pointer, nil being different from empty |
| TaskObjects.TaskValuesAreEqualExactly | pkg/apis/codeenginetask/v1alpha1/zz_generated.deepcopy.go:29-36 | The same for tasks |
| TaskObjects.ListMetaValuesAreEqualExactly | pkg/apis/codeenginetask/v1alpha1/zz_generated.deepcopy.go:57-60 | The same for the metadata of lists |
| TaskObjects.WritesElsewhereAreUnseen | pkg/apis/codeenginetask/v1alpha1/zz_generated.deepcopy.go:29-46 | Writes outside the memory of an object of this type do not change its value |
| Lister.KeyIsInjective | pkg/client/listers/codeenginetask/v1alpha1/codeenginetask.go:91-91 | For namespaces without slashes the key determines namespace and name |
| Lister.CodeEngineTaskNamespaceLister.List | pkg/client/listers/codeenginetask/v1alpha1/codeenginetask.go:82-87 | Lists exactly what is in the namespace and selected, each once |
| Lister.CodeEngineTaskNamespaceLister.Get | pkg/client/listers/codeenginetask/v1alpha1/codeenginetask.go:90-99 | Finds an object if and only if a scan of the namespace finds it, and it alone, under that name |
| Lister.LookupIsTheScan | pkg/client/listers/codeenginetask/v1alpha1/codeenginetask.go:82-99 | What is stored under the key is what a scan of the namespace finds under that name |
| Lister.AllNamespacesFindNothing | pkg/client/listers/codeenginetask/v1alpha1/codeenginetask.go:90-99 | A lister of all namespaces lists everything and finds nothing |

## Left out

- Condition messages, transition times and the completion time: a condition is its truth and its reason.
- The bytes of the JSON codec: raw fields either decode to a value or do not.
- Events and logs of the informers, the secret lister, IAM tokens, kubeconfig loading and process start-up.
- Events emitted by reconciles whose write got lost: the count of announcements is about the committed history.
- Deletion of job runs in Code Engine: the caches may lose one at any time, but what was once created stays in the books.
- More than one Run in one state machine: the other Runs are part of the environment, which creates foreign job runs.
- Other controllers that write the status of a Run, such as a cancellation by Tekton.
- Fairness: `ProgressIsAlwaysInReach` and `TheEndIsAlwaysInReach` say what can be reached, not that the scheduler gets there.
- Go routines of the informers: a launch is counted, what it does is not modelled.
- TaskObjects.CodeEngineTask.DeepCopyInto: of the object metadata only namespace, name, labels and annotations; owner references, finalizers, managed fields and the rest are copied by the library in the same way.
- InformerFactory.SharedInformerFactory.constructor: a custom period map is keyed by type, so two sample objects of one type in one map, of which the source lets an arbitrary one win, do not occur. Access to informers by resource is left out, too.
- Typed clients, fakes, the injection packages and the filtered factory: generated wrappers without behaviour of their own.
- Validation, defaults and registration of the scheme: one-line delegations.
- Reconciler.Reconciler.GetCodeEngineTask: the task built from an embedded spec has maps of its own for labels and annotations, where the source shares those of the Run; nothing reads them afterwards.
- Reconciler.Reconciler.InitializeRun: the clock is read once, and the second-granularity of stored times is not modelled.
