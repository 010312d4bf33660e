# The CertsuiteRun operator, verified

This project models the certsuite operator in Dafny and proves properties of the model. The
operator launches a job pod for every CertsuiteRun object, polls it, and records the phase of
the run; a sidecar in the pod independently writes a report into the same status object. Users
create, edit and delete runs meanwhile.

Check everything with `dafny verify dfyconfig.toml`.

## The parts

**The protocol.** `Protocol` is a labelled transition system: a versioned store of runs that is
its own history (`StatusStore`), pods with container states, a work queue, the controller's
process state with a program counter for the one Reconcile in flight, one program counter per
sidecar, and a clock. One step is one API call and the local code after it. `ProtocolStore`,
`ProtocolNames`, `ProtocolPods`, `ProtocolTruth`, `ProtocolPhases`, `ProtocolStages`,
`ProtocolSidecars`, `ProtocolLaunches` and `ProtocolPolls` each prove one family of invariants
step by step; `ProtocolTheorems` puts them together and states the results for every reachable
state, `ProtocolReports` says exactly when a run has its report, and `ProtocolCalls` what each call
of the controller comes to. `ProtocolWitness` shows, by runs of the protocol, what is not promised.

**The programs.** `Reconciler` and `SidecarProgram` are the controller and the sidecar as
programs, with the controller's globals, retry loop, container loop and early returns. They make
API calls against a world that moves in between (`Environment`), and every method is proved to
be a run of the protocol, so the results about reachable states are results about them.

**The pod builder.** `JobPod` is the builder as a function of pod values with its totality,
reference and argument properties; `JobPodOrder` has independence from the order of the options;
`JobPodFits` shows that the parts of the launched pod fit; `PodBuilder` is the
builder in place, proved equal to the function.

**The report.** `Report.dfy` (module `ReportModel`) is the report as a function of the claim, the
display flags and the order in which the claim's map happened to be iterated; `ReportBuilder` is
the loop with its counters, proved equal to the function for every iteration order.

**The deep copies.** `DeepCopy` copies structs that hold slices, pointers and maps on Dafny's
heap: first the struct, then one reference at a time.

**The console plugin.** `ConsolePlugin` has the create and delete loops over an API server that
may fail at every call.

`Api`, `Bags`, `PodNames` and `Polling` hold the API types, permutations of lists, the numbered
pod names, and the decision of one poll with its arithmetic on 64-bit durations.

## Assumptions

- Reconciles of runs are serial, and the results are about one lifetime of the controller that
  starts with no runs and no job pods. If a panic in Reconcile is not recovered it ends the
  lifetime (`Config.recoversPanics` covers both settings).
- A write that is answered with an error was not applied. Every applied write gives the object a
  new version.
- The Get at the start of Reconcile fails only with NotFound and sees the controller's own
  writes; otherwise it may be as stale as any other read. All other reads may show any past
  state, or fail.
- Containers only move forward, from waiting to running to terminated; a terminated container
  keeps its exit code. Statuses describe the containers in order, and there are no more statuses
  than containers.
- Pods with the job prefix are created by this controller only.
- The clock does not run backwards, and a container's start time is not in the future.

## Model

| member | source | states |
|---|---|---|
| ProtocolTheorems.NoLostUpdate | internal/controller/certsuiterun_controller.go:93-121 | in every reachable state, whatever was read stale and however often an update was retried, each stored write set what it was to set, on the object stored immediately before it, and changed of it only what its writer owns: phase and pod name, the report, or the spec |
| ProtocolTheorems.StoreRefinesAtomicStore | internal/controller/certsuiterun_controller.go:93-121 | at every moment of every history the versioned store with its conflicts and retries shows what the operations would give if each were done atomically |
| ProtocolTheorems.RegistersAreIndependent | certsuite-sidecar/app/main.go:66-83 | erasing all sidecar writes from a history changes no phase and no pod name, and erasing all controller writes changes no report |
| ProtocolTheorems.PhasesFormAPath | internal/controller/certsuiterun_controller.go:148-300 | for a name created once, every phase the controller stores continues the path unset, Deploying, then Running or DeployError, then Finished, Error or Timeout |
| ProtocolTheorems.QueueFollowsPhase | internal/controller/certsuiterun_controller.go:80-87 | when a live run of a name created once is on the controller's list: if it names a pod, exactly while it is in phase Running; if not, exactly until a Reconcile has issued it a pod name or has missed it, and then as long as that launch is in flight; and never in a terminal phase |
| ProtocolTheorems.LaunchesAreNotResumed | internal/controller/certsuiterun_controller.go:247-294 | a Deploying run of a name created once is on the list exactly while the one Reconcile that launches it is in flight, so a launch that ends half way is never resumed |
| ProtocolTheorems.StrictDeployErrorIsForgotten | internal/controller/certsuiterun_controller.go:277-284 | on a store that enforces the schema the rejected DeployError leaves the run Deploying, and nothing looks at it again once the update is over |
| ProtocolTheorems.RunningIsNeverForgotten | internal/controller/certsuiterun_controller.go:286-299 | even when names are reused and updates fail, a live run in phase Running is always queued, timed or being reconciled |
| ProtocolTheorems.PodNamesAreOwned | internal/controller/certsuiterun_controller.go:52-59 | certificationRuns is injective, its values are the prefix and a number from 1 to certSuitePodID, and the pod name of a live run is its entry |
| ProtocolTheorems.PodNamesAreUsedOnce | internal/controller/certsuiterun_controller.go:238-277 | nothing of the name of the pod created next was ever there before, in any namespace, and no other run's status ever showed it |
| ProtocolTheorems.PodNameNeverChanges | internal/controller/certsuiterun_controller.go:286-289 | within one incarnation of a run the pod name field is written at most once |
| ProtocolTheorems.PodNameIsWriteOnce | internal/controller/certsuiterun_controller.go:286-289 | the same along any stretch of the store's history, told apart from later incarnations by uid |
| ProtocolTheorems.DeletionIsIsolated | internal/controller/certsuiterun_controller.go:215-226 | the only pod a reconcile removes is the one its map holds for a missing run, the entry goes with it, and no live run names that pod |
| ProtocolCalls.DeletionTakesEffect | internal/controller/certsuiterun_controller.go:217-224 | a Delete that goes through removes the pod of the entry and nothing else of the cluster, one that fails nothing, and the entry goes either way |
| ProtocolCalls.DeletedForGood | internal/controller/certsuiterun_controller.go:217-240 | once the Delete for a missing run went through, that pod is in no later state of any run of the system, whatever is created, launched or retried meanwhile |
| ProtocolCalls.CreationTakesEffect | internal/controller/certsuiterun_controller.go:256-285 | a Create that goes through adds one pod in the run's namespace under the issued name, owned by the run with name, uid, kind and API version in their places, with a sidecar that watches for that run's claim, and goes on to mark the run running; one that fails adds nothing and goes on to DeployError |
| ProtocolCalls.NamedRunsArePolled | internal/controller/certsuiterun_controller.go:215-233 | a live run that names its pod is polled under that name, with a timeout its spec had, and never launched again, however stale the first read is otherwise |
| ProtocolCalls.UpdateLands | internal/controller/certsuiterun_controller.go:97-113 | an update that lands (call not lost, run not written to since it was read and, where the schema is enforced, not to DeployError or Timeout) sets the phase, and the pod name if that is its business, on top of the object as it was the moment before, keeps uid, spec and report, and lets the controller go on as the step of the launch or the verdict asks |
| ProtocolCalls.UpdateDoesNotLand | internal/controller/certsuiterun_controller.go:97-118 | an update that does not land stores nothing, is read and tried again exactly when the run is still there and was written to meanwhile and tries are left, and otherwise is tried from the start if it was a verdict and dropped if not |
| ProtocolCalls.FiveTriesAtMost | internal/controller/certsuiterun_controller.go:98 | in every reachable state an update in flight has at most five tries, and at least one, left |
| ProtocolCalls.SchemaRefusesTwoPhases | api/v1alpha1/certsuiterun_types.go:79-82 | of all phases the controller ever tries to store, in any reachable state, the schema takes exactly those that are neither DeployError nor Timeout |
| ProtocolCalls.OnlyCreationsAndDeletionsWake | internal/controller/certsuiterun_controller.go:80-87 | over every step, the undelivered events grow by the key of a run created or deleted and by nothing else, so that no edit and no status write wakes the controller, and shrink only by delivery |
| ProtocolTheorems.TerminalPhasesAreTrue | internal/controller/certsuiterun_controller.go:139-195 | while the named pod exists, Finished means its certsuite container is terminated with exit code 0 and Error means a non-zero exit code |
| ProtocolTheorems.TimeoutsAreOverdue | internal/controller/certsuiterun_controller.go:165-174 | a stored Timeout rests on an observation of the run's own pod still running, and for longer than a timeout its spec had (an hour if it did not parse) plus two minutes, unless that timeout is within two minutes of the largest duration |
| ProtocolTheorems.PollingIsBounded | internal/controller/certsuiterun_controller.go:130-177 | with every timeout the run's spec ever had, parsed or an hour, at most T, however polls fail or the spec is edited in between, at most floor((T + 2 min) / 10 s) + 1 polls of a live run of a name created once find its container running within its time |
| ProtocolTheorems.NextPollDecides | internal/controller/certsuiterun_controller.go:163-194 | in every reachable state, once that many polls found the container running, the next poll that shows it running times the run out, and one that shows it terminated ends the run |
| ProtocolTheorems.StrictStorePhases | api/v1alpha1/certsuiterun_types.go:79-82 | on a store that enforces the schema every stored phase is unset or in the enum, and Finished and Error are the only terminal phases |
| ProtocolTheorems.NamedRunsAreAccountedFor | internal/controller/certsuiterun_controller.go:148-196 | every live run that names a pod is Running and still on the list, or Finished or Error with its container seen to exit cleanly or not, or in phase Timeout |
| ProtocolTheorems.StrictRunsEndByExiting | api/v1alpha1/certsuiterun_types.go:79-82 | on a store that enforces the schema no timeout ever ends a run: it stays Running and on the list until its container is seen to exit |
| ProtocolTheorems.StrictTimeoutIsRetried | internal/controller/certsuiterun_controller.go:167-173 | on such a store the rejected Timeout changes no stored object and the run is polled again |
| ProtocolTheorems.ReportsAreRight | certsuite-sidecar/app/main.go:65-86 | every stored report was written by the sidecar of a pod issued for that run, is that sidecar's only one, and was built with the flags of the very spec it is stored beside |
| ProtocolTheorems.StepInv | internal/controller/certsuiterun_controller.go:209-300 | every step of users, cluster, sidecars and controller keeps the whole invariant |
| ProtocolStore.WrittenIsAtomic | internal/controller/certsuiterun_controller.go:98-113 | whatever a step stores is its operation applied to the object current at that moment |
| ProtocolStore.StoredExactlyWhen | internal/controller/certsuiterun_controller.go:107-110 | an update of an object that was really read is stored if and only if nobody wrote to the object since it was read and the store admits the new status |
| ProtocolStore.StoreStep | internal/controller/certsuiterun_controller.go:93-121 | every step keeps the store atomic and every object a writer holds genuinely read |
| ProtocolNames.NameStep | internal/controller/certsuiterun_controller.go:217-242 | every step keeps issued names owned by one run, also across stale reads |
| ProtocolPods.PodStep | internal/controller/certsuiterun_controller.go:276-277 | every step keeps pods named after issued numbers, two containers each, their states moving forward only, and a pod name unused until its pod is created |
| ProtocolTruth.TruthStep | internal/controller/certsuiterun_controller.go:148-196 | every step keeps stored phases justified by what had been observed of the run's pod |
| ProtocolTruth.RejectedUpdate | internal/controller/certsuiterun_controller.go:167-173 | an update outside the enum leaves the store as it was, and a verdict is tried again |
| ProtocolPhases.ScheduleStep | internal/controller/certsuiterun_controller.go:163-177 | every step keeps every Running run on the controller's list |
| ProtocolStages.StageStep | internal/controller/certsuiterun_controller.go:80-87 | for a name created once every step keeps at most one token of work, held by someone whose business fits the phase |
| ProtocolStages.PathStep | internal/controller/certsuiterun_controller.go:124-128 | every step keeps the stored phases on the path |
| ProtocolSidecars.SidecarStepInv | certsuite-sidecar/app/main.go:66-83 | every step keeps a sidecar's report aimed at its own run, and one per sidecar |
| ProtocolSidecars.DoneStep | certsuite-sidecar/app/main.go:78-87 | every step keeps a sidecar that is done the author of a stored report |
| ProtocolLaunches.LaunchStep | internal/controller/certsuiterun_controller.go:229-242 | for a name created once every step keeps at most one pod name issued for the run, and the run waiting exactly until a Reconcile has launched or missed it |
| ProtocolLaunches.SidecarsNamedStep | internal/controller/certsuiterun_controller.go:276-289 | every step keeps every pod a status ever named created, and its sidecar with it |
| ProtocolReports.ReportGetsThroughExactlyWhen | certsuite-sidecar/app/main.go:66-83 | the sidecar's one update gets through if and only if the call does, nobody wrote to the run since the sidecar read it, and the schema, where enforced, takes the phase that was read and the states of the claim |
| ProtocolReports.BuiltReportAdmitted | api/v1alpha1/certsuiterun_types.go:117-137 | the schema takes a built report exactly when every test case of the claim has one of the four known states |
| ProtocolReports.ReportIffStored | certsuite-sidecar/app/main.go:76-83 | a live run has a report if and only if a sidecar stored one in this incarnation of the run, whether or not its name was used before |
| ProtocolReports.ReportIffSidecarDone | certsuite-sidecar/app/main.go:66-86 | a live run of a name created once that names a pod, Finished or not, has a report if and only if the sidecar of that very pod got its update through |
| ProtocolReports.StoredReportsReadOff | certsuite-sidecar/app/cnf-cert-suite-report/cnfcertsuitereport.go:98-134 | every stored report in every reachable state says of some claim, row by row, what the two display flags of the very spec it is stored beside ask for |
| ProtocolPolls.PaceStep | internal/controller/certsuiterun_controller.go:163-177 | every step keeps the polls of a run at least ten seconds apart |
| ProtocolPolls.ThresholdStep | internal/controller/certsuiterun_controller.go:130-137 | every step keeps each recorded threshold the value, in nanoseconds, of a timeout the run's spec had, or an hour where that does not parse |
| ProtocolWitness.NameReuseBreaksThePath | internal/controller/certsuiterun_controller.go:286-289 | for any configuration, name and spec and any number of creations from two on there is a run in which a name deleted and created again during a launch goes from no phase straight to Running |
| ProtocolWitness.PathExactlyWhenNotReused | internal/controller/certsuiterun_controller.go:148-300 | the stored phases of a name created n times form a path in every reachable state if and only if n is at most one |
| ProtocolWitness.LaunchAbandoned | internal/controller/certsuiterun_controller.go:286-294 | for any configuration, name and spec there is a run that leaves a live run Deploying with its pod up, no pod name, an idle controller and nothing queued |
| ProtocolWitness.DeployErrorAbandoned | internal/controller/certsuiterun_controller.go:277-284 | on a store that enforces the schema a run whose pod could not be created can end the same way, with no pod |
| ProtocolWitness.FinishedWithoutReport | certsuite-sidecar/app/main.go:80-83 | for any configuration, name and spec there is a run that ends Finished with no report and no sidecar left to write one, the case ProtocolReports.ReportIffSidecarDone sets apart |
| StatusStore.SameVersionSameObject | internal/controller/certsuiterun_controller.go:107-110 | two reads of one object with equal versions are equal, whenever they were made |
| StatusStore.AtomicReplay | internal/controller/certsuiterun_controller.go:98-113 | an atomic log shows at every time the replay of its operations |
| StatusStore.ReplayWithout | internal/controller/certsuiterun_controller.go:97-106 | leaving one writer out of a replay leaves the other writer's fields as they are |
| StatusStore.PodNameSeen | internal/controller/certsuiterun_controller.go:215-229 | a stale read that sees the controller's own writes sees the live object's pod name, phase and uid |
| PodNames.DecimalRoundTrip | internal/controller/certsuiterun_controller.go:238-239 | a printed number can be read back |
| PodNames.PodNameInjective | internal/controller/certsuiterun_controller.go:238-239 | two counter values never give one pod name |
| Polling.CertsuiteStatus | internal/controller/certsuiterun_controller.go:139-146 | in a job pod the loop finds the second reported status, or none |
| Polling.DeadlineWraps | internal/controller/certsuiterun_controller.go:165-167 | a non-negative timeout makes every poll of a started container time out exactly when it is within two minutes of the largest duration |
| Polling.PollsAreBounded | internal/controller/certsuiterun_controller.go:163-177 | polls ten seconds apart that all find the container within its time number at most floor((T + 2 min) / 10 s) + 1, when no timeout they read exceeds T |
| Polling.PollDecides | internal/controller/certsuiterun_controller.go:163-177 | the arithmetic of one poll: a poll of a running container says still running exactly while the time left is not negative |
| Polling.TimedOutExactlyWhen | internal/controller/certsuiterun_controller.go:130-176 | in plain nanoseconds: a poll of a running container decides Timeout exactly when it has been running for longer than the parsed timeout, or an hour, plus two minutes |
| Reconciler.Reconciler.Reconcile | internal/controller/certsuiterun_controller.go:209-300 | one reconciliation is a run of the protocol and keeps the globals in agreement with it. A missing run has its entry removed and the pod of its entry, if the call did not fail; a run that names its pod is polled once, and nothing else; any other run is given the next name and launched. Which result is returned, which updates were stored and whether the key was asked for again, and when, follow in each case from what the calls came back with |
| Reconciler.Reconciler.LaunchPod | internal/controller/certsuiterun_controller.go:247-299 | announcing, creating the pod and recording it is a run of the protocol that stores the updates it got to and no others; it asks for the key again, in ten seconds, exactly when the run was marked running, and finishes without an error on every early return |
| Reconciler.Reconciler.HandleEndOfRun | internal/controller/certsuiterun_controller.go:148-196 | one poll is a run of the protocol. It asks to come back in ten seconds exactly when it found the container running within the timeout, and exactly such polls go on record; it fails exactly when the pod was not read, its container has no status or the verdict was not stored; it panics on a waiting container; and otherwise stores Timeout, Finished or Error, whichever the container's state and the time call for |
| Reconciler.Reconciler.UpdateStatus | internal/controller/certsuiterun_controller.go:93-121 | the retry loop makes one to five attempts, all but the last of them conflicts, gives up after another error or the fifth, and reports success exactly when the last was accepted: then one update was applied, to the object stored just before it, and otherwise none was |
| Reconciler.Reconciler.UpdateStatusPhase | internal/controller/certsuiterun_controller.go:124-128 | the same for an update of the phase alone |
| Reconciler.Reconciler.GetContainerStatus | internal/controller/certsuiterun_controller.go:139-146 | the loop returns the status paired with the first container of the name among those reported |
| Environment.World.PutStatus | internal/controller/certsuiterun_controller.go:107-110 | an accepted update is the only update applied since the read, on top of the object it was read from |
| SidecarProgram.HandleClaimFile | certsuite-sidecar/app/main.go:32-88 | the sidecar stores one report of this claim if and only if the claim is readable, neither call is lost, the run is found, the claim is safe under the flags of the spec that was read, nobody writes to the run between the read and the update, and the schema takes the result; otherwise it dies having stored none |
| SidecarProgram.OthersLeaveSidecar | certsuite-sidecar/app/main.go:32-36 | no step of anybody else moves a sidecar or stores a report in its name |
| JobPod.NewIsTotal | internal/controller/cnf-cert-job/cnfcertjob.go:22-32 | for every list of options, of any length and with repeats, New neither fails nor dereferences a missing container, and the two containers stay |
| JobPod.MountsResolveIff | internal/controller/cnf-cert-job/cnfcertjob.go:171-213 | every volume mount names a volume of the pod exactly when the options include a config map |
| JobPod.LaunchMountsResolveOnce | internal/controller/certsuiterun_controller.go:256-268 | in the pod of Reconcile's list every mount names exactly one volume |
| JobPod.LaunchReportsBack | internal/controller/cnf-cert-job/cnfcertjob.go:46-64 | the environment of the launched sidecar, its namespace taken from the pod's and its run from the option, names the run it was launched for |
| JobPod.NewAssembles | internal/controller/cnf-cert-job/cnfcertjob.go:112-248 | whatever the options, the pod is the initial one with eight parts filled in |
| JobPod.LaunchPodIs | internal/controller/certsuiterun_controller.go:256-268 | the pod Reconcile creates, part by part |
| JobPod.LaunchEnv | internal/controller/cnf-cert-job/cnfcertjob.go:43-64 | the launched sidecar reads the pod's own name and namespace, the results folder and the run's name from its environment, each under its own variable |
| JobPodFits.LaunchFits | internal/controller/cnf-cert-job/cnfcertjob.go:35-110 | the parts of the launched pod fit: the suite's output directory is a writable mount of an empty volume that the sidecar has read-only at the folder its environment names; the configuration file and the docker configuration lie in the mounts of the run's config map and secret; it is never restarted and the run is its one owner |
| JobPodFits.LaunchSettings | internal/controller/cnf-cert-job/cnfcertjob.go:79-84 | each flag of the suite's command line has its own value: the fixed ones, and the run's settings, whatever strings they are |
| JobPodFits.LaunchPathsDiffer | internal/controller/cnf-cert-job/cnfcertjob.go:68-97 | no two volumes of one container are mounted at one path |
| JobPodOrder.OrderIrrelevant | internal/controller/cnf-cert-job/cnfcertjob.go:22-32 | two orders of the same options give one pod up to the order of volumes and of flag/value pairs, when no two options depend on their order |
| JobPodOrder.OrderIrrelevantExactlyWhen | internal/controller/cnf-cert-job/cnfcertjob.go:112-248 | all permutations of a list of options give one pod in that sense if and only if no option that overwrites, and no environment variable, is set to two values in it |
| JobPodOrder.LaunchAnyOrder | internal/controller/certsuiterun_controller.go:256-268 | Reconcile's options in any permutation give that pod, with a command line that says the same |
| JobPodOrder.ArgsRoundTrip | internal/controller/cnf-cert-job/cnfcertjob.go:138-169 | for all user strings, also ones equal to a flag, positional parsing of the arguments gives back the settings |
| JobPodOrder.FlagsDistinct | internal/controller/cnf-cert-job/cnfcertjob.go:79-84 | every flag stands once in flag position |
| PodBuilder.New | internal/controller/cnf-cert-job/cnfcertjob.go:22-32 | the loop over the options builds, in a new object, the pod of the function, and its error return is never taken |
| PodBuilder.PodObject.constructor | internal/controller/cnf-cert-job/cnfcertjob.go:35-110 | the pod every job starts from |
| PodBuilder.PodObject.Apply | internal/controller/cnf-cert-job/cnfcertjob.go:112-248 | one option changes the pod in place as the function says, and an error leaves it as it was |
| PodBuilder.PodObject.ApplyPreflightSecret | internal/controller/cnf-cert-job/cnfcertjob.go:188-213 | no secret changes nothing, and without the certsuite container the option is a nil dereference |
| PodBuilder.PodObject.FindContainer | internal/controller/cnf-cert-job/cnfcertjob.go:250-266 | the finder returns the first container of the name, or none |
| ReportModel.ReportIsOrderFree | certsuite-sidecar/app/cnf-cert-suite-report/cnfcertsuitereport.go:98-160 | two iteration orders of the claim's map give one summary, one verdict and the same rows as a bag |
| ReportModel.SummaryIsOrderFree | certsuite-sidecar/app/cnf-cert-suite-report/cnfcertsuitereport.go:101-133 | the counters are the numbers of cases in each state, said without any order |
| ReportModel.EachNameOnce | certsuite-sidecar/app/cnf-cert-suite-report/cnfcertsuitereport.go:102-134 | the rows carry every test name of the claim exactly once |
| ReportModel.ReportReadsOff | certsuite-sidecar/app/cnf-cert-suite-report/cnfcertsuitereport.go:102-134 | read off the claim, row by row: which reason, remediation, logs and description each row shows, when it shows target resources, that these are the case's own lists in their places, and that the versions are the claim's |
| ReportModel.SummaryIsRecount | certsuite-sidecar/app/cnf-cert-suite-report/cnfcertsuitereport.go:136-149 | counting the rows again gives the summary |
| ReportModel.CountersAddUp | certsuite-sidecar/app/cnf-cert-suite-report/cnfcertsuitereport.go:110-124 | the four counters never exceed the total and reach it exactly when every state is a known one |
| ReportModel.VerdictIsWorst | certsuite-sidecar/app/cnf-cert-suite-report/cnfcertsuitereport.go:151-160 | the verdict is the worst severity among the cases, and skip for the empty claim |
| ReportModel.VerdictReadsOff | certsuite-sidecar/app/cnf-cert-suite-report/cnfcertsuitereport.go:136-160 | read off the claim: error if and only if some case is in error, fail if and only if none is and some failed, skip if and only if all were skipped, pass otherwise; each counter is the number of cases in its state |
| ReportModel.SummaryOfUnion | certsuite-sidecar/app/cnf-cert-suite-report/cnfcertsuitereport.go:98-149 | the summaries of disjoint claims add up to that of their union |
| ReportModel.VerdictOfUnion | certsuite-sidecar/app/cnf-cert-suite-report/cnfcertsuitereport.go:151-160 | the verdict of the union of disjoint claims is the worse of theirs |
| ReportModel.FlagsDoNotInterfere | certsuite-sidecar/app/cnf-cert-suite-report/cnfcertsuitereport.go:126-132 | from a claim that gives a report under some flags, other flags give one with the same facts, differing in logs and target resources only and in nothing of a failed case, unless they newly ask for passed cases' resources and one of those is malformed: exactly then there is no report |
| ReportModel.FlagsOnlyReveal | certsuite-sidecar/app/cnf-cert-suite-report/cnfcertsuitereport.go:126-132 | turning flags on keeps every value shown and fills only empty ones, unless, exactly in that case, it costs the report |
| ReportModel.SafetyAcrossFlags | certsuite-sidecar/app/cnf-cert-suite-report/cnfcertsuitereport.go:126-130 | a claim that does not stop the sidecar under some flags stops it under others if and only if these newly ask for passed cases' resources and some passed case has details of the wrong shape |
| ReportModel.FlagCanStopTheSidecar | certsuite-sidecar/app/cnf-cert-suite-report/cnfcertsuitereport.go:181-192 | there is a claim with one passed case that gives a report without the flag and stops the sidecar with it |
| ReportModel.SafetyIsAntitone | certsuite-sidecar/app/cnf-cert-suite-report/cnfcertsuitereport.go:126-130 | a claim that does not stop the sidecar with more flags on does not stop it with fewer |
| ReportModel.ZipLastWins | certsuite-sidecar/app/cnf-cert-suite-report/cnfcertsuitereport.go:181-192 | a target resource maps exactly the object's keys, each to the value at its last occurrence |
| ReportModel.ZipRecoverable | certsuite-sidecar/app/cnf-cert-suite-report/cnfcertsuitereport.go:181-192 | with distinct keys every pair can be read back |
| ReportBuilder.SetRunCRStatus | certsuite-sidecar/app/cnf-cert-suite-report/cnfcertsuitereport.go:98-161 | the loop, in an iteration order of the map's choosing, sets the report of the function but for its list of targets, and stops with the status untouched exactly when some shown case has details of the wrong shape |
| ReportBuilder.BuildRow | certsuite-sidecar/app/cnf-cert-suite-report/cnfcertsuitereport.go:104-132 | a row filled in field by field is the row of the function |
| ReportBuilder.TestCase.SetTargets | certsuite-sidecar/app/cnf-cert-suite-report/cnfcertsuitereport.go:163-179 | empty or undecodable details change nothing, malformed ones stop it, others fill in the targets |
| ReportBuilder.GetTargetResources | certsuite-sidecar/app/cnf-cert-suite-report/cnfcertsuitereport.go:181-192 | the nested loops give one map per object in order, and stop exactly on a failed assertion or a missing value |
| DeepCopy.DeepCopyStatus | api/v1alpha1/zz_generated.deepcopy.go:243-265 | the copy of any status, nil included and however its parts are shared, shows the same value, nil kept apart from empty, and reaches new objects only: original and copy share nothing, so that no writes through one show in the other |
| DeepCopy.CopyStatus | api/v1alpha1/zz_generated.deepcopy.go:243-255 | pod name and report pointers are replaced by fresh ones of equal value, nil kept nil |
| DeepCopy.CopyReportPointer | api/v1alpha1/zz_generated.deepcopy.go:139-146 | the same for a report |
| DeepCopy.CopyReport | api/v1alpha1/zz_generated.deepcopy.go:125-136 | a report's targets and results are replaced by fresh copies of equal value |
| DeepCopy.CopyCnfTargets | api/v1alpha1/zz_generated.deepcopy.go:303-352 | all nine slices are replaced by fresh ones of equal value |
| DeepCopy.CopyPods | api/v1alpha1/zz_generated.deepcopy.go:315-321 | a fresh slice of pods whose container slices are fresh too |
| DeepCopy.CopyPod | api/v1alpha1/zz_generated.deepcopy.go:268-275 | a pod's slice of containers is replaced by a fresh one of equal value |
| DeepCopy.CopyMaps | api/v1alpha1/zz_generated.deepcopy.go:388-400 | a fresh slice whose maps are fresh, entry by entry equal |
| DeepCopy.CopyTargets | api/v1alpha1/zz_generated.deepcopy.go:386-414 | both slices of maps are replaced, and every map in them, nil maps kept nil |
| DeepCopy.CopyCase | api/v1alpha1/zz_generated.deepcopy.go:427-434 | a result with its target resources, nil kept nil |
| DeepCopy.CopyCases | api/v1alpha1/zz_generated.deepcopy.go:129-135 | a fresh slice of results, each of equal value |
| DeepCopy.CopySpec | api/v1alpha1/zz_generated.deepcopy.go:223-230 | a spec's secret name is a fresh pointer of equal value |
| DeepCopy.ViewStatus | api/v1alpha1/certsuiterun_types.go:76-87 | every status shows a value, so the copies' precondition excludes nothing |
| DeepCopy.OneStatusValue | api/v1alpha1/certsuiterun_types.go:76-87 | and only one |
| DeepCopy.OtherWritesDoNotShow | api/v1alpha1/zz_generated.deepcopy.go:243-255 | how the disjointness DeepCopyStatus promises is used: writes into objects a status does not reach, however many, leave its value |
| ConsolePlugin.CreateResources | internal/controller/certsuiteconsoleplugin_controller.go:111-153 | one condition per attempted object in order, true exactly when its create succeeded, and a failing status update ends it right after that object |
| ConsolePlugin.CreateOne | internal/controller/certsuiteconsoleplugin_controller.go:118-142 | the condition and its reason say how the create came out |
| ConsolePlugin.DeleteResources | internal/controller/certsuiteconsoleplugin_controller.go:155-167 | exactly the objects before the first error are gone |
| ConsolePlugin.CreateThenDelete | internal/controller/certsuiteconsoleplugin_controller.go:111-167 | a fully successful create on a cluster with none of the objects, and then a successful delete, leave the cluster as it was |
| ConsolePlugin.DeleteTwice | internal/controller/certsuiteconsoleplugin_controller.go:161-165 | once a delete removed anything, the next one fails at the first object and removes nothing |

## Where the code and what it says differ

- The phases `CertSuiteTimeout` and `CertSuiteDeployError` are written by the controller but are
  not in the enum of the schema (api/v1alpha1/certsuiterun_types.go:81). The model follows the
  code on both kinds of store: one that takes every phase, and one that enforces the enum, where
  a timed-out run is polled until its container exits.
- `CertSuiteDeployFailure` is in the enum and among the definitions but is never written.
- A timeout within two minutes of the largest duration wraps around and times out at once.
- The builder's initial pod mounts a volume it does not declare; only the config map option
  declares it.
- A launch that fails half way is not taken up again. When the update to Deploying, to Running
  or to DeployError fails, Reconcile logs it and returns no error, and the run stays where it
  is, possibly with its pod up. On a store that enforces the schema the update to DeployError
  always fails.
- The sidecar updates the status once, so any write to the run between its read and its update,
  the controller's included, costs the report.
- A display flag can cost the report too: with compliant resources shown always, one passed case
  with check details of the wrong shape stops the sidecar.
- Deleting the plugin's resources is not idempotent, so a delete that failed midway is never
  completed by trying again.

## Left out

- Lifetimes of the controller that start with runs or pods left by an earlier one: its counter and map live in memory, and names may then be issued again.
- PollsAreBounded: leaves out the one timeout of 2^63 - 1 - 120·10^9 ns itself, where the saturating elapsed time can never exceed the deadline.
- PollingIsBounded: is about live runs of names created once; a deleted run may be polled on a stale read besides its delete event, and then polls are not ten seconds apart.
- RunningIsNeverForgotten: is about phase Running; a launch that failed half way is abandoned, as LaunchAbandoned shows.
- SetRunCRStatus: leaves out the list of targets under test and the helpers that fill it, which are plain copying loops; the field is part of the deep copies.
- OtherWritesDoNotShow: is stated for a status; reports, targets and results are parts of one.
- JSON and YAML decoding, and `time.ParseDuration`: uninterpreted partial functions, or inputs already decoded.
- Waiting for the claim file: the number of looks is a parameter of the sidecar's program.
- The wait between retries and the rate limit of the work queue: a key asked for again may come up any time from its due time on.
- The order in which the work queue hands out keys: any key that is ready may be next.
- A Go slice is an array of its own here: capacity beyond the length, and two slices sharing part of one array, are not modelled.
- The panic of a bare lookup in the controller's container loop when there are more statuses than containers: excluded by assumption.
- Metadata of the Kubernetes objects beyond names, namespaces, uids and owners; the deep copies of whole runs and run lists add only it.
- Messages and times of the plugin's conditions, and reading the plugin's files.
- Webhooks, wiring of the manager, logging, manifests and scripts.
