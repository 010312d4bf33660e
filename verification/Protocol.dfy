/** The CertsuiteRun protocol as a labelled transition system.

    One step is one API call of the controller or of a sidecar together with the local code
    up to the next call, or one move of the environment: users, the cluster, the event
    delivery, the clock. A label carries every choice a step depends on, so a step is a
    function of the state and the label.

    Assumptions: reconciles are serial; a write that errors was not applied; the Get at the
    start of Reconcile fails only with NotFound and sees the controller's own writes, and is
    otherwise as stale as any other read; a container that terminated stays terminated and
    keeps its exit code; statuses describe the containers in order. */
module Protocol {
  import opened Api
  import opened PodNames
  import opened StatusStore
  import opened Polling
  import JobPod
  import R = ReportModel

  /** What does not change during a run of the system. */
  datatype Config = Config(
    strict: bool,                 // the store enforces the CRD's enums
    recoversPanics: bool,         // a panic in Reconcile counts as a returned error
    parse: DurationParser,
    decode: R.Decoder,
    image: string,
    kind: string,
    apiVersion: string)

  /** retry.DefaultRetry: the number of times a conflicting update is tried. */
  const TRIES := 5

  /** What the controller is updating the status for. */
  datatype Job =
    | Deploy(run: Run, podName: string)
    | MarkRunning(podName: string)
    | MarkDeployError(podName: string)
    | Verdict(podName: string, phase: string, why: Evidence)

  /** Where the one Reconcile in flight stands: the next API call it will make. */
  datatype Pc =
    | Idle
    | Crashed
    | AtGetRun(key: Key)
    | AtDeletePod(key: Key, podName: string)
    | AtCreatePod(key: Key, run: Run, podName: string)
    | AtPoll(key: Key, podName: string, timeout: string)
    | AtStatusGet(key: Key, job: Job, tries: nat)
    | AtStatusPut(key: Key, job: Job, tries: nat, read: Object)

  datatype Sidecar =
    | Watching(run: Key)
    | Holding(run: Key, read: Object, report: Report)
    | Done
    | Dead

  /** A sidecar that has neither finished nor died. */
  predicate IsActive(sc: Sidecar) {
    sc.Watching? || sc.Holding?
  }

  datatype Cluster = Cluster(
    pods: map<Key, ClusterPod>,
    seen: set<(Key, ClusterPod)>,   // every pod state there ever was; a stale Get returns one of them
    sidecars: map<Key, Sidecar>)

  datatype Queue = Queue(
    events: multiset<Key>,          // create and delete events not yet delivered
    ready: set<Key>,                // the work queue
    delayed: map<Key, int>)         // keys to be queued again at a time

  /** The controller process: its two globals and where its one Reconcile stands. */
  datatype Process = Process(
    runs: map<Key, string>,         // certificationRuns
    lastId: nat,                    // certSuitePodID
    issued: seq<Key>,               // history: the key each pod id was issued for
    missed: set<Key>,               // history: the keys whose run a Reconcile did not find
    pc: Pc)

  datatype State = State(
    log: Log,
    nextUid: nat,
    cluster: Cluster,
    queue: Queue,
    ctl: Process,
    clock: int,
    polls: seq<Poll>)               // history: the polls that found the container still running

  /** A step of a user. */
  datatype UserStep =
    | CreateRun(k: Key, spec: RunSpec)
    | DeleteRun(k: Key)
    | EditRun(k: Key, spec: RunSpec)

  /** A step of the cluster around the runs: time, event delivery, pods. */
  datatype ClusterStep =
    | Tick(now: int)
    | Deliver(k: Key)
    | Fire(k: Key)
    | Kubelet(pod: Key, i: nat, status: ContainerState)
    | PodGone(pod: Key)

  datatype SidecarStep =
    | Die(pod: Key)
    | ReadRun(pod: Key, t: nat, claim: R.Claim, order: seq<string>)
    | WriteReport(pod: Key, fails: bool)

  /** A step of the controller: one API call and the local code after it. */
  datatype ControllerStep =
    | Start(k: Key)
    | GetRun(t: nat)
    | DeletePod(fails: bool)
    | CreatePod(fails: bool)
    | PollPod(observed: Option<ClusterPod>)
    | StatusGet(t: nat, fails: bool)
    | StatusPut(fails: bool)

  datatype Label =
    | ByUser(user: UserStep)
    | ByCluster(cluster: ClusterStep)
    | BySidecar(sidecar: SidecarStep)
    | ByController(controller: ControllerStep)

  ghost predicate Init(s: State) {
    && s.log == [] && s.polls == []
    && s.cluster == Cluster(map[], {}, map[])
    && s.queue == Queue(multiset{}, {}, map[])
    && s.ctl == Process(map[], 0, [], {}, Idle)
  }

  // ------------------------------------------------------------- the store

  predicate AdmitsReport(r: Option<Report>) {
    match r
    case None => true
    case Some(report) =>
      && (|| report.verdict == VERDICT_PASS || report.verdict == VERDICT_SKIP
          || report.verdict == VERDICT_FAIL || report.verdict == VERDICT_ERROR)
      && forall i :: 0 <= i < |report.results| ==> InStateEnum(report.results[i].result)
  }

  predicate Admits(c: Config, status: RunStatus) {
    !c.strict || (InPhaseEnum(status.phase) && AdmitsReport(status.report))
  }

  datatype PutResult = Stored | NotFound | Conflict | Invalid

  /** An update of the status to `op` applied to what was read, sent with the version read. */
  function TryPut(c: Config, log: Log, k: Key, op: Op, read: Object): PutResult {
    var now := Now(log, k);
    var updated := Apply(op, Some(read.run));
    if now.None? then NotFound
    else if now.value.version != read.version then Conflict
    else if updated.None? || !Admits(c, updated.value.status) then Invalid
    else Stored
  }

  function Append(s: State, k: Key, op: Op, value: Option<Run>): State {
    s.(log := s.log + [Entry(k, op, value)])
  }

  // --------------------------------------------------------- the controller

  function OpOf(job: Job): Op {
    match job
    case Deploy(_, _) => SetPhase(PHASE_DEPLOYING, Launch)
    case MarkRunning(name) => SetRunning(name)
    case MarkDeployError(_) => SetPhase(PHASE_DEPLOY_ERROR, Launch)
    case Verdict(_, phase, why) => SetPhase(phase, why)
  }

  predicate NamesPod(status: RunStatus) {
    status.podName.Some? && status.podName.value != ""
  }

  function Goto(s: State, pc: Pc): State {
    s.(ctl := s.ctl.(pc := pc))
  }

  /** Reconcile asks for the key again no earlier than `due`. */
  function Requeue(s: State, k: Key, due: int): State {
    var earlier := k in s.queue.delayed && s.queue.delayed[k] < due;
    Goto(s, Idle).(queue := s.queue.(delayed := s.queue.delayed[k := if earlier then s.queue.delayed[k] else due]))
  }

  function DoGetRun(s: State, k: Key, t: nat): State
    requires t <= |s.log|
  {
    match At(s.log, t, k)
    case None =>
      var next := if k in s.ctl.runs then AtDeletePod(k, s.ctl.runs[k]) else Idle;
      s.(ctl := s.ctl.(missed := s.ctl.missed + {k}, pc := next))
    case Some(o) =>
      if NamesPod(o.run.status) then Goto(s, AtPoll(k, o.run.status.podName.value, o.run.spec.timeOut))
      else
        var name := PodName(s.ctl.lastId + 1);
        s.(ctl := Process(s.ctl.runs[k := name], s.ctl.lastId + 1, s.ctl.issued + [k], s.ctl.missed,
                          AtStatusGet(k, Deploy(o.run, name), TRIES)))
  }

  function DoDeletePod(s: State, k: Key, name: string, fails: bool): State {
    s.(cluster := s.cluster.(pods := if fails then s.cluster.pods else s.cluster.pods - {Key(k.ns, name)}),
       ctl := s.ctl.(runs := s.ctl.runs - {k}, pc := Idle))
  }

  function LaunchedPod(c: Config, k: Key, run: Run, name: string): ClusterPod {
    ClusterPod(JobPod.LaunchPod(name, k, JobPod.Owner(c.apiVersion, c.kind, k.name, run.uid), run.spec, c.image), [])
  }

  function DoCreatePod(c: Config, s: State, k: Key, run: Run, name: string, fails: bool): State {
    if fails then Goto(s, AtStatusGet(k, MarkDeployError(name), TRIES))
    else
      var pod, p := Key(k.ns, name), LaunchedPod(c, k, run, name);
      Goto(s, AtStatusGet(k, MarkRunning(name), TRIES))
        .(cluster := Cluster(s.cluster.pods[pod := p], s.cluster.seen + {(pod, p)},
                             s.cluster.sidecars[pod := Watching(JobPod.ReportsTo(p.spec))]))
  }

  function DoPoll(c: Config, s: State, k: Key, name: string, timeout: string, observed: Option<ClusterPod>): State
    requires observed.Some? ==> StatusesFit(observed.value)
  {
    if observed.None? then Requeue(s, k, s.clock)
    else
      var threshold := JobRunTimeThreshold(c.parse, timeout);
      match PollOutcome(observed.value, threshold, s.clock)
      case NoStatus => Requeue(s, k, s.clock)
      case NilDereference => if c.recoversPanics then Requeue(s, k, s.clock) else Goto(s, Crashed)
      case StillRunning(start) =>
        Requeue(s, k, s.clock + CHECK_INTERVAL).(polls := s.polls + [Poll(Key(k.ns, name), k, s.clock, start, threshold)])
      case Decided(phase) =>
        var why := Observed(Key(k.ns, name), ContainerStatus(observed.value, JobPod.CERTSUITE).value, s.clock, threshold);
        Goto(s, AtStatusGet(k, Verdict(name, phase, why), TRIES))
  }

  function UpdateSucceeded(s: State, k: Key, job: Job): State {
    match job
    case Deploy(run, name) => Goto(s, AtCreatePod(k, run, name))
    case MarkRunning(_) => Requeue(s, k, s.clock + CHECK_INTERVAL)
    case MarkDeployError(_) => Goto(s, Idle)
    case Verdict(_, _, _) => Goto(s, Idle)
  }

  function UpdateFailed(s: State, k: Key, job: Job): State {
    if job.Verdict? then Requeue(s, k, s.clock) else Goto(s, Idle)
  }

  function DoStatusGet(s: State, k: Key, job: Job, tries: nat, t: nat, fails: bool): State
    requires t <= |s.log|
  {
    var o := At(s.log, t, k);
    if fails || o.None? then UpdateFailed(s, k, job)
    else Goto(s, AtStatusPut(k, job, tries, o.value))
  }

  function DoStatusPut(c: Config, s: State, k: Key, job: Job, tries: nat, read: Object, fails: bool): State {
    if fails then UpdateFailed(s, k, job)
    else
      match TryPut(c, s.log, k, OpOf(job), read)
      case Stored => UpdateSucceeded(Append(s, k, OpOf(job), Apply(OpOf(job), Some(read.run))), k, job)
      case Conflict => if tries > 1 then Goto(s, AtStatusGet(k, job, tries - 1)) else UpdateFailed(s, k, job)
      case _ => UpdateFailed(s, k, job)
  }

  // ------------------------------------------------------------ the sidecar

  function FlagsOf(spec: RunSpec): R.Flags {
    R.Flags(spec.showAllResultsLogs, spec.showCompliantResourcesAlways)
  }

  function SetSidecar(s: State, pod: Key, to: Sidecar): State {
    s.(cluster := s.cluster.(sidecars := s.cluster.sidecars[pod := to]))
  }

  function DoSidecarGet(c: Config, s: State, pod: Key, t: nat, claim: R.Claim, order: seq<string>): State
    requires t <= |s.log|
    requires pod in s.cluster.sidecars && s.cluster.sidecars[pod].Watching?
    requires R.IsOrder(claim.cases, order)
  {
    var k := s.cluster.sidecars[pod].run;
    match At(s.log, t, k)
    case None => SetSidecar(s, pod, Dead)
    case Some(o) =>
      if R.ClaimSafe(c.decode, claim.cases, FlagsOf(o.run.spec)) then
        SetSidecar(s, pod, Holding(k, o, R.BuildReport(c.decode, claim, FlagsOf(o.run.spec), order)))
      else SetSidecar(s, pod, Dead)
  }

  function DoSidecarPut(c: Config, s: State, pod: Key, fails: bool): State
    requires pod in s.cluster.sidecars && s.cluster.sidecars[pod].Holding?
  {
    var h := s.cluster.sidecars[pod];
    var op := SetReport(pod, h.report);
    if fails || TryPut(c, s.log, h.run, op, h.read) != Stored then SetSidecar(s, pod, Dead)
    else SetSidecar(Append(s, h.run, op, Apply(op, Some(h.read.run))), pod, Done)
  }

  // ------------------------------------------------------------ the cluster

  /** How a container's state may change: forward only, from waiting to running to terminated. */
  predicate Advances(old': ContainerState, new': ContainerState) {
    match old'
    case Waiting => true
    case Running(start) => new' == old' || (new'.Terminated? && new'.ranFrom == start)
    case Terminated(_, _) => new' == old'
  }

  function StatusOr(p: ClusterPod, i: nat): ContainerState {
    if i < |p.statuses| then p.statuses[i] else Waiting
  }

  function WithStatus(p: ClusterPod, i: nat, status: ContainerState): ClusterPod
    requires i <= |p.statuses|
  {
    p.(statuses := if i < |p.statuses| then p.statuses[i := status] else p.statuses + [status])
  }

  // --------------------------------------------------------------- the steps

  predicate UserCan(s: State, a: UserStep) {
    match a
    case CreateRun(k, _) => Now(s.log, k).None?
    case DeleteRun(k) => Now(s.log, k).Some?
    case EditRun(k, _) => Now(s.log, k).Some?
  }

  function DoUser(s: State, a: UserStep): State
    requires UserCan(s, a)
  {
    match a
    case CreateRun(k, spec) =>
      Append(s, k, Create(s.nextUid, spec), Apply(Create(s.nextUid, spec), None))
        .(nextUid := s.nextUid + 1, queue := s.queue.(events := s.queue.events + multiset{k}))
    case DeleteRun(k) => Append(s, k, Remove, None).(queue := s.queue.(events := s.queue.events + multiset{k}))
    case EditRun(k, spec) => Append(s, k, EditSpec(spec), Apply(EditSpec(spec), Some(Now(s.log, k).value.run)))
  }

  predicate ClusterCan(s: State, a: ClusterStep) {
    match a
    case Tick(now) => s.clock <= now
    case Deliver(k) => k in s.queue.events
    case Fire(k) => k in s.queue.delayed && s.queue.delayed[k] <= s.clock
    case Kubelet(pod, i, status) =>
      && pod in s.cluster.pods
      && i <= |s.cluster.pods[pod].statuses| && i < |s.cluster.pods[pod].spec.containers|
      && Advances(StatusOr(s.cluster.pods[pod], i), status)
      && (status.Running? ==> status.startedAt <= s.clock)
    case PodGone(pod) => pod in s.cluster.pods
  }

  function DoCluster(s: State, a: ClusterStep): State
    requires ClusterCan(s, a)
  {
    match a
    case Tick(now) => s.(clock := now)
    case Deliver(k) => s.(queue := s.queue.(events := s.queue.events - multiset{k}, ready := s.queue.ready + {k}))
    case Fire(k) => s.(queue := s.queue.(delayed := s.queue.delayed - {k}, ready := s.queue.ready + {k}))
    case Kubelet(pod, i, status) =>
      var p := WithStatus(s.cluster.pods[pod], i, status);
      s.(cluster := s.cluster.(pods := s.cluster.pods[pod := p], seen := s.cluster.seen + {(pod, p)}))
    case PodGone(pod) => s.(cluster := s.cluster.(pods := s.cluster.pods - {pod}))
  }

  predicate SidecarCan(s: State, a: SidecarStep) {
    match a
    case Die(pod) => pod in s.cluster.sidecars && IsActive(s.cluster.sidecars[pod])
    case ReadRun(pod, t, claim, order) =>
      pod in s.cluster.sidecars && s.cluster.sidecars[pod].Watching? && t <= |s.log| && R.IsOrder(claim.cases, order)
    case WriteReport(pod, _) => pod in s.cluster.sidecars && s.cluster.sidecars[pod].Holding?
  }

  function DoSidecar(c: Config, s: State, a: SidecarStep): State
    requires SidecarCan(s, a)
  {
    match a
    case Die(pod) => SetSidecar(s, pod, Dead)
    case ReadRun(pod, t, claim, order) => DoSidecarGet(c, s, pod, t, claim, order)
    case WriteReport(pod, fails) => DoSidecarPut(c, s, pod, fails)
  }

  predicate ControllerCan(s: State, a: ControllerStep) {
    match a
    case Start(k) => s.ctl.pc == Idle && k in s.queue.ready
    case GetRun(t) => s.ctl.pc.AtGetRun? && SeesOwnWrites(s.log, t, s.ctl.pc.key)
    case DeletePod(_) => s.ctl.pc.AtDeletePod?
    case CreatePod(_) => s.ctl.pc.AtCreatePod?
    case PollPod(observed) => s.ctl.pc.AtPoll? && Observable(s, Key(s.ctl.pc.key.ns, s.ctl.pc.podName), observed)
    case StatusGet(t, _) => s.ctl.pc.AtStatusGet? && t <= |s.log|
    case StatusPut(_) => s.ctl.pc.AtStatusPut?
  }

  /** What a possibly stale Get of a pod may return. */
  predicate Observable(s: State, pod: Key, observed: Option<ClusterPod>) {
    observed.Some? ==> StatusesFit(observed.value) && (pod, observed.value) in s.cluster.seen
  }

  function DoController(c: Config, s: State, a: ControllerStep): State
    requires ControllerCan(s, a)
  {
    match a
    case Start(k) => Goto(s, AtGetRun(k)).(queue := s.queue.(ready := s.queue.ready - {k}))
    case GetRun(t) => DoGetRun(s, s.ctl.pc.key, t)
    case DeletePod(fails) => DoDeletePod(s, s.ctl.pc.key, s.ctl.pc.podName, fails)
    case CreatePod(fails) => DoCreatePod(c, s, s.ctl.pc.key, s.ctl.pc.run, s.ctl.pc.podName, fails)
    case PollPod(observed) => DoPoll(c, s, s.ctl.pc.key, s.ctl.pc.podName, s.ctl.pc.timeout, observed)
    case StatusGet(t, fails) => DoStatusGet(s, s.ctl.pc.key, s.ctl.pc.job, s.ctl.pc.tries, t, fails)
    case StatusPut(fails) => DoStatusPut(c, s, s.ctl.pc.key, s.ctl.pc.job, s.ctl.pc.tries, s.ctl.pc.read, fails)
  }

  predicate Enabled(s: State, a: Label) {
    match a
    case ByUser(u) => UserCan(s, u)
    case ByCluster(u) => ClusterCan(s, u)
    case BySidecar(u) => SidecarCan(s, u)
    case ByController(u) => ControllerCan(s, u)
  }

  function Do(c: Config, s: State, a: Label): State
    requires Enabled(s, a)
  {
    match a
    case ByUser(u) => DoUser(s, u)
    case ByCluster(u) => DoCluster(s, u)
    case BySidecar(u) => DoSidecar(c, s, u)
    case ByController(u) => DoController(c, s, u)
  }

  ghost predicate Valid(c: Config, s: State, run: seq<Label>)
    decreases |run|
  {
    run == [] || (Enabled(s, run[0]) && Valid(c, Do(c, s, run[0]), run[1..]))
  }

  /** The state a sequence of steps leads to. */
  ghost function Exec(c: Config, s: State, run: seq<Label>): State
    requires Valid(c, s, run)
    decreases |run|
  {
    if run == [] then s else Exec(c, Do(c, s, run[0]), run[1..])
  }

  ghost predicate Reachable(c: Config, s: State) {
    exists s0, run :: Init(s0) && Valid(c, s0, run) && Exec(c, s0, run) == s
  }
}
