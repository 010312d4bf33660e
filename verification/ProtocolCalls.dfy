/** What the controller's calls come to: which read leads to what, what the two pod calls do to
    the cluster, and what one update does to the run, each said of the state it leaves behind. */
module ProtocolCalls {
  import opened Api
  import opened PodNames
  import opened StatusStore
  import opened Protocol
  import opened Polling
  import opened ProtocolStore
  import opened ProtocolNames
  import opened ProtocolPods
  import opened ProtocolTruth
  import opened ProtocolPhases
  import opened ProtocolStages
  import opened ProtocolSidecars
  import opened ProtocolLaunches
  import opened ProtocolPolls
  import opened ProtocolTheorems
  import JobPod

  // ------------------------------------------------------- the two pod calls

  /** The two clusters have the same pods, but for one name. */
  ghost predicate SamePodsBut(a: Cluster, b: Cluster, pod: Key) {
    forall other :: other != pod ==>
      && (other in a.pods <==> other in b.pods)
      && (other in a.pods ==> a.pods[other] == b.pods[other])
  }

  /** A Delete that goes through removes the pod and nothing else of the cluster, one that fails
      removes nothing; the run's entry goes either way. */
  lemma DeletionTakesEffect(c: Config, s: State, fails: bool)
    requires s.ctl.pc.AtDeletePod?
    ensures
      var k, pod := s.ctl.pc.key, Key(s.ctl.pc.key.ns, s.ctl.pc.podName);
      var u := DoController(c, s, DeletePod(fails));
      && (fails ==> u.cluster == s.cluster)
      && (!fails ==> pod !in u.cluster.pods && SamePodsBut(s.cluster, u.cluster, pod))
      && u.cluster.sidecars == s.cluster.sidecars
      && u.log == s.log && u.queue == s.queue && u.ctl.pc == Idle
      && k !in u.ctl.runs
      && (forall l :: l in s.ctl.runs && l != k ==> l in u.ctl.runs && u.ctl.runs[l] == s.ctl.runs[l])
  {
  }

  /** A Create that goes through adds, under the run's namespace and the name issued for it, a pod
      nothing of which has started: it has the run for its owner and a sidecar that watches for that
      run's claim. One that fails adds nothing. Then one or the other is recorded. */
  lemma CreationTakesEffect(c: Config, s: State, fails: bool)
    requires s.ctl.pc.AtCreatePod?
    ensures
      var k, run, name := s.ctl.pc.key, s.ctl.pc.run, s.ctl.pc.podName;
      var pod, u := Key(k.ns, name), DoController(c, s, CreatePod(fails));
      && u.log == s.log && u.queue == s.queue && u.ctl.runs == s.ctl.runs
      && (fails ==> u.cluster == s.cluster && u.ctl.pc == AtStatusGet(k, MarkDeployError(name), 5))
      && (!fails ==>
            && pod in u.cluster.pods && SamePodsBut(s.cluster, u.cluster, pod)
            && var p := u.cluster.pods[pod];
               && p.statuses == [] && Key(p.spec.namespace, p.spec.name) == pod
               && |p.spec.owners| == 1
               && p.spec.owners[0].name == k.name && p.spec.owners[0].uid == run.uid
               && p.spec.owners[0].kind == c.kind && p.spec.owners[0].apiVersion == c.apiVersion
               && pod in u.cluster.sidecars && u.cluster.sidecars[pod] == Watching(k)
               && u.ctl.pc == AtStatusGet(k, MarkRunning(name), 5))
  {
    var k, run, name := s.ctl.pc.key, s.ctl.pc.run, s.ctl.pc.podName;
    var owner := JobPod.Owner(c.apiVersion, c.kind, k.name, run.uid);
    JobPod.LaunchPodIs(name, k, owner, run.spec, c.image);
    JobPod.LaunchReportsBack(name, k, owner, run.spec, c.image);
    hide JobPod.LaunchPod, JobPod.ReportsTo;
  }

  // ------------------------------------------------------------ one update

  /** The phase an update is to set. */
  function PhaseOf(job: Job): string {
    match job
    case Deploy(_, _) => "CertSuiteDeploying"
    case MarkRunning(_) => "CertSuiteRunning"
    case MarkDeployError(_) => "CertSuiteDeployError"
    case Verdict(_, phase, _) => phase
  }

  /** The update is stored: its call is not lost, nobody wrote to the run since it was read, and
      where the schema is enforced it is not for one of the two phases the schema lacks. */
  predicate Lands(c: Config, s: State, fails: bool)
    requires s.ctl.pc.AtStatusPut?
  {
    && !fails && Untouched(s.log, s.ctl.pc.read.version, s.ctl.pc.key)
    && (c.strict ==> PhaseOf(s.ctl.pc.job) != "CertSuiteDeployError" && PhaseOf(s.ctl.pc.job) != "CertSuiteTimeout")
  }

  /** Of all phases the controller ever tries to store, the schema refuses exactly two. */
  lemma SchemaRefusesTwoPhases(c: Config, s: State)
    requires Reachable(c, s) && s.ctl.pc.AtStatusPut?
    ensures
      var phase := PhaseOf(s.ctl.pc.job);
      InPhaseEnum(phase) <==> phase != "CertSuiteDeployError" && phase != "CertSuiteTimeout"
  {
    if s.ctl.pc.job.Verdict? {
      ReachableVerdict(c, s);
    }
    hide Reachable, Overdue;
    PhasesDiffer();
  }

  lemma ReachableVerdict(c: Config, s: State)
    requires Reachable(c, s) && s.ctl.pc.AtStatusPut? && s.ctl.pc.job.Verdict?
    ensures s.ctl.pc.job.phase == PHASE_FINISHED || s.ctl.pc.job.phase == PHASE_ERROR || s.ctl.pc.job.phase == PHASE_TIMEOUT
  {
    ReachableInv(c, s);
    hide Reachable, StoreInv, NameInv, PodInv, AdmittedPhases, ScheduleInv, StageInv, PhasePath, SidecarInv, ThresholdInv,
      PollsTrue, PaceInv, FreshInv, EvidenceOwned, NamedPhases, LaunchInv, SidecarsNamed, DoneReported, Overdue, SeenAs,
      OpsJustified, ValuesTruthful;
  }

  // ----------------------------------- what is stored was admitted when it was

  ghost predicate AdmittedReports(c: Config, log: Log) {
    c.strict ==> forall i :: 0 <= i < |log| && log[i].value.Some? ==> AdmitsReport(log[i].value.value.status.report)
  }

  lemma NowAdmittedReport(c: Config, log: Log, k: Key)
    requires c.strict && AdmittedReports(c, log) && Now(log, k).Some?
    ensures AdmitsReport(Now(log, k).value.run.status.report)
  {
    var v := Now(log, k).value.version - 1;
    assert log[v].value == Some(Now(log, k).value.run);
  }

  lemma NoReportAdmitted()
    ensures AdmitsReport(None)
  {
  }

  lemma WrittenAdmitted(c: Config, s: State, a: Label)
    requires c.strict && AdmittedReports(c, s.log) && Enabled(s, a)
    requires Written(c, s, a).Some? && Written(c, s, a).value.value.Some?
    ensures AdmitsReport(Written(c, s, a).value.value.value.status.report)
  {
    hide AdmitsReport, InPhaseEnum;
    if a.ByUser? {
      NoReportAdmitted();
      if a.user.EditRun? { NowAdmittedReport(c, s.log, a.user.k); }
    }
  }

  lemma AdmittedReportsStep(c: Config, s: State, a: Label)
    requires AdmittedReports(c, s.log) && Enabled(s, a)
    ensures AdmittedReports(c, Do(c, s, a).log)
  {
    StepWrites(c, s, a);
    assert s.log + [] == s.log;
    if c.strict && Written(c, s, a).Some? && Written(c, s, a).value.value.Some? {
      WrittenAdmitted(c, s, a);
    }
    hide Do, Enabled, Written, AdmitsReport;
  }

  lemma {:induction false} AdmittedReportsRun(c: Config, s: State, run: seq<Label>)
    requires AdmittedReports(c, s.log) && Valid(c, s, run)
    ensures AdmittedReports(c, Exec(c, s, run).log)
    decreases |run|
  {
    hide Do, Enabled, AdmittedReports;
    if run != [] {
      AdmittedReportsStep(c, s, run[0]);
      AdmittedReportsRun(c, Do(c, s, run[0]), run[1..]);
    }
  }

  lemma ReadAdmitted(c: Config, s: State)
    requires Reachable(c, s) && s.ctl.pc.AtStatusPut? && c.strict
    ensures AdmitsReport(s.ctl.pc.read.run.status.report)
  {
    var s0, run :| Init(s0) && Valid(c, s0, run) && Exec(c, s0, run) == s;
    AdmittedReportsRun(c, s0, run);
    ReachableStore(c, s);
    hide Reachable, Valid, Exec, Init, AdmitsReport;
    assert Genuine(s.log, s.ctl.pc.key, s.ctl.pc.read);
  }

  /** The key is to come up when it is due, or when it was to come up already if that is sooner. */
  predicate Rescheduled(before: Queue, after: Queue, k: Key, due: int) {
    && after.events == before.events && after.ready == before.ready
    && after.delayed.Keys == before.delayed.Keys + {k}
    && (forall l :: l in before.delayed && l != k ==> after.delayed[l] == before.delayed[l])
    && after.delayed[k] <= due
    && (after.delayed[k] < due ==> k in before.delayed && after.delayed[k] == before.delayed[k])
    && (k in before.delayed ==> after.delayed[k] <= before.delayed[k])
  }

  /** The run now shows what the update was to set and what it showed before besides. */
  predicate Shows(before: Option<Object>, after: Option<Object>, job: Job) {
    && before.Some? && after.Some?
    && var was, now := before.value.run, after.value.run;
       && now.uid == was.uid && now.spec == was.spec && now.status.report == was.status.report
       && now.status.phase == PhaseOf(job)
       && now.status.podName == if job.MarkRunning? then Some(job.podName) else was.status.podName
  }

  lemma UpdateAdmitted(c: Config, s: State)
    requires Reachable(c, s) && s.ctl.pc.AtStatusPut?
    ensures
      var updated, phase := Apply(OpOf(s.ctl.pc.job), Some(s.ctl.pc.read.run)), PhaseOf(s.ctl.pc.job);
      && updated.Some?
      && (Admits(c, updated.value.status) <==> c.strict ==> phase != "CertSuiteDeployError" && phase != "CertSuiteTimeout")
  {
    SchemaRefusesTwoPhases(c, s);
    if c.strict { ReadAdmitted(c, s); }
    hide Reachable, AdmitsReport, InPhaseEnum;
  }

  lemma StoredWhenItLands(c: Config, s: State)
    requires Reachable(c, s) && s.ctl.pc.AtStatusPut?
    ensures
      var k, op, read := s.ctl.pc.key, OpOf(s.ctl.pc.job), s.ctl.pc.read;
      && !Lands(c, s, true)
      && match TryPut(c, s.log, k, op, read)
         case Stored => Lands(c, s, false) && Now(s.log, k) == Some(read)
         case Conflict => !Untouched(s.log, read.version, k) && Now(s.log, k).Some?
         case NotFound => !Untouched(s.log, read.version, k) && Now(s.log, k).None?
         case Invalid => Untouched(s.log, read.version, k) && !Lands(c, s, false)
  {
    var k, op, read := s.ctl.pc.key, OpOf(s.ctl.pc.job), s.ctl.pc.read;
    assert Genuine(s.log, k, read) by {
      ReachableStore(c, s);
    }
    UpdateAdmitted(c, s);
    hide Reachable, Admits, Apply, PhaseOf;
    CurrentWhileUntouched(s.log, |s.log|, k, read);
    StoredExactlyWhen(c, s.log, k, op, read);
    if Now(s.log, k).Some? && Now(s.log, k).value.version == read.version {
      SameVersionSameObject(s.log, |s.log|, read.version, k);
    }
  }

  /** An update that lands: the run shows what it was to set on top of what it showed the moment
      before, and the controller goes on. After announcing a launch it creates the pod, after
      marking the run running it asks for it again in ten seconds, and else it is finished. */
  lemma UpdateLands(c: Config, s: State, fails: bool)
    requires Reachable(c, s) && s.ctl.pc.AtStatusPut? && Lands(c, s, fails)
    ensures
      var k, job, u := s.ctl.pc.key, s.ctl.pc.job, DoController(c, s, StatusPut(fails));
      && u.cluster == s.cluster && u.clock == s.clock && u.polls == s.polls && u.ctl == s.ctl.(pc := u.ctl.pc)
      && |u.log| == |s.log| + 1 && u.log[..|s.log|] == s.log && u.log[|s.log|].key == k
      && Shows(Now(s.log, k), Now(u.log, k), job)
      && u.ctl.pc == (if job.Deploy? then AtCreatePod(k, job.run, job.podName) else Idle)
      && (if job.MarkRunning? then Rescheduled(s.queue, u.queue, k, s.clock + 10_000_000_000) else u.queue == s.queue)
  {
    StoredWhenItLands(c, s);
    hide Reachable, TryPut, Lands;
    ShowsUpdate(s.log, s.ctl.pc.key, s.ctl.pc.job, s.ctl.pc.read);
    hide Shows, At, Apply;
  }

  /** An update that does not land stores nothing. The controller reads and tries again exactly
      when the run is there and was written to meanwhile and tries are left; otherwise a verdict
      is tried again from the start, and anything else is dropped. */
  lemma UpdateDoesNotLand(c: Config, s: State, fails: bool)
    requires Reachable(c, s) && s.ctl.pc.AtStatusPut? && !Lands(c, s, fails)
    ensures
      var k, job, tries, read := s.ctl.pc.key, s.ctl.pc.job, s.ctl.pc.tries, s.ctl.pc.read;
      var u := DoController(c, s, StatusPut(fails));
      && u.cluster == s.cluster && u.clock == s.clock && u.polls == s.polls && u.ctl == s.ctl.(pc := u.ctl.pc)
      && u.log == s.log
      && if !fails && Now(s.log, k).Some? && !Untouched(s.log, read.version, k) && tries > 1 then
           u.ctl.pc == AtStatusGet(k, job, tries - 1) && u.queue == s.queue
         else
           && u.ctl.pc == Idle
           && if job.Verdict? then Rescheduled(s.queue, u.queue, k, s.clock) else u.queue == s.queue
  {
    StoredWhenItLands(c, s);
    hide Reachable, TryPut, Untouched, Lands, At, Apply;
  }

  lemma ShowsUpdate(log: Log, k: Key, job: Job, read: Object)
    requires Now(log, k) == Some(read)
    ensures Shows(Now(log, k), Now(log + [PutEntry(k, OpOf(job), read)], k), job)
  {
    AppendIsLocal(log, PutEntry(k, OpOf(job), read));
  }

  predicate TriesLeft(pc: Pc) {
    (pc.AtStatusGet? || pc.AtStatusPut?) ==> 1 <= pc.tries <= 5
  }

  lemma TriesStep(c: Config, s: State, a: Label)
    requires TriesLeft(s.ctl.pc) && Enabled(s, a)
    ensures TriesLeft(Do(c, s, a).ctl.pc)
  {
    hide LaunchedPod, PollOutcome, TryPut, At, Apply, JobPod.ReportsTo;
    match a
    case ByUser(_) =>
    case ByCluster(_) =>
    case BySidecar(b) => SidecarFrame(c, s, b);
    case ByController(_) =>
  }

  lemma {:induction false} TriesRun(c: Config, s: State, run: seq<Label>)
    requires TriesLeft(s.ctl.pc) && Valid(c, s, run)
    ensures TriesLeft(Exec(c, s, run).ctl.pc)
    decreases |run|
  {
    hide Do, Enabled, TriesLeft;
    if run != [] {
      TriesStep(c, s, run[0]);
      TriesRun(c, Do(c, s, run[0]), run[1..]);
    }
  }

  /** No update is ever sent more than five times. */
  lemma FiveTriesAtMost(c: Config, s: State)
    requires Reachable(c, s)
    ensures TriesLeft(s.ctl.pc)
  {
    var s0, run :| Init(s0) && Valid(c, s0, run) && Exec(c, s0, run) == s;
    TriesRun(c, s0, run);
  }

  // ------------------------------------------------------------ the first read

  /** A run that names its pod is polled, and never launched again, however stale the first read
      of it is otherwise: the pod it names, with a timeout its spec had. */
  lemma NamedRunsArePolled(c: Config, s: State, t: nat)
    requires Reachable(c, s) && ControllerCan(s, GetRun(t))
    requires Now(s.log, s.ctl.pc.key).Some? && Now(s.log, s.ctl.pc.key).value.run.status.podName.Some?
    ensures
      var k, u := s.ctl.pc.key, DoController(c, s, GetRun(t));
      && u.ctl.pc.AtPoll? && u.ctl.pc.key == k
      && u.ctl.pc.podName == Now(s.log, k).value.run.status.podName.value
      && TimeoutOf(s.log, k, u.ctl.pc.timeout)
      && u == s.(ctl := s.ctl.(pc := u.ctl.pc))
  {
    var k := s.ctl.pc.key;
    StoredNameNotEmpty(c, s, k);
    ReachableStore(c, s);
    hide Reachable;
    PodNameSeen(s.log, t, |s.log|, k);
    var o := At(s.log, t, k).value;
    assert s.log[o.version - 1].value.value.spec.timeOut == o.run.spec.timeOut;
    hide At, StoreInv;
  }

  lemma StoredNameNotEmpty(c: Config, s: State, k: Key)
    requires Reachable(c, s) && Now(s.log, k).Some? && Now(s.log, k).value.run.status.podName.Some?
    ensures Now(s.log, k).value.run.status.podName.value != ""
  {
    var name := Now(s.log, k).value.run.status.podName.value;
    hide Reachable, Inv;
    ReachableInv(c, s);
    InvParts(c, s);
    PastOwnedNow(s.log, s.ctl.issued, k);
    var i :| IssuedAs(s.ctl.issued, k, name, i);
    PodNameNotEmpty(i);
  }

  // ------------------------------------------------------------- the events

  /** The events a stored write raises. */
  function Raised(e: Option<Entry>): multiset<Key> {
    if e.Some? && (e.value.op.Create? || e.value.op.Remove?) then multiset{e.value.key} else multiset{}
  }

  /** Only creating and deleting a run raises an event: no edit and no status write, of whomever,
      wakes the controller; and no step but its delivery takes an event away. */
  lemma OnlyCreationsAndDeletionsWake(c: Config, s: State, a: Label)
    requires Enabled(s, a)
    ensures
      var delivered := if a.ByCluster? && a.cluster.Deliver? then multiset{a.cluster.k} else multiset{};
      Do(c, s, a).queue.events + delivered == s.queue.events + Raised(Written(c, s, a))
  {
    hide DoController, DoSidecar, DoUser, DoCluster, ClusterCan, TryPut, Apply, Now;
    match a
    case ByUser(b) => UserWakes(s, b);
    case ByCluster(b) => ClusterDelivers(s, b);
    case BySidecar(b) => SidecarFrame(c, s, b);
    case ByController(b) => ControllerWakesNobody(c, s, b);
  }

  lemma UserWakes(s: State, a: UserStep)
    requires UserCan(s, a)
    ensures DoUser(s, a).queue.events == s.queue.events + Raised(Some(UserEntry(s, a)))
  {
    hide Apply;
  }

  lemma ClusterDelivers(s: State, a: ClusterStep)
    requires ClusterCan(s, a)
    ensures DoCluster(s, a).queue.events + (if a.Deliver? then multiset{a.k} else multiset{}) == s.queue.events
  {
    hide Advances, StatusOr;
  }

  lemma ControllerWakesNobody(c: Config, s: State, a: ControllerStep)
    requires ControllerCan(s, a)
    ensures DoController(c, s, a).queue.events == s.queue.events
  {
    hide LaunchedPod, PollOutcome, TryPut, At, Apply, JobPod.ReportsTo;
  }

  // ------------------------------------------------------ deleted for good

  predicate LaunchesPod(a: Activity, name: string) {
    a.Launching? && a.podName == name
  }

  ghost predicate NameIssued(lastId: nat, name: string) {
    exists i :: 1 <= i <= lastId && name == PodName(i)
  }

  /** The pod is not there, its name was issued before, and no launch under way is for it. */
  ghost predicate Spent(s: State, pod: Key) {
    && pod !in s.cluster.pods
    && NameIssued(s.ctl.lastId, pod.name)
    && !LaunchesPod(ActivityOf(s.ctl.pc), pod.name)
  }

  lemma NextNameDiffers(lastId: nat, name: string)
    requires NameIssued(lastId, name)
    ensures PodName(lastId + 1) != name && NameIssued(lastId + 1, name)
  {
    var i :| 1 <= i <= lastId && name == PodName(i);
    PodNameInjective(i, lastId + 1);
  }

  lemma SpentLook(c: Config, s: State, t: nat, pod: Key)
    requires Spent(s, pod) && ControllerCan(s, GetRun(t))
    ensures Spent(DoGetRun(s, s.ctl.pc.key, t), pod)
  {
    NextNameDiffers(s.ctl.lastId, pod.name);
    hide At, PodName, NameIssued;
  }

  lemma SpentUpdate(c: Config, s: State, a: ControllerStep, pod: Key)
    requires Spent(s, pod) && ControllerCan(s, a) && (a.StatusGet? || a.StatusPut?)
    ensures Spent(DoController(c, s, a), pod)
  {
    hide TryPut, At, Apply, NameIssued, DoPoll, DoGetRun, DoCreatePod, DoDeletePod;
  }

  lemma SpentController(c: Config, s: State, a: ControllerStep, pod: Key)
    requires Spent(s, pod) && ControllerCan(s, a)
    ensures Spent(DoController(c, s, a), pod)
  {
    hide LaunchedPod, PollOutcome, NameIssued, JobPod.ReportsTo, DoStatusGet, DoStatusPut, DoGetRun;
    if a.GetRun? {
      SpentLook(c, s, a.t, pod);
    } else if a.StatusGet? || a.StatusPut? {
      SpentUpdate(c, s, a, pod);
    }
  }

  lemma SpentStep(c: Config, s: State, a: Label, pod: Key)
    requires Spent(s, pod) && Enabled(s, a)
    ensures Spent(Do(c, s, a), pod)
  {
    hide DoController, DoSidecar, NameIssued, StatusOr, Advances;
    match a
    case ByUser(_) =>
    case ByCluster(_) =>
    case BySidecar(b) => SidecarFrame(c, s, b);
    case ByController(b) => SpentController(c, s, b, pod);
  }

  lemma {:induction false} SpentForGood(c: Config, s: State, run: seq<Label>, pod: Key)
    requires Spent(s, pod) && Valid(c, s, run)
    ensures Spent(Exec(c, s, run), pod)
    decreases |run|
  {
    hide Do, Enabled, Spent;
    if run != [] {
      SpentStep(c, s, run[0], pod);
      SpentForGood(c, Do(c, s, run[0]), run[1..], pod);
    }
  }

  lemma NameIssuedToDeleted(c: Config, s: State)
    requires Reachable(c, s) && s.ctl.pc.AtDeletePod?
    ensures NameIssued(s.ctl.lastId, s.ctl.pc.podName)
  {
    ReachableInv(c, s);
    hide Reachable, StoreInv, PodInv, TruthInv, AdmittedPhases, ScheduleInv, StageInv, PhasePath, SidecarInv, ThresholdInv,
      PollsTrue, PaceInv, FreshInv, EvidenceOwned, NamedPhases, LaunchInv, SidecarsNamed, DoneReported, PodName;
    var i :| IssuedAs(s.ctl.issued, s.ctl.pc.key, s.ctl.pc.podName, i);
  }

  /** Once the Delete for a missing run went through its pod never comes back, whatever happens
      afterwards: not by a launch under way, not under a new run of that name. */
  lemma DeletedForGood(c: Config, s: State, run: seq<Label>)
    requires Reachable(c, s) && s.ctl.pc.AtDeletePod?
    requires Valid(c, DoController(c, s, DeletePod(false)), run)
    ensures Key(s.ctl.pc.key.ns, s.ctl.pc.podName) !in Exec(c, DoController(c, s, DeletePod(false)), run).cluster.pods
  {
    var k, name, u := s.ctl.pc.key, s.ctl.pc.podName, DoController(c, s, DeletePod(false));
    NameIssuedToDeleted(c, s);
    hide Reachable, NameIssued, Valid, Exec;
    assert Spent(u, Key(k.ns, name));
    hide DoController;
    SpentForGood(c, u, run, Key(k.ns, name));
  }
}
