/** The stored phases tell the truth about the pods, and respect the store's admission. */
module ProtocolTruth {
  import opened Api
  import opened StatusStore
  import opened Protocol
  import opened ProtocolStore
  import opened ProtocolNames
  import opened ProtocolPods
  import opened Polling
  import JobPod

  type Seen = set<(Key, ClusterPod)>

  /** The pod's certsuite container was once in that state. */
  ghost predicate SeenAs(seen: Seen, pod: Key, state: ContainerState) {
    exists o :: o in seen && o.0 == pod && CertsuiteState(o.1) == state
  }

  ghost predicate ExitSeen(seen: Seen, pod: Key, clean: bool) {
    exists o :: o in seen && o.0 == pod && CertsuiteState(o.1).Terminated? && (CertsuiteState(o.1).exitCode == 0) == clean
  }

  predicate PhaseFits(phase: string, state: ContainerState, at: int, threshold: Duration) {
    || (phase == PHASE_FINISHED && state.Terminated? && state.exitCode == 0)
    || (phase == PHASE_ERROR && state.Terminated? && state.exitCode != 0)
    || (phase == PHASE_TIMEOUT && state.Running? && Overdue(at, state.startedAt, threshold))
  }

  /** A phase is written for a reason: a launch step, or what was seen of a pod of the run. */
  ghost predicate Justified(seen: Seen, k: Key, phase: string, why: Evidence) {
    match why
    case Launch => phase == PHASE_DEPLOYING || phase == PHASE_DEPLOY_ERROR
    case Observed(pod, state, at, threshold) =>
      && MIN_DURATION <= threshold <= MAX_DURATION
      && pod.ns == k.ns && SeenAs(seen, pod, state) && PhaseFits(phase, state, at, threshold)
  }

  ghost predicate OpsJustified(log: Log, seen: Seen) {
    forall i :: 0 <= i < |log| && log[i].op.SetPhase? ==> Justified(seen, log[i].key, log[i].op.phase, log[i].op.why)
  }

  /** The verdict in flight was read off the pod it is about. */
  ghost predicate VerdictJustified(seen: Seen, pc: Pc) {
    (pc.AtStatusGet? || pc.AtStatusPut?) && pc.job.Verdict? ==>
      && pc.job.why.Observed? && pc.job.why.pod == Key(pc.key.ns, pc.job.podName)
      && Justified(seen, pc.key, pc.job.phase, pc.job.why)
  }

  /** Wherever a status said Finished or Error and named a pod, that pod's certsuite
      container had exited, cleanly or not. */
  ghost predicate RunTruthful(seen: Seen, k: Key, run: Run) {
    run.status.podName.Some? && (run.status.phase == PHASE_FINISHED || run.status.phase == PHASE_ERROR) ==>
      ExitSeen(seen, Key(k.ns, run.status.podName.value), run.status.phase == PHASE_FINISHED)
  }

  ghost predicate ValuesTruthful(log: Log, seen: Seen) {
    forall i :: 0 <= i < |log| && log[i].value.Some? ==> RunTruthful(seen, log[i].key, log[i].value.value)
  }

  ghost predicate TruthInv(s: State) {
    && OpsJustified(s.log, s.cluster.seen)
    && VerdictJustified(s.cluster.seen, s.ctl.pc)
    && ValuesTruthful(s.log, s.cluster.seen)
  }

  // ------------------------------------------------------ seen only grows

  lemma ControllerSeenGrows(c: Config, s: State, a: ControllerStep)
    requires ControllerCan(s, a)
    ensures s.cluster.seen <= DoController(c, s, a).cluster.seen
  {
    hide LaunchedPod, PollOutcome, TryPut, At, Apply, JobPod.ReportsTo;
  }

  lemma SeenGrows(c: Config, s: State, a: Label)
    requires Enabled(s, a)
    ensures s.cluster.seen <= Do(c, s, a).cluster.seen
  {
    hide DoController, DoSidecar;
    match a
    case ByUser(u) =>
    case ByCluster(u) =>
    case BySidecar(u) => SidecarFrame(c, s, u);
    case ByController(u) => ControllerSeenGrows(c, s, u);
  }

  lemma JustifiedGrows(seen: Seen, more: Seen, k: Key, phase: string, why: Evidence)
    requires Justified(seen, k, phase, why) && seen <= more
    ensures Justified(more, k, phase, why)
  {
    if why.Observed? {
      var o :| o in seen && o.0 == why.pod && CertsuiteState(o.1) == why.state;
      assert o in more;
    }
  }

  lemma TruthfulGrows(seen: Seen, more: Seen, k: Key, run: Run)
    requires RunTruthful(seen, k, run) && seen <= more
    ensures RunTruthful(more, k, run)
  {
    if run.status.podName.Some? && (run.status.phase == PHASE_FINISHED || run.status.phase == PHASE_ERROR) {
      var pod := Key(k.ns, run.status.podName.value);
      var clean := run.status.phase == PHASE_FINISHED;
      var o :| o in seen && o.0 == pod && CertsuiteState(o.1).Terminated? && (CertsuiteState(o.1).exitCode == 0) == clean;
      assert o in more;
    }
  }

  lemma LogTruthGrows(log: Log, seen: Seen, more: Seen)
    requires OpsJustified(log, seen) && ValuesTruthful(log, seen) && seen <= more
    ensures OpsJustified(log, more) && ValuesTruthful(log, more)
  {
    forall i | 0 <= i < |log| && log[i].op.SetPhase? ensures Justified(more, log[i].key, log[i].op.phase, log[i].op.why) {
      JustifiedGrows(seen, more, log[i].key, log[i].op.phase, log[i].op.why);
    }
    forall i | 0 <= i < |log| && log[i].value.Some? ensures RunTruthful(more, log[i].key, log[i].value.value) {
      TruthfulGrows(seen, more, log[i].key, log[i].value.value);
    }
  }

  // ---------------------------------------------------------- new entries

  lemma NowTruthful(log: Log, seen: Seen, k: Key)
    requires ValuesTruthful(log, seen) && Now(log, k).Some?
    ensures RunTruthful(seen, k, Now(log, k).value.run)
  {
    var v := Now(log, k).value.version - 1;
    assert log[v].value == Some(Now(log, k).value.run);
  }

  /** A write by a user or a sidecar copies phase and pod name, or makes a run with neither. */
  lemma OthersTruthful(log: Log, e: Entry, seen: Seen)
    requires e.value == Apply(e.op, RunAt(log, |log|, e.key)) && !IsControllerOp(e.op)
    requires OpsJustified(log, seen) && ValuesTruthful(log, seen)
    ensures OpsJustified(log + [e], seen) && ValuesTruthful(log + [e], seen)
  {
    if e.value.Some? {
      if Now(log, e.key).Some? { NowTruthful(log, seen, e.key); }
      assert RunTruthful(seen, e.key, e.value.value);
    }
  }

  lemma ExitWitness(seen: Seen, pod: Key, state: ContainerState)
    requires SeenAs(seen, pod, state) && state.Terminated?
    ensures ExitSeen(seen, pod, state.exitCode == 0)
  {
    var o :| o in seen && o.0 == pod && CertsuiteState(o.1) == state;
  }

  lemma StoredTruthful(c: Config, s: State, k: Key, job: Job, read: Object)
    requires StoreInv(s) && NameInv(s) && TruthInv(s) && s.ctl.pc.AtStatusPut?
    requires k == s.ctl.pc.key && job == s.ctl.pc.job && read == s.ctl.pc.read
    requires TryPut(c, s.log, k, OpOf(job), read) == Stored
    ensures OpsJustified(s.log + [PutEntry(k, OpOf(job), read)], s.cluster.seen)
    ensures ValuesTruthful(s.log + [PutEntry(k, OpOf(job), read)], s.cluster.seen)
  {
    StoredFromCurrent(c, s.log, k, OpOf(job), read);
    PhasesDiffer();
    var e := PutEntry(k, OpOf(job), read);
    hide TryPut, Genuine, PastOwned, LiveOwned, RunsOwned;
    assert e.op.SetPhase? ==> Justified(s.cluster.seen, k, e.op.phase, e.op.why);
    if job.Verdict? {
      if job.why.state.Terminated? { ExitWitness(s.cluster.seen, job.why.pod, job.why.state); }
    }
    assert RunTruthful(s.cluster.seen, k, e.value.value);
  }

  // ---------------------------------------------------------------- steps

  lemma PollTruth(c: Config, s: State, observed: Option<ClusterPod>)
    requires PodInv(s) && s.ctl.pc.AtPoll? && Observable(s, Key(s.ctl.pc.key.ns, s.ctl.pc.podName), observed)
    ensures VerdictJustified(s.cluster.seen, DoPoll(c, s, s.ctl.pc.key, s.ctl.pc.podName, s.ctl.pc.timeout, observed).ctl.pc)
  {
    if observed.Some? {
      var threshold := JobRunTimeThreshold(c.parse, s.ctl.pc.timeout);
      PollSees(s, observed.value, threshold);
      PhasesDiffer();
      assert (Key(s.ctl.pc.key.ns, s.ctl.pc.podName), observed.value) in s.cluster.seen;
    }
  }

  /** Only a poll comes to a verdict; the other steps carry on with the one there is. */
  lemma VerdictKept(c: Config, s: State, a: ControllerStep)
    requires ControllerCan(s, a) && !a.PollPod?
    ensures
      var pc := DoController(c, s, a).ctl.pc;
      (pc.AtStatusGet? || pc.AtStatusPut?) && pc.job.Verdict? ==>
        (s.ctl.pc.AtStatusGet? || s.ctl.pc.AtStatusPut?) && s.ctl.pc.job == pc.job && s.ctl.pc.key == pc.key
  {
    hide LaunchedPod, TryPut, Apply, At, NamesPod, JobPod.ReportsTo;
  }

  lemma ControllerPcTruth(c: Config, s: State, a: ControllerStep)
    requires PodInv(s) && TruthInv(s) && ControllerCan(s, a)
    ensures VerdictJustified(s.cluster.seen, DoController(c, s, a).ctl.pc)
  {
    if a.PollPod? {
      PollTruth(c, s, a.observed);
    } else {
      hide DoController, Justified, OpsJustified, ValuesTruthful, PodInv;
      VerdictKept(c, s, a);
    }
  }

  lemma VerdictGrows(seen: Seen, more: Seen, pc: Pc)
    requires VerdictJustified(seen, pc) && seen <= more
    ensures VerdictJustified(more, pc)
  {
    if (pc.AtStatusGet? || pc.AtStatusPut?) && pc.job.Verdict? {
      JustifiedGrows(seen, more, pc.key, pc.job.phase, pc.job.why);
    }
  }

  /** Whatever a step writes is justified by what had been seen when it was written. */
  lemma WrittenTruth(c: Config, s: State, a: Label)
    requires StoreInv(s) && NameInv(s) && TruthInv(s) && Enabled(s, a)
    ensures OpsJustified(Do(c, s, a).log, s.cluster.seen) && ValuesTruthful(Do(c, s, a).log, s.cluster.seen)
  {
    StepWrites(c, s, a);
    if Written(c, s, a).Some? {
      WrittenIsAtomic(c, s, a);
      if a.ByController? {
        StoredTruthful(c, s, s.ctl.pc.key, s.ctl.pc.job, s.ctl.pc.read);
      } else {
        OthersTruthful(s.log, Written(c, s, a).value, s.cluster.seen);
      }
    } else {
      assert s.log + [] == s.log;
    }
  }

  lemma TruthStep(c: Config, s: State, a: Label)
    requires StoreInv(s) && NameInv(s) && PodInv(s) && TruthInv(s) && Enabled(s, a)
    ensures TruthInv(Do(c, s, a))
  {
    var u := Do(c, s, a);
    WrittenTruth(c, s, a);
    SeenGrows(c, s, a);
    LogTruthGrows(u.log, s.cluster.seen, u.cluster.seen);
    assert VerdictJustified(s.cluster.seen, u.ctl.pc) by {
      match a
      case ByUser(_) =>
      case ByCluster(_) =>
      case BySidecar(b) => SidecarFrame(c, s, b);
      case ByController(b) => ControllerPcTruth(c, s, b);
    }
    VerdictGrows(s.cluster.seen, u.cluster.seen, u.ctl.pc);
  }

  /** A Finished or Error that names a pod which still exists is true of it now. */
  lemma TerminalPhasesTrueNow(s: State, k: Key)
    requires PodInv(s) && TruthInv(s)
    requires Now(s.log, k).Some? && Now(s.log, k).value.run.status.podName.Some?
    requires Key(k.ns, Now(s.log, k).value.run.status.podName.value) in s.cluster.pods
    ensures
      var status := Now(s.log, k).value.run.status;
      var p := s.cluster.pods[Key(k.ns, status.podName.value)];
      && StatusesFit(p)
      && (status.phase == PHASE_FINISHED ==>
            exists from :: ContainerStatus(p, JobPod.CERTSUITE) == Some(Terminated(0, from)))
      && (status.phase == PHASE_ERROR ==>
            exists code, from :: code != 0 && ContainerStatus(p, JobPod.CERTSUITE) == Some(Terminated(code, from)))
  {
    var status := Now(s.log, k).value.run.status;
    var pod := Key(k.ns, status.podName.value);
    var p := s.cluster.pods[pod];
    NowTruthful(s.log, s.cluster.seen, k);
    assert (pod, p) in s.cluster.seen;
    CertsuiteStatus(p);
    PhasesDiffer();
    if status.phase == PHASE_FINISHED || status.phase == PHASE_ERROR {
      var clean := status.phase == PHASE_FINISHED;
      assert ExitSeen(s.cluster.seen, pod, clean);
      var o :| o in s.cluster.seen && o.0 == pod && CertsuiteState(o.1).Terminated?
        && (CertsuiteState(o.1).exitCode == 0) == clean;
      assert Advances(CertsuiteState(o.1), CertsuiteState(p));
      var now := CertsuiteState(p);
      assert ContainerStatus(p, JobPod.CERTSUITE) == Some(Terminated(now.exitCode, now.ranFrom));
    }
  }

  // ------------------------------------------------------------- admission

  /** The phases this controller ever writes, and the one every run starts with. */
  predicate WrittenPhase(phase: string) {
    || phase == PHASE_UNSET || phase == PHASE_DEPLOYING || phase == PHASE_RUNNING || IsTerminal(phase)
  }

  ghost predicate AdmittedPhases(c: Config, log: Log) {
    forall i :: 0 <= i < |log| && log[i].value.Some? ==>
      && WrittenPhase(log[i].value.value.status.phase)
      && (c.strict && log[i].value.value.status.phase != PHASE_UNSET ==> InPhaseEnum(log[i].value.value.status.phase))
  }

  lemma NowAdmitted(c: Config, log: Log, k: Key)
    requires AdmittedPhases(c, log) && Now(log, k).Some?
    ensures
      var phase := Now(log, k).value.run.status.phase;
      WrittenPhase(phase) && (c.strict && phase != PHASE_UNSET ==> InPhaseEnum(phase))
  {
    var v := Now(log, k).value.version - 1;
    assert log[v].value == Some(Now(log, k).value.run);
  }

  lemma UnsetIsWritten()
    ensures WrittenPhase(PHASE_UNSET)
  {
  }

  /** The store accepted the update, and its phase is one the controller writes. */
  lemma ControllerAdmits(c: Config, s: State, a: ControllerStep)
    requires TruthInv(s) && ControllerWrites(c, s, a)
    ensures
      var e := PutEntry(s.ctl.pc.key, OpOf(s.ctl.pc.job), s.ctl.pc.read);
      e.value.Some? && Admits(c, e.value.value.status) && WrittenPhase(e.value.value.status.phase)
  {
    hide InPhaseEnum, OpsJustified, ValuesTruthful, AdmitsReport;
  }

  lemma AdmissionStep(c: Config, s: State, a: Label)
    requires StoreInv(s) && TruthInv(s) && AdmittedPhases(c, s.log) && Enabled(s, a)
    ensures AdmittedPhases(c, Do(c, s, a).log)
  {
    StepWrites(c, s, a);
    assert s.log + [] == s.log;
    if Written(c, s, a).Some? {
      var e := Written(c, s, a).value;
      WrittenIsAtomic(c, s, a);
      if Now(s.log, e.key).Some? {
        NowAdmitted(c, s.log, e.key);
      }
      assert a.ByController? ==>
          e.value.Some? && Admits(c, e.value.value.status) && WrittenPhase(e.value.value.status.phase) by {
        if a.ByController? {
          ControllerAdmits(c, s, a.controller);
        }
      }
      hide Do, StoreInv, TruthInv, TryPut, OpOf, WrittenPhase, InPhaseEnum;
      assert WrittenPhase(PHASE_UNSET) by {
        UnsetIsWritten();
      }
    }
  }

  /** A rejected update changes no stored object; for a verdict it asks for another poll. */
  lemma RejectedUpdate(c: Config, s: State, fails: bool)
    requires c.strict && StoreInv(s) && s.ctl.pc.AtStatusPut?
    requires OpOf(s.ctl.pc.job).SetPhase? && !InPhaseEnum(OpOf(s.ctl.pc.job).phase)
    ensures
      var u := DoController(c, s, StatusPut(fails));
      && u.log == s.log
      && (s.ctl.pc.job.Verdict? ==> u.ctl.pc.AtStatusGet? || s.ctl.pc.key in u.queue.delayed)
  {
  }
}
