/** The phases a run goes through, and when the work queue still has business with it. */
module ProtocolPhases {
  import opened Api
  import opened StatusStore
  import opened Protocol
  import opened ProtocolStore
  import opened ProtocolNames
  import opened ProtocolTruth
  import opened Polling

  // ------------------------------------------------------------- scheduling

  predicate InFlight(pc: Pc, k: Key) {
    match ActivityOf(pc)
    case Nothing => false
    case a => a.key == k
  }

  /** The queue, a timer, an undelivered event or the Reconcile in flight will look at `k`. */
  predicate Scheduled(queue: Queue, pc: Pc, k: Key) {
    k in queue.events || k in queue.ready || k in queue.delayed || InFlight(pc, k)
  }

  predicate IsRunning(log: Log, k: Key) {
    Now(log, k).Some? && Now(log, k).value.run.status.phase == PHASE_RUNNING
  }

  /** Running and naming a pod go together when the phase is written. */
  ghost predicate RunningNamed(log: Log) {
    forall i :: 0 <= i < |log| && log[i].value.Some? && log[i].value.value.status.phase == PHASE_RUNNING ==>
      log[i].value.value.status.podName.Some?
  }

  ghost predicate RunningScheduled(s: State) {
    s.ctl.pc != Crashed ==> forall k :: IsRunning(s.log, k) ==> Scheduled(s.queue, s.ctl.pc, k)
  }

  ghost predicate ScheduleInv(s: State) {
    RunningNamed(s.log) && RunningScheduled(s)
  }

  lemma RunningNow(log: Log, k: Key)
    requires RunningNamed(log) && IsRunning(log, k)
    ensures !PodLess(log, k)
  {
    var v := Now(log, k).value.version - 1;
    assert log[v].value == Some(Now(log, k).value.run);
  }

  predicate RunningNamesPod(run: Option<Run>) {
    run.Some? && run.value.status.phase == PHASE_RUNNING ==> run.value.status.podName.Some?
  }

  lemma NowRunningNamed(log: Log, k: Key)
    requires RunningNamed(log)
    ensures RunningNamesPod(RunAt(log, |log|, k))
  {
    if IsRunning(log, k) {
      RunningNow(log, k);
    }
  }

  /** Only the update that names the pod makes a run Running. */
  lemma WriteKeepsRunningNamed(op: Op, cur: Option<Run>)
    requires RunningNamesPod(cur)
    requires op.SetPhase? ==> op.phase != PHASE_RUNNING
    ensures RunningNamesPod(Apply(op, cur))
  {
    PhasesDiffer();
  }

  lemma RunningNamedStep(c: Config, s: State, a: Label)
    requires StoreInv(s) && TruthInv(s) && RunningNamed(s.log) && Enabled(s, a)
    ensures RunningNamed(Do(c, s, a).log)
  {
    hide Do, Enabled, StoreInv, TruthInv, Justified, Written, RunningNamesPod, Apply;
    StepWrites(c, s, a);
    assert s.log + [] == s.log;
    if Written(c, s, a).Some? {
      var e := Written(c, s, a).value;
      WrittenIsAtomic(c, s, a);
      if e.op.SetPhase? {
        AppendJustified(c, s, a);
        NotMarkedRunning(s.cluster.seen, e.key, e.op.phase, e.op.why);
      }
      NowRunningNamed(s.log, e.key);
      WriteKeepsRunningNamed(e.op, RunAt(s.log, |s.log|, e.key));
      RunningNamedAppend(s.log, e);
    }
  }

  lemma RunningNamedAppend(log: Log, e: Entry)
    requires RunningNamed(log) && RunningNamesPod(e.value)
    ensures RunningNamed(log + [e])
  {
  }

  lemma NotMarkedRunning(seen: Seen, k: Key, phase: string, why: Evidence)
    requires Justified(seen, k, phase, why)
    ensures phase != PHASE_RUNNING
  {
    PhasesDiffer();
  }

  lemma AppendJustified(c: Config, s: State, a: Label)
    requires StoreInv(s) && TruthInv(s) && Enabled(s, a)
    requires Written(c, s, a).Some? && Written(c, s, a).value.op.SetPhase?
    ensures
      var e := Written(c, s, a).value;
      Justified(s.cluster.seen, e.key, e.op.phase, e.op.why)
  {
    hide StoreInv, TryPut, OpsJustified, ValuesTruthful;
    assert Written(c, s, a).value.op == OpOf(s.ctl.pc.job);
  }

  /** Which runs are in phase Running changes only where a step writes. */
  lemma RunningAppend(log: Log, e: Entry, k: Key)
    requires e.value == Apply(e.op, RunAt(log, |log|, e.key))
    ensures IsRunning(log + [e], k) && !(k == e.key && IsControllerOp(e.op)) ==> IsRunning(log, k)
  {
    AppendIsLocal(log, e);
    PhasesDiffer();
  }

  lemma OthersKeepSchedule(log: Log, e: Entry, queue: Queue, pc: Pc)
    requires e.value == Apply(e.op, RunAt(log, |log|, e.key)) && !IsControllerOp(e.op)
    requires forall k :: IsRunning(log, k) ==> Scheduled(queue, pc, k)
    ensures forall k :: IsRunning(log + [e], k) ==> Scheduled(queue, pc, k)
  {
    forall k | IsRunning(log + [e], k) ensures Scheduled(queue, pc, k) {
      RunningAppend(log, e, k);
    }
  }

  lemma GetRunSchedule(s: State, k: Key, t: nat)
    requires Atomic(s.log) && NameInv(s) && ScheduleInv(s)
    requires s.ctl.pc == AtGetRun(k) && SeesOwnWrites(s.log, t, k)
    ensures RunningScheduled(DoGetRun(s, k, t))
  {
    var u := DoGetRun(s, k, t);
    hide DoGetRun;
    assert u.queue == s.queue && u.log == s.log by { GetRunFrame(s, k, t); }
    if IsRunning(s.log, k) {
      RunningNow(s.log, k);
      PodNameSeen(s.log, t, |s.log|, k);
      assert InFlight(u.ctl.pc, k) by { GetRunFrame(s, k, t); }
    }
    forall l | IsRunning(u.log, l) && l != k ensures Scheduled(u.queue, u.ctl.pc, l) {
      assert Scheduled(s.queue, s.ctl.pc, l);
    }
  }

  lemma GetRunFrame(s: State, k: Key, t: nat)
    requires t <= |s.log|
    ensures DoGetRun(s, k, t).queue == s.queue && DoGetRun(s, k, t).log == s.log
    ensures At(s.log, t, k).Some? ==> InFlight(DoGetRun(s, k, t).ctl.pc, k)
    ensures At(s.log, t, k).Some? && DoGetRun(s, k, t).ctl.pc.AtPoll? ==>
              DoGetRun(s, k, t).ctl.pc.key == k && At(s.log, t, k).value.run.status.podName.Some?
    ensures At(s.log, t, k).Some? && !DoGetRun(s, k, t).ctl.pc.AtPoll? ==>
              DoGetRun(s, k, t).ctl.pc.AtStatusGet? && DoGetRun(s, k, t).ctl.pc.key == k && DoGetRun(s, k, t).ctl.pc.job.Deploy?
    ensures At(s.log, t, k).None? ==>
              DoGetRun(s, k, t).ctl.pc == Idle || (DoGetRun(s, k, t).ctl.pc.AtDeletePod? && DoGetRun(s, k, t).ctl.pc.key == k)
  {
  }

  /** A step that ends a Reconcile and asks for the key again, or goes on with it. */
  predicate KeepsKey(s: State, u: State, k: Key) {
    && u.log == s.log && u.queue.events == s.queue.events && u.queue.ready == s.queue.ready
    && (forall l :: l in s.queue.delayed ==> l in u.queue.delayed)
    && (u.ctl.pc == Crashed || InFlight(u.ctl.pc, k) || k in u.queue.delayed)
  }

  lemma KeepsSchedule(s: State, u: State, k: Key)
    requires RunningScheduled(s) && InFlight(s.ctl.pc, k) && KeepsKey(s, u, k)
    ensures RunningScheduled(u)
  {
    forall l | u.ctl.pc != Crashed && IsRunning(u.log, l) ensures Scheduled(u.queue, u.ctl.pc, l) {
      assert Scheduled(s.queue, s.ctl.pc, l);
    }
  }

  /** A step that drops the key of a run that is not in phase Running. */
  lemma DropsSchedule(s: State, u: State, k: Key)
    requires RunningScheduled(s) && InFlight(s.ctl.pc, k)
    requires u.log == s.log && u.queue == s.queue && !IsRunning(s.log, k)
    ensures RunningScheduled(u)
  {
    forall l | u.ctl.pc != Crashed && IsRunning(u.log, l) ensures Scheduled(u.queue, u.ctl.pc, l) {
      assert Scheduled(s.queue, s.ctl.pc, l);
    }
  }

  lemma PollSchedule(c: Config, s: State, observed: Option<ClusterPod>)
    requires RunningScheduled(s) && s.ctl.pc.AtPoll? && (observed.Some? ==> StatusesFit(observed.value))
    ensures RunningScheduled(DoPoll(c, s, s.ctl.pc.key, s.ctl.pc.podName, s.ctl.pc.timeout, observed))
  {
    hide PollOutcome, RunningScheduled;
    KeepsSchedule(s, DoPoll(c, s, s.ctl.pc.key, s.ctl.pc.podName, s.ctl.pc.timeout, observed), s.ctl.pc.key);
  }

  lemma NotRunningWhileLaunching(s: State, k: Key)
    requires NameInv(s) && RunningNamed(s.log)
    requires (ActivityOf(s.ctl.pc).Launching? || ActivityOf(s.ctl.pc).Deleting?) && ActivityOf(s.ctl.pc).key == k
    ensures !IsRunning(s.log, k)
  {
    if IsRunning(s.log, k) {
      RunningNow(s.log, k);
    }
  }

  lemma FailedSchedule(s: State, k: Key, job: Job)
    requires NameInv(s) && ScheduleInv(s) && ActivityOf(s.ctl.pc) == JobActivity(k, job)
    ensures RunningScheduled(UpdateFailed(s, k, job))
  {
    if job.Verdict? {
      KeepsSchedule(s, UpdateFailed(s, k, job), k);
    } else {
      NotRunningWhileLaunching(s, k);
      DropsSchedule(s, UpdateFailed(s, k, job), k);
    }
  }

  lemma StatusGetSchedule(s: State, t: nat, fails: bool)
    requires NameInv(s) && ScheduleInv(s) && s.ctl.pc.AtStatusGet? && t <= |s.log|
    ensures RunningScheduled(DoStatusGet(s, s.ctl.pc.key, s.ctl.pc.job, s.ctl.pc.tries, t, fails))
  {
    FailedSchedule(s, s.ctl.pc.key, s.ctl.pc.job);
    if !fails && At(s.log, t, s.ctl.pc.key).Some? {
      KeepsSchedule(s, DoStatusGet(s, s.ctl.pc.key, s.ctl.pc.job, s.ctl.pc.tries, t, fails), s.ctl.pc.key);
    }
  }

  /** After a successful update only Running asks to be looked at again, and is. */
  lemma StoredSchedule(c: Config, s: State)
    requires StoreInv(s) && NameInv(s) && TruthInv(s) && ScheduleInv(s) && s.ctl.pc.AtStatusPut?
    requires TryPut(c, s.log, s.ctl.pc.key, OpOf(s.ctl.pc.job), s.ctl.pc.read) == Stored
    ensures
      var k, job := s.ctl.pc.key, s.ctl.pc.job;
      RunningScheduled(UpdateSucceeded(Append(s, k, OpOf(job), Apply(OpOf(job), Some(s.ctl.pc.read.run))), k, job))
  {
    var k, job, read := s.ctl.pc.key, s.ctl.pc.job, s.ctl.pc.read;
    var e := PutEntry(k, OpOf(job), read);
    var u := UpdateSucceeded(Append(s, k, OpOf(job), e.value), k, job);
    StoredFromCurrent(c, s.log, k, OpOf(job), read);
    AppendIsLocal(s.log, e);
    PhasesDiffer();
    assert job.Verdict? ==> Justified(s.cluster.seen, k, job.phase, job.why);
    hide TryPut, StoreInv, NameInv, OpsJustified, ValuesTruthful, RunningNamed;
    assert IsRunning(u.log, k) ==> job.MarkRunning?;
    forall l | IsRunning(u.log, l) ensures Scheduled(u.queue, u.ctl.pc, l) {
      if l != k {
        assert IsRunning(s.log, l);
        assert Scheduled(s.queue, s.ctl.pc, l);
      }
    }
  }

  lemma StatusPutSchedule(c: Config, s: State, fails: bool)
    requires StoreInv(s) && NameInv(s) && TruthInv(s) && ScheduleInv(s) && s.ctl.pc.AtStatusPut?
    ensures RunningScheduled(DoStatusPut(c, s, s.ctl.pc.key, s.ctl.pc.job, s.ctl.pc.tries, s.ctl.pc.read, fails))
  {
    var k, job, tries, read := s.ctl.pc.key, s.ctl.pc.job, s.ctl.pc.tries, s.ctl.pc.read;
    assert RunningScheduled(s);
    hide StoreInv, NameInv, TruthInv, ScheduleInv, RunningScheduled, TryPut, Apply;
    FailedSchedule(s, k, job);
    if !fails {
      match TryPut(c, s.log, k, OpOf(job), read)
      case Stored => StoredSchedule(c, s);
      case Conflict =>
        if tries > 1 {
          KeepsSchedule(s, DoStatusPut(c, s, k, job, tries, read, fails), k);
        }
      case _ =>
    }
  }

  lemma DeletePodSchedule(s: State, fails: bool)
    requires NameInv(s) && ScheduleInv(s) && s.ctl.pc.AtDeletePod?
    ensures RunningScheduled(DoDeletePod(s, s.ctl.pc.key, s.ctl.pc.podName, fails))
  {
    NotRunningWhileLaunching(s, s.ctl.pc.key);
    DropsSchedule(s, DoDeletePod(s, s.ctl.pc.key, s.ctl.pc.podName, fails), s.ctl.pc.key);
  }

  lemma CreatePodSchedule(c: Config, s: State, fails: bool)
    requires ScheduleInv(s) && s.ctl.pc.AtCreatePod?
    ensures RunningScheduled(DoCreatePod(c, s, s.ctl.pc.key, s.ctl.pc.run, s.ctl.pc.podName, fails))
  {
    hide LaunchedPod;
    KeepsSchedule(s, DoCreatePod(c, s, s.ctl.pc.key, s.ctl.pc.run, s.ctl.pc.podName, fails), s.ctl.pc.key);
  }

  lemma ControllerSchedule(c: Config, s: State, a: ControllerStep)
    requires StoreInv(s) && NameInv(s) && TruthInv(s) && ScheduleInv(s) && ControllerCan(s, a)
    ensures RunningScheduled(DoController(c, s, a))
  {
    match a
    case Start(k) =>
      forall l | IsRunning(s.log, l) ensures Scheduled(s.queue.(ready := s.queue.ready - {k}), AtGetRun(k), l) {
        assert Scheduled(s.queue, s.ctl.pc, l);
      }
      hide NameInv, TruthInv, StoreInv;
    case GetRun(t) => GetRunSchedule(s, s.ctl.pc.key, t);
    case DeletePod(fails) => DeletePodSchedule(s, fails);
    case CreatePod(fails) => CreatePodSchedule(c, s, fails);
    case PollPod(observed) => PollSchedule(c, s, observed);
    case StatusGet(t, fails) => StatusGetSchedule(s, t, fails);
    case StatusPut(fails) => StatusPutSchedule(c, s, fails);
  }

  lemma UserSchedule(c: Config, s: State, u: UserStep)
    requires StoreInv(s) && ScheduleInv(s) && UserCan(s, u)
    ensures RunningScheduled(DoUser(s, u))
  {
    WrittenIsAtomic(c, s, ByUser(u));
    if s.ctl.pc != Crashed {
      OthersKeepSchedule(s.log, UserEntry(s, u), s.queue, s.ctl.pc);
    }
    hide StoreInv, RunningNamed, Apply;
    forall k | s.ctl.pc != Crashed && IsRunning(DoUser(s, u).log, k) ensures Scheduled(DoUser(s, u).queue, s.ctl.pc, k) {
      assert Scheduled(s.queue, s.ctl.pc, k);
    }
  }

  lemma ClusterSchedule(s: State, u: ClusterStep)
    requires RunningScheduled(s) && ClusterCan(s, u)
    ensures RunningScheduled(DoCluster(s, u))
  {
    hide IsRunning;
    forall k | s.ctl.pc != Crashed && IsRunning(s.log, k) ensures Scheduled(DoCluster(s, u).queue, s.ctl.pc, k) {
      assert Scheduled(s.queue, s.ctl.pc, k);
    }
  }

  lemma SidecarSchedule(c: Config, s: State, u: SidecarStep)
    requires StoreInv(s) && ScheduleInv(s) && SidecarCan(s, u)
    ensures RunningScheduled(DoSidecar(c, s, u))
  {
    SidecarFrame(c, s, u);
    SidecarLog(c, s, u);
    assert s.log + [] == s.log;
    if SidecarWrites(c, s, u) && s.ctl.pc != Crashed {
      WrittenIsAtomic(c, s, BySidecar(u));
      OthersKeepSchedule(s.log, Written(c, s, BySidecar(u)).value, s.queue, s.ctl.pc);
    }
    hide DoSidecar, StoreInv, RunningNamed, Apply, TryPut;
  }

  lemma ScheduleStep(c: Config, s: State, a: Label)
    requires StoreInv(s) && NameInv(s) && TruthInv(s) && ScheduleInv(s) && Enabled(s, a)
    ensures ScheduleInv(Do(c, s, a))
  {
    RunningNamedStep(c, s, a);
    hide DoUser, DoCluster, DoSidecar, DoController, NameInv, TruthInv, StoreInv, RunningNamed, RunningScheduled;
    match a
    case ByUser(u) => UserSchedule(c, s, u);
    case ByCluster(u) => ClusterSchedule(s, u);
    case BySidecar(u) => SidecarSchedule(c, s, u);
    case ByController(u) => ControllerSchedule(c, s, u);
  }
}
