/** What holds in every reachable state of the protocol: the results, stated on Reachable. */
module ProtocolTheorems {
  import opened Api
  import opened PodNames
  import opened StatusStore
  import opened Protocol
  import opened ProtocolStore
  import opened ProtocolNames
  import opened ProtocolPods
  import opened ProtocolTruth
  import opened ProtocolPhases
  import opened ProtocolStages
  import opened ProtocolSidecars
  import opened ProtocolLaunches
  import opened ProtocolPolls
  import opened Polling
  import R = ReportModel
  import JobPod

  // ------------------------------------------------- incarnations of a name

  /** A new object's uid is larger than any before, and a pod name is first given to an
      object that has none. */
  ghost predicate FreshEntry(log: Log, i: nat)
    requires i < |log|
  {
    && (log[i].op.Create? ==> forall j :: 0 <= j < i && log[j].value.Some? ==> log[j].value.value.uid < log[i].op.uid)
    && (log[i].op.SetRunning? ==> PodLess(log[..i], log[i].key))
  }

  ghost predicate FreshEntries(log: Log) {
    forall i :: 0 <= i < |log| ==> FreshEntry(log, i)
  }

  ghost predicate UidsBelow(log: Log, next: nat) {
    forall i :: 0 <= i < |log| && log[i].value.Some? ==> log[i].value.value.uid < next
  }

  ghost predicate FreshInv(s: State) {
    FreshEntries(s.log) && UidsBelow(s.log, s.nextUid)
  }

  lemma FreshAppend(log: Log, e: Entry)
    requires FreshEntries(log)
    requires e.op.Create? ==> UidsBelow(log, e.op.uid)
    requires e.op.SetRunning? ==> PodLess(log, e.key)
    ensures FreshEntries(log + [e])
  {
    forall i | 0 <= i < |log + [e]| ensures FreshEntry(log + [e], i) {
      assert (log + [e])[..i] == log[..i];
      if i < |log| {
        assert FreshEntry(log, i);
      } else {
        assert log[..i] == log;
      }
    }
  }

  lemma NowBelow(log: Log, next: nat, k: Key)
    requires UidsBelow(log, next) && Now(log, k).Some?
    ensures Now(log, k).value.run.uid < next
  {
    assert log[Now(log, k).value.version - 1].value == Some(Now(log, k).value.run);
  }

  lemma NamedFirst(c: Config, s: State, a: Label)
    requires NameInv(s) && Enabled(s, a) && Written(c, s, a).Some? && Written(c, s, a).value.op.SetRunning?
    ensures PodLess(s.log, Written(c, s, a).value.key)
  {
    hide TryPut, Apply, RunsOwned, PastOwned, LiveOwned, IssuedAs, R.BuildReport;
  }

  lemma FreshStep(c: Config, s: State, a: Label)
    requires StoreInv(s) && NameInv(s) && FreshInv(s) && Enabled(s, a)
    ensures FreshInv(Do(c, s, a))
  {
    var u := Do(c, s, a);
    StepWrites(c, s, a);
    assert s.log + [] == s.log;
    NextUidGrows(c, s, a);
    hide Do, DoUser, DoController, DoSidecar, NameInv, StoreInv;
    if Written(c, s, a).Some? {
      var e := Written(c, s, a).value;
      WrittenIsAtomic(c, s, a);
      if e.op.SetRunning? { NamedFirst(c, s, a); }
      hide NameInv, StoreInv, Written, FreshEntries;
      FreshAppend(s.log, e);
      if Now(s.log, e.key).Some? {
        NowBelow(s.log, s.nextUid, e.key);
      }
    }
  }

  lemma NextUidGrows(c: Config, s: State, a: Label)
    requires Enabled(s, a)
    ensures Do(c, s, a).nextUid >= s.nextUid
    ensures Written(c, s, a).Some? && Written(c, s, a).value.op.Create? ==>
              Written(c, s, a).value.op.uid == s.nextUid < Do(c, s, a).nextUid
  {
    hide LaunchedPod, PollOutcome, TryPut, Apply, JobPod.ReportsTo, R.BuildReport, R.ClaimSafe;
    match a
    case ByUser(_) =>
    case ByCluster(_) =>
    case BySidecar(b) => SidecarFrame(c, s, b);
    case ByController(_) =>
  }

  /** A pod name, once in the status of an incarnation, stays there as long as it lives. */
  lemma {:induction false} PodNameIsWriteOnce(log: Log, t: nat, u: nat, k: Key)
    requires Atomic(log) && FreshEntries(log) && t <= u <= |log|
    requires At(log, t, k).Some? && At(log, t, k).value.run.status.podName.Some?
    ensures At(log, u, k).Some? ==>
              var old', now := At(log, t, k).value.run, At(log, u, k).value.run;
              && old'.uid <= now.uid
              && (old'.uid == now.uid ==> old'.status.podName == now.status.podName)
    decreases u
  {
    if t < u {
      PodNameIsWriteOnce(log, t, u - 1, k);
      assert EntryAtomic(log, u - 1) && FreshEntry(log, u - 1);
      var v := At(log, t, k).value.version - 1;
      assert log[v].value == Some(At(log, t, k).value.run);
      if log[u - 1].key == k && log[u - 1].op.SetRunning? {
        assert log[..u - 1] + log[u - 1..] == log;
        AtPrefix(log[..u - 1], log[u - 1..], u - 1, k);
      }
    }
  }

  // ------------------------------------------------- whose pod was observed

  /** A verdict rests on the state of a pod whose name was issued for the run. */
  ghost predicate EvidenceOwned(log: Log, issued: seq<Key>) {
    forall i :: 0 <= i < |log| && log[i].op.SetPhase? && log[i].op.why.Observed? ==>
      Owned(issued, log[i].key, log[i].op.why.pod.name)
  }

  lemma IssuedGrows(c: Config, s: State, a: Label)
    requires Enabled(s, a)
    ensures Do(c, s, a).ctl.issued == s.ctl.issued || exists k :: Do(c, s, a).ctl.issued == s.ctl.issued + [k]
  {
    hide LaunchedPod, PollOutcome, TryPut, At, Apply, JobPod.ReportsTo, DoSidecar;
    match a
    case ByUser(_) =>
    case ByCluster(_) =>
    case BySidecar(b) => SidecarFrame(c, s, b);
    case ByController(b) =>
  }

  lemma EvidenceGrows(log: Log, issued: seq<Key>, k: Key)
    requires EvidenceOwned(log, issued)
    ensures EvidenceOwned(log, issued + [k])
  {
    forall i | 0 <= i < |log| && log[i].op.SetPhase? && log[i].op.why.Observed?
      ensures Owned(issued + [k], log[i].key, log[i].op.why.pod.name)
    {
      OwnedGrows(issued, [k], log[i].key, log[i].op.why.pod.name);
    }
  }

  lemma WrittenEvidence(c: Config, s: State, a: Label)
    requires NameInv(s) && TruthInv(s) && Enabled(s, a) && Written(c, s, a).Some?
    ensures EvidenceOwned([Written(c, s, a).value], s.ctl.issued)
  {
    hide TryPut, Apply, Owned, IssuedAs, OpsJustified, ValuesTruthful, PastOwned, LiveOwned, R.BuildReport;
  }

  lemma EvidenceStep(c: Config, s: State, a: Label)
    requires NameInv(s) && TruthInv(s) && EvidenceOwned(s.log, s.ctl.issued) && Enabled(s, a)
    ensures EvidenceOwned(Do(c, s, a).log, Do(c, s, a).ctl.issued)
  {
    StepWrites(c, s, a);
    IssuedGrows(c, s, a);
    assert s.log + [] == s.log;
    var u := Do(c, s, a);
    hide Do, Enabled, Owned;
    assert EvidenceOwned(u.log, s.ctl.issued) by {
      if Written(c, s, a).Some? { WrittenEvidence(c, s, a); }
      hide NameInv, TruthInv, Written;
    }
    if u.ctl.issued != s.ctl.issued {
      var k :| u.ctl.issued == s.ctl.issued + [k];
      EvidenceGrows(u.log, s.ctl.issued, k);
    }
  }

  // ------------------------------------------- the phases of a run with a pod

  /** A run that names a pod is running, or over for a reason observed of that pod. */
  predicate NamedPhase(status: RunStatus) {
    status.podName.Some? ==>
      || status.phase == PHASE_RUNNING || status.phase == PHASE_FINISHED
      || status.phase == PHASE_ERROR || status.phase == PHASE_TIMEOUT
  }

  ghost predicate NamedPhases(log: Log) {
    forall i :: 0 <= i < |log| && log[i].value.Some? ==> NamedPhase(log[i].value.value.status)
  }

  lemma NowNamedPhase(log: Log, k: Key)
    requires NamedPhases(log) && Now(log, k).Some?
    ensures NamedPhase(Now(log, k).value.run.status)
  {
    var v := Now(log, k).value.version - 1;
    assert log[v].value == Some(Now(log, k).value.run);
  }

  lemma StoredNamedPhase(c: Config, s: State)
    requires StoreInv(s) && NameInv(s) && TruthInv(s) && s.ctl.pc.AtStatusPut?
    requires TryPut(c, s.log, s.ctl.pc.key, OpOf(s.ctl.pc.job), s.ctl.pc.read) == Stored
    ensures
      var e := PutEntry(s.ctl.pc.key, OpOf(s.ctl.pc.job), s.ctl.pc.read);
      e.value.Some? && NamedPhase(e.value.value.status)
  {
    var k, job, read := s.ctl.pc.key, s.ctl.pc.job, s.ctl.pc.read;
    StoredFromCurrent(c, s.log, k, OpOf(job), read);
    assert ActivityOf(s.ctl.pc).Launching? ==> read.run.status.podName.None?;
    assert job.Verdict? ==> Justified(s.cluster.seen, k, job.phase, job.why);
    hide TryPut, StoreInv, NameInv, OpsJustified, ValuesTruthful, Overdue;
  }

  lemma NamedPhasesStep(c: Config, s: State, a: Label)
    requires StoreInv(s) && NameInv(s) && TruthInv(s) && NamedPhases(s.log) && Enabled(s, a)
    ensures NamedPhases(Do(c, s, a).log)
  {
    StepWrites(c, s, a);
    assert s.log + [] == s.log;
    if Written(c, s, a).Some? {
      var e := Written(c, s, a).value;
      if a.ByController? {
        StoredNamedPhase(c, s);
      } else {
        WrittenIsAtomic(c, s, a);
        OthersNamedPhase(s.log, e);
      }
      hide Do, StoreInv, NameInv, TruthInv, Written, NamedPhase;
    }
  }

  lemma OthersNamedPhase(log: Log, e: Entry)
    requires NamedPhases(log)
    requires e.value == Apply(e.op, RunAt(log, |log|, e.key)) && !IsControllerOp(e.op)
    ensures e.value.Some? ==> NamedPhase(e.value.value.status)
  {
    if Now(log, e.key).Some? {
      NowNamedPhase(log, e.key);
    }
  }

  // --------------------------------------------------------- the invariant

  ghost predicate Inv(c: Config, s: State) {
    && StoreInv(s) && NameInv(s) && PodInv(s) && TruthInv(s) && AdmittedPhases(c, s.log)
    && ScheduleInv(s) && StageInv(s) && PhasePath(s.log)
    && SidecarInv(c, s) && ThresholdInv(c, s) && PollsTrue(s) && PaceInv(s) && FreshInv(s)
    && EvidenceOwned(s.log, s.ctl.issued) && NamedPhases(s.log)
    && LaunchInv(s) && SidecarsNamed(s) && DoneReported(s.log, s.cluster.sidecars)
  }

  lemma InitInv(c: Config, s: State)
    requires Init(s)
    ensures Inv(c, s)
  {
  }

  lemma StepInv(c: Config, s: State, a: Label)
    requires Inv(c, s) && Enabled(s, a)
    ensures Inv(c, Do(c, s, a))
  {
    hide Do, Enabled, StoreInv, NameInv, PodInv, TruthInv, AdmittedPhases, ScheduleInv, StageInv, PhasePath,
      SidecarInv, ThresholdInv, PollsTrue, PaceInv, FreshInv, EvidenceOwned, NamedPhases,
      LaunchInv, SidecarsNamed, DoneReported;
    StoreStep(c, s, a);
    NameStep(c, s, a);
    PodStep(c, s, a);
    TruthStep(c, s, a);
    AdmissionStep(c, s, a);
    ScheduleStep(c, s, a);
    StageStep(c, s, a);
    PathStep(c, s, a);
    SidecarStepInv(c, s, a);
    ThresholdStep(c, s, a);
    PollsTrueStep(c, s, a);
    PaceStep(c, s, a);
    FreshStep(c, s, a);
    EvidenceStep(c, s, a);
    NamedPhasesStep(c, s, a);
    LaunchStep(c, s, a);
    SidecarsNamedStep(c, s, a);
    DoneStep(c, s, a);
  }

  lemma {:induction false} RunInv(c: Config, s: State, run: seq<Label>)
    requires Inv(c, s) && Valid(c, s, run)
    ensures Inv(c, Exec(c, s, run))
    decreases |run|
  {
    hide Inv, Do, Enabled;
    if run != [] {
      StepInv(c, s, run[0]);
      RunInv(c, Do(c, s, run[0]), run[1..]);
    }
  }

  lemma ReachableInv(c: Config, s: State)
    requires Reachable(c, s)
    ensures Inv(c, s)
  {
    var s0, run :| Init(s0) && Valid(c, s0, run) && Exec(c, s0, run) == s;
    InitInv(c, s0);
    hide Inv, Valid;
    RunInv(c, s0, run);
  }

  // ---------------------------------------------------------------- results

  /** What an update leaves of the object it was made to: what its writer owns is what the update
      says, and the rest is as it was. */
  predicate Updated(op: Op, before: Run, after: Run) {
    && after.uid == before.uid
    && (if op.EditSpec? then after.spec == op.newSpec && after.status == before.status else after.spec == before.spec)
    && (if op.SetReport? then after.status.report == Some(op.report) else after.status.report == before.status.report)
    && (op.SetPhase? ==> after.status.phase == op.phase && after.status.podName == before.status.podName)
    && (op.SetRunning? ==> after.status.phase == "CertSuiteRunning" && after.status.podName == Some(op.podName))
    && (WriterOf(op) != Controller ==>
          after.status.phase == before.status.phase && after.status.podName == before.status.podName)
  }

  /** No update is lost. In every reachable state, whatever was read stale and however often
      an update was tried, each stored write did what it was to do to the object stored
      immediately before it and changed nothing of it but what its writer owns; and it created
      an object if and only if there was none. */
  lemma NoLostUpdate(c: Config, s: State, i: nat)
    requires Reachable(c, s) && i < |s.log|
    ensures
      var e, before := s.log[i], RunAt(s.log, i, s.log[i].key);
      && (e.op.Create? <==> before.None?)
      && (e.op.Remove? <==> e.value.None?)
      && (e.op.Create? ==> e.value == Some(Run(e.op.uid, e.op.spec, RunStatus("", None, None))))
      && (before.Some? && !e.op.Remove? ==> Updated(e.op, before.value, e.value.value))
  {
    ReachableStore(c, s);
    assert EntryAtomic(s.log, i);
    hide Reachable, StoreInv;
  }

  lemma InvParts(c: Config, s: State)
    requires Inv(c, s)
    ensures StoreInv(s) && Atomic(s.log) && NameInv(s) && PodInv(s) && TruthInv(s) && AdmittedPhases(c, s.log)
    ensures ScheduleInv(s) && StageInv(s) && PhasePath(s.log)
    ensures SidecarInv(c, s) && ThresholdInv(c, s) && PollsTrue(s) && PaceInv(s) && FreshInv(s)
    ensures EvidenceOwned(s.log, s.ctl.issued) && NamedPhases(s.log)
    ensures LaunchInv(s) && SidecarsNamed(s) && DoneReported(s.log, s.cluster.sidecars)
  {
  }

  lemma ReachableStore(c: Config, s: State)
    requires Reachable(c, s)
    ensures StoreInv(s)
  {
    ReachableInv(c, s);
    hide StoreInv, NameInv, PodInv, TruthInv, AdmittedPhases, ScheduleInv, StageInv, PhasePath, SidecarInv,
      ThresholdInv, PollsTrue, PaceInv, FreshInv, EvidenceOwned;
  }

  lemma ReachablePods(c: Config, s: State)
    requires Reachable(c, s)
    ensures PodInv(s) && SidecarsSeen(s.cluster)
  {
    ReachableInv(c, s);
    hide StoreInv, NameInv, PodInv, TruthInv, AdmittedPhases, ScheduleInv, StageInv, PhasePath, ThresholdInv, PollsTrue,
      PaceInv, FreshInv, EvidenceOwned;
  }

  /** The versioned store refines the atomic one: at every moment of every history it shows
      what the operations done so far give when each is done at once. */
  lemma StoreRefinesAtomicStore(c: Config, s: State, t: nat, k: Key)
    requires Reachable(c, s) && t <= |s.log|
    ensures RunAt(s.log, t, k) == Replay(s.log[..t], k)
  {
    hide Reachable, Inv;
    ReachableInv(c, s);
    InvParts(c, s);
    AtomicReplay(s.log, t, k);
  }

  /** Phase and pod name, and the report, are two independent registers: leaving the
      sidecars' writes out of history changes no phase or pod name, and leaving the
      controller's out changes no report. */
  lemma RegistersAreIndependent(c: Config, s: State, k: Key)
    requires Reachable(c, s)
    ensures AgreeExcept(Writer.Sidecar, Replay(Without(s.log, Writer.Sidecar), k), RunAt(s.log, |s.log|, k))
    ensures AgreeExcept(Controller, Replay(Without(s.log, Controller), k), RunAt(s.log, |s.log|, k))
  {
    StoreRefinesAtomicStore(c, s, |s.log|, k);
    assert s.log[..|s.log|] == s.log;
    ReplayWithout(s.log, Writer.Sidecar, k);
    ReplayWithout(s.log, Controller, k);
  }

  /** The phases the controller stored for a name used once form a path. */
  lemma PhasesFormAPath(c: Config, s: State, i: nat)
    requires Reachable(c, s) && i < |s.log|
    requires IsControllerOp(s.log[i].op) && Creations(s.log[..i], s.log[i].key) <= 1
    ensures Continues(s.log, i)
  {
    hide Reachable, Inv;
    ReachableInv(c, s);
    InvParts(c, s);
    assert StepsPhase(s.log, i);
  }

  /** When a run whose name is not reused is on the controller's list: once it names a pod,
      exactly while it is in phase Running; before, exactly until a Reconcile has issued it a
      pod name or has missed it, and then as long as the launch for that name goes on. In a
      terminal phase it is never looked at again. */
  lemma QueueFollowsPhase(c: Config, s: State, k: Key)
    requires Reachable(c, s) && s.ctl.pc != Crashed
    requires Creations(s.log, k) == 1 && Now(s.log, k).Some?
    ensures Now(s.log, k).value.run.status.podName.Some? ==>
              (Scheduled(s.queue, s.ctl.pc, k) <==> Now(s.log, k).value.run.status.phase == PHASE_RUNNING)
    ensures Now(s.log, k).value.run.status.podName.None? ==>
              (Scheduled(s.queue, s.ctl.pc, k) <==> (k !in s.ctl.issued && k !in s.ctl.missed) || Launches(s.ctl.pc, k))
    ensures IsTerminal(Now(s.log, k).value.run.status.phase) ==> !Scheduled(s.queue, s.ctl.pc, k)
  {
    hide Reachable, Inv, ScheduleInv, StageInv, NameInv, LaunchInv;
    ReachableInv(c, s);
    InvParts(c, s);
    if Now(s.log, k).value.run.status.podName.Some? {
      ScheduledIffRunning(s, k);
    } else {
      ScheduledUntilLaunched(s, k);
    }
    if IsTerminal(Now(s.log, k).value.run.status.phase) {
      TerminalIsFinal(s, k);
    }
  }

  /** A launch is not resumed. A run of a name not reused that is in phase Deploying is on the
      controller's list exactly while the one Reconcile that launches it is in flight: if that
      ends without marking it running, nothing looks at the run again, pod or no pod. */
  lemma LaunchesAreNotResumed(c: Config, s: State, k: Key)
    requires Reachable(c, s) && s.ctl.pc != Crashed
    requires Creations(s.log, k) == 1 && Now(s.log, k).Some?
    requires Now(s.log, k).value.run.status.phase == PHASE_DEPLOYING
    ensures Now(s.log, k).value.run.status.podName.None?
    ensures Scheduled(s.queue, s.ctl.pc, k) <==> Launches(s.ctl.pc, k)
  {
    hide Reachable, Inv, StoreInv, NameInv, PodInv, TruthInv, ScheduleInv, SidecarInv, LaunchInv;
    ReachableInv(c, s);
    InvParts(c, s);
    NowNamedPhase(s.log, k);
    PhasesDiffer();
    ScheduledUntilLaunched(s, k);
    assert StageOf(s, k);
  }

  /** On a store that enforces the schema the DeployError of a pod that could not be created
      is rejected: the run stays in phase Deploying, and once the update is over nothing looks
      at it again. */
  lemma StrictDeployErrorIsForgotten(c: Config, s: State, fails: bool)
    requires c.strict && Reachable(c, s) && s.ctl.pc.AtStatusPut? && s.ctl.pc.job.MarkDeployError?
    requires Creations(s.log, s.ctl.pc.key) == 1 && Now(s.log, s.ctl.pc.key).Some?
    ensures
      var k, u := s.ctl.pc.key, DoController(c, s, StatusPut(fails));
      && u.log == s.log
      && Now(u.log, k).value.run.status.phase == PHASE_DEPLOYING
      && (u.ctl.pc == Idle ==> !Scheduled(u.queue, u.ctl.pc, k))
  {
    var k, u := s.ctl.pc.key, DoController(c, s, StatusPut(fails));
    assert Now(s.log, k).value.run.status.phase == PHASE_DEPLOYING by {
      ReachableStages(c, s);
      assert StageOf(s, k);
      hide Reachable, StageInv, DoController, TryPut;
    }
    assert u.log == s.log by {
      ReachableStore(c, s);
      PhasesDiffer();
      RejectedUpdate(c, s, fails);
    }
    StepReachable(c, s, ByController(StatusPut(fails)));
    hide Reachable, DoController;
    if u.ctl.pc == Idle {
      LaunchesAreNotResumed(c, u, k);
    }
  }

  lemma ReachableStages(c: Config, s: State)
    requires Reachable(c, s)
    ensures StageInv(s)
  {
    ReachableInv(c, s);
    hide StoreInv, NameInv, PodInv, TruthInv, AdmittedPhases, ScheduleInv, StageInv, PhasePath, SidecarInv, ThresholdInv,
      PollsTrue, PaceInv, FreshInv, EvidenceOwned, NamedPhases, LaunchInv, SidecarsNamed, DoneReported;
  }

  /** One more step from a reachable state leads to one. */
  lemma StepReachable(c: Config, s: State, a: Label)
    requires Reachable(c, s) && Enabled(s, a)
    ensures Reachable(c, Do(c, s, a))
  {
    var s0, run :| Init(s0) && Valid(c, s0, run) && Exec(c, s0, run) == s;
    hide Do, Enabled, Init;
    OneMoreStep(c, s0, run, a);
  }

  lemma {:induction false} OneMoreStep(c: Config, s: State, run: seq<Label>, a: Label)
    requires Valid(c, s, run) && Enabled(Exec(c, s, run), a)
    ensures Valid(c, s, run + [a]) && Exec(c, s, run + [a]) == Do(c, Exec(c, s, run), a)
    decreases |run|
  {
    hide Do, Enabled;
    if run == [] {
      assert run + [a] == [a] && [a][1..] == [];
      assert Valid(c, Do(c, s, a), []);
    } else {
      assert (run + [a])[1..] == run[1..] + [a];
      OneMoreStep(c, Do(c, s, run[0]), run[1..], a);
    }
  }

  /** Even when names are reused, a run in phase Running is never forgotten. */
  lemma RunningIsNeverForgotten(c: Config, s: State, k: Key)
    requires Reachable(c, s) && s.ctl.pc != Crashed
    requires IsRunning(s.log, k)
    ensures Scheduled(s.queue, s.ctl.pc, k)
  {
    hide Reachable, Inv;
    ReachableInv(c, s);
    InvParts(c, s);
  }

  /** Pod names belong to one run: the map is injective, its values are the prefix and a
      number issued so far, and a live run's pod name is its entry. */
  lemma PodNamesAreOwned(c: Config, s: State)
    requires Reachable(c, s)
    ensures forall k, l :: k in s.ctl.runs && l in s.ctl.runs && s.ctl.runs[k] == s.ctl.runs[l] ==> k == l
    ensures forall k :: k in s.ctl.runs ==> exists i :: 1 <= i <= s.ctl.lastId && s.ctl.runs[k] == PodName(i)
    ensures forall k :: Now(s.log, k).Some? && Now(s.log, k).value.run.status.podName.Some? ==>
              k in s.ctl.runs && s.ctl.runs[k] == Now(s.log, k).value.run.status.podName.value
  {
    hide Reachable, Inv;
    ReachableInv(c, s);
    InvParts(c, s);
    forall k, l | k in s.ctl.runs && l in s.ctl.runs && s.ctl.runs[k] == s.ctl.runs[l] ensures k == l {
      OwnedUnique(s.ctl.issued, k, l, s.ctl.runs[k]);
    }
    forall k | k in s.ctl.runs ensures exists i :: 1 <= i <= s.ctl.lastId && s.ctl.runs[k] == PodName(i) {
      var i :| IssuedAs(s.ctl.issued, k, s.ctl.runs[k], i);
    }
  }

  /** A pod name is used once: whatever pod is created next, in whatever namespace, nothing of
      its name was ever there before, and no status but this run's ever showed the name. */
  lemma PodNamesAreUsedOnce(c: Config, s: State)
    requires Reachable(c, s) && s.ctl.pc.AtCreatePod?
    ensures forall o :: o in s.cluster.seen ==> o.0.name != s.ctl.pc.podName
    ensures forall i :: 0 <= i < |s.log| && s.log[i].value.Some? && s.log[i].key != s.ctl.pc.key ==>
              s.log[i].value.value.status.podName != Some(s.ctl.pc.podName)
  {
    hide Reachable, Inv;
    ReachableInv(c, s);
    InvParts(c, s);
    var k, name := s.ctl.pc.key, s.ctl.pc.podName;
    assert LatestFor(s.ctl, k, name) && PastOwned(s.log, s.ctl.issued);
    assert Owned(s.ctl.issued, k, name);
    forall i | 0 <= i < |s.log| && s.log[i].value.Some? && s.log[i].value.value.status.podName == Some(name)
      ensures s.log[i].key == k
    {
      OwnedUnique(s.ctl.issued, s.log[i].key, k, name);
    }
  }

  /** Within one incarnation the pod name never changes once it is set. */
  lemma PodNameNeverChanges(c: Config, s: State, t: nat, u: nat, k: Key)
    requires Reachable(c, s) && t <= u <= |s.log|
    requires RunAt(s.log, t, k).Some? && RunAt(s.log, u, k).Some?
    requires RunAt(s.log, t, k).value.uid == RunAt(s.log, u, k).value.uid
    requires RunAt(s.log, t, k).value.status.podName.Some?
    ensures RunAt(s.log, u, k).value.status.podName == RunAt(s.log, t, k).value.status.podName
  {
    hide Reachable, Inv;
    ReachableInv(c, s);
    InvParts(c, s);
    PodNameIsWriteOnce(s.log, t, u, k);
  }

  /** The only pod a controller step removes is the one its map holds for the missing run it
      is about, the entry goes with it, and no live run names that pod. */
  lemma DeletionIsIsolated(c: Config, s: State, a: ControllerStep, pod: Key)
    requires Reachable(c, s) && ControllerCan(s, a)
    requires pod in s.cluster.pods && pod !in DoController(c, s, a).cluster.pods
    ensures s.ctl.pc.AtDeletePod?
    ensures
      var k := s.ctl.pc.key;
      && k in s.ctl.runs && pod == Key(k.ns, s.ctl.runs[k])
      && k !in DoController(c, s, a).ctl.runs
      && forall l :: Now(s.log, l).Some? ==> Now(s.log, l).value.run.status.podName != Some(pod.name)
  {
    hide Reachable, Inv;
    ReachableInv(c, s);
    InvParts(c, s);
    OnlyDeleteRemoves(c, s, a, pod);
    hide Inv, DoController;
    var k := s.ctl.pc.key;
    forall l | Now(s.log, l).Some? ensures Now(s.log, l).value.run.status.podName != Some(pod.name) {
      if Now(s.log, l).value.run.status.podName == Some(pod.name) {
        assert l in s.ctl.runs && s.ctl.runs[l] == pod.name;
        OwnedUnique(s.ctl.issued, k, l, pod.name);
      }
    }
  }

  lemma OnlyDeleteRemoves(c: Config, s: State, a: ControllerStep, pod: Key)
    requires ControllerCan(s, a)
    requires pod in s.cluster.pods && pod !in DoController(c, s, a).cluster.pods
    ensures a.DeletePod? && pod == Key(s.ctl.pc.key.ns, s.ctl.pc.podName)
    ensures s.ctl.pc.key !in DoController(c, s, a).ctl.runs
  {
    hide LaunchedPod, PollOutcome, TryPut, At, Apply, JobPod.ReportsTo;
  }

  /** A stored Finished or Error is true of the pod it names, as long as that pod exists. */
  lemma TerminalPhasesAreTrue(c: Config, s: State, k: Key)
    requires Reachable(c, s)
    requires Now(s.log, k).Some? && Now(s.log, k).value.run.status.podName.Some?
    requires Key(k.ns, Now(s.log, k).value.run.status.podName.value) in s.cluster.pods
    ensures
      var status := Now(s.log, k).value.run.status;
      var p := s.cluster.pods[Key(k.ns, status.podName.value)];
      && StatusesFit(p)
      && (status.phase == PHASE_FINISHED ==>
            exists from :: ContainerStatus(p, JobPod.CERTSUITE) == Some(Terminated(0, from)))
      && (status.phase == PHASE_ERROR ==>
            exists code, from :: code != 0 && ContainerStatus(p, JobPod.CERTSUITE) == Some(Terminated(code, from)))
  {
    hide Reachable, Inv;
    ReachableInv(c, s);
    InvParts(c, s);
    TerminalPhasesTrueNow(s, k);
  }

  /** A Timeout was written because the run's own pod was seen running past a timeout its
      spec had, by the wrapping arithmetic of durations; and in real time, two minutes past it,
      unless the timeout is within two minutes of the largest duration. */
  lemma TimeoutsAreOverdue(c: Config, s: State, i: nat)
    requires Reachable(c, s) && i < |s.log| && s.log[i].op.SetPhase? && s.log[i].op.phase == PHASE_TIMEOUT
    ensures s.log[i].op.why.Observed? && s.log[i].op.why.state.Running?
    ensures
      var why := s.log[i].op.why;
      && why.pod.ns == s.log[i].key.ns && Owned(s.ctl.issued, s.log[i].key, why.pod.name)
      && SeenAs(s.cluster.seen, why.pod, why.state)
      && ThresholdOf(c, s.log, s.log[i].key, why.threshold)
      && MIN_DURATION <= why.threshold <= MAX_DURATION
      && Overdue(why.at, why.state.startedAt, why.threshold)
      && (why.threshold < 9_223_372_036_854_775_807 - 120_000_000_000 ==>
            why.at - why.state.startedAt > why.threshold + 120_000_000_000)
  {
    hide Reachable, Inv, StoreInv, NameInv, PodInv, AdmittedPhases, ScheduleInv, StageInv, PhasePath, SidecarInv,
      PollsTrue, PaceInv, FreshInv, NamedPhases, LaunchInv, SidecarsNamed, DoneReported, Owned, SeenAs;
    ReachableInv(c, s);
    InvParts(c, s);
    PhasesDiffer();
    assert Justified(s.cluster.seen, s.log[i].key, s.log[i].op.phase, s.log[i].op.why);
  }

  /** When no timeout a run's spec ever had exceeds T, at most floor((T + 2 min) / 10 s) + 1 of
      its polls find the container still within its time, whatever fails in between. */
  lemma PollingIsBounded(c: Config, s: State, k: Key, t: Duration)
    requires Reachable(c, s)
    requires Creations(s.log, k) == 1 && Now(s.log, k).Some?
    requires -120_000_000_000 <= t < 9_223_372_036_854_775_807 - 120_000_000_000
    requires forall timeout :: TimeoutOf(s.log, k, timeout) ==> Nanoseconds(c.parse, timeout) <= t
    ensures |Of(s.polls, k)| <= (t + 120_000_000_000) / 10_000_000_000 + 1
  {
    hide Reachable, Inv;
    ReachableInv(c, s);
    InvParts(c, s);
    RunPollsAreBounded(c, s, k, t);
  }

  /** Once that many polls found the container within its time, the next one decides: if it
      shows the container running, the run is timed out, and if it shows it terminated, the
      run is over. */
  lemma NextPollDecides(c: Config, s: State, t: Duration, p: ClusterPod)
    requires Reachable(c, s) && ControllerCan(s, PollPod(Some(p)))
    requires Creations(s.log, s.ctl.pc.key) == 1 && Now(s.log, s.ctl.pc.key).Some?
    requires -120_000_000_000 <= t < 9_223_372_036_854_775_807 - 120_000_000_000
    requires forall timeout :: TimeoutOf(s.log, s.ctl.pc.key, timeout) ==> Nanoseconds(c.parse, timeout) <= t
    requires |Of(s.polls, s.ctl.pc.key)| == (t + 120_000_000_000) / 10_000_000_000 + 1
    ensures
      var outcome := PollOutcome(p, JobRunTimeThreshold(c.parse, s.ctl.pc.timeout), s.clock);
      match ContainerStatus(p, JobPod.CERTSUITE)
      case None => outcome == NoStatus
      case Some(Waiting) => outcome == NilDereference
      case Some(Running(_)) => outcome == Decided(PHASE_TIMEOUT)
      case Some(Terminated(code, _)) => outcome == Decided(if code == 0 then PHASE_FINISHED else PHASE_ERROR)
  {
    StepReachable(c, s, ByController(PollPod(Some(p))));
    StillRunningIsRecorded(c, s, p);
    hide Reachable, Overdue, DoController;
    PollingIsBounded(c, DoController(c, s, PollPod(Some(p))), s.ctl.pc.key, t);
  }

  lemma StillRunningIsRecorded(c: Config, s: State, p: ClusterPod)
    requires ControllerCan(s, PollPod(Some(p)))
    ensures
      var u, k := DoController(c, s, PollPod(Some(p))), s.ctl.pc.key;
      && u.log == s.log
      && (PollOutcome(p, JobRunTimeThreshold(c.parse, s.ctl.pc.timeout), s.clock).StillRunning? ==>
            |Of(u.polls, k)| == |Of(s.polls, k)| + 1)
  {
    var outcome := PollOutcome(p, JobRunTimeThreshold(c.parse, s.ctl.pc.timeout), s.clock);
    if outcome.StillRunning? {
      var k := s.ctl.pc.key;
      OfAppend(s.polls, Poll(Key(k.ns, s.ctl.pc.podName), k, s.clock, outcome.startedAt,
                             JobRunTimeThreshold(c.parse, s.ctl.pc.timeout)), k);
    }
    hide PollOutcome, Of;
  }

  /** On a store that enforces the CRD's schema every stored phase is unset or in the enum,
      and the only terminal phases ever stored are Finished and Error. */
  lemma StrictStorePhases(c: Config, s: State, i: nat)
    requires c.strict && Reachable(c, s) && i < |s.log| && s.log[i].value.Some?
    ensures
      var phase := s.log[i].value.value.status.phase;
      && (phase == PHASE_UNSET || InPhaseEnum(phase))
      && (IsTerminal(phase) ==> phase == PHASE_FINISHED || phase == PHASE_ERROR)
  {
    hide Reachable, Inv;
    ReachableInv(c, s);
    InvParts(c, s);
    PhasesDiffer();
  }

  /** Every live run that names a pod is accounted for: it is Running and will be looked at
      again, or its pod's container was seen to exit, cleanly if Finished and not if Error, or
      it is in phase Timeout. */
  lemma NamedRunsAreAccountedFor(c: Config, s: State, k: Key)
    requires Reachable(c, s) && s.ctl.pc != Crashed
    requires Now(s.log, k).Some? && Now(s.log, k).value.run.status.podName.Some?
    ensures
      var status := Now(s.log, k).value.run.status;
      var pod := Key(k.ns, status.podName.value);
      || (status.phase == PHASE_RUNNING && Scheduled(s.queue, s.ctl.pc, k))
      || (status.phase == PHASE_FINISHED && ExitSeen(s.cluster.seen, pod, true))
      || (status.phase == PHASE_ERROR && ExitSeen(s.cluster.seen, pod, false))
      || status.phase == PHASE_TIMEOUT
  {
    hide Reachable, Inv;
    ReachableInv(c, s);
    InvParts(c, s);
    NowNamedPhase(s.log, k);
    NowTruthful(s.log, s.cluster.seen, k);
    PhasesDiffer();
    assert IsRunning(s.log, k) ==> Scheduled(s.queue, s.ctl.pc, k);
    hide StoreInv, NameInv, PodInv, TruthInv, ScheduleInv, StageInv, PhasePath, SidecarInv, ThresholdInv, PollsTrue,
      PaceInv, FreshInv, EvidenceOwned, Scheduled, ExitSeen;
  }

  /** On a store that enforces the schema a run that got its pod stays Running, and is polled
      again and again however long it takes, until the container is seen to exit: no timeout
      ever ends it. */
  lemma StrictRunsEndByExiting(c: Config, s: State, k: Key)
    requires c.strict && Reachable(c, s) && s.ctl.pc != Crashed
    requires Now(s.log, k).Some? && Now(s.log, k).value.run.status.podName.Some?
    ensures
      var status := Now(s.log, k).value.run.status;
      var pod := Key(k.ns, status.podName.value);
      || (status.phase == PHASE_RUNNING && Scheduled(s.queue, s.ctl.pc, k))
      || (status.phase == PHASE_FINISHED && ExitSeen(s.cluster.seen, pod, true))
      || (status.phase == PHASE_ERROR && ExitSeen(s.cluster.seen, pod, false))
  {
    hide Reachable, Scheduled, ExitSeen;
    NamedRunsAreAccountedFor(c, s, k);
    StrictStorePhases(c, s, Now(s.log, k).value.version - 1);
    PhasesDiffer();
  }

  /** On such a store a run found overdue stays in phase Running and stays scheduled: the
      rejected Timeout changes nothing and the run is polled again. */
  lemma StrictTimeoutIsRetried(c: Config, s: State, fails: bool)
    requires c.strict && Reachable(c, s) && s.ctl.pc.AtStatusPut? && s.ctl.pc.job.Verdict?
    requires s.ctl.pc.job.phase == PHASE_TIMEOUT
    ensures DoController(c, s, StatusPut(fails)).log == s.log
    ensures Scheduled(DoController(c, s, StatusPut(fails)).queue, DoController(c, s, StatusPut(fails)).ctl.pc, s.ctl.pc.key)
  {
    ReachableStore(c, s);
    PhasesDiffer();
    hide Reachable, StoreInv;
    RejectedUpdate(c, s, fails);
    hide DoController, InPhaseEnum;
  }

  /** Every stored report was written by the sidecar of a pod issued for that very run, is
      the only one of that sidecar, and shows what the flags of the spec stored beside it ask. */
  lemma ReportsAreRight(c: Config, s: State, i: nat)
    requires Reachable(c, s) && i < |s.log| && s.log[i].op.SetReport?
    ensures RunAt(s.log, i, s.log[i].key).Some?
    ensures BuiltFor(c.decode, s.log[i].op.report, RunAt(s.log, i, s.log[i].key).value.spec)
    ensures Aimed(s.ctl.issued, s.log[i].op.author, s.log[i].key)
    ensures forall j :: 0 <= j < |s.log| && j != i && s.log[j].op.SetReport? ==> s.log[j].op.author != s.log[i].op.author
  {
    hide Reachable, Inv;
    ReachableInv(c, s);
    InvParts(c, s);
    assert ReportBuilt(c.decode, s.log, i);
  }
}
