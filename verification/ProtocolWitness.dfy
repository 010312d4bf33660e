/** Runs of the protocol that show what it does not promise: a phase path when names are
    reused, a launch that is carried through, and a report when a run is finished. */
module ProtocolWitness {
  import opened Api
  import opened PodNames
  import opened StatusStore
  import opened Protocol
  import opened ProtocolPhases
  import opened ProtocolStages
  import opened ProtocolTheorems
  import opened Environment
  import opened Polling
  import JobPod

  lemma Take(c: Config, s: State, a: Label) returns (u: State)
    requires Reachable(c, s) && Enabled(s, a)
    ensures Reachable(c, u) && u == Do(c, s, a)
  {
    u := Do(c, s, a);
    hide Do, Enabled;
    LeadsStep(c, s, a);
    ReachableLeads(c, s, u);
  }

  function FirstRun(spec: RunSpec): Run {
    Run(0, spec, RunStatus(PHASE_UNSET, None, None))
  }

  function Created(k: Key, uid: nat, spec: RunSpec): Entry {
    Entry(k, Create(uid, spec), Some(Run(uid, spec, RunStatus(PHASE_UNSET, None, None))))
  }

  lemma Queued(c: Config, k: Key, spec: RunSpec) returns (s: State)
    ensures Reachable(c, s) && s.log == [Created(k, 0, spec)] && s.nextUid == 1
    ensures s.ctl == Process(map[], 0, [], {}, Idle) && k in s.queue.ready
    ensures s.clock == 0 && s.queue.delayed == map[] && s.cluster == Cluster(map[], {}, map[])
  {
    s := State([], 0, Cluster(map[], {}, map[]), Queue(multiset{}, {}, map[]), Process(map[], 0, [], {}, Idle), 0, []);
    assert Reachable(c, s) by {
      assert Init(s) && Valid(c, s, []) && Exec(c, s, []) == s;
    }
    hide Reachable, DoController, DoSidecar;
    s := Take(c, s, ByUser(CreateRun(k, spec)));
    s := Take(c, s, ByCluster(Deliver(k)));
  }

  lemma Started(c: Config, k: Key, spec: RunSpec) returns (s: State)
    ensures Reachable(c, s) && s.log == [Created(k, 0, spec)] && s.nextUid == 1
    ensures s.ctl == Process(map[], 0, [], {}, AtGetRun(k))
    ensures s.clock == 0 && s.queue.delayed == map[] && s.cluster == Cluster(map[], {}, map[])
  {
    hide Reachable, DoUser, DoCluster, DoGetRun, DoPoll, DoCreatePod, DoDeletePod, DoStatusGet, DoStatusPut, DoSidecar;
    s := Queued(c, k, spec);
    s := Take(c, s, ByController(Start(k)));
  }

  /** A new run is found, a pod name is issued for it, and it is about to be announced. */
  lemma Announcing(c: Config, k: Key, spec: RunSpec) returns (s: State)
    ensures Reachable(c, s) && s.log == [Created(k, 0, spec)] && s.nextUid == 1
    ensures s.ctl.pc == AtStatusGet(k, Deploy(FirstRun(spec), PodName(1)), TRIES)
    ensures s.clock == 0 && s.queue.delayed == map[] && s.cluster == Cluster(map[], {}, map[])
  {
    hide Reachable, DoUser, DoCluster, DoPoll, DoCreatePod, DoDeletePod, DoStatusGet, DoStatusPut, DoSidecar;
    s := Started(c, k, spec);
    assert SeesOwnWrites(s.log, 1, k);
    s := Take(c, s, ByController(GetRun(1)));
  }

  /** The run is announced; its pod is about to be created. */
  lemma Announced(c: Config, k: Key, spec: RunSpec) returns (s: State)
    ensures Reachable(c, s) && |s.log| == 2 && s.nextUid == 1
    ensures s.log[0] == Created(k, 0, spec) && !s.log[1].op.Create?
    ensures Now(s.log, k) == Some(Object(2, Run(0, spec, RunStatus(PHASE_DEPLOYING, None, None))))
    ensures s.ctl.pc == AtCreatePod(k, FirstRun(spec), PodName(1))
    ensures s.clock == 0 && s.queue.delayed == map[] && s.cluster == Cluster(map[], {}, map[])
  {
    hide Reachable, LaunchedPod, PodName, DoUser, DoCluster, DoSidecar, DoGetRun, DoPoll, DoDeletePod, DoCreatePod;
    PhasesDiffer();
    s := Announcing(c, k, spec);
    s := Take(c, s, ByController(StatusGet(1, false)));
    s := Take(c, s, ByController(StatusPut(false)));
  }

  /** The pod is created; the run is about to be marked running. */
  lemma Launched(c: Config, k: Key, spec: RunSpec) returns (s: State)
    ensures Reachable(c, s) && |s.log| == 2 && s.nextUid == 1
    ensures s.log[0] == Created(k, 0, spec) && !s.log[1].op.Create?
    ensures Now(s.log, k) == Some(Object(2, Run(0, spec, RunStatus(PHASE_DEPLOYING, None, None))))
    ensures s.ctl.pc == AtStatusGet(k, MarkRunning(PodName(1)), TRIES)
    ensures s.clock == 0 && s.queue.delayed == map[] && s.cluster.pods == map[Key(k.ns, PodName(1)) := FirstPod(c, k, spec)]
    ensures s.cluster.sidecars.Keys == {Key(k.ns, PodName(1))} && IsActive(s.cluster.sidecars[Key(k.ns, PodName(1))])
  {
    hide Reachable, LaunchedPod, PodName, At, DoUser, DoCluster, DoSidecar, DoGetRun, DoPoll, DoDeletePod,
      DoStatusGet, DoStatusPut;
    s := Announced(c, k, spec);
    s := Take(c, s, ByController(CreatePod(false)));
  }

  lemma CreatedOnce(log: Log, k: Key)
    requires |log| == 2 && log[0].key == k && log[0].op.Create? && !log[1].op.Create?
    ensures Creations(log, k) == 1
  {
    assert log == [] + [log[0]] + [log[1]];
    CreationsAppend([], log[0], k);
    CreationsAppend([] + [log[0]], log[1], k);
  }

  /** Users delete the run that is being launched and create it again, any number of times. */
  lemma {:induction false} Recreated(c: Config, k: Key, spec: RunSpec, n: nat) returns (s: State)
    requires n >= 1
    ensures Reachable(c, s) && Creations(s.log, k) == n
    ensures s.ctl.pc == AtStatusGet(k, MarkRunning(PodName(1)), TRIES)
    ensures Now(s.log, k).Some?
    ensures n >= 2 ==>
              && Now(s.log, k).value.version == |s.log|
              && Now(s.log, k).value.run.status == RunStatus(PHASE_UNSET, None, None)
    decreases n
  {
    hide Reachable, PodName, FirstPod, DoController, DoCluster, DoSidecar, Creations;
    if n == 1 {
      s := Launched(c, k, spec);
      CreatedOnce(s.log, k);
    } else {
      s := Recreated(c, k, spec, n - 1);
      var before := s.log;
      s := Take(c, s, ByUser(DeleteRun(k)));
      assert s.log == before + [Entry(k, Remove, None)];
      CreationsAppend(before, s.log[|before|], k);
      var removed := s.log;
      AppendIsLocal(before, removed[|before|]);
      s := Take(c, s, ByUser(CreateRun(k, spec)));
      assert s.log == removed + [s.log[|removed|]];
      CreationsAppend(removed, s.log[|removed|], k);
      AppendIsLocal(removed, s.log[|removed|]);
    }
  }

  /** When a run is deleted and created again under its name while it is being launched, the
      new run goes from no phase at all straight to Running, however often that was done. */
  lemma NameReuseBreaksThePath(c: Config, k: Key, spec: RunSpec, n: nat) returns (s: State, i: nat)
    requires n >= 2
    ensures Reachable(c, s) && i < |s.log| && s.log[i].key == k && IsControllerOp(s.log[i].op)
    ensures Creations(s.log[..i], k) == n
    ensures RunAt(s.log, i, k).Some? && s.log[i].value.Some?
    ensures RunAt(s.log, i, k).value.status.phase == PHASE_UNSET
    ensures s.log[i].value.value.status.phase == PHASE_RUNNING
    ensures !Continues(s.log, i)
  {
    hide Reachable, PodName, FirstPod, DoUser, DoCluster, DoSidecar, DoGetRun, DoPoll, DoDeletePod, DoCreatePod, Creations;
    PhasesDiffer();
    s := Recreated(c, k, spec, n);
    var before := s.log;
    i := |before|;
    s := Take(c, s, ByController(StatusGet(i, false)));
    s := Take(c, s, ByController(StatusPut(false)));
    assert s.log[..i] == before && s.log == before + [s.log[i]];
    AppendIsLocal(before, s.log[i]);
  }

  /** Every controller write for a name created `n` times so far continues the path. */
  ghost predicate PathHolds(c: Config, n: nat) {
    forall s, i ::
      && Reachable(c, s) && 0 <= i < |s.log| && IsControllerOp(s.log[i].op)
      && Creations(s.log[..i], s.log[i].key) == n
      ==> Continues(s.log, i)
  }

  /** The stored phases form a path exactly as long as the name was created at most once. */
  lemma PathExactlyWhenNotReused(c: Config, n: nat)
    ensures PathHolds(c, n) <==> n <= 1
  {
    hide Reachable;
    if n <= 1 {
      forall s, i | Reachable(c, s) && 0 <= i < |s.log| && IsControllerOp(s.log[i].op)
                    && Creations(s.log[..i], s.log[i].key) == n
        ensures Continues(s.log, i)
      {
        PhasesFormAPath(c, s, i);
      }
    } else {
      var spec := RunSpec("", "", "", "", None, false, false, false);
      var s, i := NameReuseBreaksThePath(c, Key("", ""), spec, n);
    }
  }

  // --------------------------------------------------- abandoned launches

  /** The pod is up, the update that should record it fails, and Reconcile returns without an
      error: the run stays in phase Deploying, names no pod, and nothing looks at it again. */
  lemma LaunchAbandoned(c: Config, k: Key, spec: RunSpec) returns (s: State)
    ensures Reachable(c, s) && Creations(s.log, k) == 1 && Now(s.log, k).Some?
    ensures Now(s.log, k).value.run.status == RunStatus(PHASE_DEPLOYING, None, None)
    ensures Key(k.ns, PodName(1)) in s.cluster.pods
    ensures s.ctl.pc == Idle && !Scheduled(s.queue, s.ctl.pc, k)
  {
    hide Reachable, PodName, FirstPod, DoUser, DoCluster, DoSidecar, DoGetRun, DoPoll, DoDeletePod, DoCreatePod;
    s := Launched(c, k, spec);
    CreatedOnce(s.log, k);
    s := Take(c, s, ByController(StatusGet(2, true)));
    LaunchesAreNotResumed(c, s, k);
  }

  /** On a store that enforces the schema the same happens when the pod cannot be created: the
      phase that should say so is rejected. */
  lemma DeployErrorAbandoned(c: Config, k: Key, spec: RunSpec) returns (s: State)
    requires c.strict
    ensures Reachable(c, s) && Creations(s.log, k) == 1 && Now(s.log, k).Some?
    ensures Now(s.log, k).value.run.status == RunStatus(PHASE_DEPLOYING, None, None)
    ensures s.cluster.pods == map[]
    ensures s.ctl.pc == Idle && !Scheduled(s.queue, s.ctl.pc, k)
  {
    hide Reachable, PodName, FirstPod, LaunchedPod, DoUser, DoCluster, DoSidecar, DoGetRun, DoPoll, DoDeletePod;
    PhasesDiffer();
    s := Announced(c, k, spec);
    CreatedOnce(s.log, k);
    s := Take(c, s, ByController(CreatePod(true)));
    s := Take(c, s, ByController(StatusGet(2, false)));
    s := Take(c, s, ByController(StatusPut(false)));
    LaunchesAreNotResumed(c, s, k);
  }

  // ------------------------------------------------- finished, no report

  /** The pod of the first run, as it is created. */
  function FirstPod(c: Config, k: Key, spec: RunSpec): ClusterPod {
    LaunchedPod(c, k, FirstRun(spec), PodName(1))
  }

  /** The run is marked running; nothing but its pod is in the cluster. */
  lemma MarkedRunning(c: Config, k: Key, spec: RunSpec) returns (s: State)
    ensures Reachable(c, s) && |s.log| == 3 && s.clock == 0
    ensures s.log[2].op.SetRunning?
    ensures Now(s.log, k) == Some(Object(3, Run(0, spec, RunStatus(PHASE_RUNNING, Some(PodName(1)), None))))
    ensures s.ctl.pc == Idle && s.queue.delayed == map[k := 10_000_000_000]
    ensures s.cluster.pods == map[Key(k.ns, PodName(1)) := FirstPod(c, k, spec)]
    ensures s.cluster.sidecars.Keys == {Key(k.ns, PodName(1))} && IsActive(s.cluster.sidecars[Key(k.ns, PodName(1))])
  {
    hide Reachable, LaunchedPod, DoUser, DoCluster, DoSidecar, DoGetRun, DoPoll, DoDeletePod, DoCreatePod;
    PhasesDiffer();
    s := Launched(c, k, spec);
    s := Take(c, s, ByController(StatusGet(2, false)));
    s := Take(c, s, ByController(StatusPut(false)));
  }

  /** The pod is gone through: its containers exited, the suite's with 0, and its sidecar died. */
  lemma Exited(c: Config, k: Key, spec: RunSpec) returns (s: State, p: ClusterPod)
    ensures Reachable(c, s) && |s.log| == 3 && s.clock == 10_000_000_000
    ensures s.log[2].op.SetRunning?
    ensures Now(s.log, k) == Some(Object(3, Run(0, spec, RunStatus(PHASE_RUNNING, Some(PodName(1)), None))))
    ensures s.ctl.pc == Idle && k in s.queue.ready
    ensures p == ClusterPod(FirstPod(c, k, spec).spec, [Terminated(0, 0), Terminated(0, 0)])
    ensures StatusesFit(p) && ContainerStatus(p, JobPod.CERTSUITE) == Some(Terminated(0, 0))
    ensures (Key(k.ns, PodName(1)), p) in s.cluster.seen
    ensures s.cluster.sidecars == map[Key(k.ns, PodName(1)) := Dead]
  {
    hide Reachable, LaunchedPod, FirstPod, DoUser, DoController, DoSidecarGet, DoSidecarPut;
    s := MarkedRunning(c, k, spec);
    var pod := Key(k.ns, PodName(1));
    FirstPodContainers(c, k, spec);
    s := Take(c, s, ByCluster(Kubelet(pod, 0, Terminated(0, 0))));
    s := Take(c, s, ByCluster(Kubelet(pod, 1, Terminated(0, 0))));
    p := s.cluster.pods[pod];
    CertsuiteStatus(p);
    s := Take(c, s, BySidecar(Die(pod)));
    s := Take(c, s, ByCluster(Tick(10_000_000_000)));
    s := Take(c, s, ByCluster(Fire(k)));
  }

  lemma FirstPodContainers(c: Config, k: Key, spec: RunSpec)
    ensures JobPod.TwoContainers(FirstPod(c, k, spec).spec) && FirstPod(c, k, spec).statuses == []
  {
    JobPod.NewIsTotal(JobPod.LaunchOptions(PodName(1), k, JobPod.Owner(c.apiVersion, c.kind, k.name, 0), spec, c.image));
  }

  /** The poll found the exit and decided; the verdict is about to be stored. */
  lemma Decided(c: Config, k: Key, spec: RunSpec) returns (s: State, why: Evidence)
    ensures Reachable(c, s) && |s.log| == 3
    ensures Now(s.log, k) == Some(Object(3, Run(0, spec, RunStatus(PHASE_RUNNING, Some(PodName(1)), None))))
    ensures s.ctl.pc == AtStatusGet(k, Verdict(PodName(1), PHASE_FINISHED, why), TRIES)
    ensures s.cluster.sidecars == map[Key(k.ns, PodName(1)) := Dead]
  {
    hide Reachable, LaunchedPod, FirstPod, PodName, DoUser, DoCluster, DoSidecar, DoCreatePod, DoDeletePod,
      DoStatusGet, DoStatusPut;
    PhasesDiffer();
    var p;
    s, p := Exited(c, k, spec);
    PodNameNotEmpty(1);
    s := Take(c, s, ByController(Start(k)));
    assert SeesOwnWrites(s.log, 3, k);
    s := Take(c, s, ByController(GetRun(3)));
    s := Take(c, s, ByController(PollPod(Some(p))));
    why := s.ctl.pc.job.why;
  }

  /** A run can be Finished without a report, and without anybody left to write one. */
  lemma FinishedWithoutReport(c: Config, k: Key, spec: RunSpec) returns (s: State)
    ensures Reachable(c, s) && Now(s.log, k).Some?
    ensures Now(s.log, k).value.run.status.phase == PHASE_FINISHED && Now(s.log, k).value.run.status.report.None?
    ensures forall pod :: pod in s.cluster.sidecars ==> s.cluster.sidecars[pod] == Dead
  {
    hide Reachable, PodName, DoUser, DoCluster, DoSidecar, DoGetRun, DoPoll, DoCreatePod, DoDeletePod;
    PhasesDiffer();
    var why;
    s, why := Decided(c, k, spec);
    s := Take(c, s, ByController(StatusGet(3, false)));
    s := Take(c, s, ByController(StatusPut(false)));
  }
}
