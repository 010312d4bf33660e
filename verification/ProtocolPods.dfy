/** The job pods: what was ever observed of them, and how it relates to what they are now. */
module ProtocolPods {
  import opened Api
  import opened PodNames
  import opened StatusStore
  import opened Protocol
  import opened ProtocolStore
  import opened ProtocolNames
  import opened Polling
  import JobPod

  /** The state of a pod's certsuite container; waiting until the cluster reports one. */
  function CertsuiteState(p: ClusterPod): ContainerState {
    StatusOr(p, 1)
  }

  predicate WellShaped(p: ClusterPod) {
    StatusesFit(p) && JobPod.TwoContainers(p.spec)
  }

  /** A pod's name was issued for a run in its namespace. */
  ghost predicate PodIssued(issued: seq<Key>, pod: Key) {
    exists i :: 1 <= i <= |issued| && issued[i - 1].ns == pod.ns && pod.name == PodName(i)
  }

  ghost predicate SeenShaped(cluster: Cluster, issued: seq<Key>) {
    && (forall o :: o in cluster.seen ==> WellShaped(o.1) && PodIssued(issued, o.0))
    && (forall pod :: pod in cluster.pods ==> (pod, cluster.pods[pod]) in cluster.seen)
  }

  /** A pod that still exists has only moved forward from anything seen of it. */
  ghost predicate SeenBehind(cluster: Cluster) {
    forall o :: o in cluster.seen && o.0 in cluster.pods ==>
      Advances(CertsuiteState(o.1), CertsuiteState(cluster.pods[o.0]))
  }

  predicate SameStart(a: ContainerState, b: ContainerState) {
    a.Running? && b.Running? ==> a.startedAt == b.startedAt
  }

  /** A container has one start time, and it is not in the future. */
  ghost predicate SeenStarts(cluster: Cluster, clock: int) {
    && (forall o :: o in cluster.seen && CertsuiteState(o.1).Running? ==> CertsuiteState(o.1).startedAt <= clock)
    && (forall o, q :: o in cluster.seen && q in cluster.seen && o.0 == q.0 ==>
          SameStart(CertsuiteState(o.1), CertsuiteState(q.1)))
  }

  /** The pod of a run being launched has not been created yet. */
  ghost predicate NotYetCreated(cluster: Cluster, pc: Pc) {
    (pc.AtCreatePod? || ((pc.AtStatusGet? || pc.AtStatusPut?) && pc.job.Deploy?)) ==>
      forall o :: o in cluster.seen ==> o.0.name != ActivityOf(pc).podName
  }

  ghost predicate PodInv(s: State) {
    && SeenShaped(s.cluster, s.ctl.issued)
    && SeenBehind(s.cluster)
    && SeenStarts(s.cluster, s.clock)
    && NotYetCreated(s.cluster, s.ctl.pc)
  }

  lemma PodIssuedGrows(issued: seq<Key>, k: Key, pod: Key)
    requires PodIssued(issued, pod)
    ensures PodIssued(issued + [k], pod)
  {
    var i :| 1 <= i <= |issued| && issued[i - 1].ns == pod.ns && pod.name == PodName(i);
    assert (issued + [k])[i - 1] == issued[i - 1];
  }

  lemma FreshNameUnseen(cluster: Cluster, issued: seq<Key>)
    requires SeenShaped(cluster, issued)
    ensures forall o :: o in cluster.seen ==> o.0.name != PodName(|issued| + 1)
  {
    forall o | o in cluster.seen ensures o.0.name != PodName(|issued| + 1) {
      var i :| 1 <= i <= |issued| && issued[i - 1].ns == o.0.ns && o.0.name == PodName(i);
      PodNameInjective(i, |issued| + 1);
    }
  }

  lemma GetRunPods(s: State, k: Key, t: nat)
    requires NameInv(s) && PodInv(s) && t <= |s.log|
    ensures PodInv(DoGetRun(s, k, t))
  {
    hide WellShaped, CertsuiteState, PodIssued, PodName, SeenBehind, SeenStarts;
    var u := DoGetRun(s, k, t);
    if u.ctl.issued != s.ctl.issued {
      FreshNameUnseen(s.cluster, s.ctl.issued);
      forall o | o in s.cluster.seen ensures PodIssued(u.ctl.issued, o.0) {
        PodIssuedGrows(s.ctl.issued, k, o.0);
      }
    }
  }

  lemma LaunchedIsShaped(c: Config, k: Key, run: Run, name: string)
    ensures WellShaped(LaunchedPod(c, k, run, name))
    ensures CertsuiteState(LaunchedPod(c, k, run, name)) == Waiting
  {
    JobPod.NewIsTotal(JobPod.LaunchOptions(name, k, JobPod.Owner(c.apiVersion, c.kind, k.name, run.uid), run.spec, c.image));
  }

  /** A pod enters a new state, or comes into being. */
  function See(cluster: Cluster, pod: Key, p: ClusterPod): Cluster {
    cluster.(pods := cluster.pods[pod := p], seen := cluster.seen + {(pod, p)})
  }

  ghost predicate AheadOfSeen(cluster: Cluster, pod: Key, p: ClusterPod) {
    forall o :: o in cluster.seen && o.0 == pod ==> Advances(CertsuiteState(o.1), CertsuiteState(p))
  }

  lemma SeeShaped(cluster: Cluster, issued: seq<Key>, pod: Key, p: ClusterPod)
    requires SeenShaped(cluster, issued) && WellShaped(p) && PodIssued(issued, pod)
    ensures SeenShaped(See(cluster, pod, p), issued)
  {
  }

  lemma SeeBehind(cluster: Cluster, pod: Key, p: ClusterPod)
    requires SeenBehind(cluster) && AheadOfSeen(cluster, pod, p)
    ensures SeenBehind(See(cluster, pod, p))
  {
    hide CertsuiteState;
    assert Advances(CertsuiteState(p), CertsuiteState(p));
  }

  lemma SeeStarts(cluster: Cluster, clock: int, pod: Key, p: ClusterPod)
    requires SeenStarts(cluster, clock) && AheadOfSeen(cluster, pod, p)
    requires CertsuiteState(p).Running? ==> CertsuiteState(p).startedAt <= clock
    ensures SeenStarts(See(cluster, pod, p), clock)
  {
    hide CertsuiteState;
    var new' := See(cluster, pod, p);
    forall o, q | o in new'.seen && q in new'.seen && o.0 == q.0
      ensures SameStart(CertsuiteState(o.1), CertsuiteState(q.1))
    {
      if o !in cluster.seen && q in cluster.seen {
        assert Advances(CertsuiteState(q.1), CertsuiteState(p));
      }
      if q !in cluster.seen && o in cluster.seen {
        assert Advances(CertsuiteState(o.1), CertsuiteState(p));
      }
    }
  }

  lemma SidecarsDoNotMatter(cluster: Cluster, sidecars: map<Key, Sidecar>, issued: seq<Key>, clock: int)
    requires SeenShaped(cluster, issued) && SeenBehind(cluster) && SeenStarts(cluster, clock)
    ensures
      var new' := cluster.(sidecars := sidecars);
      SeenShaped(new', issued) && SeenBehind(new') && SeenStarts(new', clock)
  {
    hide CertsuiteState, WellShaped, PodIssued, Advances, SameStart;
  }

  lemma CreatedInv(s: State, k: Key, name: string, p: ClusterPod)
    requires PodInv(s) && ActivityOk(s.log, s.ctl, Launching(k, name))
    requires forall o :: o in s.cluster.seen ==> o.0.name != name
    requires WellShaped(p) && CertsuiteState(p) == Waiting
    ensures
      var new' := See(s.cluster, Key(k.ns, name), p);
      SeenShaped(new', s.ctl.issued) && SeenBehind(new') && SeenStarts(new', s.clock)
  {
    var pod := Key(k.ns, name);
    hide CertsuiteState, WellShaped;
    assert PodIssued(s.ctl.issued, pod) by {
      assert IssuedAs(s.ctl.issued, k, name, s.ctl.lastId);
    }
    SeeShaped(s.cluster, s.ctl.issued, pod, p);
    SeeBehind(s.cluster, pod, p);
    SeeStarts(s.cluster, s.clock, pod, p);
  }

  lemma CreatePodPods(c: Config, s: State, fails: bool)
    requires NameInv(s) && PodInv(s) && s.ctl.pc.AtCreatePod?
    ensures PodInv(DoCreatePod(c, s, s.ctl.pc.key, s.ctl.pc.run, s.ctl.pc.podName, fails))
  {
    if !fails {
      var k, run, name := s.ctl.pc.key, s.ctl.pc.run, s.ctl.pc.podName;
      var u := DoCreatePod(c, s, k, run, name, fails);
      LaunchedIsShaped(c, k, run, name);
      var pod, p := Key(k.ns, name), LaunchedPod(c, k, run, name);
      CreatedInv(s, k, name, p);
      SidecarsDoNotMatter(See(s.cluster, pod, p), u.cluster.sidecars, s.ctl.issued, s.clock);
      hide LaunchedPod, SeenShaped, SeenBehind, SeenStarts, JobPod.ReportsTo;
      assert u.cluster == See(s.cluster, pod, p).(sidecars := u.cluster.sidecars);
    }
  }

  /** The cluster moves a pod to a state that is ahead of all that was seen of it. */
  lemma KubeletAdvances(s: State, pod: Key, i: nat, status: ContainerState)
    requires PodInv(s) && ClusterCan(s, Kubelet(pod, i, status))
    ensures
      var p := WithStatus(s.cluster.pods[pod], i, status);
      && WellShaped(p) && AheadOfSeen(s.cluster, pod, p)
      && (CertsuiteState(p).Running? ==> CertsuiteState(p).startedAt <= s.clock)
  {
    var old', p := s.cluster.pods[pod], WithStatus(s.cluster.pods[pod], i, status);
    assert (pod, old') in s.cluster.seen;
    assert WellShaped(p) && Advances(CertsuiteState(old'), CertsuiteState(p));
    hide WithStatus, CertsuiteState, SeenStarts;
    forall o | o in s.cluster.seen && o.0 == pod ensures Advances(CertsuiteState(o.1), CertsuiteState(p)) {
      assert Advances(CertsuiteState(o.1), CertsuiteState(old'));
    }
  }

  lemma KubeletPods(s: State, pod: Key, i: nat, status: ContainerState)
    requires PodInv(s) && ClusterCan(s, Kubelet(pod, i, status))
    ensures PodInv(DoCluster(s, Kubelet(pod, i, status)))
  {
    KubeletAdvances(s, pod, i, status);
    var p := WithStatus(s.cluster.pods[pod], i, status);
    assert PodIssued(s.ctl.issued, pod) by {
      assert (pod, s.cluster.pods[pod]) in s.cluster.seen;
      hide PodIssued, WellShaped;
    }
    hide WithStatus, CertsuiteState, WellShaped, AheadOfSeen, SeenShaped, SeenBehind, SeenStarts, PodIssued, Advances;
    SeeShaped(s.cluster, s.ctl.issued, pod, p);
    SeeBehind(s.cluster, pod, p);
    SeeStarts(s.cluster, s.clock, pod, p);
  }

  /** A poll sees the certsuite container's state, and a decided phase says what it saw. */
  lemma PollSees(s: State, observed: ClusterPod, threshold: Duration)
    requires WellShaped(observed)
    ensures PollOutcome(observed, threshold, s.clock).Decided? || PollOutcome(observed, threshold, s.clock).StillRunning? ==>
              ContainerStatus(observed, JobPod.CERTSUITE) == Some(CertsuiteState(observed))
  {
    CertsuiteStatus(observed);
  }

  lemma ControllerPods(c: Config, s: State, a: ControllerStep)
    requires NameInv(s) && PodInv(s) && ControllerCan(s, a)
    ensures PodInv(DoController(c, s, a))
  {
    hide DoGetRun, DoCreatePod, DoPoll, DoStatusGet, DoStatusPut, NameInv;
    match a
    case Start(k) =>
    case GetRun(t) => GetRunPods(s, s.ctl.pc.key, t);
    case DeletePod(fails) =>
    case CreatePod(fails) => CreatePodPods(c, s, fails);
    case PollPod(observed) => PollKeepsPods(c, s, observed);
    case StatusGet(t, fails) => StatusGetKeepsPods(s, t, fails);
    case StatusPut(fails) => StatusPutKeepsPods(c, s, fails);
  }

  lemma ClusterPods(s: State, a: ClusterStep)
    requires PodInv(s) && ClusterCan(s, a)
    ensures PodInv(DoCluster(s, a))
  {
    if a.Kubelet? {
      KubeletPods(s, a.pod, a.i, a.status);
    }
  }

  lemma PodStep(c: Config, s: State, a: Label)
    requires NameInv(s) && PodInv(s) && Enabled(s, a)
    ensures PodInv(Do(c, s, a))
  {
    match a
    case ByUser(u) => hide NameInv;
    case ByCluster(u) => ClusterPods(s, u);
    case BySidecar(u) => SidecarFrame(c, s, u);
    case ByController(u) => ControllerPods(c, s, u);
  }

  lemma PollKeepsPods(c: Config, s: State, observed: Option<ClusterPod>)
    requires PodInv(s) && s.ctl.pc.AtPoll? && (observed.Some? ==> StatusesFit(observed.value))
    ensures PodInv(DoPoll(c, s, s.ctl.pc.key, s.ctl.pc.podName, s.ctl.pc.timeout, observed))
  {
    hide PollOutcome;
  }

  lemma StatusGetKeepsPods(s: State, t: nat, fails: bool)
    requires PodInv(s) && s.ctl.pc.AtStatusGet? && t <= |s.log|
    ensures PodInv(DoStatusGet(s, s.ctl.pc.key, s.ctl.pc.job, s.ctl.pc.tries, t, fails))
  {
    hide SeenShaped, SeenBehind, SeenStarts, At;
  }

  lemma StatusPutKeepsPods(c: Config, s: State, fails: bool)
    requires PodInv(s) && s.ctl.pc.AtStatusPut?
    ensures PodInv(DoStatusPut(c, s, s.ctl.pc.key, s.ctl.pc.job, s.ctl.pc.tries, s.ctl.pc.read, fails))
  {
    hide SeenShaped, SeenBehind, SeenStarts, TryPut, Apply;
  }
}
