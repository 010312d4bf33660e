/** Who owns which pod name: the counter, the map of runs, and the pod name field. */
module ProtocolNames {
  import opened Api
  import opened PodNames
  import opened StatusStore
  import opened Protocol
  import opened ProtocolStore
  import opened Polling

  /** What the Reconcile in flight is about, from its first read to its return. */
  datatype Activity =
    | Nothing
    | Fetching(key: Key)
    | Deleting(key: Key, podName: string)
    | Launching(key: Key, podName: string)
    | Following(key: Key, podName: string)

  function JobActivity(k: Key, job: Job): Activity {
    if job.Verdict? then Following(k, job.podName) else Launching(k, job.podName)
  }

  function ActivityOf(pc: Pc): Activity {
    match pc
    case Idle => Nothing
    case Crashed => Nothing
    case AtGetRun(k) => Fetching(k)
    case AtDeletePod(k, name) => Deleting(k, name)
    case AtCreatePod(k, _, name) => Launching(k, name)
    case AtPoll(k, name, _) => Following(k, name)
    case AtStatusGet(k, job, _) => JobActivity(k, job)
    case AtStatusPut(k, job, _, _) => JobActivity(k, job)
  }

  predicate IssuedAs(issued: seq<Key>, k: Key, name: string, i: nat) {
    1 <= i <= |issued| && issued[i - 1] == k && name == PodName(i)
  }

  /** The name was issued, for that key. */
  ghost predicate Owned(issued: seq<Key>, k: Key, name: string) {
    exists i :: IssuedAs(issued, k, name, i)
  }

  /** If the run exists it names no pod. */
  predicate PodLess(log: Log, k: Key) {
    Now(log, k).Some? ==> Now(log, k).value.run.status.podName.None?
  }

  predicate LatestFor(ctl: Process, k: Key, name: string) {
    && k in ctl.runs && ctl.runs[k] == name
    && ctl.lastId == |ctl.issued| && IssuedAs(ctl.issued, k, name, ctl.lastId)
  }

  ghost predicate RunsOwned(ctl: Process) {
    && ctl.lastId == |ctl.issued|
    && forall k :: k in ctl.runs ==> Owned(ctl.issued, k, ctl.runs[k])
  }

  /** Every pod name ever stored in a status was issued for that run's key. */
  ghost predicate PastOwned(log: Log, issued: seq<Key>) {
    forall i :: 0 <= i < |log| && log[i].value.Some? && log[i].value.value.status.podName.Some? ==>
      Owned(issued, log[i].key, log[i].value.value.status.podName.value)
  }

  /** The pod name of a live run is its entry in the map. */
  ghost predicate LiveOwned(log: Log, runs: map<Key, string>) {
    forall k :: Now(log, k).Some? && Now(log, k).value.run.status.podName.Some? ==>
      k in runs && runs[k] == Now(log, k).value.run.status.podName.value
  }

  ghost predicate ActivityOk(log: Log, ctl: Process, a: Activity) {
    match a
    case Nothing => true
    case Fetching(_) => true
    case Deleting(k, name) => k in ctl.runs && ctl.runs[k] == name && PodLess(log, k)
    case Launching(k, name) => LatestFor(ctl, k, name) && PodLess(log, k)
    case Following(k, name) =>
      && Owned(ctl.issued, k, name)
      && (PodLess(log, k) || Now(log, k).value.run.status.podName == Some(name))
  }

  ghost predicate NameInv(s: State) {
    && RunsOwned(s.ctl)
    && PastOwned(s.log, s.ctl.issued)
    && LiveOwned(s.log, s.ctl.runs)
    && ActivityOk(s.log, s.ctl, ActivityOf(s.ctl.pc))
  }

  lemma OwnedUnique(issued: seq<Key>, k: Key, l: Key, name: string)
    requires Owned(issued, k, name) && Owned(issued, l, name)
    ensures k == l
  {
    var i :| IssuedAs(issued, k, name, i);
    var j :| IssuedAs(issued, l, name, j);
    PodNameInjective(i, j);
  }

  lemma OwnedGrows(issued: seq<Key>, more: seq<Key>, k: Key, name: string)
    requires Owned(issued, k, name)
    ensures Owned(issued + more, k, name)
  {
    var i :| IssuedAs(issued, k, name, i);
    assert IssuedAs(issued + more, k, name, i);
  }

  // ------------------------------------------------------ writes to the store

  lemma PastOwnedNow(log: Log, issued: seq<Key>, k: Key)
    requires PastOwned(log, issued)
    requires Now(log, k).Some? && Now(log, k).value.run.status.podName.Some?
    ensures Owned(issued, k, Now(log, k).value.run.status.podName.value)
  {
    var v := Now(log, k).value.version - 1;
    assert log[v].key == k && log[v].value == Some(Now(log, k).value.run);
  }

  /** A write by a user or a sidecar leaves all pod names as they are. */
  lemma OthersKeepNames(log: Log, e: Entry, ctl: Process, a: Activity)
    requires e.value == Apply(e.op, RunAt(log, |log|, e.key)) && !IsControllerOp(e.op)
    requires PastOwned(log, ctl.issued) && LiveOwned(log, ctl.runs) && ActivityOk(log, ctl, a)
    ensures PastOwned(log + [e], ctl.issued) && LiveOwned(log + [e], ctl.runs) && ActivityOk(log + [e], ctl, a)
  {
    AppendIsLocal(log, e);
    if e.value.Some? && e.value.value.status.podName.Some? {
      PastOwnedNow(log, ctl.issued, e.key);
    }
  }

  /** A controller write of a phase leaves all pod names as they are. */
  lemma PhaseKeepsNames(log: Log, e: Entry, ctl: Process, a: Activity)
    requires e.value == Apply(e.op, RunAt(log, |log|, e.key)) && e.op.SetPhase?
    requires PastOwned(log, ctl.issued) && LiveOwned(log, ctl.runs) && ActivityOk(log, ctl, a)
    ensures PastOwned(log + [e], ctl.issued) && LiveOwned(log + [e], ctl.runs) && ActivityOk(log + [e], ctl, a)
  {
    AppendIsLocal(log, e);
    if e.value.Some? && e.value.value.status.podName.Some? {
      PastOwnedNow(log, ctl.issued, e.key);
    }
  }

  lemma RunningNamesPod(log: Log, e: Entry, ctl: Process)
    requires e.value == Apply(e.op, RunAt(log, |log|, e.key)) && e.op.SetRunning?
    requires PastOwned(log, ctl.issued) && LiveOwned(log, ctl.runs)
    requires ActivityOk(log, ctl, Launching(e.key, e.op.podName))
    ensures PastOwned(log + [e], ctl.issued) && LiveOwned(log + [e], ctl.runs)
  {
    AppendIsLocal(log, e);
    assert Owned(ctl.issued, e.key, e.op.podName) by {
      assert IssuedAs(ctl.issued, e.key, e.op.podName, ctl.lastId);
    }
  }

  // ------------------------------------------------------------ controller steps

  lemma GetRunNames(s: State, k: Key, t: nat)
    requires Atomic(s.log) && NameInv(s)
    requires SeesOwnWrites(s.log, t, k)
    ensures NameInv(DoGetRun(s, k, t))
  {
    var u := DoGetRun(s, k, t);
    var live := Now(s.log, k);
    if !PodLess(s.log, k) {
      PodNameSeen(s.log, t, |s.log|, k);
      PastOwnedNow(s.log, s.ctl.issued, k);
      var i :| IssuedAs(s.ctl.issued, k, live.value.run.status.podName.value, i);
      PodNameNotEmpty(i);
    }
    if At(s.log, t, k).Some? {
      var o := At(s.log, t, k).value;
      if NamesPod(o.run.status) {
        assert s.log[o.version - 1].value == Some(o.run);
      } else {
        GetRunIssues(s, k, o.run);
      }
    }
  }

  lemma GetRunIssues(s: State, k: Key, run: Run)
    requires RunsOwned(s.ctl) && PastOwned(s.log, s.ctl.issued) && LiveOwned(s.log, s.ctl.runs) && PodLess(s.log, k)
    ensures
      var name := PodName(s.ctl.lastId + 1);
      var ctl := Process(s.ctl.runs[k := name], s.ctl.lastId + 1, s.ctl.issued + [k], s.ctl.missed,
                         AtStatusGet(k, Deploy(run, name), TRIES));
      RunsOwned(ctl) && PastOwned(s.log, ctl.issued) && LiveOwned(s.log, ctl.runs) && ActivityOk(s.log, ctl, Launching(k, name))
  {
    var name := PodName(s.ctl.lastId + 1);
    var issued := s.ctl.issued + [k];
    assert IssuedAs(issued, k, name, s.ctl.lastId + 1);
    forall l | l in s.ctl.runs ensures Owned(issued, l, s.ctl.runs[l]) {
      OwnedGrows(s.ctl.issued, [k], l, s.ctl.runs[l]);
    }
    forall i | 0 <= i < |s.log| && s.log[i].value.Some? && s.log[i].value.value.status.podName.Some?
      ensures Owned(issued, s.log[i].key, s.log[i].value.value.status.podName.value)
    {
      OwnedGrows(s.ctl.issued, [k], s.log[i].key, s.log[i].value.value.status.podName.value);
    }
  }

  lemma DeletePodNames(s: State, k: Key, name: string, fails: bool)
    requires NameInv(s) && s.ctl.pc == AtDeletePod(k, name)
    ensures NameInv(DoDeletePod(s, k, name, fails))
  {
  }

  lemma CreatePodNames(c: Config, s: State, fails: bool)
    requires NameInv(s) && s.ctl.pc.AtCreatePod?
    ensures NameInv(DoCreatePod(c, s, s.ctl.pc.key, s.ctl.pc.run, s.ctl.pc.podName, fails))
  {
    hide LaunchedPod;
  }

  lemma PollNames(c: Config, s: State, observed: Option<ClusterPod>)
    requires NameInv(s) && s.ctl.pc.AtPoll? && (observed.Some? ==> StatusesFit(observed.value))
    ensures NameInv(DoPoll(c, s, s.ctl.pc.key, s.ctl.pc.podName, s.ctl.pc.timeout, observed))
  {
    hide PollOutcome;
  }

  lemma StatusGetNames(s: State, t: nat, fails: bool)
    requires NameInv(s) && s.ctl.pc.AtStatusGet? && t <= |s.log|
    ensures NameInv(DoStatusGet(s, s.ctl.pc.key, s.ctl.pc.job, s.ctl.pc.tries, t, fails))
  {
  }

  lemma StoredNames(c: Config, s: State, k: Key, job: Job, read: Object)
    requires StoreInv(s) && NameInv(s) && Genuine(s.log, k, read)
    requires ActivityOf(s.ctl.pc) == JobActivity(k, job)
    requires TryPut(c, s.log, k, OpOf(job), read) == Stored
    ensures
      var log := s.log + [PutEntry(k, OpOf(job), read)];
      && PastOwned(log, s.ctl.issued) && LiveOwned(log, s.ctl.runs)
      && (!job.MarkRunning? ==> ActivityOk(log, s.ctl, JobActivity(k, job)))
  {
    StoredFromCurrent(c, s.log, k, OpOf(job), read);
    var e := PutEntry(k, OpOf(job), read);
    if job.MarkRunning? {
      RunningNamesPod(s.log, e, s.ctl);
    } else {
      PhaseKeepsNames(s.log, e, s.ctl, JobActivity(k, job));
    }
  }

  lemma StatusPutNames(c: Config, s: State, fails: bool)
    requires StoreInv(s) && NameInv(s) && s.ctl.pc.AtStatusPut?
    ensures NameInv(DoStatusPut(c, s, s.ctl.pc.key, s.ctl.pc.job, s.ctl.pc.tries, s.ctl.pc.read, fails))
  {
    if !fails && TryPut(c, s.log, s.ctl.pc.key, OpOf(s.ctl.pc.job), s.ctl.pc.read) == Stored {
      StoredNames(c, s, s.ctl.pc.key, s.ctl.pc.job, s.ctl.pc.read);
    }
    hide TryPut, PastOwned, LiveOwned, RunsOwned, Apply, StoreInv;
  }

  lemma NameStep(c: Config, s: State, a: Label)
    requires StoreInv(s) && NameInv(s) && Enabled(s, a)
    ensures NameInv(Do(c, s, a))
  {
    hide DoGetRun, DoDeletePod, DoCreatePod, DoPoll, DoStatusGet, DoStatusPut;
    match a
    case ByUser(u) =>
      WrittenIsAtomic(c, s, a);
      OthersKeepNames(s.log, UserEntry(s, u), s.ctl, ActivityOf(s.ctl.pc));
    case ByCluster(u) =>
    case BySidecar(u) =>
      SidecarNames(c, s, u);
    case ByController(u) =>
      match u {
        case Start(k) =>
        case GetRun(t) => GetRunNames(s, s.ctl.pc.key, t);
        case DeletePod(fails) => DeletePodNames(s, s.ctl.pc.key, s.ctl.pc.podName, fails);
        case CreatePod(fails) => CreatePodNames(c, s, fails);
        case PollPod(observed) => PollNames(c, s, observed);
        case StatusGet(t, fails) => StatusGetNames(s, t, fails);
        case StatusPut(fails) => StatusPutNames(c, s, fails);
      }
  }

  lemma SidecarNames(c: Config, s: State, u: SidecarStep)
    requires StoreInv(s) && NameInv(s) && SidecarCan(s, u)
    ensures NameInv(DoSidecar(c, s, u))
  {
    SidecarLog(c, s, u);
    SidecarFrame(c, s, u);
    if SidecarWrites(c, s, u) {
      WrittenIsAtomic(c, s, BySidecar(u));
      OthersKeepNames(s.log, Written(c, s, BySidecar(u)).value, s.ctl, ActivityOf(s.ctl.pc));
    } else {
      assert s.log + [] == s.log;
    }
  }
}
