/** The launch of a run: it happens once, its pod gets one sidecar, and a run whose launch ended
    half way is not looked at again. */
module ProtocolLaunches {
  import opened Api
  import opened PodNames
  import opened StatusStore
  import opened Protocol
  import opened ProtocolStore
  import opened ProtocolNames
  import opened ProtocolPhases
  import opened ProtocolStages
  import opened Polling
  import JobPod
  import R = ReportModel

  predicate IssuedOnce(issued: seq<Key>, k: Key) {
    forall i, j :: 0 <= i < |issued| && 0 <= j < |issued| && issued[i] == k && issued[j] == k ==> i == j
  }

  /** For a name used at most once: at most one pod name was issued, and a run that names no
      pod waits for a Reconcile exactly until one has launched it, or has missed it. */
  predicate Launch(creations: nat, now: Option<Object>, waits: bool, issued: seq<Key>, missed: set<Key>, k: Key) {
    && (creations == 0 ==> k !in issued && k !in missed)
    && (creations == 1 && now.Some? ==>
          && IssuedOnce(issued, k)
          && (now.value.run.status.podName.None? ==> (waits <==> k !in issued && k !in missed)))
  }

  predicate LaunchOf(s: State, k: Key) {
    Launch(Creations(s.log, k), Now(s.log, k), Waits(s.queue, s.ctl.pc, k), s.ctl.issued, s.ctl.missed, k)
  }

  ghost predicate LaunchInv(s: State) {
    forall k :: LaunchOf(s, k)
  }

  // -------------------------------------------------- steps of the others

  lemma LaunchOfUser(s: State, a: UserStep, l: Key)
    requires Atomic(s.log) && LaunchOf(s, l) && StageOf(s, l) && UserCan(s, a)
    ensures LaunchOf(DoUser(s, a), l)
  {
    var e := UserEntry(s, a);
    CreationsAppend(s.log, e, l);
    AppendIsLocal(s.log, e);
    if l == e.key && Creations(s.log, l) == 0 {
      NotCreatedYet(s.log, l);
    }
  }

  lemma LaunchOfCluster(s: State, a: ClusterStep, l: Key)
    requires LaunchOf(s, l) && ClusterCan(s, a)
    ensures LaunchOf(DoCluster(s, a), l)
  {
    hide Launch;
  }

  /** A write that is neither the controller's nor a creation keeps what a launch depends on. */
  lemma LaunchOfWrite(log: Log, e: Entry, waits: bool, issued: seq<Key>, missed: set<Key>, k: Key)
    requires e.value == Apply(e.op, RunAt(log, |log|, e.key)) && !IsControllerOp(e.op) && !e.op.Create?
    requires Launch(Creations(log, k), Now(log, k), waits, issued, missed, k)
    ensures Launch(Creations(log + [e], k), Now(log + [e], k), waits, issued, missed, k)
  {
    CreationsAppend(log, e, k);
    AppendIsLocal(log, e);
  }

  lemma LaunchOfSidecar(c: Config, s: State, a: SidecarStep, l: Key)
    requires StoreInv(s) && LaunchOf(s, l) && SidecarCan(s, a)
    ensures LaunchOf(DoSidecar(c, s, a), l)
  {
    hide Launch, Waits, StoreInv, TryPut, Creations, At, R.BuildReport, R.ClaimSafe;
    SidecarFrame(c, s, a);
    SidecarLog(c, s, a);
    assert s.log + [] == s.log;
    if SidecarWrites(c, s, a) {
      WrittenIsAtomic(c, s, BySidecar(a));
      LaunchOfWrite(s.log, Written(c, s, BySidecar(a)).value, Waits(s.queue, s.ctl.pc, l), s.ctl.issued, s.ctl.missed, l);
    }
    hide DoSidecar;
  }

  // ---------------------------------------------------- the first look

  lemma LaunchOfStart(s: State, k: Key, l: Key)
    requires LaunchOf(s, l) && ControllerCan(s, Start(k))
    ensures LaunchOf(Goto(s, AtGetRun(k)).(queue := s.queue.(ready := s.queue.ready - {k})), l)
  {
    hide Launch;
  }

  lemma IssuedOnceMore(issued: seq<Key>, k: Key, l: Key)
    requires IssuedOnce(issued, l) && (k == l ==> k !in issued)
    ensures IssuedOnce(issued + [k], l)
  {
  }

  /** A Get that sees the controller's own writes finds what it finds of a run created once. */
  lemma SeenByGet(s: State, k: Key, t: nat)
    requires Atomic(s.log) && NameInv(s) && SeesOwnWrites(s.log, t, k)
    requires Creations(s.log, k) == 1 && Now(s.log, k).Some? && At(s.log, t, k).Some?
    ensures NamesPod(At(s.log, t, k).value.run.status) <==> Now(s.log, k).value.run.status.podName.Some?
  {
    var status := Now(s.log, k).value.run.status;
    assert s.log[..|s.log|] == s.log;
    PhaseSeen(s.log, t, |s.log|, k);
    if status.podName.Some? {
      PastOwnedNow(s.log, s.ctl.issued, k);
      var i :| IssuedAs(s.ctl.issued, k, status.podName.value, i);
      PodNameNotEmpty(i);
    }
  }

  lemma GetRunCtl(s: State, k: Key, t: nat)
    requires t <= |s.log|
    ensures
      var u := DoGetRun(s, k, t);
      && u.log == s.log && u.queue == s.queue
      && match At(s.log, t, k)
         case None => u.ctl.issued == s.ctl.issued && u.ctl.missed == s.ctl.missed + {k}
                      && u.ctl.pc == (if k in s.ctl.runs then AtDeletePod(k, s.ctl.runs[k]) else Idle)
         case Some(o) =>
           && u.ctl.missed == s.ctl.missed
           && u.ctl.issued == (if NamesPod(o.run.status) then s.ctl.issued else s.ctl.issued + [k])
           && (ActivityOf(u.ctl.pc).Launching? || ActivityOf(u.ctl.pc).Following?) && u.ctl.pc.key == k
  {
  }

  lemma RunsWereIssued(s: State, k: Key)
    requires NameInv(s) && k in s.ctl.runs
    ensures k in s.ctl.issued
  {
    var i :| IssuedAs(s.ctl.issued, k, s.ctl.runs[k], i);
    assert s.ctl.issued[i - 1] == k;
  }

  /** The look at another run leaves this one's launch alone. */
  lemma LaunchOfOthers(s: State, k: Key, t: nat, l: Key)
    requires LaunchOf(s, l) && s.ctl.pc == AtGetRun(k) && t <= |s.log| && l != k
    ensures LaunchOf(DoGetRun(s, k, t), l)
  {
    GetRunCtl(s, k, t);
    hide DoGetRun, Creations, At, NamesPod;
    if Creations(s.log, l) == 1 && Now(s.log, l).Some? {
      IssuedOnceMore(s.ctl.issued, k, l);
    }
  }

  /** The look at this run: it waited, and was neither launched nor missed before. */
  lemma LaunchOfLooked(s: State, k: Key, t: nat)
    requires Atomic(s.log) && NameInv(s) && StageOf(s, k) && LaunchOf(s, k)
    requires s.ctl.pc == AtGetRun(k) && SeesOwnWrites(s.log, t, k)
    ensures LaunchOf(DoGetRun(s, k, t), k)
  {
    GetRunCtl(s, k, t);
    if Creations(s.log, k) == 1 && Now(s.log, k).Some? {
      if At(s.log, t, k).Some? {
        SeenByGet(s, k, t);
      }
      if k in s.ctl.runs {
        RunsWereIssued(s, k);
      }
      hide DoGetRun, NameInv, Creations, At, NamesPod;
      if k !in s.ctl.issued {
        IssuedOnceMore(s.ctl.issued, k, k);
      }
    }
    hide DoGetRun, NameInv, Creations, At, NamesPod;
  }

  // ------------------------------------------------ the rest of Reconcile

  /** After its first Get a Reconcile touches the queue of its own key only, and not while it
      launches, except to mark the run running. */
  ghost predicate RestOf(k: Key, s: State, u: State, marks: bool) {
    && u.ctl.issued == s.ctl.issued && u.ctl.missed == s.ctl.missed
    && (forall l :: l != k ==> SameFor(s.queue, u.queue, l))
    && !ActivityOf(u.ctl.pc).Fetching? && !ActivityOf(u.ctl.pc).Deleting?
    && (ActivityOf(s.ctl.pc).Launching? && u.queue != s.queue ==> marks)
  }

  lemma RestOfPoll(c: Config, s: State, observed: Option<ClusterPod>)
    requires s.ctl.pc.AtPoll? && (observed.Some? ==> StatusesFit(observed.value))
    ensures RestOf(s.ctl.pc.key, s, DoPoll(c, s, s.ctl.pc.key, s.ctl.pc.podName, s.ctl.pc.timeout, observed), false)
  {
    hide PollOutcome;
  }

  lemma RestOfStatusGet(s: State, t: nat, fails: bool)
    requires s.ctl.pc.AtStatusGet? && t <= |s.log|
    ensures RestOf(s.ctl.pc.key, s, DoStatusGet(s, s.ctl.pc.key, s.ctl.pc.job, s.ctl.pc.tries, t, fails), false)
  {
    hide At;
  }

  lemma RestOfStatusPut(c: Config, s: State, fails: bool)
    requires s.ctl.pc.AtStatusPut?
    ensures RestOf(s.ctl.pc.key, s, DoStatusPut(c, s, s.ctl.pc.key, s.ctl.pc.job, s.ctl.pc.tries, s.ctl.pc.read, fails),
                   ControllerWrites(c, s, StatusPut(fails)) && s.ctl.pc.job.MarkRunning?)
  {
    hide TryPut, Apply, OpOf;
  }

  lemma ControllerQueue(c: Config, s: State, a: ControllerStep)
    requires ControllerCan(s, a) && !a.Start? && !a.GetRun?
    ensures RestOf(s.ctl.pc.key, s, DoController(c, s, a), ControllerWrites(c, s, a) && s.ctl.pc.job.MarkRunning?)
  {
    hide LaunchedPod, TryPut, At, DoPoll, DoStatusGet, DoStatusPut;
    match a
    case DeletePod(_) =>
    case CreatePod(_) =>
    case PollPod(observed) => RestOfPoll(c, s, observed);
    case StatusGet(t, fails) => RestOfStatusGet(s, t, fails);
    case StatusPut(fails) => RestOfStatusPut(c, s, fails);
  }

  lemma FollowingIsNamed(s: State, k: Key)
    requires StageOf(s, k) && RunningNamed(s.log)
    requires ActivityOf(s.ctl.pc).Following? && s.ctl.pc.key == k
    requires Creations(s.log, k) == 1 && Now(s.log, k).Some?
    ensures Now(s.log, k).value.run.status.podName.Some?
  {
    RunningNow(s.log, k);
  }

  /** A controller write makes and removes no run, and takes no pod name away. */
  ghost predicate NamesKept(log: Log, more: Log, l: Key) {
    && Creations(more, l) == Creations(log, l)
    && (Now(more, l).Some? <==> Now(log, l).Some?)
    && (Now(more, l).Some? && Now(more, l).value.run.status.podName.None? ==>
          Now(log, l).value.run.status.podName.None?)
  }

  lemma WriteKeepsNames(log: Log, e: Entry, l: Key)
    requires IsControllerOp(e.op) && e.value == Apply(e.op, RunAt(log, |log|, e.key)) && Now(log, e.key).Some?
    ensures NamesKept(log, log + [e], l)
    ensures e.op.SetRunning? && l == e.key ==> Now(log + [e], l).Some? && Now(log + [e], l).value.run.status.podName.Some?
  {
    CreationsAppend(log, e, l);
    AppendIsLocal(log, e);
  }

  lemma ControllerNames(c: Config, s: State, a: ControllerStep, l: Key)
    requires StoreInv(s) && ControllerCan(s, a)
    ensures
      var u := DoController(c, s, a);
      && NamesKept(s.log, u.log, l)
      && (ControllerWrites(c, s, a) && s.ctl.pc.job.MarkRunning? && l == s.ctl.pc.key && Now(u.log, l).Some? ==>
            Now(u.log, l).value.run.status.podName.Some?)
  {
    hide DoController, NamesKept, Now, At, TryPut, Apply;
    ControllerLog(c, s, a);
    assert s.log + [] == s.log;
    if ControllerWrites(c, s, a) {
      var e := Written(c, s, ByController(a)).value;
      WrittenIsAtomic(c, s, ByController(a));
      assert e.op == OpOf(s.ctl.pc.job) && e.key == s.ctl.pc.key;
      hide StoreInv, Written;
      CurrentRun(s.log, e.key);
      WriteKeepsNames(s.log, e, l);
    } else {
      SameNames(s.log, l);
    }
  }

  lemma SameNames(log: Log, l: Key)
    ensures NamesKept(log, log, l)
  {
  }

  lemma CurrentRun(log: Log, k: Key)
    ensures RunAt(log, |log|, k).Some? <==> Now(log, k).Some?
  {
  }

  lemma DeletingWasIssued(s: State)
    requires NameInv(s) && ActivityOf(s.ctl.pc).Deleting?
    ensures s.ctl.pc.key in s.ctl.issued && PodLess(s.log, s.ctl.pc.key)
  {
    RunsWereIssued(s, s.ctl.pc.key);
  }

  lemma LaunchOfRest(c: Config, s: State, a: ControllerStep, l: Key)
    requires StoreInv(s) && NameInv(s) && RunningNamed(s.log) && StageOf(s, l) && LaunchOf(s, l)
    requires ControllerCan(s, a) && !a.Start? && !a.GetRun?
    ensures LaunchOf(DoController(c, s, a), l)
  {
    hide DoController, ControllerWrites, StoreInv, NameInv, RunningNamed, Creations, At;
    ControllerQueue(c, s, a);
    ControllerNames(c, s, a, l);
    assert InFlight(s.ctl.pc, s.ctl.pc.key) && !ActivityOf(s.ctl.pc).Fetching?;
    if ActivityOf(s.ctl.pc).Deleting? {
      DeletingWasIssued(s);
    }
    if l == s.ctl.pc.key && Creations(s.log, l) == 1 && Now(s.log, l).Some? && ActivityOf(s.ctl.pc).Following? {
      FollowingIsNamed(s, l);
    }
    assert l != s.ctl.pc.key ==> SameFor(s.queue, DoController(c, s, a).queue, l);
    hide StageOf;
  }

  lemma LaunchOfController(c: Config, s: State, a: ControllerStep, l: Key)
    requires StoreInv(s) && NameInv(s) && RunningNamed(s.log) && StageOf(s, l) && LaunchOf(s, l)
    requires ControllerCan(s, a)
    ensures LaunchOf(DoController(c, s, a), l)
  {
    hide DoGetRun, NameInv, RunningNamed, LaunchOf, StageOf;
    match a
    case Start(k) => LaunchOfStart(s, k, l);
    case GetRun(t) =>
      if l == s.ctl.pc.key {
        LaunchOfLooked(s, l, t);
      } else {
        LaunchOfOthers(s, s.ctl.pc.key, t, l);
      }
    case _ => LaunchOfRest(c, s, a, l);
  }

  lemma LaunchStep(c: Config, s: State, a: Label)
    requires StoreInv(s) && NameInv(s) && ScheduleInv(s) && StageInv(s) && LaunchInv(s) && Enabled(s, a)
    ensures LaunchInv(Do(c, s, a))
  {
    hide DoUser, DoCluster, DoSidecar, DoController, NameInv, LaunchOf, StageOf, RunningNamed, RunningScheduled;
    forall l ensures LaunchOf(Do(c, s, a), l) {
      assert LaunchOf(s, l) && StageOf(s, l);
      match a
      case ByUser(u) => LaunchOfUser(s, u, l);
      case ByCluster(u) => LaunchOfCluster(s, u, l);
      case BySidecar(u) => LaunchOfSidecar(c, s, u, l);
      case ByController(u) => LaunchOfController(c, s, u, l);
    }
  }

  /** While its name is not reused, a run without a pod name is on the controller's list until
      a Reconcile has launched or missed it, and while that launch goes on. */
  lemma ScheduledUntilLaunched(s: State, k: Key)
    requires StageInv(s) && ScheduleInv(s) && LaunchInv(s)
    requires Creations(s.log, k) == 1 && Now(s.log, k).Some? && Now(s.log, k).value.run.status.podName.None?
    ensures Scheduled(s.queue, s.ctl.pc, k) <==> (k !in s.ctl.issued && k !in s.ctl.missed) || Launches(s.ctl.pc, k)
  {
    assert StageOf(s, k) && LaunchOf(s, k);
    hide StageInv, LaunchInv;
    assert ActivityOf(s.ctl.pc).Following? && s.ctl.pc.key == k ==> IsRunning(s.log, k);
    assert !IsRunning(s.log, k) by {
      if IsRunning(s.log, k) { RunningNow(s.log, k); }
    }
  }

  // ------------------------------------------- the sidecar of a named pod

  predicate NamesSidecar(status: RunStatus, k: Key, sidecars: map<Key, Sidecar>) {
    status.podName.Some? ==> Key(k.ns, status.podName.value) in sidecars
  }

  /** Every pod a status ever named, or is about to name, was created, and its sidecar with it. */
  ghost predicate SidecarsNamed(s: State) {
    && (forall i :: 0 <= i < |s.log| && s.log[i].value.Some? ==>
          NamesSidecar(s.log[i].value.value.status, s.log[i].key, s.cluster.sidecars))
    && ((s.ctl.pc.AtStatusGet? || s.ctl.pc.AtStatusPut?) && s.ctl.pc.job.MarkRunning? ==>
          Key(s.ctl.pc.key.ns, s.ctl.pc.job.podName) in s.cluster.sidecars)
  }

  lemma ControllerSidecarsStay(c: Config, s: State, a: ControllerStep)
    requires ControllerCan(s, a) && SidecarsNamed(s)
    ensures
      var u := DoController(c, s, a);
      && s.cluster.sidecars.Keys <= u.cluster.sidecars.Keys
      && ((u.ctl.pc.AtStatusGet? || u.ctl.pc.AtStatusPut?) && u.ctl.pc.job.MarkRunning? ==>
            Key(u.ctl.pc.key.ns, u.ctl.pc.job.podName) in u.cluster.sidecars)
  {
    hide LaunchedPod, PollOutcome, TryPut, At, Apply, JobPod.ReportsTo, NamesSidecar;
  }

  lemma SidecarsStay(c: Config, s: State, a: SidecarStep)
    requires SidecarCan(s, a)
    ensures s.cluster.sidecars.Keys <= DoSidecar(c, s, a).cluster.sidecars.Keys
  {
    hide R.BuildReport, R.ClaimSafe, TryPut, At;
  }

  lemma NowNamesSidecar(s: State, k: Key)
    requires SidecarsNamed(s) && Now(s.log, k).Some?
    ensures NamesSidecar(Now(s.log, k).value.run.status, k, s.cluster.sidecars)
  {
    var v := Now(s.log, k).value.version - 1;
    assert s.log[v].key == k && s.log[v].value == Some(Now(s.log, k).value.run);
  }

  lemma WrittenNamesSidecar(c: Config, s: State, a: Label)
    requires StoreInv(s) && SidecarsNamed(s) && Enabled(s, a) && Written(c, s, a).Some?
    ensures
      var e := Written(c, s, a).value;
      e.value.Some? ==> NamesSidecar(e.value.value.status, e.key, s.cluster.sidecars)
  {
    var e := Written(c, s, a).value;
    WrittenIsAtomic(c, s, a);
    if Now(s.log, e.key).Some? {
      NowNamesSidecar(s, e.key);
    }
    assert e.op.SetRunning? ==> a.ByController? && Key(e.key.ns, e.op.podName) in s.cluster.sidecars by {
      hide StoreInv, TryPut, NamesSidecar, Apply;
    }
    hide StoreInv, SidecarsNamed, TryPut, Written;
  }

  lemma SidecarsNamedStep(c: Config, s: State, a: Label)
    requires StoreInv(s) && SidecarsNamed(s) && Enabled(s, a)
    ensures SidecarsNamed(Do(c, s, a))
  {
    StepWrites(c, s, a);
    assert s.log + [] == s.log;
    if Written(c, s, a).Some? {
      WrittenNamesSidecar(c, s, a);
    }
    hide DoUser, DoController, DoSidecar, StoreInv, Written, TryPut;
    match a
    case ByUser(u) =>
      hide UserCan;
      UserFrame(s, u);
    case ByCluster(_) =>
    case BySidecar(u) =>
      SidecarFrame(c, s, u);
      SidecarsStay(c, s, u);
    case ByController(u) => ControllerSidecarsStay(c, s, u);
  }

  lemma UserFrame(s: State, a: UserStep)
    requires UserCan(s, a)
    ensures DoUser(s, a).cluster == s.cluster && DoUser(s, a).ctl == s.ctl
  {
  }
}
