/** The controller as the program it is: its globals, its loops and its early returns, making
    API calls against a world that moves in between, and proved to be a run of the protocol. */
module Reconciler {
  import opened Api
  import opened PodNames
  import opened StatusStore
  import opened Protocol
  import opened Polling
  import opened Environment
  import JobPod
  import PodBuilder

  /** What Reconcile returns to its work queue. */
  datatype Result = Finished | RequeueAfter(delay: Duration) | Failed | Panicked

  class Reconciler {
    const world: World
    var certificationRuns: map<Key, string>
    var certSuitePodID: nat

    constructor (world: World)
      requires Init(world.s)
      ensures this.world == world && Agrees()
    {
      this.world := world;
      certificationRuns := map[];
      certSuitePodID := 0;
    }

    /** The process globals are the ones of the protocol. */
    ghost predicate Agrees()
      reads this, world
    {
      certificationRuns == world.s.ctl.runs && certSuitePodID == world.s.ctl.lastId
    }

    /** Read, set, write back, and again on conflict, five times at most. It reports success
        exactly when its last attempt was accepted: then one update was applied, to the object
        stored just before, and otherwise none was. */
    method UpdateStatus(k: Key, setter: RunStatus -> RunStatus, ghost job: Job) returns (ok: bool)
      requires Reachable(world.c, world.s)
      requires world.s.ctl.pc == AtStatusGet(k, job, TRIES)
      requires Sets(setter, OpOf(job))
      modifies world`s, world`attempts
      ensures Leads(world.c, old(world.s), world.s)
      ensures world.s.ctl == old(world.s.ctl).(pc := AfterUpdate(k, job, ok))
      ensures old(world.attempts) <= world.attempts && Attempts(world.attempts[|old(world.attempts)|..], ok)
      ensures Updates(world.s.log) == Updates(old(world.s.log)) + (if ok then [(k, OpOf(job))] else [])
      ensures ok ==> JustApplied(world.s.log, k, OpOf(job))
      ensures world.s.polls == old(world.s.polls)
      ensures AsksAgain(DueAfterUpdate(job, ok, world.s.clock), k, old(world.s.queue), world.s.queue)
    {
      hide Leads, Reachable, Valid, Exec, DoController, Updates, JustApplied, Attempts, OnlyConflicts, AsksAgain, Apply;
      var tries := TRIES;
      ghost var answers: seq<Answer> := [];
      NoConflictYet(world.s.queue, k);
      LeadsReflexive(world.c, world.s);
      while true
        invariant 1 <= tries && tries + |answers| == 5
        invariant world.attempts == old(world.attempts) + answers
        invariant OnlyConflicts(answers)
        invariant Leads(world.c, old(world.s), world.s) && Reachable(world.c, world.s)
        invariant world.s.ctl == old(world.s.ctl).(pc := AtStatusGet(k, job, tries))
        invariant Updates(world.s.log) == Updates(old(world.s.log)) && world.s.polls == old(world.s.polls)
        invariant AsksAgain(None, k, old(world.s.queue), world.s.queue)
        decreases tries
      {
        ghost var s0 := world.s;
        var o := world.GetForUpdate(k);
        LeadsTransitive(world.c, old(world.s), s0, world.s);
        AsksLater(old(world.s.queue), s0.queue, world.s.queue, k,
                  if o.Some? then None else DueAfterUpdate(job, false, world.s.clock));
        if o.None? {
          LastAttempt(old(world.attempts), answers, OtherError);
          return false;
        }
        ReachableLeads(world.c, s0, world.s);
        ghost var s1 := world.s;
        var a := world.PutStatus(k, o.value, setter(o.value.run.status));
        LeadsTransitive(world.c, old(world.s), s1, world.s);
        ReachableLeads(world.c, s1, world.s);
        AsksLater(old(world.s.queue), s1.queue, world.s.queue, k,
                  if world.s.ctl.pc.AtStatusGet? then None else DueAfterUpdate(job, a.Accepted?, world.s.clock));
        if a.Accepted? {
          LastAttempt(old(world.attempts), answers, a);
          return true;
        }
        if a.OtherError? || tries == 1 {
          LastAttempt(old(world.attempts), answers, a);
          return false;
        }
        OneMoreConflict(answers);
        answers := answers + [a];
        tries := tries - 1;
      }
    }

    method UpdateStatusPhase(k: Key, phase: string, ghost job: Job) returns (ok: bool)
      requires Reachable(world.c, world.s)
      requires world.s.ctl.pc == AtStatusGet(k, job, TRIES)
      requires OpOf(job).SetPhase? && OpOf(job).phase == phase
      modifies world`s, world`attempts
      ensures Leads(world.c, old(world.s), world.s)
      ensures world.s.ctl == old(world.s.ctl).(pc := AfterUpdate(k, job, ok))
      ensures old(world.attempts) <= world.attempts && Attempts(world.attempts[|old(world.attempts)|..], ok)
      ensures Updates(world.s.log) == Updates(old(world.s.log)) + (if ok then [(k, OpOf(job))] else [])
      ensures ok ==> JustApplied(world.s.log, k, OpOf(job))
      ensures world.s.polls == old(world.s.polls)
      ensures AsksAgain(DueAfterUpdate(job, ok, world.s.clock), k, old(world.s.queue), world.s.queue)
    {
      hide Leads, Reachable, Valid, Exec, DoController, Updates, JustApplied, Attempts;
      ok := UpdateStatus(k, (status: RunStatus) => status.(phase := phase), job);
    }

    /** The status paired with the first container of that name, among those reported. */
    method GetContainerStatus(p: ClusterPod, name: string) returns (status: Option<ContainerState>)
      requires StatusesFit(p)
      ensures status == ContainerStatus(p, name)
    {
      for i := 0 to |p.statuses|
        invariant StatusFrom(p, name, 0) == StatusFrom(p, name, i)
      {
        if p.spec.containers[i].name == name {
          return Some(p.statuses[i]);
        }
      }
      return None;
    }

    /** One poll of the run's pod, and the phase it may decide. What it returns and what it
        stores follow from what the one read of the pod came back with, and when. Exactly the
        polls that find the container within its time go on record and ask for another in ten
        seconds. */
    method HandleEndOfRun(k: Key, podName: string, timeout: string) returns (r: Result)
      requires Reachable(world.c, world.s)
      requires world.s.ctl.pc == AtPoll(k, podName, timeout)
      modifies world`s, world`podReads, world`attempts
      ensures Leads(world.c, old(world.s), world.s)
      ensures world.s.ctl == old(world.s.ctl).(pc := world.s.ctl.pc)
      ensures Returned(r, k, world.c, old(world.s.queue), world.s)
      ensures old(world.podReads) <= world.podReads && |world.podReads| == |old(world.podReads)| + 1
      ensures old(Updates(world.s.log)) <= Updates(world.s.log)
      ensures Polled(world.c.parse, timeout, world.podReads[|old(world.podReads)|], k,
                     Updates(world.s.log)[|old(Updates(world.s.log))|..], r)
      ensures old(world.s.polls) <= world.s.polls
      ensures |world.s.polls| == |old(world.s.polls)| + if r.RequeueAfter? then 1 else 0
    {
      hide Leads, Reachable, Valid, Exec, DoController, Updates, JustApplied, Attempts;
      var observed, now; ghost var mid;
      observed, now, mid := world.GetPod(Key(k.ns, podName));
      ReachableLeads(world.c, old(world.s), world.s);
      if observed.None? {
        return Failed;
      }
      var status := GetContainerStatus(observed.value, JobPod.CERTSUITE);
      if status.None? {
        return Failed;
      }
      var phase;
      match status.value {
        case Waiting =>
          return Panicked;
        case Running(start) =>
          var threshold := JobRunTimeThreshold(world.c.parse, timeout);
          if !Overdue(now, start, threshold) {
            return RequeueAfter(CHECK_INTERVAL);
          }
          phase := PHASE_TIMEOUT;
        case Terminated(code, _) =>
          phase := if code == 0 then PHASE_FINISHED else PHASE_ERROR;
      }
      ghost var s1 := world.s;
      var ok := UpdateStatusPhase(k, phase, world.s.ctl.pc.job);
      LeadsTransitive(world.c, old(world.s), s1, world.s);
      r := if ok then Finished else Failed;
    }

    /** One reconciliation of a key taken from the queue. Which of the three things it does
        follows from what its first read came back with; it makes no calls but those, and what
        it returns, stores and remembers follows from what they came back with. */
    method Reconcile(k: Key) returns (r: Result)
      requires Reachable(world.c, world.s)
      requires Agrees() && world.s.ctl.pc == AtGetRun(k)
      modifies this, world
      ensures Leads(world.c, old(world.s), world.s)
      ensures Agrees()
      ensures Returned(r, k, world.c, old(world.s.queue), world.s)
      ensures old(world.runReads) <= world.runReads && |world.runReads| == |old(world.runReads)| + 1
      ensures old(world.deletes) <= world.deletes && old(world.creates) <= world.creates
      ensures old(world.podReads) <= world.podReads && old(Updates(world.s.log)) <= Updates(world.s.log)
      ensures
        var found := world.runReads[|old(world.runReads)|];
        var deleted, created := world.deletes[|old(world.deletes)|..], world.creates[|old(world.creates)|..];
        var polled, stored := world.podReads[|old(world.podReads)|..], Updates(world.s.log)[|old(Updates(world.s.log))|..];
        match found
        case None =>
          && r == Finished && created == [] && polled == [] && stored == []
          && certificationRuns == old(certificationRuns) - {k} && certSuitePodID == old(certSuitePodID)
          && (if k !in old(certificationRuns) then deleted == []
              else
                && |deleted| == 1 && deleted[0].0 == Key(k.ns, old(certificationRuns)[k])
                && (deleted[0].1 ==> deleted[0].0 !in world.s.cluster.pods))
        case Some(o) =>
          && deleted == []
          && if o.run.status.podName.Some? && o.run.status.podName.value != "" then
               && created == [] && |polled| == 1
               && certificationRuns == old(certificationRuns) && certSuitePodID == old(certSuitePodID)
               && Polled(world.c.parse, o.run.spec.timeOut, polled[0], k, stored, r)
               && |world.s.polls| == |old(world.s.polls)| + (if r.RequeueAfter? then 1 else 0)
             else
               && polled == []
               && certSuitePodID == old(certSuitePodID) + 1
               && certificationRuns == old(certificationRuns)[k := PodName(certSuitePodID)]
               && Launched(world.c, k, o.run, PodName(certSuitePodID), created, stored, r)
    {
      hide Leads, Reachable, Valid, Exec, DoController, Updates, Polled, Launched;
      var o := world.GetRun(k);
      ghost var s1 := world.s;
      ReachableLeads(world.c, old(world.s), s1);
      if o.None? {
        if k in certificationRuns {
          var _ := world.DeletePod(Key(k.ns, certificationRuns[k]));
          LeadsTransitive(world.c, old(world.s), s1, world.s);
          certificationRuns := certificationRuns - {k};
        }
        return Finished;
      }
      var run := o.value.run;
      if NamesPod(run.status) {
        r := HandleEndOfRun(k, run.status.podName.value, run.spec.timeOut);
        LeadsTransitive(world.c, old(world.s), s1, world.s);
        return;
      }
      certSuitePodID := certSuitePodID + 1;
      var podName := PREFIX + "-" + Decimal(certSuitePodID);
      certificationRuns := certificationRuns[k := podName];
      r := LaunchPod(k, run, podName);
      LeadsTransitive(world.c, old(world.s), s1, world.s);
    }

    /** The rest of Reconcile for a new run: announce, create the pod, record it. Building
        the pod cannot fail, so its error branch is not there. */
    method LaunchPod(k: Key, run: Run, podName: string) returns (r: Result)
      requires Reachable(world.c, world.s)
      requires world.s.ctl.pc == AtStatusGet(k, Deploy(run, podName), TRIES)
      modifies world`s, world`creates, world`attempts
      ensures Leads(world.c, old(world.s), world.s)
      ensures world.s.ctl == old(world.s.ctl).(pc := Idle)
      ensures Returned(r, k, world.c, old(world.s.queue), world.s)
      ensures old(world.creates) <= world.creates && old(Updates(world.s.log)) <= Updates(world.s.log)
      ensures Launched(world.c, k, run, podName, world.creates[|old(world.creates)|..],
                       Updates(world.s.log)[|old(Updates(world.s.log))|..], r)
    {
      hide LaunchedPod, Leads, Reachable, Valid, Exec, DoController, Updates, JustApplied, Attempts;
      var ok := UpdateStatusPhase(k, PHASE_DEPLOYING, Deploy(run, podName));
      if !ok {
        return Finished;
      }
      ghost var s1 := world.s;
      ReachableLeads(world.c, old(world.s), s1);
      var pod := BuildPod(k, run, podName);
      ok := world.CreatePod(pod);
      ghost var s2 := world.s;
      LeadsTransitive(world.c, old(world.s), s1, s2);
      ReachableLeads(world.c, old(world.s), s2);
      if !ok {
        ok := UpdateStatusPhase(k, PHASE_DEPLOY_ERROR, MarkDeployError(podName));
        LeadsTransitive(world.c, old(world.s), s2, world.s);
        return Finished;
      }
      ok := UpdateStatus(k, (status: RunStatus) => status.(phase := PHASE_RUNNING, podName := Some(podName)),
                         MarkRunning(podName));
      LeadsTransitive(world.c, old(world.s), s2, world.s);
      r := if ok then RequeueAfter(CHECK_INTERVAL) else Finished;
    }

    method BuildPod(k: Key, run: Run, podName: string) returns (pod: JobPod.Pod)
      ensures ClusterPod(pod, []) == LaunchedPod(world.c, k, run, podName)
    {
      var owner := JobPod.Owner(world.c.apiVersion, world.c.kind, k.name, run.uid);
      var built := PodBuilder.New(JobPod.LaunchOptions(podName, k, owner, run.spec, world.c.image));
      pod := built.View();
    }
  }

  predicate OnlyConflicts(answers: seq<Answer>) {
    forall i :: 0 <= i < |answers| ==> answers[i] == ConflictError
  }

  lemma NoConflictYet(q: Queue, k: Key)
    ensures OnlyConflicts([]) && AsksAgain(None, k, q, q)
  {
  }

  lemma OneMoreConflict(answers: seq<Answer>)
    requires OnlyConflicts(answers)
    ensures OnlyConflicts(answers + [ConflictError])
  {
  }

  lemma LastAttempt(before: seq<Answer>, answers: seq<Answer>, a: Answer)
    requires OnlyConflicts(answers) && |answers| <= 4 && (a.ConflictError? ==> |answers| == 4)
    ensures (before + answers + [a])[|before|..] == answers + [a]
    ensures Attempts(answers + [a], a.Accepted?)
  {
  }

  /** Whatever the key is asked for after a while in which it was not. */
  lemma AsksLater(before: Queue, mid: Queue, after: Queue, k: Key, due: Option<int>)
    requires AsksAgain(None, k, before, mid) && AsksAgain(due, k, mid, after)
    ensures AsksAgain(due, k, before, after)
  {
  }

  /** What the result returned means for the queue and the process: a failed Reconcile is tried
      again at once, one that asks for a delay after it, and a finished one not at all. */
  predicate Returned(r: Result, k: Key, c: Config, before: Queue, s: State) {
    && s.ctl.pc == (if r.Panicked? && !c.recoversPanics then Crashed else Idle)
    && AsksAgain(match r
                 case Finished => None
                 case RequeueAfter(d) => Some(s.clock + d)
                 case Failed => Some(s.clock)
                 case Panicked => if c.recoversPanics then Some(s.clock) else None,
                 k, before, s.queue)
  }

  /** The verdict was stored, and Reconcile is finished; or it was not, and Reconcile failed. */
  predicate Recorded(k: Key, phase: string, stored: seq<Update>, r: Result) {
    || (r == Finished && |stored| == 1 && stored[0].0 == k && stored[0].1.SetPhase? && stored[0].1.phase == phase)
    || (r == Failed && stored == [])
  }

  /** What a poll comes to, given what the read of the pod came back with, and when. */
  predicate Polled(parse: DurationParser, timeout: string, read: (Option<ClusterPod>, int), k: Key,
                   stored: seq<Update>, r: Result)
  {
    match read.0
    case None => r == Failed && stored == []
    case Some(p) =>
      StatusesFit(p) &&
      match ContainerStatus(p, JobPod.CERTSUITE)
      case None => r == Failed && stored == []
      case Some(Waiting) => r == Panicked && stored == []
      case Some(Running(start)) =>
        if Overdue(read.1, start, Nanoseconds(parse, timeout)) then Recorded(k, PHASE_TIMEOUT, stored, r)
        else r == RequeueAfter(10_000_000_000) && stored == []
      case Some(Terminated(code, _)) => Recorded(k, if code == 0 then PHASE_FINISHED else PHASE_ERROR, stored, r)
  }

  /** What a launch comes to: not announced; announced and the pod not created, which may be
      recorded; or announced and the pod created, and recorded or not. Only a launch that got
      all the way asks for the key again. */
  predicate Launched(c: Config, k: Key, run: Run, podName: string, created: seq<(JobPod.Pod, bool)>,
                     stored: seq<Update>, r: Result)
  {
    var announced := (k, SetPhase(PHASE_DEPLOYING, Launch));
    if created == [] then stored == [] && r == Finished
    else
      && |created| == 1 && created[0].0 == LaunchedPod(c, k, run, podName).spec
      && if created[0].1 then
           || (stored == [announced, (k, SetRunning(podName))] && r == RequeueAfter(10_000_000_000))
           || (stored == [announced] && r == Finished)
         else
           && r == Finished
           && (stored == [announced] || stored == [announced, (k, SetPhase(PHASE_DEPLOY_ERROR, Launch))])
  }
}
