/** The polls of a run: which timeout they compare against, and how many there can be. */
module ProtocolPolls {
  import opened Api
  import opened StatusStore
  import opened Protocol
  import opened ProtocolStore
  import opened ProtocolNames
  import opened ProtocolPods
  import opened ProtocolTruth
  import opened ProtocolPhases
  import opened ProtocolStages
  import opened Polling
  import JobPod

  // -------------------------------------- thresholds come from stored specs

  /** Some spec stored for the run has that timeout. */
  ghost predicate TimeoutOf(log: Log, k: Key, timeout: string) {
    exists j :: 0 <= j < |log| && log[j].key == k && log[j].value.Some? && log[j].value.value.spec.timeOut == timeout
  }

  ghost predicate ThresholdOf(c: Config, log: Log, k: Key, threshold: int) {
    exists timeout :: TimeoutOf(log, k, timeout) && threshold == Nanoseconds(c.parse, timeout)
  }

  ghost predicate OpThresholds(c: Config, log: Log, upTo: nat)
    requires upTo <= |log|
  {
    forall i :: 0 <= i < upTo && log[i].op.SetPhase? && log[i].op.why.Observed? ==>
      ThresholdOf(c, log, log[i].key, log[i].op.why.threshold)
  }

  ghost predicate PcThreshold(c: Config, log: Log, pc: Pc) {
    && (pc.AtPoll? ==> TimeoutOf(log, pc.key, pc.timeout))
    && ((pc.AtStatusGet? || pc.AtStatusPut?) && pc.job.Verdict? && pc.job.why.Observed? ==>
          ThresholdOf(c, log, pc.key, pc.job.why.threshold))
  }

  ghost predicate PollThresholds(c: Config, log: Log, polls: seq<Poll>) {
    forall i :: 0 <= i < |polls| ==> ThresholdOf(c, log, polls[i].run, polls[i].threshold)
  }

  ghost predicate ThresholdInv(c: Config, s: State) {
    OpThresholds(c, s.log, |s.log|) && PcThreshold(c, s.log, s.ctl.pc) && PollThresholds(c, s.log, s.polls)
  }

  lemma ThresholdGrows(c: Config, log: Log, more: Log, k: Key, threshold: int)
    requires ThresholdOf(c, log, k, threshold)
    ensures ThresholdOf(c, log + more, k, threshold)
  {
    var timeout :| TimeoutOf(log, k, timeout) && threshold == Nanoseconds(c.parse, timeout);
    TimeoutGrows(log, more, k, timeout);
  }

  lemma TimeoutGrows(log: Log, more: Log, k: Key, timeout: string)
    requires TimeoutOf(log, k, timeout)
    ensures TimeoutOf(log + more, k, timeout)
  {
    var j :| 0 <= j < |log| && log[j].key == k && log[j].value.Some? && log[j].value.value.spec.timeOut == timeout;
    assert (log + more)[j] == log[j];
  }

  lemma ThresholdsGrow(c: Config, s: State, more: Log)
    requires ThresholdInv(c, s)
    ensures OpThresholds(c, s.log + more, |s.log|)
    ensures PcThreshold(c, s.log + more, s.ctl.pc)
    ensures PollThresholds(c, s.log + more, s.polls)
  {
    forall i | 0 <= i < |s.log| && (s.log + more)[i].op.SetPhase? && (s.log + more)[i].op.why.Observed?
      ensures ThresholdOf(c, s.log + more, (s.log + more)[i].key, (s.log + more)[i].op.why.threshold)
    {
      ThresholdGrows(c, s.log, more, s.log[i].key, s.log[i].op.why.threshold);
    }
    forall i | 0 <= i < |s.polls| ensures ThresholdOf(c, s.log + more, s.polls[i].run, s.polls[i].threshold) {
      ThresholdGrows(c, s.log, more, s.polls[i].run, s.polls[i].threshold);
    }
    var pc := s.ctl.pc;
    if pc.AtPoll? {
      TimeoutGrows(s.log, more, pc.key, pc.timeout);
    }
    if (pc.AtStatusGet? || pc.AtStatusPut?) && pc.job.Verdict? && pc.job.why.Observed? {
      ThresholdGrows(c, s.log, more, pc.key, pc.job.why.threshold);
    }
  }

  lemma GetRunThreshold(c: Config, s: State, k: Key, t: nat)
    requires t <= |s.log|
    ensures PcThreshold(c, s.log, DoGetRun(s, k, t).ctl.pc)
  {
    if At(s.log, t, k).Some? {
      var o := At(s.log, t, k).value;
      assert s.log[o.version - 1].key == k && s.log[o.version - 1].value == Some(o.run);
      assert TimeoutOf(s.log, k, o.run.spec.timeOut);
    }
  }

  lemma PollThreshold(c: Config, s: State, observed: Option<ClusterPod>)
    requires ThresholdInv(c, s) && s.ctl.pc.AtPoll? && (observed.Some? ==> StatusesFit(observed.value))
    ensures
      var u := DoPoll(c, s, s.ctl.pc.key, s.ctl.pc.podName, s.ctl.pc.timeout, observed);
      PcThreshold(c, s.log, u.ctl.pc) && PollThresholds(c, s.log, u.polls)
  {
    assert ThresholdOf(c, s.log, s.ctl.pc.key, JobRunTimeThreshold(c.parse, s.ctl.pc.timeout));
    hide PollOutcome, JobRunTimeThreshold, ThresholdOf;
  }

  /** The controller's bookkeeping of thresholds, before its write reaches the log. */
  lemma ControllerThresholds(c: Config, s: State, a: ControllerStep)
    requires ThresholdInv(c, s) && ControllerCan(s, a)
    ensures PcThreshold(c, s.log, DoController(c, s, a).ctl.pc) && PollThresholds(c, s.log, DoController(c, s, a).polls)
  {
    hide LaunchedPod, TryPut, Apply, ThresholdOf, TimeoutOf, JobPod.ReportsTo, PollOutcome, JobRunTimeThreshold;
    if a.GetRun? {
      GetRunThreshold(c, s, s.ctl.pc.key, a.t);
    } else if a.PollPod? {
      PollThreshold(c, s, a.observed);
    }
  }

  lemma NewOpThreshold(c: Config, s: State, a: Label)
    requires ThresholdInv(c, s) && Enabled(s, a) && Written(c, s, a).Some?
    ensures
      var e := Written(c, s, a).value;
      e.op.SetPhase? && e.op.why.Observed? ==> ThresholdOf(c, s.log, e.key, e.op.why.threshold)
  {
    hide TryPut, ThresholdOf, OpThresholds, PollThresholds;
  }

  lemma ThresholdStep(c: Config, s: State, a: Label)
    requires ThresholdInv(c, s) && Enabled(s, a)
    ensures ThresholdInv(c, Do(c, s, a))
  {
    var u := Do(c, s, a);
    var more := Added(Written(c, s, a));
    StepWrites(c, s, a);
    var mid := s.(ctl := u.ctl, polls := u.polls);
    assert ThresholdInv(c, mid) by {
      hide DoController, DoSidecar, PollThresholds, OpThresholds, PcThreshold;
      match a
      case ByUser(_) =>
      case ByCluster(_) =>
      case BySidecar(b) => SidecarFrame(c, s, b);
      case ByController(b) => ControllerThresholds(c, s, b);
    }
    ThresholdsGrow(c, mid, more);
    hide Do;
    if Written(c, s, a).Some? {
      NewOpThreshold(c, s, a);
      var e := Written(c, s, a).value;
      if e.op.SetPhase? && e.op.why.Observed? {
        ThresholdGrows(c, s.log, more, e.key, e.op.why.threshold);
      }
    }
  }

  // --------------------------------------------------- what a poll recorded

  ghost predicate PollTrue(s: State, p: Poll) {
    && SeenAs(s.cluster.seen, p.pod, Running(p.startedAt))
    && p.startedAt <= p.at <= s.clock
    && !Overdue(p.at, p.startedAt, p.threshold)
  }

  ghost predicate PollsTrue(s: State) {
    forall i :: 0 <= i < |s.polls| ==> PollTrue(s, s.polls[i])
  }

  /** The polls of one run. */
  function Of(polls: seq<Poll>, k: Key): (ps: seq<Poll>)
    ensures forall i :: 0 <= i < |ps| ==> ps[i].run == k && ps[i] in polls
  {
    if polls == [] then []
    else
      Of(polls[..|polls| - 1], k) + if polls[|polls| - 1].run == k then [polls[|polls| - 1]] else []
  }

  lemma OfAppend(polls: seq<Poll>, p: Poll, k: Key)
    ensures Of(polls + [p], k) == Of(polls, k) + if p.run == k then [p] else []
  {
    assert (polls + [p])[..|polls + [p]| - 1] == polls;
  }

  predicate IntervalPassed(ps: seq<Poll>, time: int) {
    ps != [] ==> time >= ps[|ps| - 1].at + CHECK_INTERVAL
  }

  /** The polls of a run are of its pod and an interval apart, and the next one will be too. */
  predicate Paced(ps: seq<Poll>, status: RunStatus, queue: Queue, pc: Pc, clock: int, k: Key) {
    && (ps != [] ==> status.podName.Some? && k !in queue.events)
    && (forall i :: 0 <= i < |ps| ==> status.podName.Some? && ps[i].pod == Key(k.ns, status.podName.value))
    && (forall i :: 0 < i < |ps| ==> ps[i].at >= ps[i - 1].at + CHECK_INTERVAL)
    && (k in queue.ready || InFlight(pc, k) ==> IntervalPassed(ps, clock))
    && (k in queue.delayed ==> IntervalPassed(ps, queue.delayed[k]))
  }

  /** A run never created was never polled; a live run created once is paced. */
  predicate Pace(n: nat, now: Option<Object>, ps: seq<Poll>, queue: Queue, pc: Pc, clock: int, k: Key) {
    && (n == 0 ==> ps == [])
    && (n == 1 && now.Some? ==> Paced(ps, now.value.run.status, queue, pc, clock, k))
  }

  predicate PaceOf(s: State, k: Key) {
    Pace(Creations(s.log, k), Now(s.log, k), Of(s.polls, k), s.queue, s.ctl.pc, s.clock, k)
  }

  ghost predicate PaceInv(s: State) {
    forall k :: PaceOf(s, k)
  }

  // ------------------------------------------------------ polls stay true

  lemma PollTrueGrows(s: State, u: State, p: Poll)
    requires PollTrue(s, p) && s.cluster.seen <= u.cluster.seen && s.clock <= u.clock
    ensures PollTrue(u, p)
  {
    var o :| o in s.cluster.seen && o.0 == p.pod && CertsuiteState(o.1) == Running(p.startedAt);
    assert o in u.cluster.seen;
  }

  lemma ControllerClock(c: Config, s: State, a: ControllerStep)
    requires ControllerCan(s, a)
    ensures DoController(c, s, a).clock == s.clock
    ensures !a.PollPod? ==> DoController(c, s, a).polls == s.polls
  {
    hide LaunchedPod, PollOutcome, TryPut, At, Apply, JobPod.ReportsTo;
  }

  lemma PollRecords(c: Config, s: State, observed: Option<ClusterPod>)
    requires PodInv(s) && PollsTrue(s) && s.ctl.pc.AtPoll?
    requires Observable(s, Key(s.ctl.pc.key.ns, s.ctl.pc.podName), observed)
    ensures
      var u := DoPoll(c, s, s.ctl.pc.key, s.ctl.pc.podName, s.ctl.pc.timeout, observed);
      && (u.polls == s.polls || exists p :: u.polls == s.polls + [p] && PollTrue(s, p))
  {
    if observed.Some? {
      var pod, threshold := Key(s.ctl.pc.key.ns, s.ctl.pc.podName), JobRunTimeThreshold(c.parse, s.ctl.pc.timeout);
      PollSees(s, observed.value, threshold);
      assert (pod, observed.value) in s.cluster.seen;
      var outcome := PollOutcome(observed.value, threshold, s.clock);
      if outcome.StillRunning? {
        assert PollTrue(s, Poll(pod, s.ctl.pc.key, s.clock, outcome.startedAt, threshold));
      }
    }
  }

  lemma PollsTrueStep(c: Config, s: State, a: Label)
    requires PodInv(s) && PollsTrue(s) && Enabled(s, a)
    ensures PollsTrue(Do(c, s, a))
  {
    var u := Do(c, s, a);
    SeenGrows(c, s, a);
    var more := false;
    if a.ByController? {
      ControllerClock(c, s, a.controller);
      if a.controller.PollPod? {
        PollRecords(c, s, a.controller.observed);
        more := u.polls != s.polls;
      }
    } else if a.BySidecar? {
      SidecarFrame(c, s, a.sidecar);
    }
    hide DoController, DoSidecar, PodInv;
    forall i | 0 <= i < |u.polls| ensures PollTrue(u, u.polls[i]) {
      PollTrueGrows(s, u, u.polls[i]);
    }
  }

  // ---------------------------------------------------------- the pace step

  predicate SameTimes(q: Queue, r: Queue, k: Key) {
    SameFor(q, r, k) && (k in q.delayed ==> q.delayed[k] == r.delayed[k])
  }

  lemma PaceOfOthers(s: State, u: State, k: Key)
    requires PaceInv(s) && u.clock == s.clock
    requires forall l :: l != k ==> Creations(u.log, l) == Creations(s.log, l) && Now(u.log, l) == Now(s.log, l)
    requires forall l :: l != k ==> Of(u.polls, l) == Of(s.polls, l)
    requires forall l :: l != k ==> SameTimes(s.queue, u.queue, l)
    requires forall l :: l != k ==> !InFlight(s.ctl.pc, l) && !InFlight(u.ctl.pc, l)
    ensures forall l :: l != k ==> PaceOf(u, l)
  {
    forall l | l != k ensures PaceOf(u, l) {
      assert PaceOf(s, l) && SameTimes(s.queue, u.queue, l);
      assert !InFlight(s.ctl.pc, l) && !InFlight(u.ctl.pc, l);
    }
  }

  lemma PaceOfWrite(log: Log, e: Entry, ps: seq<Poll>, queue: Queue, pc: Pc, clock: int, k: Key)
    requires e.value == Apply(e.op, RunAt(log, |log|, e.key)) && !IsControllerOp(e.op) && !e.op.Create?
    requires Pace(Creations(log, k), Now(log, k), ps, queue, pc, clock, k)
    ensures Pace(Creations(log + [e], k), Now(log + [e], k), ps, queue, pc, clock, k)
  {
    CreationsAppend(log, e, k);
    AppendIsLocal(log, e);
  }

  lemma PaceOfUser(s: State, a: UserStep, l: Key)
    requires Atomic(s.log) && PaceOf(s, l) && UserCan(s, a)
    ensures PaceOf(DoUser(s, a), l)
  {
    var e := UserEntry(s, a);
    CreationsAppend(s.log, e, l);
    AppendIsLocal(s.log, e);
  }

  lemma PaceOfCluster(s: State, a: ClusterStep, l: Key)
    requires PaceOf(s, l) && ClusterCan(s, a)
    ensures PaceOf(DoCluster(s, a), l)
  {
  }

  lemma PaceOfSidecar(c: Config, s: State, a: SidecarStep)
    requires StoreInv(s) && PaceInv(s) && SidecarCan(s, a)
    ensures PaceInv(DoSidecar(c, s, a))
  {
    var u := DoSidecar(c, s, a);
    SidecarFrame(c, s, a);
    StepWrites(c, s, BySidecar(a));
    assert s.log + [] == s.log;
    if Written(c, s, BySidecar(a)).Some? {
      WrittenIsAtomic(c, s, BySidecar(a));
    }
    hide DoSidecar, Pace, StoreInv;
    forall l ensures PaceOf(u, l) {
      assert PaceOf(s, l);
      if Written(c, s, BySidecar(a)).Some? {
        PaceOfWrite(s.log, Written(c, s, BySidecar(a)).value, Of(s.polls, l), s.queue, s.ctl.pc, s.clock, l);
      }
    }
  }

  /** The Reconcile of `k` goes on or ends without touching store, queue or polls. */
  lemma PaceGoesOn(s: State, u: State, k: Key)
    requires PaceInv(s) && u.log == s.log && u.queue == s.queue && u.polls == s.polls && u.clock == s.clock
    requires InFlight(s.ctl.pc, k)
    requires InFlight(u.ctl.pc, k) || ActivityOf(u.ctl.pc).Nothing?
    ensures PaceInv(u)
  {
    assert PaceOf(s, k);
    PaceOfOthers(s, u, k);
  }

  lemma PaceRequeues(s: State, k: Key, due: int)
    requires PaceInv(s) && InFlight(s.ctl.pc, k) && due >= s.clock
    ensures PaceInv(Requeue(s, k, due))
  {
    assert PaceOf(s, k);
    PaceOfOthers(s, Requeue(s, k, due), k);
  }

  lemma PaceOfStart(s: State, k: Key)
    requires PaceInv(s) && ControllerCan(s, Start(k))
    ensures PaceInv(Goto(s, AtGetRun(k)).(queue := s.queue.(ready := s.queue.ready - {k})))
  {
    var u := Goto(s, AtGetRun(k)).(queue := s.queue.(ready := s.queue.ready - {k}));
    assert PaceOf(s, k);
    PaceOfOthers(s, u, k);
  }

  /** The polls of a run stay paced when one more finds its container running: it comes an
      interval after the last, and the key is due an interval later. */
  lemma PacedMore(ps: seq<Poll>, p: Poll, status: RunStatus, q: Queue, r: Queue, pc: Pc, clock: int, k: Key)
    requires Paced(ps, status, q, pc, clock, k) && InFlight(pc, k) && Tokens(q, pc, k) <= 1
    requires status.podName.Some? && p.pod == Key(k.ns, status.podName.value) && p.at == clock
    requires r.events == q.events && r.ready == q.ready && k in r.delayed && r.delayed[k] == clock + CHECK_INTERVAL
    ensures Paced(ps + [p], status, r, Idle, clock, k)
  {
  }

  lemma PollRequeues(s: State, p: Poll)
    requires InFlight(s.ctl.pc, p.run)
    ensures
      var u := Requeue(s, p.run, s.clock + CHECK_INTERVAL).(polls := s.polls + [p]);
      && u.log == s.log && u.clock == s.clock && u.ctl.pc == Idle
      && u.queue.events == s.queue.events && u.queue.ready == s.queue.ready
      && (p.run !in s.queue.delayed ==> p.run in u.queue.delayed && u.queue.delayed[p.run] == s.clock + CHECK_INTERVAL)
      && (forall l :: l != p.run ==> SameTimes(s.queue, u.queue, l) && !InFlight(s.ctl.pc, l) && !InFlight(u.ctl.pc, l))
      && (forall l :: Of(u.polls, l) == Of(s.polls, l) + if l == p.run then [p] else [])
  {
    forall l ensures Of(s.polls + [p], l) == Of(s.polls, l) + if l == p.run then [p] else [] {
      OfAppend(s.polls, p, l);
    }
    hide Of;
  }

  /** The run that is being polled names the pod that is polled, and nothing else waits for it. */
  lemma PolledRun(s: State, k: Key)
    requires NameInv(s) && ScheduleInv(s) && StageInv(s) && s.ctl.pc.AtPoll? && s.ctl.pc.key == k
    requires Creations(s.log, k) == 1 && Now(s.log, k).Some?
    ensures Now(s.log, k).value.run.status.podName == Some(s.ctl.pc.podName)
    ensures Tokens(s.queue, s.ctl.pc, k) <= 1
  {
    assert StageOf(s, k);
    RunningNow(s.log, k);
    hide Creations, At;
  }

  lemma PaceOfStillRunning(s: State, p: Poll)
    requires NameInv(s) && ScheduleInv(s) && StageInv(s) && PaceInv(s) && s.ctl.pc.AtPoll?
    requires p.run == s.ctl.pc.key && p.at == s.clock && p.pod == Key(p.run.ns, s.ctl.pc.podName)
    ensures PaceInv(Requeue(s, p.run, s.clock + CHECK_INTERVAL).(polls := s.polls + [p]))
  {
    hide NameInv, ScheduleInv, StageInv, Of, Creations, At, Paced, SameTimes;
    var k := p.run;
    var u := Requeue(s, k, s.clock + CHECK_INTERVAL).(polls := s.polls + [p]);
    PollRequeues(s, p);
    hide Requeue;
    assert PaceOf(s, k);
    if Creations(s.log, k) == 1 && Now(s.log, k).Some? {
      PolledRun(s, k);
      PacedMore(Of(s.polls, k), p, Now(s.log, k).value.run.status, s.queue, u.queue, s.ctl.pc, s.clock, k);
    }
    NeverPolledUncreated(s, k);
    PaceOfOthers(s, u, k);
    assert PaceOf(u, k);
  }

  lemma NeverPolledUncreated(s: State, k: Key)
    requires StageInv(s) && InFlight(s.ctl.pc, k)
    ensures Creations(s.log, k) > 0
  {
    assert StageOf(s, k);
  }

  lemma PaceOfPoll(c: Config, s: State, observed: Option<ClusterPod>)
    requires NameInv(s) && ScheduleInv(s) && StageInv(s) && PaceInv(s)
    requires s.ctl.pc.AtPoll? && (observed.Some? ==> StatusesFit(observed.value))
    ensures PaceInv(DoPoll(c, s, s.ctl.pc.key, s.ctl.pc.podName, s.ctl.pc.timeout, observed))
  {
    var k := s.ctl.pc.key;
    var u := DoPoll(c, s, k, s.ctl.pc.podName, s.ctl.pc.timeout, observed);
    hide PollOutcome, PaceInv, NameInv, ScheduleInv, StageInv;
    PaceRequeues(s, k, s.clock);
    if u.polls != s.polls {
      PaceOfStillRunning(s, u.polls[|u.polls| - 1]);
    } else if u.ctl.pc != Idle {
      PaceGoesOn(s, u, k);
    }
  }

  lemma PaceOfFailed(s: State, k: Key, job: Job)
    requires PaceInv(s) && ActivityOf(s.ctl.pc) == JobActivity(k, job)
    ensures PaceInv(UpdateFailed(s, k, job))
  {
    if job.Verdict? {
      PaceRequeues(s, k, s.clock);
    } else {
      PaceGoesOn(s, UpdateFailed(s, k, job), k);
    }
  }

  /** The write of the update itself, before Reconcile goes on. */
  /** An update takes no pod name away, and gives one only to a run that was never polled. */
  lemma PacedAfterWrite(ps: seq<Poll>, op: Op, before: Run, q: Queue, pc: Pc, clock: int, k: Key)
    requires Paced(ps, before.status, q, pc, clock, k)
    requires IsControllerOp(op) && Apply(op, Some(before)).Some?
    requires op.SetRunning? ==> before.status.podName.None?
    ensures Paced(ps, Apply(op, Some(before)).value.status, q, pc, clock, k)
  {
  }

  lemma PaceOfPut(c: Config, s: State)
    requires StoreInv(s) && NameInv(s) && PaceInv(s) && s.ctl.pc.AtStatusPut?
    requires TryPut(c, s.log, s.ctl.pc.key, OpOf(s.ctl.pc.job), s.ctl.pc.read) == Stored
    ensures PaceInv(s.(log := s.log + [PutEntry(s.ctl.pc.key, OpOf(s.ctl.pc.job), s.ctl.pc.read)]))
  {
    var k, job, read := s.ctl.pc.key, s.ctl.pc.job, s.ctl.pc.read;
    var e := PutEntry(k, OpOf(job), read);
    var u := s.(log := s.log + [e]);
    StoredFromCurrent(c, s.log, k, OpOf(job), read);
    assert job.MarkRunning? ==> PodLess(s.log, k);
    hide TryPut, StoreInv, NameInv, Of, Creations, At, Paced, InFlight;
    AppendIsLocal(s.log, e);
    forall l ensures Creations(u.log, l) == Creations(s.log, l) {
      CreationsAppend(s.log, e, l);
    }
    assert PaceOf(s, k);
    if Creations(s.log, k) == 1 {
      PacedAfterWrite(Of(s.polls, k), OpOf(job), read.run, s.queue, s.ctl.pc, s.clock, k);
    }
    assert PaceOf(u, k);
    forall l | l != k ensures PaceOf(u, l) {
      assert PaceOf(s, l);
    }
  }

  lemma PaceOfStored(c: Config, s: State)
    requires StoreInv(s) && NameInv(s) && PaceInv(s) && s.ctl.pc.AtStatusPut?
    requires TryPut(c, s.log, s.ctl.pc.key, OpOf(s.ctl.pc.job), s.ctl.pc.read) == Stored
    ensures
      var k, job := s.ctl.pc.key, s.ctl.pc.job;
      PaceInv(UpdateSucceeded(Append(s, k, OpOf(job), Apply(OpOf(job), Some(s.ctl.pc.read.run))), k, job))
  {
    hide PaceInv, StoreInv, NameInv, TryPut;
    PaceOfPut(c, s);
    var k, job, read := s.ctl.pc.key, s.ctl.pc.job, s.ctl.pc.read;
    var mid := Append(s, k, OpOf(job), Apply(OpOf(job), Some(read.run)));
    if job.MarkRunning? {
      PaceRequeues(mid, k, s.clock + CHECK_INTERVAL);
    } else {
      PaceGoesOn(mid, UpdateSucceeded(mid, k, job), k);
    }
  }

  lemma PaceOfStatusPut(c: Config, s: State, fails: bool)
    requires StoreInv(s) && NameInv(s) && PaceInv(s) && s.ctl.pc.AtStatusPut?
    ensures PaceInv(DoStatusPut(c, s, s.ctl.pc.key, s.ctl.pc.job, s.ctl.pc.tries, s.ctl.pc.read, fails))
  {
    var k, job, tries, read := s.ctl.pc.key, s.ctl.pc.job, s.ctl.pc.tries, s.ctl.pc.read;
    hide PaceInv, StoreInv, NameInv;
    PaceOfFailed(s, k, job);
    if !fails {
      match TryPut(c, s.log, k, OpOf(job), read)
      case Stored => PaceOfStored(c, s);
      case Conflict =>
        if tries > 1 {
          PaceGoesOn(s, Goto(s, AtStatusGet(k, job, tries - 1)), k);
        }
      case _ =>
    }
  }

  lemma PaceOfStatusGet(s: State, t: nat, fails: bool)
    requires PaceInv(s) && s.ctl.pc.AtStatusGet? && t <= |s.log|
    ensures PaceInv(DoStatusGet(s, s.ctl.pc.key, s.ctl.pc.job, s.ctl.pc.tries, t, fails))
  {
    var k, job, tries := s.ctl.pc.key, s.ctl.pc.job, s.ctl.pc.tries;
    hide PaceInv;
    PaceOfFailed(s, k, job);
    if At(s.log, t, k).Some? {
      PaceGoesOn(s, Goto(s, AtStatusPut(k, job, tries, At(s.log, t, k).value)), k);
    }
  }

  lemma PaceOfController(c: Config, s: State, a: ControllerStep)
    requires StoreInv(s) && NameInv(s) && ScheduleInv(s) && StageInv(s) && PaceInv(s) && ControllerCan(s, a)
    ensures PaceInv(DoController(c, s, a))
  {
    hide DoPoll, DoStatusGet, DoStatusPut, NameInv, ScheduleInv, StageInv, PaceInv, StoreInv, LaunchedPod, JobPod.ReportsTo;
    match a
    case Start(k) => PaceOfStart(s, k);
    case GetRun(t) =>
      GetRunFrame(s, s.ctl.pc.key, t);
      PaceGoesOn(s, DoGetRun(s, s.ctl.pc.key, t), s.ctl.pc.key);
    case DeletePod(fails) => PaceGoesOn(s, DoDeletePod(s, s.ctl.pc.key, s.ctl.pc.podName, fails), s.ctl.pc.key);
    case CreatePod(fails) => PaceGoesOn(s, DoController(c, s, a), s.ctl.pc.key);
    case PollPod(observed) => PaceOfPoll(c, s, observed);
    case StatusGet(t, fails) => PaceOfStatusGet(s, t, fails);
    case StatusPut(fails) => PaceOfStatusPut(c, s, fails);
  }

  lemma PaceStep(c: Config, s: State, a: Label)
    requires StoreInv(s) && NameInv(s) && ScheduleInv(s) && StageInv(s) && PaceInv(s) && Enabled(s, a)
    ensures PaceInv(Do(c, s, a))
  {
    hide DoUser, DoCluster, DoSidecar, DoController, NameInv, ScheduleInv, StageInv;
    match a
    case ByUser(u) =>
      forall l ensures PaceOf(DoUser(s, u), l) { assert PaceOf(s, l); PaceOfUser(s, u, l); }
    case ByCluster(u) =>
      forall l ensures PaceOf(DoCluster(s, u), l) { assert PaceOf(s, l); PaceOfCluster(s, u, l); }
    case BySidecar(u) => PaceOfSidecar(c, s, u);
    case ByController(u) => PaceOfController(c, s, u);
  }

  // ------------------------------------------------------------- the bound

  lemma PollsAreSpaced(s: State, k: Key)
    requires PodInv(s) && PollsTrue(s) && PaceInv(s)
    requires Creations(s.log, k) == 1 && Now(s.log, k).Some?
    ensures Spaced(Of(s.polls, k))
  {
    var ps := Of(s.polls, k);
    assert PaceOf(s, k);
    forall i | 0 <= i < |ps| ensures PollTrue(s, ps[i]) {
      assert ps[i] in s.polls;
    }
    forall i, j | 0 <= i < |ps| && 0 <= j < |ps| ensures ps[i].startedAt == ps[j].startedAt {
      var o :| o in s.cluster.seen && o.0 == ps[i].pod && CertsuiteState(o.1) == Running(ps[i].startedAt);
      var q :| q in s.cluster.seen && q.0 == ps[j].pod && CertsuiteState(q.1) == Running(ps[j].startedAt);
      assert SameStart(CertsuiteState(o.1), CertsuiteState(q.1));
    }
  }

  /** However a run's timeout is edited and however its polls fail in between, at most
      floor((T + 2 min) / 10 s) + 1 polls ever find its container still within its time. */
  lemma RunPollsAreBounded(c: Config, s: State, k: Key, t: Duration)
    requires PodInv(s) && PollsTrue(s) && PaceInv(s) && ThresholdInv(c, s)
    requires Creations(s.log, k) == 1 && Now(s.log, k).Some?
    requires SaneTimeout(t)
    requires forall timeout :: TimeoutOf(s.log, k, timeout) ==> Nanoseconds(c.parse, timeout) <= t
    ensures |Of(s.polls, k)| <= (t + 120_000_000_000) / 10_000_000_000 + 1
  {
    var ps := Of(s.polls, k);
    PollsAreSpaced(s, k);
    forall i | 0 <= i < |ps| ensures ps[i].threshold <= t {
      assert ps[i].run == k && ps[i] in s.polls;
      var j :| 0 <= j < |s.polls| && s.polls[j] == ps[i];
      var timeout :| TimeoutOf(s.log, k, timeout) && ps[i].threshold == Nanoseconds(c.parse, timeout);
    }
    PollsAreBounded(ps, t);
  }
}
