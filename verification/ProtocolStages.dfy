/** The life of a run whose name is not reused: one token, one path of phases. */
module ProtocolStages {
  import opened Api
  import opened PodNames
  import opened StatusStore
  import opened Protocol
  import opened ProtocolStore
  import opened ProtocolNames
  import opened ProtocolTruth
  import opened ProtocolPhases
  import opened Polling

  // ------------------------------------------------------------- the stages

  function One(b: bool): nat {
    if b then 1 else 0
  }

  /** How many times the key is up for being looked at. */
  function Tokens(queue: Queue, pc: Pc, k: Key): nat {
    queue.events[k] + One(k in queue.ready) + One(k in queue.delayed) + One(InFlight(pc, k))
  }

  predicate Waits(queue: Queue, pc: Pc, k: Key) {
    k in queue.events || k in queue.ready || k in queue.delayed
    || ActivityOf(pc) == Fetching(k) || (ActivityOf(pc).Deleting? && ActivityOf(pc).key == k)
  }

  /** A run that waits for its next Reconcile is new, or up and running. */
  predicate NewOrRunning(status: RunStatus) {
    || (status.phase == PHASE_UNSET && status.podName.None?)
    || (status.phase == PHASE_RUNNING && status.podName.Some?)
  }

  predicate BeforeDeploying(pc: Pc) {
    (pc.AtStatusGet? || pc.AtStatusPut?) && pc.job.Deploy?
  }

  predicate StageFits(status: RunStatus, queue: Queue, pc: Pc, k: Key) {
    && (Waits(queue, pc, k) ==> NewOrRunning(status))
    && (ActivityOf(pc).Launching? && ActivityOf(pc).key == k ==>
          status.phase == if BeforeDeploying(pc) then PHASE_UNSET else PHASE_DEPLOYING)
    && (ActivityOf(pc).Following? && ActivityOf(pc).key == k ==> status.phase == PHASE_RUNNING)
  }

  /** For a name used at most once: at most one token, and the phase fits who holds it. */
  predicate Stage(creations: nat, now: Option<Object>, queue: Queue, pc: Pc, k: Key) {
    && (creations == 0 ==> Tokens(queue, pc, k) == 0)
    && (creations == 1 && now.Some? ==> Tokens(queue, pc, k) <= 1 && StageFits(now.value.run.status, queue, pc, k))
  }

  predicate StageOf(s: State, k: Key) {
    Stage(Creations(s.log, k), Now(s.log, k), s.queue, s.ctl.pc, k)
  }

  ghost predicate StageInv(s: State) {
    forall k :: StageOf(s, k)
  }

  /** The phase changes the controller makes. */
  predicate NextPhase(old': string, new': string) {
    || (old' == PHASE_UNSET && new' == PHASE_DEPLOYING)
    || (old' == PHASE_DEPLOYING && (new' == PHASE_RUNNING || new' == PHASE_DEPLOY_ERROR))
    || (old' == PHASE_RUNNING && (new' == PHASE_FINISHED || new' == PHASE_ERROR || new' == PHASE_TIMEOUT))
  }

  /** The controller write at `i` continues the path of phases. */
  predicate Continues(log: Log, i: nat)
    requires i < |log|
  {
    && RunAt(log, i, log[i].key).Some? && log[i].value.Some?
    && NextPhase(RunAt(log, i, log[i].key).value.status.phase, log[i].value.value.status.phase)
  }

  ghost predicate StepsPhase(log: Log, i: nat)
    requires i < |log|
  {
    Creations(log[..i], log[i].key) <= 1 && IsControllerOp(log[i].op) ==> Continues(log, i)
  }

  /** Every phase the controller stored, for a name not reused, continues the path. */
  ghost predicate PhasePath(log: Log) {
    forall i :: 0 <= i < |log| ==> StepsPhase(log, i)
  }

  // ------------------------------------------ facts about a name used once

  lemma {:induction false} NotCreatedYet(log: Log, k: Key)
    requires Atomic(log) && Creations(log, k) == 0
    ensures Now(log, k).None?
  {
    if log != [] {
      var init := log[..|log| - 1];
      AtomicPrefix(log, |log| - 1);
      NotCreatedYet(init, k);
      assert init + [log[|log| - 1]] == log;
      AppendIsLocal(init, log[|log| - 1]);
      assert EntryAtomic(log, |log| - 1);
      AtPrefix(init, [log[|log| - 1]], |init|, k);
    }
  }

  lemma AtomicPrefix(log: Log, n: nat)
    requires Atomic(log) && n <= |log|
    ensures Atomic(log[..n])
  {
    forall i | 0 <= i < n ensures EntryAtomic(log[..n], i) {
      assert EntryAtomic(log, i);
      assert log[..n] + log[n..] == log;
      AtPrefix(log[..n], log[n..], i, log[i].key);
    }
  }

  /** Between controller writes, a run whose name was used once keeps phase and pod name. */
  lemma {:induction false} PhaseSeen(log: Log, t: nat, u: nat, k: Key)
    requires Atomic(log) && t <= u <= |log|
    requires Creations(log[..u], k) <= 1
    requires forall i :: t <= i < u && log[i].key == k ==> !IsControllerOp(log[i].op)
    requires At(log, t, k).Some? && At(log, u, k).Some?
    ensures At(log, t, k).value.run.status.podName == At(log, u, k).value.run.status.podName
    ensures At(log, t, k).value.run.status.phase == At(log, u, k).value.run.status.phase
    decreases u
  {
    if t < u {
      assert EntryAtomic(log, u - 1);
      var init := log[..u - 1];
      assert log[..u] == init + [log[u - 1]];
      CreationsAppend(init, log[u - 1], k);
      assert init + log[u - 1..] == log;
      AtPrefix(init, log[u - 1..], u - 1, k);
      if At(log, u - 1, k).None? {
        AtomicPrefix(log, u - 1);
        assert log[u - 1].key == k && log[u - 1].op.Create?;
        NeverSeen(log, t, u - 1, k);
      }
      PhaseSeen(log, t, u - 1, k);
    }
  }

  lemma NeverSeen(log: Log, t: nat, n: nat, k: Key)
    requires Atomic(log) && t <= n <= |log| && Creations(log[..n], k) == 0
    ensures At(log, t, k).None?
  {
    CreationsMonotone(log[..n], t, k);
    assert log[..n][..t] == log[..t];
    AtomicPrefix(log, t);
    NotCreatedYet(log[..t], k);
    assert log[..t] + log[t..] == log;
    AtPrefix(log[..t], log[t..], t, k);
  }

  lemma {:induction false} CreationsMonotone(log: Log, n: nat, k: Key)
    requires n <= |log|
    ensures Creations(log[..n], k) <= Creations(log, k)
    decreases |log|
  {
    if n < |log| {
      CreationsMonotone(log[..|log| - 1], n, k);
      assert log[..|log| - 1][..n] == log[..n];
    } else {
      assert log[..n] == log;
    }
  }

  // --------------------------------------------------- one step, one key

  predicate SameFor(q: Queue, r: Queue, k: Key) {
    && q.events[k] == r.events[k]
    && (k in q.ready <==> k in r.ready)
    && (k in q.delayed <==> k in r.delayed)
  }

  /** A step about `k` does not touch the stage of another key. */
  lemma StageOfOthers(s: State, u: State, k: Key)
    requires StageInv(s)
    requires forall l :: l != k ==> Creations(u.log, l) == Creations(s.log, l) && Now(u.log, l) == Now(s.log, l)
    requires forall l :: l != k ==> SameFor(s.queue, u.queue, l)
    requires forall l :: l != k ==> !InFlight(s.ctl.pc, l) && !InFlight(u.ctl.pc, l)
    ensures forall l :: l != k ==> StageOf(u, l)
  {
    forall l | l != k ensures StageOf(u, l) {
      assert StageOf(s, l) && SameFor(s.queue, u.queue, l);
      assert !InFlight(s.ctl.pc, l) && !InFlight(u.ctl.pc, l);
    }
  }

  /** A write keeps phase and pod name of every run that existed, and creates no name again. */
  lemma StageOfWrite(log: Log, e: Entry, queue: Queue, pc: Pc, k: Key)
    requires e.value == Apply(e.op, RunAt(log, |log|, e.key)) && !IsControllerOp(e.op) && !e.op.Create?
    requires Stage(Creations(log, k), Now(log, k), queue, pc, k)
    ensures Stage(Creations(log + [e], k), Now(log + [e], k), queue, pc, k)
  {
    CreationsAppend(log, e, k);
    AppendIsLocal(log, e);
  }

  lemma StageOfCreate(s: State, k: Key, spec: RunSpec, l: Key)
    requires Atomic(s.log) && StageOf(s, l) && UserCan(s, CreateRun(k, spec))
    ensures StageOf(DoUser(s, CreateRun(k, spec)), l)
  {
    var e := Entry(k, Create(s.nextUid, spec), Apply(Create(s.nextUid, spec), None));
    CreationsAppend(s.log, e, l);
    AppendIsLocal(s.log, e);
    if l == k && Creations(s.log, k) == 0 {
      assert k !in s.queue.events;
    }
  }

  lemma StageOfRemoval(s: State, k: Key, l: Key)
    requires StageOf(s, l) && Atomic(s.log) && UserCan(s, DeleteRun(k))
    ensures StageOf(DoUser(s, DeleteRun(k)), l)
  {
    var e := Entry(k, Remove, None);
    CreationsAppend(s.log, e, l);
    AppendIsLocal(s.log, e);
    if l == k && Creations(s.log, k) == 0 {
      NotCreatedYet(s.log, k);
    }
  }

  lemma StageOfUser(s: State, a: UserStep)
    requires Atomic(s.log) && StageInv(s) && UserCan(s, a)
    ensures StageInv(DoUser(s, a))
  {
    forall l ensures StageOf(DoUser(s, a), l) {
      assert StageOf(s, l);
      match a
      case CreateRun(k, spec) => StageOfCreate(s, k, spec, l);
      case DeleteRun(k) => StageOfRemoval(s, k, l);
      case EditRun(k, spec) => StageOfWrite(s.log, UserEntry(s, a), s.queue, s.ctl.pc, l);
    }
  }

  lemma StageOfCluster(s: State, a: ClusterStep)
    requires StageInv(s) && ClusterCan(s, a)
    ensures StageInv(DoCluster(s, a))
  {
    forall l ensures StageOf(DoCluster(s, a), l) {
      assert StageOf(s, l);
    }
  }

  /** The Reconcile of `k` goes on or ends without touching store or queue. */
  lemma StageGoesOn(s: State, u: State, k: Key)
    requires StageInv(s) && u.log == s.log && u.queue == s.queue
    requires InFlight(s.ctl.pc, k)
    requires InFlight(u.ctl.pc, k) || ActivityOf(u.ctl.pc).Nothing?
    requires Creations(s.log, k) == 1 && Now(s.log, k).Some? ==>
               StageFits(Now(s.log, k).value.run.status, u.queue, u.ctl.pc, k)
    ensures StageInv(u)
  {
    assert StageOf(s, k);
    StageOfOthers(s, u, k);
  }

  /** The Reconcile of `k` ends and asks for the key again. */
  lemma StageRequeues(s: State, k: Key, due: int)
    requires StageInv(s) && InFlight(s.ctl.pc, k)
    requires Creations(s.log, k) == 1 && Now(s.log, k).Some? ==> NewOrRunning(Now(s.log, k).value.run.status)
    ensures StageInv(Requeue(s, k, due))
  {
    assert StageOf(s, k);
    StageOfOthers(s, Requeue(s, k, due), k);
  }

  lemma FollowingIsUp(s: State, k: Key)
    requires StageInv(s) && RunningNamed(s.log)
    requires ActivityOf(s.ctl.pc).Following? && ActivityOf(s.ctl.pc).key == k
    ensures Creations(s.log, k) == 1 && Now(s.log, k).Some? ==> NewOrRunning(Now(s.log, k).value.run.status)
  {
    assert StageOf(s, k);
    if IsRunning(s.log, k) {
      RunningNow(s.log, k);
    }
  }

  lemma StageOfStart(s: State, k: Key)
    requires StageInv(s) && ControllerCan(s, Start(k))
    ensures StageInv(Goto(s, AtGetRun(k)).(queue := s.queue.(ready := s.queue.ready - {k})))
  {
    var u := Goto(s, AtGetRun(k)).(queue := s.queue.(ready := s.queue.ready - {k}));
    assert StageOf(s, k);
    StageOfOthers(s, u, k);
  }

  lemma StageOfGetRun(s: State, k: Key, t: nat)
    requires Atomic(s.log) && NameInv(s) && StageInv(s)
    requires s.ctl.pc == AtGetRun(k) && SeesOwnWrites(s.log, t, k)
    ensures StageInv(DoGetRun(s, k, t))
  {
    var u := DoGetRun(s, k, t);
    assert StageOf(s, k);
    GetRunFrame(s, k, t);
    if Creations(s.log, k) == 1 && Now(s.log, k).Some? {
      var status := Now(s.log, k).value.run.status;
      assert NewOrRunning(status);
      if status.podName.Some? {
        PastOwnedNow(s.log, s.ctl.issued, k);
        var i :| IssuedAs(s.ctl.issued, k, status.podName.value, i);
        PodNameNotEmpty(i);
      }
      if At(s.log, t, k).Some? {
        assert s.log[..|s.log|] == s.log;
        PhaseSeen(s.log, t, |s.log|, k);
      }
      GetRunBranch(s, k, t);
      hide DoGetRun, NameInv;
      PhasesDiffer();
      assert Waits(s.queue, s.ctl.pc, k);
      assert Tokens(s.queue, s.ctl.pc, k) <= 1;
      assert StageFits(status, u.queue, u.ctl.pc, k);
    }
    StageGoesOn(s, u, k);
  }

  lemma GetRunBranch(s: State, k: Key, t: nat)
    requires t <= |s.log|
    ensures
      var pc := DoGetRun(s, k, t).ctl.pc;
      match At(s.log, t, k)
      case None => pc == Idle || (pc.AtDeletePod? && pc.key == k)
      case Some(o) =>
        if NamesPod(o.run.status) then pc.AtPoll? && pc.key == k
        else pc.AtStatusGet? && pc.key == k && pc.job.Deploy?
  {
  }

  lemma StageOfPoll(c: Config, s: State, observed: Option<ClusterPod>)
    requires ScheduleInv(s) && StageInv(s) && s.ctl.pc.AtPoll? && (observed.Some? ==> StatusesFit(observed.value))
    ensures StageInv(DoPoll(c, s, s.ctl.pc.key, s.ctl.pc.podName, s.ctl.pc.timeout, observed))
  {
    var k := s.ctl.pc.key;
    var u := DoPoll(c, s, k, s.ctl.pc.podName, s.ctl.pc.timeout, observed);
    FollowingIsUp(s, k);
    assert StageOf(s, k);
    hide PollOutcome, StageInv, ScheduleInv, Stage;
    StageRequeues(s, k, s.clock);
    StageRequeues(s, k, s.clock + CHECK_INTERVAL);
    if u.queue == s.queue && u.ctl.pc != Idle {
      assert Creations(s.log, k) == 1 && Now(s.log, k).Some? ==>
          StageFits(Now(s.log, k).value.run.status, u.queue, u.ctl.pc, k) by { FollowingFits(s, u, k); }
      StageGoesOn(s, u, k);
    } else {
      StageIgnoresPolls(Requeue(s, k, s.clock + CHECK_INTERVAL), u.polls);
    }
  }

  lemma StageIgnoresPolls(s: State, polls: seq<Poll>)
    requires StageInv(s)
    ensures StageInv(s.(polls := polls))
  {
    forall k ensures StageOf(s.(polls := polls), k) {
      assert StageOf(s, k);
    }
  }

  lemma FollowingFits(s: State, u: State, k: Key)
    requires StageOf(s, k) && u.queue == s.queue
    requires ActivityOf(s.ctl.pc).Following? && ActivityOf(s.ctl.pc).key == k
    requires u.ctl.pc == Crashed || (ActivityOf(u.ctl.pc).Following? && ActivityOf(u.ctl.pc).key == k)
    ensures Creations(s.log, k) == 1 && Now(s.log, k).Some? ==>
              StageFits(Now(s.log, k).value.run.status, u.queue, u.ctl.pc, k)
  {
  }

  lemma StageOfFailed(s: State, k: Key, job: Job)
    requires ScheduleInv(s) && StageInv(s) && ActivityOf(s.ctl.pc) == JobActivity(k, job)
    ensures StageInv(UpdateFailed(s, k, job))
  {
    if job.Verdict? {
      FollowingIsUp(s, k);
      StageRequeues(s, k, s.clock);
    } else {
      assert StageOf(s, k);
      StageGoesOn(s, UpdateFailed(s, k, job), k);
    }
  }

  /** The update is tried again, or goes from its read to its write. */
  lemma StageOfRetry(s: State, pc: Pc, k: Key)
    requires StageInv(s) && InFlight(s.ctl.pc, k)
    requires ActivityOf(pc) == ActivityOf(s.ctl.pc) && BeforeDeploying(pc) == BeforeDeploying(s.ctl.pc)
    ensures StageInv(Goto(s, pc))
  {
    assert StageOf(s, k);
    StageGoesOn(s, Goto(s, pc), k);
  }

  /** A stored phase continues the path from the phase the run was in. */
  lemma StoredContinues(c: Config, s: State)
    requires StoreInv(s) && TruthInv(s) && StageInv(s) && s.ctl.pc.AtStatusPut?
    requires TryPut(c, s.log, s.ctl.pc.key, OpOf(s.ctl.pc.job), s.ctl.pc.read) == Stored
    ensures
      var k, read := s.ctl.pc.key, s.ctl.pc.read;
      var e := PutEntry(k, OpOf(s.ctl.pc.job), read);
      && Now(s.log, k) == Some(read) && e.value.Some?
      && Creations(s.log, k) >= 1
      && (Creations(s.log, k) == 1 ==> NextPhase(read.run.status.phase, e.value.value.status.phase))
  {
    var k, job, read := s.ctl.pc.key, s.ctl.pc.job, s.ctl.pc.read;
    StoredFromCurrent(c, s.log, k, OpOf(job), read);
    if Creations(s.log, k) == 0 {
      NotCreatedYet(s.log, k);
    }
    assert StageOf(s, k);
    assert job.Verdict? ==> Justified(s.cluster.seen, k, job.phase, job.why);
  }

  /** What a stored update does besides: only the key's own bookkeeping changes. */
  lemma AfterStored(s: State, k: Key, job: Job, value: Option<Run>)
    requires InFlight(s.ctl.pc, k)
    ensures
      var u := UpdateSucceeded(Append(s, k, OpOf(job), value), k, job);
      && u.log == s.log + [Entry(k, OpOf(job), value)]
      && Moved(job, k, s.queue, u.queue, u.ctl.pc)
      && (forall l :: l != k ==> SameFor(s.queue, u.queue, l) && !InFlight(s.ctl.pc, l) && !InFlight(u.ctl.pc, l))
  {
  }

  /** Where the controller and the queue stand after an update for `job`. */
  predicate Moved(job: Job, k: Key, q: Queue, r: Queue, next: Pc) {
    match job
    case Deploy(run, name) => r == q && next == AtCreatePod(k, run, name)
    case MarkRunning(_) => next == Idle && r == q.(delayed := r.delayed) && r.delayed.Keys == q.delayed.Keys + {k}
    case _ => r == q && next == Idle
  }

  lemma StageOfStored(c: Config, s: State)
    requires StoreInv(s) && NameInv(s) && TruthInv(s) && StageInv(s) && s.ctl.pc.AtStatusPut?
    requires TryPut(c, s.log, s.ctl.pc.key, OpOf(s.ctl.pc.job), s.ctl.pc.read) == Stored
    ensures
      var k, job := s.ctl.pc.key, s.ctl.pc.job;
      StageInv(UpdateSucceeded(Append(s, k, OpOf(job), Apply(OpOf(job), Some(s.ctl.pc.read.run))), k, job))
  {
    var k, job, read := s.ctl.pc.key, s.ctl.pc.job, s.ctl.pc.read;
    var e := PutEntry(k, OpOf(job), read);
    var u := UpdateSucceeded(Append(s, k, OpOf(job), e.value), k, job);
    assert Now(s.log, k) == Some(read) && e.value.Some? && Creations(s.log, k) >= 1 by {
      StoredContinues(c, s);
    }
    AfterStored(s, k, job, e.value);
    hide TryPut, StoreInv, NameInv, TruthInv, Creations, At, Stage, UpdateSucceeded, Append, Moved, OpOf, Apply, SameFor;
    AppendIsLocal(s.log, e);
    forall l ensures Creations(u.log, l) == Creations(s.log, l) {
      CreationsAppend(s.log, e, l);
    }
    assert StageOf(s, k);
    StageAfterStored(Creations(s.log, k), Now(s.log, k), s.queue, s.ctl.pc, k, job, Now(u.log, k), u.queue, u.ctl.pc);
    StageOfOthers(s, u, k);
  }

  /** The stage of the key whose update was just stored. */
  lemma StageAfterStored(n: nat, before: Option<Object>, q: Queue, pc: Pc, k: Key, job: Job,
                         after: Option<Object>, r: Queue, next: Pc)
    requires n >= 1 && before.Some? && Stage(n, before, q, pc, k)
    requires ActivityOf(pc) == JobActivity(k, job)
    requires after.Some? ==> Some(after.value.run) == Apply(OpOf(job), Some(before.value.run))
    requires Moved(job, k, q, r, next)
    ensures Stage(n, after, r, next, k)
  {
    if n == 1 && after.Some? {
      assert Tokens(q, pc, k) <= 1;
      PhasesDiffer();
    }
  }

  lemma StageOfStatusPut(c: Config, s: State, fails: bool)
    requires StoreInv(s) && NameInv(s) && TruthInv(s) && ScheduleInv(s) && StageInv(s) && s.ctl.pc.AtStatusPut?
    ensures StageInv(DoStatusPut(c, s, s.ctl.pc.key, s.ctl.pc.job, s.ctl.pc.tries, s.ctl.pc.read, fails))
  {
    var k, job, tries, read := s.ctl.pc.key, s.ctl.pc.job, s.ctl.pc.tries, s.ctl.pc.read;
    StageOfFailed(s, k, job);
    if !fails {
      match TryPut(c, s.log, k, OpOf(job), read)
      case Stored => StageOfStored(c, s);
      case Conflict =>
        if tries > 1 {
          StageOfRetry(s, AtStatusGet(k, job, tries - 1), k);
        }
      case _ =>
    }
  }

  lemma StageOfStatusGet(s: State, t: nat, fails: bool)
    requires ScheduleInv(s) && StageInv(s) && s.ctl.pc.AtStatusGet? && t <= |s.log|
    ensures StageInv(DoStatusGet(s, s.ctl.pc.key, s.ctl.pc.job, s.ctl.pc.tries, t, fails))
  {
    var k, job, tries := s.ctl.pc.key, s.ctl.pc.job, s.ctl.pc.tries;
    StageOfFailed(s, k, job);
    if At(s.log, t, k).Some? {
      StageOfRetry(s, AtStatusPut(k, job, tries, At(s.log, t, k).value), k);
    }
  }

  lemma StageOfDelete(s: State, fails: bool)
    requires StageInv(s) && s.ctl.pc.AtDeletePod?
    ensures StageInv(DoDeletePod(s, s.ctl.pc.key, s.ctl.pc.podName, fails))
  {
    assert StageOf(s, s.ctl.pc.key);
    StageGoesOn(s, DoDeletePod(s, s.ctl.pc.key, s.ctl.pc.podName, fails), s.ctl.pc.key);
  }

  lemma StageOfCreatePod(c: Config, s: State, fails: bool)
    requires StageInv(s) && s.ctl.pc.AtCreatePod?
    ensures StageInv(DoCreatePod(c, s, s.ctl.pc.key, s.ctl.pc.run, s.ctl.pc.podName, fails))
  {
    hide LaunchedPod;
    assert StageOf(s, s.ctl.pc.key);
    StageGoesOn(s, DoCreatePod(c, s, s.ctl.pc.key, s.ctl.pc.run, s.ctl.pc.podName, fails), s.ctl.pc.key);
  }

  lemma StageOfController(c: Config, s: State, a: ControllerStep)
    requires StoreInv(s) && NameInv(s) && TruthInv(s) && ScheduleInv(s) && StageInv(s) && ControllerCan(s, a)
    ensures StageInv(DoController(c, s, a))
  {
    hide DoGetRun, DoDeletePod, DoCreatePod, DoPoll, DoStatusGet, DoStatusPut, NameInv, TruthInv, ScheduleInv, StageInv;
    match a
    case Start(k) => StageOfStart(s, k);
    case GetRun(t) => StageOfGetRun(s, s.ctl.pc.key, t);
    case DeletePod(fails) => StageOfDelete(s, fails);
    case CreatePod(fails) => StageOfCreatePod(c, s, fails);
    case PollPod(observed) => StageOfPoll(c, s, observed);
    case StatusGet(t, fails) => StageOfStatusGet(s, t, fails);
    case StatusPut(fails) => StageOfStatusPut(c, s, fails);
  }

  lemma StageOfSidecar(c: Config, s: State, a: SidecarStep)
    requires StoreInv(s) && StageInv(s) && SidecarCan(s, a)
    ensures StageInv(DoSidecar(c, s, a))
  {
    var u := DoSidecar(c, s, a);
    SidecarFrame(c, s, a);
    StepWrites(c, s, BySidecar(a));
    assert s.log + [] == s.log;
    if Written(c, s, BySidecar(a)).Some? {
      WrittenIsAtomic(c, s, BySidecar(a));
    }
    forall l ensures StageOf(u, l) {
      assert StageOf(s, l);
      if Written(c, s, BySidecar(a)).Some? {
        StageOfWrite(s.log, Written(c, s, BySidecar(a)).value, s.queue, s.ctl.pc, l);
      }
    }
  }

  lemma StageStep(c: Config, s: State, a: Label)
    requires StoreInv(s) && NameInv(s) && TruthInv(s) && ScheduleInv(s) && StageInv(s) && Enabled(s, a)
    ensures StageInv(Do(c, s, a))
  {
    hide DoUser, DoCluster, DoSidecar, DoController, NameInv, TruthInv, ScheduleInv, StageInv;
    match a
    case ByUser(u) => StageOfUser(s, u);
    case ByCluster(u) => StageOfCluster(s, u);
    case BySidecar(u) => StageOfSidecar(c, s, u);
    case ByController(u) => StageOfController(c, s, u);
  }

  lemma PathStep(c: Config, s: State, a: Label)
    requires StoreInv(s) && TruthInv(s) && StageInv(s) && PhasePath(s.log) && Enabled(s, a)
    ensures PhasePath(Do(c, s, a).log)
  {
    var log := Do(c, s, a).log;
    StepWrites(c, s, a);
    assert s.log + [] == s.log;
    if Written(c, s, a).Some? {
      var e := Written(c, s, a).value;
      AppendIsLocal(s.log, e);
      if IsControllerOp(e.op) {
        StoredContinues(c, s);
      }
      forall i | 0 <= i < |log| ensures StepsPhase(log, i) {
        PathEntry(s.log, e, i);
      }
    }
  }

  lemma PathEntry(log: Log, e: Entry, i: nat)
    requires i <= |log|
    requires i < |log| ==> StepsPhase(log, i)
    requires i == |log| && IsControllerOp(e.op) && Creations(log, e.key) <= 1 ==>
               && RunAt(log, |log|, e.key).Some? && e.value.Some?
               && NextPhase(RunAt(log, |log|, e.key).value.status.phase, e.value.value.status.phase)
    ensures StepsPhase(log + [e], i)
  {
    hide NextPhase, Creations, At;
    var more := log + [e];
    assert more[..i] == log[..i];
    AtPrefix(log, [e], i, more[i].key);
    assert log[..|log|] == log;
  }

  /** While its name is not reused, the controller has business with a run that names a pod
      exactly as long as the run is in phase Running. */
  lemma ScheduledIffRunning(s: State, k: Key)
    requires NameInv(s) && ScheduleInv(s) && StageInv(s) && s.ctl.pc != Crashed
    requires Creations(s.log, k) == 1 && Now(s.log, k).Some? && Now(s.log, k).value.run.status.podName.Some?
    ensures Scheduled(s.queue, s.ctl.pc, k) <==> Now(s.log, k).value.run.status.phase == PHASE_RUNNING
  {
    assert StageOf(s, k);
    PhasesDiffer();
    assert ActivityOf(s.ctl.pc).Launching? && ActivityOf(s.ctl.pc).key == k ==> PodLess(s.log, k);
  }

  /** The Reconcile in flight is launching the run. */
  predicate Launches(pc: Pc, k: Key) {
    ActivityOf(pc).Launching? && ActivityOf(pc).key == k
  }

  /** A run in a terminal phase is never looked at again. */
  lemma TerminalIsFinal(s: State, k: Key)
    requires StageInv(s)
    requires Creations(s.log, k) == 1 && Now(s.log, k).Some? && IsTerminal(Now(s.log, k).value.run.status.phase)
    ensures !Scheduled(s.queue, s.ctl.pc, k)
  {
    assert StageOf(s, k);
    PhasesDiffer();
  }
}
