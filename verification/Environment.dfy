/** The cluster as the controller's program sees it: one API call at a time, with the others
    moving in between, every call a step of the protocol. */
module Environment {
  import opened Api
  import opened PodNames
  import opened StatusStore
  import opened Protocol
  import opened Polling
  import opened ProtocolStore
  import opened ProtocolTheorems
  import JobPod

  /** Some steps of the protocol lead from one state to the other. */
  ghost predicate Leads(c: Config, s: State, u: State) {
    exists run :: Valid(c, s, run) && Exec(c, s, run) == u
  }

  lemma {:induction false} ExecConcat(c: Config, s: State, a: seq<Label>, b: seq<Label>)
    requires Valid(c, s, a) && Valid(c, Exec(c, s, a), b)
    ensures Valid(c, s, a + b) && Exec(c, s, a + b) == Exec(c, Exec(c, s, a), b)
    decreases |a|
  {
    hide Do, Enabled;
    if a == [] {
      assert a + b == b;
    } else {
      assert (a + b)[1..] == a[1..] + b;
      ExecConcat(c, Do(c, s, a[0]), a[1..], b);
    }
  }

  lemma LeadsTransitive(c: Config, s: State, m: State, u: State)
    requires Leads(c, s, m) && Leads(c, m, u)
    ensures Leads(c, s, u)
  {
    var a :| Valid(c, s, a) && Exec(c, s, a) == m;
    var b :| Valid(c, m, b) && Exec(c, m, b) == u;
    ExecConcat(c, s, a, b);
  }

  lemma LeadsReflexive(c: Config, s: State)
    ensures Leads(c, s, s)
  {
    assert Valid(c, s, []) && Exec(c, s, []) == s;
  }

  lemma LeadsStep(c: Config, s: State, a: Label)
    requires Enabled(s, a)
    ensures Leads(c, s, Do(c, s, a))
  {
    hide Do, Enabled;
    var run := [a];
    assert Valid(c, Do(c, s, a), run[1..]);
    assert Valid(c, s, run) && Exec(c, s, run) == Do(c, s, a);
  }

  /** What an update comes back with. */
  datatype Answer = Accepted | ConflictError | OtherError

  function AnswerOf(r: PutResult): Answer {
    match r
    case Stored => Accepted
    case Conflict => ConflictError
    case _ => OtherError
  }

  /** A status update of the controller: to which run, and what it set. */
  type Update = (Key, Op)

  /** The status updates of the controller that the store has applied, in order. */
  function Updates(log: Log): seq<Update> {
    if log == [] then []
    else
      var last := log[|log| - 1];
      Updates(log[..|log| - 1]) + if IsControllerOp(last.op) then [(last.key, last.op)] else []
  }

  lemma UpdatesAppend(log: Log, e: Entry)
    ensures Updates(log + [e]) == Updates(log) + if IsControllerOp(e.op) then [(e.key, e.op)] else []
  {
    assert (log + [e])[..|log + [e]| - 1] == log;
  }

  /** Nobody else touches the controller's state or makes its updates. */
  lemma OthersKeepOut(c: Config, s: State, a: Label)
    requires Enabled(s, a) && !a.ByController?
    ensures Do(c, s, a).ctl == s.ctl
    ensures Updates(Do(c, s, a).log) == Updates(s.log)
    ensures Do(c, s, a).polls == s.polls && Do(c, s, a).queue.delayed.Keys <= s.queue.delayed.Keys
  {
    StepWrites(c, s, a);
    assert s.log + [] == s.log;
    if Written(c, s, a).Some? {
      UpdatesAppend(s.log, Written(c, s, a).value);
    }
    if a.BySidecar? {
      SidecarFrame(c, s, a.sidecar);
    }
  }

  lemma ReachableLeads(c: Config, s: State, u: State)
    requires Reachable(c, s) && Leads(c, s, u)
    ensures Reachable(c, u)
  {
    var s0, run :| Init(s0) && Valid(c, s0, run) && Exec(c, s0, run) == s;
    var more :| Valid(c, s, more) && Exec(c, s, more) == u;
    ExecConcat(c, s0, run, more);
  }

  /** The update's closure does to a status what the operation does to the run. */
  ghost predicate Sets(setter: RunStatus -> RunStatus, op: Op) {
    forall run :: Apply(op, Some(run)) == Some(run.(status := setter(run.status)))
  }

  /** The last write of the store is this update, computed from the object before it. */
  ghost predicate JustApplied(log: Log, k: Key, op: Op) {
    && log != []
    && log[|log| - 1].key == k && log[|log| - 1].op == op
    && RunAt(log, |log| - 1, k).Some?
    && log[|log| - 1].value == Apply(op, RunAt(log, |log| - 1, k))
  }

  /** Where the controller goes when an update is over. */
  function AfterUpdate(k: Key, job: Job, ok: bool): Pc {
    if ok && job.Deploy? then AtCreatePod(k, job.run, job.podName) else Idle
  }

  function AfterGetRun(ctl: Process, k: Key, o: Option<Object>): Process {
    match o
    case None =>
      ctl.(missed := ctl.missed + {k}, pc := if k in ctl.runs then AtDeletePod(k, ctl.runs[k]) else Idle)
    case Some(o) =>
      if NamesPod(o.run.status) then ctl.(pc := AtPoll(k, o.run.status.podName.value, o.run.spec.timeOut))
      else
        var name := PodName(ctl.lastId + 1);
        Process(ctl.runs[k := name], ctl.lastId + 1, ctl.issued + [k], ctl.missed,
                AtStatusGet(k, Deploy(o.run, name), TRIES))
  }

  /** When an update that is over asks for the key again: ten seconds later if the run was just
      marked running, at once if a verdict could not be recorded, and otherwise not at all. */
  function DueAfterUpdate(job: Job, ok: bool, now: int): Option<int> {
    if ok && job.MarkRunning? then Some(now + 10_000_000_000)
    else if !ok && job.Verdict? then Some(now)
    else None
  }

  /** The key was asked for again, to come up when it is due at the latest; or no key was. */
  predicate AsksAgain(due: Option<int>, k: Key, before: Queue, after: Queue) {
    match due
    case None => after.delayed.Keys <= before.delayed.Keys
    case Some(time) => k in after.delayed && after.delayed[k] <= time
  }

  lemma PutEffect(c: Config, s: State, fails: bool)
    requires s.ctl.pc.AtStatusPut?
    ensures
      var k, job, tries, read := s.ctl.pc.key, s.ctl.pc.job, s.ctl.pc.tries, s.ctl.pc.read;
      var u := DoController(c, s, StatusPut(fails));
      var r := if fails then OtherError else AnswerOf(TryPut(c, s.log, k, OpOf(job), read));
      && (r.Accepted? ==> u.log == s.log + [PutEntry(k, OpOf(job), read)])
      && (!r.Accepted? ==> u.log == s.log)
      && u.ctl == s.ctl.(pc := if r.ConflictError? && tries > 1 then AtStatusGet(k, job, tries - 1)
                               else AfterUpdate(k, job, r.Accepted?))
      && u.clock == s.clock && u.polls == s.polls
      && AsksAgain(if u.ctl.pc.AtStatusGet? then None else DueAfterUpdate(job, r.Accepted?, s.clock), k, s.queue, u.queue)
  {
    hide TryPut, Apply;
  }

  lemma PutApplies(c: Config, s: State)
    requires Reachable(c, s) && s.ctl.pc.AtStatusPut?
    requires TryPut(c, s.log, s.ctl.pc.key, OpOf(s.ctl.pc.job), s.ctl.pc.read) == Stored
    ensures
      var e := PutEntry(s.ctl.pc.key, OpOf(s.ctl.pc.job), s.ctl.pc.read);
      && JustApplied(s.log + [e], e.key, e.op)
      && Updates(s.log + [e]) == Updates(s.log) + [(e.key, e.op)]
  {
    var e := PutEntry(s.ctl.pc.key, OpOf(s.ctl.pc.job), s.ctl.pc.read);
    assert Genuine(s.log, s.ctl.pc.key, s.ctl.pc.read) by {
      ReachableStore(c, s);
    }
    StoredFromCurrent(c, s.log, e.key, e.op, s.ctl.pc.read);
    AtPrefix(s.log, [e], |s.log|, e.key);
    UpdatesAppend(s.log, e);
    hide TryPut, Genuine;
  }

  /** What became of the attempts of one status update: conflicts, up to five attempts in all,
      and then success or another error. */
  predicate Attempts(answers: seq<Answer>, ok: bool) {
    && 1 <= |answers| <= 5
    && (forall i :: 0 <= i < |answers| - 1 ==> answers[i] == ConflictError)
    && (ok <==> answers[|answers| - 1] == Accepted)
    && (answers[|answers| - 1] == ConflictError ==> |answers| == 5)
  }

  /** The cluster, the store and everybody else, as one program sees them: each call is
      preceded by any number of steps of the others. What the calls of the program came back
      with is on record, kind by kind. */
  class World {
    const c: Config
    var s: State
    var runReads: seq<Option<Object>>
    var podReads: seq<(Option<ClusterPod>, int)>
    var deletes: seq<(Key, bool)>
    var creates: seq<(JobPod.Pod, bool)>
    var attempts: seq<Answer>

    constructor (c: Config, s: State)
      ensures this.c == c && this.s == s
      ensures runReads == [] && podReads == [] && deletes == [] && creates == [] && attempts == []
    {
      this.c := c;
      this.s := s;
      runReads, podReads, deletes, creates, attempts := [], [], [], [], [];
    }

    /** Users, the cluster and the sidecars move; the controller does not. */
    method OthersMove()
      modifies this`s
      ensures Leads(c, old(s), s) && s.ctl == old(s.ctl)
      ensures Updates(s.log) == Updates(old(s.log)) && s.polls == old(s.polls)
      ensures s.queue.delayed.Keys <= old(s).queue.delayed.Keys
    {
      hide Do;
      LeadsReflexive(c, s);
      var steps: nat :| steps >= 0;
      for i := 0 to steps
        invariant Leads(c, old(s), s) && s.ctl == old(s.ctl)
        invariant Updates(s.log) == Updates(old(s.log)) && s.polls == old(s.polls)
        invariant s.queue.delayed.Keys <= old(s).queue.delayed.Keys
      {
        assert Enabled(s, ByCluster(Tick(s.clock)));
        var a: Label :| !a.ByController? && Enabled(s, a);
        OthersKeepOut(c, s, a);
        LeadsStep(c, s, a);
        LeadsTransitive(c, old(s), s, Do(c, s, a));
        s := Do(c, s, a);
      }
    }

    /** The controller's own step. */
    method Call(a: ControllerStep)
      requires ControllerCan(s, a)
      modifies this`s
      ensures s == DoController(c, old(s), a)
      ensures Leads(c, old(s), s)
    {
      LeadsStep(c, s, ByController(a));
      s := DoController(c, s, a);
    }

    /** The Get at the start of Reconcile: it sees the controller's own writes. */
    method GetRun(k: Key) returns (o: Option<Object>)
      requires s.ctl.pc == AtGetRun(k)
      modifies this`s, this`runReads
      ensures Leads(c, old(s), s) && runReads == old(runReads) + [o]
      ensures s.ctl == AfterGetRun(old(s.ctl), k, o)
      ensures Updates(s.log) == Updates(old(s.log)) && s.polls == old(s.polls)
      ensures s.queue.delayed.Keys <= old(s).queue.delayed.Keys
    {
      hide Leads, Valid, Exec, At, Updates;
      OthersMove();
      assert SeesOwnWrites(s.log, |s.log|, k);
      var t: nat :| t <= |s.log| && SeesOwnWrites(s.log, t, k);
      o := At(s.log, t, k);
      ghost var mid := s;
      Call(ControllerStep.GetRun(t));
      LeadsTransitive(c, old(s), mid, s);
      runReads := runReads + [o];
    }

    method DeletePod(pod: Key) returns (ok: bool)
      requires s.ctl.pc.AtDeletePod? && pod == Key(s.ctl.pc.key.ns, s.ctl.pc.podName)
      modifies this`s, this`deletes
      ensures Leads(c, old(s), s) && deletes == old(deletes) + [(pod, ok)]
      ensures s.ctl == old(s.ctl).(runs := old(s.ctl).runs - {old(s.ctl).pc.key}, pc := Idle)
      ensures ok ==> pod !in s.cluster.pods
      ensures Updates(s.log) == Updates(old(s.log)) && s.polls == old(s.polls)
      ensures s.queue.delayed.Keys <= old(s).queue.delayed.Keys
    {
      hide Leads, Valid, Exec, Updates;
      OthersMove();
      var fails: bool := *;
      ghost var mid := s;
      Call(ControllerStep.DeletePod(fails));
      LeadsTransitive(c, old(s), mid, s);
      ok := !fails;
      deletes := deletes + [(pod, ok)];
    }

    method CreatePod(pod: JobPod.Pod) returns (ok: bool)
      requires s.ctl.pc.AtCreatePod?
      requires ClusterPod(pod, []) == LaunchedPod(c, s.ctl.pc.key, s.ctl.pc.run, s.ctl.pc.podName)
      modifies this`s, this`creates
      ensures Leads(c, old(s), s) && creates == old(creates) + [(pod, ok)]
      ensures
        var pc := old(s.ctl).pc;
        var next := if ok then MarkRunning(pc.podName) else MarkDeployError(pc.podName);
        && s.ctl == old(s.ctl).(pc := AtStatusGet(pc.key, next, TRIES))
        && (ok ==> var name := Key(pc.key.ns, pc.podName);
                   name in s.cluster.pods && s.cluster.pods[name] == ClusterPod(pod, []))
      ensures Updates(s.log) == Updates(old(s.log)) && s.polls == old(s.polls)
      ensures s.queue.delayed.Keys <= old(s).queue.delayed.Keys
    {
      hide Leads, Valid, Exec, Updates, LaunchedPod, JobPod.ReportsTo;
      OthersMove();
      var fails: bool := *;
      ghost var mid := s;
      Call(ControllerStep.CreatePod(fails));
      LeadsTransitive(c, old(s), mid, s);
      ok := !fails;
      creates := creates + [(pod, ok)];
    }

    /** The Get of a pod, an error or the pod as it was at some time, and the clock then. */
    method GetPod(pod: Key) returns (observed: Option<ClusterPod>, now: int, ghost mid: State)
      requires s.ctl.pc.AtPoll? && pod == Key(s.ctl.pc.key.ns, s.ctl.pc.podName)
      modifies this`s, this`podReads
      ensures Leads(c, old(s), s) && podReads == old(podReads) + [(observed, now)]
      ensures mid.ctl == old(s.ctl) && now == mid.clock
      ensures mid.queue.delayed.Keys <= old(s).queue.delayed.Keys
      ensures Updates(mid.log) == Updates(old(s.log)) && mid.polls == old(s.polls)
      ensures observed.Some? ==> StatusesFit(observed.value)
      ensures
        var pc := old(s.ctl).pc;
        s == DoPoll(c, mid, pc.key, pc.podName, pc.timeout, observed)
    {
      hide Leads, Valid, Exec, Updates, DoPoll;
      OthersMove();
      var fails: bool := *;
      var states := set o | o in s.cluster.seen && o.0 == pod && StatusesFit(o.1);
      if fails || states == {} {
        observed := None;
      } else {
        var o :| o in states;
        observed := Some(o.1);
      }
      mid := s;
      now := s.clock;
      Call(ControllerStep.PollPod(observed));
      LeadsTransitive(c, old(s), mid, s);
      podReads := podReads + [(observed, now)];
    }

    /** The Get inside updateStatus: as stale as may be, or an error, which ends the update. */
    method GetForUpdate(k: Key) returns (o: Option<Object>)
      requires s.ctl.pc.AtStatusGet? && s.ctl.pc.key == k
      modifies this`s, this`attempts
      ensures Leads(c, old(s), s) && attempts == (if o.None? then old(attempts) + [OtherError] else old(attempts))
      ensures Updates(s.log) == Updates(old(s.log)) && s.polls == old(s.polls)
      ensures
        var pc := old(s.ctl).pc;
        s.ctl == old(s.ctl).(pc := if o.Some? then AtStatusPut(k, pc.job, pc.tries, o.value) else Idle)
      ensures
        var due := if o.Some? then None else DueAfterUpdate(old(s.ctl).pc.job, false, s.clock);
        AsksAgain(due, k, old(s.queue), s.queue)
    {
      hide Leads, Valid, Exec, Updates;
      OthersMove();
      var fails: bool := *;
      var t: nat :| t <= |s.log|;
      o := if fails then None else At(s.log, t, k);
      ghost var mid := s;
      Call(StatusGet(t, fails));
      LeadsTransitive(c, old(s), mid, s);
      attempts := if o.None? then attempts + [OtherError] else attempts;
    }

    /** The Update of the status subresource with the version that was read. */
    method PutStatus(k: Key, read: Object, status: RunStatus) returns (a: Answer)
      requires Reachable(c, s)
      requires s.ctl.pc.AtStatusPut? && s.ctl.pc.key == k && s.ctl.pc.read == read
      requires Apply(OpOf(s.ctl.pc.job), Some(read.run)) == Some(read.run.(status := status))
      modifies this`s, this`attempts
      ensures Leads(c, old(s), s) && attempts == old(attempts) + [a]
      ensures
        var pc := old(s.ctl).pc;
        && s.ctl == old(s.ctl).(pc := if a.ConflictError? && pc.tries > 1 then AtStatusGet(k, pc.job, pc.tries - 1)
                                      else AfterUpdate(k, pc.job, a.Accepted?))
        && (a.Accepted? ==> JustApplied(s.log, k, OpOf(pc.job)))
        && Updates(s.log) == Updates(old(s.log)) + (if a.Accepted? then [(k, OpOf(pc.job))] else [])
        && s.polls == old(s.polls)
        && AsksAgain(if s.ctl.pc.AtStatusGet? then None else DueAfterUpdate(pc.job, a.Accepted?, s.clock),
                     k, old(s.queue), s.queue)
    {
      hide Leads, Valid, Exec, Updates, DoController, TryPut, Apply, JustApplied;
      OthersMove();
      var fails: bool := *;
      a := if fails then OtherError else AnswerOf(TryPut(c, s.log, k, OpOf(s.ctl.pc.job), read));
      ghost var mid := s;
      PutEffect(c, mid, fails);
      ReachableLeads(c, old(s), mid);
      if a.Accepted? { PutApplies(c, mid); }
      Call(StatusPut(fails));
      LeadsTransitive(c, old(s), mid, s);
      attempts := attempts + [a];
    }
  }
}
