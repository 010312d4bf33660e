/** The versioned store of CertsuiteRun objects.

    The store is its own history: an append-only log of writes. The version of an object
    is the length of the log right after the write that stored it, so versions grow
    globally, and a read that is allowed to be stale is a read of any prefix of the log.

    Every entry carries the whole object that was stored and, beside it, the atomic
    operation the writer meant. That the two agree is not assumed: it is the result. */
module StatusStore {
  import opened Api

  /** What an observation of a job pod's certsuite container amounted to. */
  datatype Evidence =
    | Launch
    | Observed(pod: Key, state: ContainerState, at: int, threshold: int)

  datatype Op =
    | Create(uid: nat, spec: RunSpec)
    | Remove
    | EditSpec(newSpec: RunSpec)
    | SetPhase(phase: string, why: Evidence)
    | SetRunning(podName: string)
    | SetReport(author: Key, report: Report)

  predicate IsControllerOp(op: Op) {
    op.SetPhase? || op.SetRunning?
  }

  datatype Entry = Entry(key: Key, op: Op, value: Option<Run>)

  type Log = seq<Entry>

  datatype Object = Object(version: nat, run: Run)

  // ---------------------------------------------------------------- reading

  /** The object stored under `k` when the log had `t` entries. */
  function At(log: Log, t: nat, k: Key): (o: Option<Object>)
    requires t <= |log|
    ensures o.Some? ==>
              && 0 < o.value.version <= t
              && log[o.value.version - 1].key == k
              && log[o.value.version - 1].value == Some(o.value.run)
  {
    if t == 0 then None
    else if log[t - 1].key == k then
      match log[t - 1].value
      case None => None
      case Some(run) => Some(Object(t, run))
    else At(log, t - 1, k)
  }

  function Now(log: Log, k: Key): Option<Object> {
    At(log, |log|, k)
  }

  function RunAt(log: Log, t: nat, k: Key): Option<Run>
    requires t <= |log|
  {
    match At(log, t, k)
    case None => None
    case Some(o) => Some(o.run)
  }

  /** Equal versions mean the same object: the fact optimistic concurrency rests on. */
  lemma SameVersionSameObject(log: Log, t: nat, u: nat, k: Key)
    requires t <= |log| && u <= |log|
    requires At(log, t, k).Some? && At(log, u, k).Some?
    requires At(log, t, k).value.version == At(log, u, k).value.version
    ensures At(log, t, k) == At(log, u, k)
  {
  }

  lemma {:induction false} AtPrefix(log: Log, more: Log, t: nat, k: Key)
    requires t <= |log|
    ensures At(log + more, t, k) == At(log, t, k)
  {
    if t != 0 {
      AtPrefix(log, more, t - 1, k);
    }
  }

  /** One write changes the present of its own key only, and no past. */
  lemma AppendIsLocal(log: Log, e: Entry)
    ensures forall t: nat, k :: t <= |log| ==> At(log + [e], t, k) == At(log, t, k)
    ensures forall k :: k != e.key ==> Now(log + [e], k) == Now(log, k)
    ensures Now(log + [e], e.key) ==
            match e.value { case None => None case Some(run) => Some(Object(|log| + 1, run)) }
  {
    forall t: nat, k | t <= |log| ensures At(log + [e], t, k) == At(log, t, k) {
      AtPrefix(log, [e], t, k);
    }
  }

  // ------------------------------------------- the atomic store it refines

  /** The effect of one operation on the object of its key, done atomically. */
  function Apply(op: Op, cur: Option<Run>): Option<Run> {
    match op
    case Create(uid, spec) => Some(Run(uid, spec, RunStatus(PHASE_UNSET, None, None)))
    case Remove => None
    case EditSpec(spec) => if cur.None? then None else Some(cur.value.(spec := spec))
    case SetPhase(p, _) => if cur.None? then None else Some(cur.value.(status := cur.value.status.(phase := p)))
    case SetRunning(pod) =>
      if cur.None? then None
      else Some(cur.value.(status := cur.value.status.(phase := PHASE_RUNNING, podName := Some(pod))))
    case SetReport(_, r) => if cur.None? then None else Some(cur.value.(status := cur.value.status.(report := Some(r))))
  }

  /** The atomic store: each operation takes effect in one indivisible step. */
  function Replay(log: Log, k: Key): Option<Run> {
    if log == [] then None
    else if log[|log| - 1].key == k then Apply(log[|log| - 1].op, Replay(log[..|log| - 1], k))
    else Replay(log[..|log| - 1], k)
  }

  /** The entry at `i` stored exactly what its operation does to the object stored just before it. */
  ghost predicate EntryAtomic(log: Log, i: nat)
    requires i < |log|
  {
    && log[i].value == Apply(log[i].op, RunAt(log, i, log[i].key))
    && (log[i].op.Create? <==> RunAt(log, i, log[i].key).None?)
  }

  ghost predicate Atomic(log: Log) {
    forall i :: 0 <= i < |log| ==> EntryAtomic(log, i)
  }

  lemma {:induction false} AtomicReplay(log: Log, t: nat, k: Key)
    requires t <= |log|
    requires Atomic(log)
    ensures RunAt(log, t, k) == Replay(log[..t], k)
  {
    if t != 0 {
      AtomicReplay(log, t - 1, k);
      assert log[..t][..t - 1] == log[..t - 1];
      assert EntryAtomic(log, t - 1);
    }
  }

  // ------------------------------------------ two independent registers

  datatype Writer = Controller | Sidecar | User

  function WriterOf(op: Op): Writer {
    if IsControllerOp(op) then Controller else if op.SetReport? then Sidecar else User
  }

  /** The log without the writes of one writer. */
  function Without(log: Log, w: Writer): Log {
    if log == [] then []
    else
      Without(log[..|log| - 1], w) + if WriterOf(log[|log| - 1].op) == w then [] else [log[|log| - 1]]
  }

  /** Two objects that agree on everything but the register of writer `w`. */
  predicate AgreeExcept(w: Writer, a: Option<Run>, b: Option<Run>) {
    match (a, b)
    case (None, None) => true
    case (Some(x), Some(y)) =>
      && x.uid == y.uid
      && x.spec == y.spec
      && (w != Controller ==> x.status.phase == y.status.phase && x.status.podName == y.status.podName)
      && (w != Sidecar ==> x.status.report == y.status.report)
    case _ => false
  }

  lemma ApplyAgrees(w: Writer, op: Op, a: Option<Run>, b: Option<Run>)
    requires w != User && AgreeExcept(w, a, b)
    ensures WriterOf(op) != w ==> AgreeExcept(w, Apply(op, a), Apply(op, b))
    ensures WriterOf(op) == w ==> AgreeExcept(w, a, Apply(op, b))
  {
  }

  /** Erasing one writer from history leaves the other writer's register as it was. */
  lemma {:induction false} ReplayWithout(log: Log, w: Writer, k: Key)
    requires w != User
    ensures AgreeExcept(w, Replay(Without(log, w), k), Replay(log, k))
  {
    if log != [] {
      var init, last := log[..|log| - 1], log[|log| - 1];
      var kept := Without(init, w);
      ReplayWithout(init, w, k);
      ApplyAgrees(w, last.op, Replay(kept, k), Replay(init, k));
      if WriterOf(last.op) != w {
        assert Without(log, w) == kept + [last];
        assert (kept + [last])[..|kept + [last]| - 1] == kept;
      } else {
        assert Without(log, w) == kept;
      }
    }
  }

  // ------------------------------------------- facts along a range of the log

  /** No controller write of `k` happened at or after time `t`. */
  predicate SeesOwnWrites(log: Log, t: nat, k: Key) {
    t <= |log| && forall i :: t <= i < |log| && log[i].key == k ==> !IsControllerOp(log[i].op)
  }

  /** A read that sees the controller's own writes sees the pod name of the live object,
      however stale it is otherwise: only the controller writes that field. */
  lemma {:induction false} PodNameSeen(log: Log, t: nat, u: nat, k: Key)
    requires Atomic(log)
    requires t <= u <= |log|
    requires forall i :: t <= i < u && log[i].key == k ==> !IsControllerOp(log[i].op)
    requires At(log, u, k).Some? && At(log, u, k).value.run.status.podName.Some?
    ensures At(log, t, k).Some?
    ensures At(log, t, k).value.run.status.podName == At(log, u, k).value.run.status.podName
    ensures At(log, t, k).value.run.status.phase == At(log, u, k).value.run.status.phase
    ensures At(log, t, k).value.run.uid == At(log, u, k).value.run.uid
    decreases u
  {
    if t < u {
      assert EntryAtomic(log, u - 1);
      PodNameSeen(log, t, u - 1, k);
    }
  }

  /** How often objects were created under `k`: more than once means the name was reused. */
  function Creations(log: Log, k: Key): nat {
    if log == [] then 0
    else
      Creations(log[..|log| - 1], k)
      + if log[|log| - 1].key == k && log[|log| - 1].op.Create? then 1 else 0
  }

  lemma CreationsAppend(log: Log, e: Entry, k: Key)
    ensures Creations(log + [e], k) == Creations(log, k) + if e.key == k && e.op.Create? then 1 else 0
  {
    assert (log + [e])[..|log + [e]| - 1] == log;
  }
}
