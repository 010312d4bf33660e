/** No update is lost: what every step does to the store, and the store as a refinement. */
module ProtocolStore {
  import opened Api
  import opened StatusStore
  import opened Protocol
  import opened Polling

  /** The object was once stored under `k`. */
  predicate Genuine(log: Log, k: Key, o: Object) {
    0 < o.version <= |log| && log[o.version - 1].key == k && log[o.version - 1].value == Some(o.run)
  }

  /** The store is atomic so far, and whatever a writer holds was really read. */
  ghost predicate StoreInv(s: State) {
    Atomic(s.log) && ReadGenuine(s.log, s.ctl.pc) && HoldersGenuine(s.log, s.cluster.sidecars)
  }

  function UserEntry(s: State, a: UserStep): Entry
    requires UserCan(s, a)
  {
    match a
    case CreateRun(k, spec) => Entry(k, Create(s.nextUid, spec), Apply(Create(s.nextUid, spec), None))
    case DeleteRun(k) => Entry(k, Remove, None)
    case EditRun(k, spec) => Entry(k, EditSpec(spec), Apply(EditSpec(spec), Some(Now(s.log, k).value.run)))
  }

  function PutEntry(k: Key, op: Op, read: Object): Entry {
    Entry(k, op, Apply(op, Some(read.run)))
  }

  /** The status update a controller step carries out. */
  predicate ControllerWrites(c: Config, s: State, a: ControllerStep) {
    && a.StatusPut? && s.ctl.pc.AtStatusPut?
    && !a.fails
    && TryPut(c, s.log, s.ctl.pc.key, OpOf(s.ctl.pc.job), s.ctl.pc.read) == Stored
  }

  predicate SidecarWrites(c: Config, s: State, a: SidecarStep) {
    && a.WriteReport? && a.pod in s.cluster.sidecars && s.cluster.sidecars[a.pod].Holding?
    && !a.fails
    && var h := s.cluster.sidecars[a.pod];
       TryPut(c, s.log, h.run, SetReport(a.pod, h.report), h.read) == Stored
  }

  /** The entry a step adds to the store, if it adds one. */
  function Written(c: Config, s: State, a: Label): Option<Entry>
    requires Enabled(s, a)
  {
    match a
    case ByUser(u) => Some(UserEntry(s, u))
    case ByCluster(_) => None
    case BySidecar(u) =>
      if !SidecarWrites(c, s, u) then None
      else
        var h := s.cluster.sidecars[u.pod];
        Some(PutEntry(h.run, SetReport(u.pod, h.report), h.read))
    case ByController(u) =>
      if !ControllerWrites(c, s, u) then None else Some(PutEntry(s.ctl.pc.key, OpOf(s.ctl.pc.job), s.ctl.pc.read))
  }

  function Added(e: Option<Entry>): Log {
    if e.None? then [] else [e.value]
  }

  lemma ControllerLog(c: Config, s: State, a: ControllerStep)
    requires ControllerCan(s, a)
    ensures DoController(c, s, a).log == s.log + Added(Written(c, s, ByController(a)))
  {
    assert s.log + [] == s.log;
  }

  lemma SidecarLog(c: Config, s: State, a: SidecarStep)
    requires SidecarCan(s, a)
    ensures DoSidecar(c, s, a).log == s.log + Added(Written(c, s, BySidecar(a)))
  {
    assert s.log + [] == s.log;
  }

  lemma StepWrites(c: Config, s: State, a: Label)
    requires Enabled(s, a)
    ensures Do(c, s, a).log == s.log + Added(Written(c, s, a))
  {
    assert s.log + [] == s.log;
    match a
    case ByUser(u) =>
    case ByCluster(u) =>
    case BySidecar(u) => SidecarLog(c, s, u);
    case ByController(u) => ControllerLog(c, s, u);
  }

  /** A stored update was computed from the very object it replaces. */
  lemma StoredFromCurrent(c: Config, log: Log, k: Key, op: Op, read: Object)
    requires Genuine(log, k, read)
    requires TryPut(c, log, k, op, read) == Stored
    ensures Now(log, k) == Some(read)
    ensures RunAt(log, |log|, k) == Some(read.run)
  {
  }

  /** Nothing was written to `k` at or after time `from`. */
  predicate Untouched(log: Log, from: nat, k: Key) {
    forall i :: from <= i < |log| ==> log[i].key != k
  }

  lemma {:induction false} CurrentWhileUntouched(log: Log, t: nat, k: Key, read: Object)
    requires Genuine(log, k, read) && read.version <= t <= |log|
    ensures At(log, t, k) == Some(read) <==> forall i :: read.version <= i < t ==> log[i].key != k
  {
    if read.version < t {
      CurrentWhileUntouched(log, t - 1, k, read);
    }
  }

  /** Optimistic concurrency, exactly: an update of an object that was really read is stored if
      and only if nobody wrote to the object since, and the store admits the new status. */
  lemma StoredExactlyWhen(c: Config, log: Log, k: Key, op: Op, read: Object)
    requires Genuine(log, k, read)
    ensures TryPut(c, log, k, op, read) == Stored <==>
              && Untouched(log, read.version, k)
              && Apply(op, Some(read.run)).Some?
              && Admits(c, Apply(op, Some(read.run)).value.status)
  {
    CurrentWhileUntouched(log, |log|, k, read);
    hide Admits, Apply;
    if Now(log, k).Some? && Now(log, k).value.version == read.version {
      SameVersionSameObject(log, |log|, read.version, k);
    }
  }

  /** Every write of every step does to the current object exactly what its operation does. */
  lemma WrittenIsAtomic(c: Config, s: State, a: Label)
    requires StoreInv(s) && Enabled(s, a) && Written(c, s, a).Some?
    ensures
      var e := Written(c, s, a).value;
      && e.value == Apply(e.op, RunAt(s.log, |s.log|, e.key))
      && (e.op.Create? <==> RunAt(s.log, |s.log|, e.key).None?)
  {
    match a
    case ByUser(u) =>
    case BySidecar(u) =>
      var h := s.cluster.sidecars[u.pod];
      StoredFromCurrent(c, s.log, h.run, SetReport(u.pod, h.report), h.read);
    case ByController(u) =>
      StoredFromCurrent(c, s.log, s.ctl.pc.key, OpOf(s.ctl.pc.job), s.ctl.pc.read);
  }

  lemma AppendAtomic(log: Log, e: Entry)
    requires Atomic(log)
    requires e.value == Apply(e.op, RunAt(log, |log|, e.key))
    requires e.op.Create? <==> RunAt(log, |log|, e.key).None?
    ensures Atomic(log + [e])
  {
    AppendIsLocal(log, e);
    forall i | 0 <= i < |log + [e]| ensures EntryAtomic(log + [e], i) {
      assert At(log + [e], i, (log + [e])[i].key) == At(log, i, (log + [e])[i].key);
      if i < |log| {
        assert EntryAtomic(log, i);
      }
    }
  }

  ghost predicate HoldersGenuine(log: Log, sidecars: map<Key, Sidecar>) {
    forall pod :: pod in sidecars && sidecars[pod].Holding? ==> Genuine(log, sidecars[pod].run, sidecars[pod].read)
  }

  ghost predicate ReadGenuine(log: Log, pc: Pc) {
    pc.AtStatusPut? ==> Genuine(log, pc.key, pc.read)
  }

  lemma SidecarKeepsHolders(c: Config, s: State, a: SidecarStep)
    requires SidecarCan(s, a) && HoldersGenuine(s.log, s.cluster.sidecars)
    ensures HoldersGenuine(s.log, DoSidecar(c, s, a).cluster.sidecars)
  {
  }

  lemma SidecarFrame(c: Config, s: State, a: SidecarStep)
    requires SidecarCan(s, a)
    ensures DoSidecar(c, s, a) == s.(log := DoSidecar(c, s, a).log,
                                     cluster := s.cluster.(sidecars := DoSidecar(c, s, a).cluster.sidecars))
  {
  }

  lemma ControllerKeepsHolders(c: Config, s: State, a: ControllerStep)
    requires ControllerCan(s, a) && HoldersGenuine(s.log, s.cluster.sidecars)
    ensures HoldersGenuine(s.log, DoController(c, s, a).cluster.sidecars)
  {
  }

  lemma ControllerKeepsRead(c: Config, s: State, a: ControllerStep)
    requires ControllerCan(s, a) && ReadGenuine(s.log, s.ctl.pc)
    ensures ReadGenuine(s.log, DoController(c, s, a).ctl.pc)
  {
  }

  lemma StoreStep(c: Config, s: State, a: Label)
    requires StoreInv(s) && Enabled(s, a)
    ensures StoreInv(Do(c, s, a))
  {
    StepWrites(c, s, a);
    if Written(c, s, a).Some? {
      WrittenIsAtomic(c, s, a);
      AppendAtomic(s.log, Written(c, s, a).value);
    } else {
      assert s.log + [] == s.log;
    }
    match a
    case ByUser(u) =>
    case ByCluster(u) =>
    case BySidecar(u) => SidecarKeepsHolders(c, s, u);
    case ByController(u) =>
      ControllerKeepsHolders(c, s, u);
      ControllerKeepsRead(c, s, u);
  }
}
