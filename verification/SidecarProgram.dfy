/** The sidecar as the program it is: wait for the claim, read the run, set its report, update
    it once or die, and proved to be a run of the protocol that stores at most one report. */
module SidecarProgram {
  import opened Api
  import opened StatusStore
  import opened Protocol
  import opened ProtocolStore
  import opened ProtocolSidecars
  import opened ProtocolTheorems
  import opened ProtocolReports
  import opened Environment
  import R = ReportModel
  import B = ReportBuilder

  function ReportsBy(log: Log, pod: Key): nat {
    if log == [] then 0
    else
      ReportsBy(log[..|log| - 1], pod)
      + if log[|log| - 1].op.SetReport? && log[|log| - 1].op.author == pod then 1 else 0
  }

  lemma ReportsAppend(log: Log, e: Entry, pod: Key)
    ensures ReportsBy(log + [e], pod) == ReportsBy(log, pod) + if e.op.SetReport? && e.op.author == pod then 1 else 0
  {
    assert (log + [e])[..|log + [e]| - 1] == log;
  }

  /** A step that the sidecar of `pod` takes. */
  predicate IsStepOf(a: Label, pod: Key) {
    a.BySidecar? && a.sidecar.pod == pod
  }

  lemma ControllerLeavesSidecar(c: Config, s: State, a: ControllerStep, pod: Key)
    requires Reachable(c, s) && ControllerCan(s, a) && pod in s.cluster.sidecars
    ensures pod in DoController(c, s, a).cluster.sidecars
    ensures DoController(c, s, a).cluster.sidecars[pod] == s.cluster.sidecars[pod]
  {
    if a.CreatePod? {
      assert pod.name != s.ctl.pc.podName by {
        ReachablePods(c, s);
        var o :| o in s.cluster.seen && o.0 == pod;
        NotCreatedBefore(s, o);
      }
      hide LaunchedPod, Reachable;
    } else {
      hide Reachable;
      ControllerFrame(c, s, a);
    }
  }

  lemma OthersWriteNoReport(c: Config, s: State, a: Label, pod: Key)
    requires Enabled(s, a) && !IsStepOf(a, pod)
    ensures ReportsBy(Do(c, s, a).log, pod) == ReportsBy(s.log, pod)
  {
    StepWrites(c, s, a);
    assert s.log + [] == s.log;
    hide Do, TryPut, Apply, Now, At;
    if Written(c, s, a).Some? {
      ReportsAppend(s.log, Written(c, s, a).value, pod);
    }
  }

  lemma SidecarLeavesOthers(c: Config, s: State, a: SidecarStep, pod: Key)
    requires SidecarCan(s, a) && pod in s.cluster.sidecars
    ensures pod in DoSidecar(c, s, a).cluster.sidecars
    ensures a.pod != pod ==> DoSidecar(c, s, a).cluster.sidecars[pod] == s.cluster.sidecars[pod]
  {
    hide R.BuildReport, R.ClaimSafe, TryPut, At;
  }

  /** Nobody else moves this sidecar or writes reports in its name. */
  lemma OthersLeaveSidecar(c: Config, s: State, a: Label, pod: Key)
    requires Reachable(c, s) && Enabled(s, a) && !IsStepOf(a, pod) && pod in s.cluster.sidecars
    ensures pod in Do(c, s, a).cluster.sidecars && Do(c, s, a).cluster.sidecars[pod] == s.cluster.sidecars[pod]
    ensures ReportsBy(Do(c, s, a).log, pod) == ReportsBy(s.log, pod)
  {
    OthersWriteNoReport(c, s, a, pod);
    hide DoController, DoSidecar, Reachable, ReportsBy;
    match a
    case ByUser(_) =>
    case ByCluster(_) =>
    case BySidecar(b) => SidecarLeavesOthers(c, s, b, pod);
    case ByController(b) => ControllerLeavesSidecar(c, s, b, pod);
  }

  lemma LogGrows(c: Config, s: State, a: Label)
    requires Enabled(s, a)
    ensures s.log <= Do(c, s, a).log
  {
    StepWrites(c, s, a);
  }

  /** The store ends with a report of this claim, made for the spec it was stored beside. */
  ghost predicate JustReported(c: Config, log: Log, k: Key, pod: Key, claim: R.Claim) {
    && log != []
    && log[|log| - 1].key == k && log[|log| - 1].op.SetReport? && log[|log| - 1].op.author == pod
    && RunAt(log, |log| - 1, k).Some?
    && log[|log| - 1].value == Apply(log[|log| - 1].op, RunAt(log, |log| - 1, k))
    && ReportOf(c.decode, log[|log| - 1].op.report, RunAt(log, |log| - 1, k).value.spec, claim)
  }

  ghost predicate ReportOf(d: R.Decoder, report: Report, spec: RunSpec, claim: R.Claim) {
    exists order :: BuiltWith(d, report, spec, claim, order)
  }

  lemma ReportApplies(c: Config, s: State, pod: Key, claim: R.Claim, order: seq<string>)
    requires Reachable(c, s) && pod in s.cluster.sidecars && s.cluster.sidecars[pod].Holding?
    requires BuiltWith(c.decode, s.cluster.sidecars[pod].report, s.cluster.sidecars[pod].read.run.spec, claim, order)
    requires
      var h := s.cluster.sidecars[pod];
      TryPut(c, s.log, h.run, SetReport(pod, h.report), h.read) == Stored
    ensures
      var h := s.cluster.sidecars[pod];
      var e := PutEntry(h.run, SetReport(pod, h.report), h.read);
      JustReported(c, s.log + [e], h.run, pod, claim) && ReportsBy(s.log + [e], pod) == ReportsBy(s.log, pod) + 1
  {
    var h := s.cluster.sidecars[pod];
    var op := SetReport(pod, h.report);
    var e := PutEntry(h.run, op, h.read);
    assert Genuine(s.log, h.run, h.read) by {
      ReachableStore(c, s);
    }
    hide Reachable, BuiltWith;
    StoredFromCurrent(c, s.log, h.run, op, h.read);
    AtPrefix(s.log, [e], |s.log|, h.run);
    ReportsAppend(s.log, e, pod);
  }

  /** The cluster as the sidecar in one pod sees it. `lost` counts the API calls of the sidecar
      that failed on the way, whatever the store would have answered, and `gets` records what
      its reads came back with. */
  class PodWorld {
    const c: Config
    const pod: Key
    var s: State
    var lost: nat
    var gets: seq<Option<Object>>

    constructor (c: Config, pod: Key, s: State)
      ensures this.c == c && this.pod == pod && this.s == s && lost == 0 && gets == []
    {
      this.c := c;
      this.pod := pod;
      this.s := s;
      lost := 0;
      gets := [];
    }

    ghost predicate Alive()
      reads this
    {
      Reachable(c, s) && pod in s.cluster.sidecars
    }

    /** Everybody moves but this sidecar. */
    method OthersMove()
      requires Alive()
      modifies this`s
      ensures Alive() && Leads(c, old(s), s)
      ensures s.cluster.sidecars[pod] == old(s).cluster.sidecars[pod]
      ensures ReportsBy(s.log, pod) == ReportsBy(old(s).log, pod)
      ensures old(s).log <= s.log
    {
      hide Do, Reachable, Leads, Valid, Exec;
      LeadsReflexive(c, s);
      var steps: nat :| steps >= 0;
      for i := 0 to steps
        invariant Alive() && Leads(c, old(s), s)
        invariant s.cluster.sidecars[pod] == old(s).cluster.sidecars[pod]
        invariant ReportsBy(s.log, pod) == ReportsBy(old(s).log, pod)
        invariant old(s).log <= s.log
      {
        assert Enabled(s, ByCluster(Tick(s.clock)));
        var a: Label :| !IsStepOf(a, pod) && Enabled(s, a);
        OthersLeaveSidecar(c, s, a, pod);
        LogGrows(c, s, a);
        LeadsStep(c, s, a);
        ReachableLeads(c, s, Do(c, s, a));
        LeadsTransitive(c, old(s), s, Do(c, s, a));
        s := Do(c, s, a);
      }
    }

    /** A step of this sidecar. */
    method Move(a: SidecarStep)
      requires Alive() && a.pod == pod && SidecarCan(s, a)
      modifies this`s
      ensures s == DoSidecar(c, old(s), a)
      ensures Alive() && Leads(c, old(s), s)
    {
      hide Reachable, Leads, Valid, Exec, DoSidecarGet, DoSidecarPut;
      LeadsStep(c, s, BySidecar(a));
      ReachableLeads(c, s, Do(c, s, BySidecar(a)));
      SidecarLeavesOthers(c, s, a, pod);
      s := DoSidecar(c, s, a);
    }

    /** The Get of the run: as stale as may be, or an error. */
    method Get(k: Key) returns (o: Option<Object>, t: nat)
      requires Alive()
      modifies this
      ensures Alive() && Leads(c, old(s), s)
      ensures s.cluster.sidecars[pod] == old(s).cluster.sidecars[pod]
      ensures ReportsBy(s.log, pod) == ReportsBy(old(s).log, pod)
      ensures t <= |s.log| && old(lost) <= lost <= old(lost) + 1
      ensures o == if lost == old(lost) then At(s.log, t, k) else None
      ensures gets == old(gets) + [o]
    {
      OthersMove();
      var fails: bool := *;
      t :| t <= |s.log|;
      o := if fails then None else At(s.log, t, k);
      lost := lost + if fails then 1 else 0;
      gets := gets + [o];
    }

    /** The update of the run's status, sent with the version that was read. `seen` is the
        store's history when the update reached it. */
    method UpdateStatus(k: Key, read: Object, status: RunStatus, ghost claim: R.Claim, ghost order: seq<string>)
      returns (ok: bool, ghost seen: Log)
      requires Alive() && status.report.Some? && s.cluster.sidecars[pod] == Holding(k, read, status.report.value)
      requires status == read.run.status.(report := status.report)
      requires BuiltWith(c.decode, status.report.value, read.run.spec, claim, order)
      modifies this`s, this`lost
      ensures Alive() && Leads(c, old(s), s)
      ensures s.cluster.sidecars[pod] == if ok then Done else Dead
      ensures ReportsBy(s.log, pod) == ReportsBy(old(s).log, pod) + if ok then 1 else 0
      ensures ok ==> JustReported(c, s.log, k, pod, claim)
      ensures old(s).log <= seen && if ok then |s.log| == |seen| + 1 && seen == s.log[..|seen|] else seen == s.log
      ensures old(lost) <= lost <= old(lost) + 1
      ensures ok <==> lost == old(lost) && Untouched(seen, read.version, k)
                      && AdmitsReported(c, read.run.status.phase, claim.cases)
    {
      hide Reachable, Leads, Valid, Exec, JustReported, BuiltWith, ReportsBy, TryPut, Untouched, AdmitsReported;
      OthersMove();
      ghost var s1 := s;
      seen := s.log;
      var fails: bool := *;
      ok := !fails && TryPut(c, s.log, k, SetReport(pod, status.report.value), read) == Stored;
      ReportGetsThroughExactlyWhen(c, s, pod, fails, claim, order);
      if ok {
        ReportApplies(c, s, pod, claim, order);
      }
      Move(WriteReport(pod, fails));
      LeadsTransitive(c, old(s), s1, s);
      lost := lost + if fails then 1 else 0;
    }
  }

  /** Waits for the claim file, which shows up after `looks` looks and may turn out not to be
      readable (None), reads the run named by the pod's environment, sets its report and
      updates the status once. It reports success if one report was stored, and otherwise it
      dies and none was.

      It succeeds if and only if the claim is readable, neither call is lost on the way, the
      run is found, the claim is safe to show under the flags of the spec that was read, nobody
      writes to the run between the read and the update, and the schema, where it is enforced,
      takes the phase that was read and the states of the claim. `read` is what its one read came
      back with, and `seen` the store's history when the update reached it. */
  method HandleClaimFile(world: PodWorld, k: Key, looks: nat, file: Option<R.Claim>)
    returns (ok: bool, ghost read: Option<Object>, ghost seen: Log)
    requires world.Alive() && world.s.cluster.sidecars[world.pod] == Watching(k)
    modifies world
    ensures world.Alive() && Leads(world.c, old(world.s), world.s)
    ensures world.s.cluster.sidecars[world.pod] == if ok then Done else Dead
    ensures ReportsBy(world.s.log, world.pod) == ReportsBy(old(world.s).log, world.pod) + if ok then 1 else 0
    ensures ok ==> file.Some? && JustReported(world.c, world.s.log, k, world.pod, file.value)
    ensures if ok then |world.s.log| == |seen| + 1 && seen == world.s.log[..|seen|] else seen == world.s.log
    ensures read.Some? ==> Genuine(seen, k, read.value)
    ensures world.gets == old(world.gets) + if file.Some? then [read] else []
    ensures world.lost >= old(world.lost)
    ensures ok <==>
              && file.Some? && read.Some? && world.lost == old(world.lost)
              && R.ClaimSafe(world.c.decode, file.value.cases, FlagsOf(read.value.run.spec))
              && Untouched(seen, read.value.version, k)
              && AdmitsReported(world.c, read.value.run.status.phase, file.value.cases)
  {
    hide Reachable, Leads, Valid, Exec, JustReported, R.BuildReport, R.ClaimSafe, R.IsOrder, ReportsBy, At, Untouched,
      AdmitsReported;
    LeadsReflexive(world.c, world.s);
    for i := 0 to looks
      invariant world.Alive() && Leads(world.c, old(world.s), world.s)
      invariant world.lost == old(world.lost) && world.gets == old(world.gets)
      invariant world.s.cluster.sidecars[world.pod] == Watching(k)
      invariant ReportsBy(world.s.log, world.pod) == ReportsBy(old(world.s).log, world.pod)
    {
      ghost var s1 := world.s;
      world.OthersMove();
      LeadsTransitive(world.c, old(world.s), s1, world.s);
    }
    ghost var s2 := world.s;
    read, seen := None, world.s.log;
    if file.None? {
      world.Move(Die(world.pod));
      LeadsTransitive(world.c, old(world.s), s2, world.s);
      return false, read, seen;
    }
    var o, t := world.Get(k);
    LeadsTransitive(world.c, old(world.s), s2, world.s);
    ghost var s3 := world.s;
    read, seen := o, world.s.log;
    if o.None? {
      world.Move(Die(world.pod));
      LeadsTransitive(world.c, old(world.s), s3, world.s);
      return false, read, seen;
    }
    var runCR := new B.CertsuiteRun(o.value.run);
    var built, order := B.SetRunCRStatus(world.c.decode, runCR, file.value);
    if !built {
      world.Move(Die(world.pod));
      LeadsTransitive(world.c, old(world.s), s3, world.s);
      return false, read, seen;
    }
    world.Move(ReadRun(world.pod, t, file.value, order));
    LeadsTransitive(world.c, old(world.s), s3, world.s);
    ghost var s4 := world.s;
    ok, seen := world.UpdateStatus(k, o.value, runCR.status, file.value, order);
    LeadsTransitive(world.c, old(world.s), s4, world.s);
  }
}
