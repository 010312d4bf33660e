/** What the sidecars store: one report each, to the run they were launched for, built with
    the display flags of the very spec the report is stored beside. */
module ProtocolSidecars {
  import opened Api
  import opened StatusStore
  import opened Protocol
  import opened ProtocolStore
  import opened ProtocolNames
  import opened ProtocolPods
  import opened Polling
  import R = ReportModel
  import JobPod

  ghost predicate BuiltWith(d: R.Decoder, report: Report, spec: RunSpec, claim: R.Claim, order: seq<string>) {
    && R.IsOrder(claim.cases, order) && R.ClaimSafe(d, claim.cases, FlagsOf(spec))
    && report == R.BuildReport(d, claim, FlagsOf(spec), order)
  }

  /** The report is the one some claim gives under this spec. */
  ghost predicate BuiltFor(d: R.Decoder, report: Report, spec: RunSpec) {
    exists claim, order :: BuiltWith(d, report, spec, claim, order)
  }

  ghost predicate ReportBuilt(d: R.Decoder, log: Log, i: nat)
    requires i < |log|
  {
    log[i].op.SetReport? ==>
      RunAt(log, i, log[i].key).Some? && BuiltFor(d, log[i].op.report, RunAt(log, i, log[i].key).value.spec)
  }

  ghost predicate ReportsBuilt(d: R.Decoder, log: Log) {
    forall i :: 0 <= i < |log| ==> ReportBuilt(d, log, i)
  }

  ghost predicate HoldersBuilt(d: R.Decoder, sidecars: map<Key, Sidecar>) {
    forall pod :: pod in sidecars && sidecars[pod].Holding? ==> BuiltFor(d, sidecars[pod].report, sidecars[pod].read.run.spec)
  }

  /** A sidecar reports to a run of its namespace that its pod's name was issued for. */
  ghost predicate Aimed(issued: seq<Key>, pod: Key, run: Key) {
    pod.ns == run.ns && Owned(issued, run, pod.name)
  }

  ghost predicate SidecarsAimed(sidecars: map<Key, Sidecar>, issued: seq<Key>) {
    forall pod :: pod in sidecars && IsActive(sidecars[pod]) ==> Aimed(issued, pod, sidecars[pod].run)
  }

  ghost predicate SidecarsSeen(cluster: Cluster) {
    forall pod :: pod in cluster.sidecars ==> exists o :: o in cluster.seen && o.0 == pod
  }

  /** Who has written a report is finished, and wrote to its own run. */
  ghost predicate AuthorsFinished(log: Log, sidecars: map<Key, Sidecar>, issued: seq<Key>) {
    forall i :: 0 <= i < |log| && log[i].op.SetReport? ==>
      && log[i].op.author in sidecars && sidecars[log[i].op.author].Done?
      && Aimed(issued, log[i].op.author, log[i].key)
  }

  ghost predicate OneReportEach(log: Log) {
    forall i, j :: 0 <= i < j < |log| && log[i].op.SetReport? && log[j].op.SetReport? ==> log[i].op.author != log[j].op.author
  }

  ghost predicate Authored(log: Log, pod: Key) {
    exists i :: 0 <= i < |log| && log[i].op.SetReport? && log[i].op.author == pod
  }

  /** Who is finished has written a report. */
  ghost predicate DoneReported(log: Log, sidecars: map<Key, Sidecar>) {
    forall pod :: pod in sidecars && sidecars[pod].Done? ==> Authored(log, pod)
  }

  ghost predicate SidecarInv(c: Config, s: State) {
    && ReportsBuilt(c.decode, s.log)
    && HoldersBuilt(c.decode, s.cluster.sidecars)
    && SidecarsAimed(s.cluster.sidecars, s.ctl.issued)
    && SidecarsSeen(s.cluster)
    && AuthorsFinished(s.log, s.cluster.sidecars, s.ctl.issued)
    && OneReportEach(s.log)
  }

  // ---------------------------------------------------------- log entries

  lemma AppendBuilt(d: R.Decoder, log: Log, e: Entry)
    requires ReportsBuilt(d, log)
    requires e.op.SetReport? ==> Now(log, e.key).Some? && BuiltFor(d, e.op.report, Now(log, e.key).value.run.spec)
    ensures ReportsBuilt(d, log + [e])
  {
    forall i | 0 <= i < |log + [e]| ensures ReportBuilt(d, log + [e], i) {
      AtPrefix(log, [e], i, (log + [e])[i].key);
      if i < |log| {
        assert ReportBuilt(d, log, i);
      }
    }
  }

  lemma AimedGrows(issued: seq<Key>, k: Key, pod: Key, run: Key)
    requires Aimed(issued, pod, run)
    ensures Aimed(issued + [k], pod, run)
  {
    OwnedGrows(issued, [k], run, pod.name);
  }

  /** A step that keeps the sidecars and adds no report. */
  lemma SameSidecars(c: Config, s: State, u: State, e: Option<Entry>)
    requires SidecarInv(c, s)
    requires u.log == s.log + Added(e) && (e.Some? ==> !e.value.op.SetReport?)
    requires u.cluster.sidecars == s.cluster.sidecars && s.cluster.seen <= u.cluster.seen
    requires u.ctl.issued == s.ctl.issued || exists k :: u.ctl.issued == s.ctl.issued + [k]
    ensures SidecarInv(c, u)
  {
    if e.Some? {
      AppendBuilt(c.decode, s.log, e.value);
    } else {
      assert s.log + [] == s.log;
    }
    if u.ctl.issued != s.ctl.issued {
      var k :| u.ctl.issued == s.ctl.issued + [k];
      forall pod | pod in u.cluster.sidecars && IsActive(u.cluster.sidecars[pod])
        ensures Aimed(u.ctl.issued, pod, u.cluster.sidecars[pod].run)
      {
        AimedGrows(s.ctl.issued, k, pod, u.cluster.sidecars[pod].run);
      }
      forall i | 0 <= i < |u.log| && u.log[i].op.SetReport? ensures Aimed(u.ctl.issued, u.log[i].op.author, u.log[i].key) {
        AimedGrows(s.ctl.issued, k, u.log[i].op.author, u.log[i].key);
      }
    }
    forall pod | pod in u.cluster.sidecars ensures exists o :: o in u.cluster.seen && o.0 == pod {
      var o :| o in s.cluster.seen && o.0 == pod;
      assert o in u.cluster.seen;
    }
  }

  // ---------------------------------------------------------------- steps

  lemma CreatePodSidecars(c: Config, s: State, fails: bool)
    requires NameInv(s) && PodInv(s) && SidecarInv(c, s) && s.ctl.pc.AtCreatePod?
    ensures SidecarInv(c, DoCreatePod(c, s, s.ctl.pc.key, s.ctl.pc.run, s.ctl.pc.podName, fails))
  {
    if !fails {
      var k, run, name := s.ctl.pc.key, s.ctl.pc.run, s.ctl.pc.podName;
      var pod, p := Key(k.ns, name), LaunchedPod(c, k, run, name);
      var u := DoCreatePod(c, s, k, run, name, fails);
      JobPod.LaunchReportsBack(name, k, JobPod.Owner(c.apiVersion, c.kind, k.name, run.uid), run.spec, c.image);
      assert u.cluster.sidecars == s.cluster.sidecars[pod := Watching(k)];
      NoSidecarYet(s);
      hide LaunchedPod, PodInv, JobPod.ReportsTo;
      assert Aimed(s.ctl.issued, pod, k) by {
        assert IssuedAs(s.ctl.issued, k, name, s.ctl.lastId);
      }
      assert (pod, p) in u.cluster.seen;
      CreatedSidecar(c, s, u, pod, k, p);
    }
  }

  lemma NotCreatedBefore(s: State, o: (Key, ClusterPod))
    requires PodInv(s) && s.ctl.pc.AtCreatePod? && o in s.cluster.seen
    ensures o.0.name != s.ctl.pc.podName
  {
  }

  lemma NoSidecarYet(s: State)
    requires PodInv(s) && SidecarsSeen(s.cluster) && s.ctl.pc.AtCreatePod?
    ensures forall pod :: pod in s.cluster.sidecars ==> pod.name != s.ctl.pc.podName
  {
    forall pod | pod in s.cluster.sidecars ensures pod.name != s.ctl.pc.podName {
      var o :| o in s.cluster.seen && o.0 == pod;
      NotCreatedBefore(s, o);
    }
  }

  lemma CreatedSidecar(c: Config, s: State, u: State, pod: Key, k: Key, p: ClusterPod)
    requires SidecarInv(c, s) && pod !in s.cluster.sidecars && Aimed(s.ctl.issued, pod, k)
    requires u.log == s.log && u.ctl.issued == s.ctl.issued
    requires u.cluster.sidecars == s.cluster.sidecars[pod := Watching(k)]
    requires u.cluster.seen == s.cluster.seen + {(pod, p)}
    ensures SidecarInv(c, u)
  {
    forall q | q in u.cluster.sidecars ensures exists o :: o in u.cluster.seen && o.0 == q {
      if q == pod {
        assert (pod, p) in u.cluster.seen;
      } else {
        var o :| o in s.cluster.seen && o.0 == q;
        assert o in u.cluster.seen;
      }
    }
  }

  lemma ControllerSidecars(c: Config, s: State, a: ControllerStep)
    requires NameInv(s) && PodInv(s) && SidecarInv(c, s) && ControllerCan(s, a)
    ensures SidecarInv(c, DoController(c, s, a))
  {
    if a.CreatePod? {
      CreatePodSidecars(c, s, a.fails);
    } else {
      hide NameInv, PodInv, SidecarInv;
      var u := DoController(c, s, a);
      ControllerLog(c, s, a);
      ControllerFrame(c, s, a);
      SameSidecars(c, s, u, Written(c, s, ByController(a)));
    }
  }

  lemma ControllerFrame(c: Config, s: State, a: ControllerStep)
    requires ControllerCan(s, a) && !a.CreatePod?
    ensures
      var u := DoController(c, s, a);
      && u.cluster.sidecars == s.cluster.sidecars && u.cluster.seen == s.cluster.seen
      && (u.ctl.issued == s.ctl.issued || exists k :: u.ctl.issued == s.ctl.issued + [k])
    ensures Written(c, s, ByController(a)).Some? ==> IsControllerOp(Written(c, s, ByController(a)).value.op)
  {
    hide LaunchedPod, PollOutcome, TryPut, At, Apply, JobPod.ReportsTo;
  }

  lemma ReadRunSidecars(c: Config, s: State, pod: Key, t: nat, claim: R.Claim, order: seq<string>)
    requires SidecarInv(c, s) && SidecarCan(s, ReadRun(pod, t, claim, order))
    ensures SidecarInv(c, DoSidecarGet(c, s, pod, t, claim, order))
  {
    var k := s.cluster.sidecars[pod].run;
    var u := DoSidecarGet(c, s, pod, t, claim, order);
    if At(s.log, t, k).Some? && R.ClaimSafe(c.decode, claim.cases, FlagsOf(At(s.log, t, k).value.run.spec)) {
      var o := At(s.log, t, k).value;
      var report := R.BuildReport(c.decode, claim, FlagsOf(o.run.spec), order);
      assert BuiltWith(c.decode, report, o.run.spec, claim, order);
      assert BuiltFor(c.decode, report, o.run.spec);
      hide BuiltFor, Aimed;
      assert u.cluster.sidecars == s.cluster.sidecars[pod := Holding(k, o, report)];
      SidecarMoves(c, s, u, pod);
    } else {
      SidecarMoves(c, s, u, pod);
    }
  }

  /** A sidecar changes its state and nothing is written. */
  lemma SidecarMoves(c: Config, s: State, u: State, pod: Key)
    requires SidecarInv(c, s) && pod in s.cluster.sidecars && IsActive(s.cluster.sidecars[pod])
    requires pod in u.cluster.sidecars && u == SetSidecar(s, pod, u.cluster.sidecars[pod])
    requires IsActive(u.cluster.sidecars[pod]) ==> u.cluster.sidecars[pod].run == s.cluster.sidecars[pod].run
    requires u.cluster.sidecars[pod].Holding? ==>
               BuiltFor(c.decode, u.cluster.sidecars[pod].report, u.cluster.sidecars[pod].read.run.spec)
    ensures SidecarInv(c, u)
  {
    hide BuiltFor, Aimed, ReportsBuilt;
  }

  lemma WriteReportSidecars(c: Config, s: State, pod: Key, fails: bool)
    requires StoreInv(s) && SidecarInv(c, s) && SidecarCan(s, WriteReport(pod, fails))
    ensures SidecarInv(c, DoSidecarPut(c, s, pod, fails))
  {
    var h := s.cluster.sidecars[pod];
    var op := SetReport(pod, h.report);
    if fails || TryPut(c, s.log, h.run, op, h.read) != Stored {
      SidecarMoves(c, s, DoSidecarPut(c, s, pod, fails), pod);
    } else {
      StoredFromCurrent(c, s.log, h.run, op, h.read);
      AppendBuilt(c.decode, s.log, PutEntry(h.run, op, h.read));
      hide TryPut, ReportsBuilt, BuiltFor, Aimed, StoreInv;
    }
  }

  lemma SidecarStepInv(c: Config, s: State, a: Label)
    requires StoreInv(s) && NameInv(s) && PodInv(s) && SidecarInv(c, s) && Enabled(s, a)
    ensures SidecarInv(c, Do(c, s, a))
  {
    hide StoreInv, NameInv, PodInv, SidecarInv, DoController, DoSidecarGet, DoSidecarPut;
    match a
    case ByUser(u) => SameSidecars(c, s, DoUser(s, u), Some(UserEntry(s, u)));
    case ByCluster(u) =>
      assert s.log + [] == s.log;
      SameSidecars(c, s, DoCluster(s, u), None);
    case BySidecar(u) =>
      match u {
        case Die(pod) => SidecarMoves(c, s, DoSidecar(c, s, u), pod);
        case ReadRun(pod, t, claim, order) => ReadRunSidecars(c, s, pod, t, claim, order);
        case WriteReport(pod, fails) => WriteReportSidecars(c, s, pod, fails);
      }
    case ByController(u) => ControllerSidecars(c, s, u);
  }

  lemma AuthoredGrows(log: Log, more: Log, pod: Key)
    requires Authored(log, pod)
    ensures Authored(log + more, pod)
  {
    var i :| 0 <= i < |log| && log[i].op.SetReport? && log[i].op.author == pod;
    assert (log + more)[i] == log[i];
  }

  /** A sidecar is newly finished only in the step that stored its report. */
  lemma FinishesByReporting(c: Config, s: State, a: Label, pod: Key)
    requires Enabled(s, a) && pod in Do(c, s, a).cluster.sidecars && Do(c, s, a).cluster.sidecars[pod].Done?
    ensures
      || (pod in s.cluster.sidecars && s.cluster.sidecars[pod].Done?)
      || (Written(c, s, a).Some? && Written(c, s, a).value.op.SetReport? && Written(c, s, a).value.op.author == pod)
  {
    hide R.BuildReport, R.ClaimSafe, TryPut, At, LaunchedPod, PollOutcome, Apply, JobPod.ReportsTo;
    match a
    case ByUser(_) =>
    case ByCluster(_) =>
    case BySidecar(_) =>
    case ByController(_) =>
  }

  lemma DoneStep(c: Config, s: State, a: Label)
    requires DoneReported(s.log, s.cluster.sidecars) && Enabled(s, a)
    ensures DoneReported(Do(c, s, a).log, Do(c, s, a).cluster.sidecars)
  {
    var u, more := Do(c, s, a), Added(Written(c, s, a));
    StepWrites(c, s, a);
    forall pod | pod in u.cluster.sidecars && u.cluster.sidecars[pod].Done? ensures Authored(u.log, pod) {
      FinishesByReporting(c, s, a, pod);
      hide Do, Enabled;
      if pod in s.cluster.sidecars && s.cluster.sidecars[pod].Done? {
        AuthoredGrows(s.log, more, pod);
      } else {
        assert u.log[|s.log|] == Written(c, s, a).value;
      }
    }
  }
}
