/** When a run has its report: what the sidecar's one update depends on, and what the presence
    of a report says about the sidecar. */
module ProtocolReports {
  import opened Api
  import opened PodNames
  import opened StatusStore
  import opened Protocol
  import opened ProtocolStore
  import opened ProtocolNames
  import opened ProtocolSidecars
  import opened ProtocolStages
  import opened ProtocolLaunches
  import opened ProtocolTheorems
  import R = ReportModel

  // ----------------------------------------------- what the store admits

  /** The schema takes a report exactly when every test case of the claim has a known state. */
  predicate KnownStates(cases: R.Cases) {
    forall name :: name in cases ==> InStateEnum(cases[name].state)
  }

  lemma VerdictInEnum(s: Summary)
    ensures
      var v := R.Verdict(s);
      v == VERDICT_PASS || v == VERDICT_SKIP || v == VERDICT_FAIL || v == VERDICT_ERROR
  {
  }

  lemma BuiltReportAdmitted(d: R.Decoder, claim: R.Claim, f: R.Flags, order: seq<string>)
    requires R.IsOrder(claim.cases, order) && R.ClaimSafe(d, claim.cases, f)
    ensures AdmitsReport(Some(R.BuildReport(d, claim, f, order))) <==> KnownStates(claim.cases)
  {
    var report := R.BuildReport(d, claim, f, order);
    VerdictInEnum(report.summary);
    hide InStateEnum, R.RowSafe, R.Verdict, R.Summarize, R.TargetsOf;
    assert forall i :: 0 <= i < |order| ==> report.results[i].result == claim.cases[order[i]].state;
    if KnownStates(claim.cases) {
      forall i | 0 <= i < |report.results| ensures InStateEnum(report.results[i].result) {
        assert order[i] in claim.cases;
      }
    }
    if AdmitsReport(Some(report)) {
      forall name | name in claim.cases ensures InStateEnum(claim.cases[name].state) {
        var i :| 0 <= i < |order| && order[i] == name;
        assert InStateEnum(report.results[i].result);
      }
    }
  }

  /** What the store makes of a status that was read once a report is set in it. */
  predicate AdmitsReported(c: Config, phase: string, cases: R.Cases) {
    !c.strict || (InPhaseEnum(phase) && KnownStates(cases))
  }

  /** The sidecar's one update gets through exactly when the call does, nobody wrote to the run
      since the sidecar read it, and the schema, if enforced, takes the phase that was read and
      the states of the claim. */
  lemma ReportGetsThroughExactlyWhen(c: Config, s: State, pod: Key, fails: bool, claim: R.Claim, order: seq<string>)
    requires Reachable(c, s) && SidecarCan(s, WriteReport(pod, fails))
    requires BuiltWith(c.decode, s.cluster.sidecars[pod].report, s.cluster.sidecars[pod].read.run.spec, claim, order)
    ensures
      var h, u := s.cluster.sidecars[pod], DoSidecar(c, s, WriteReport(pod, fails));
      && pod in u.cluster.sidecars
      && u.cluster.sidecars[pod] ==
         if !fails && Untouched(s.log, h.read.version, h.run) && AdmitsReported(c, h.read.run.status.phase, claim.cases)
         then Done else Dead
  {
    var h := s.cluster.sidecars[pod];
    assert Genuine(s.log, h.run, h.read) by {
      ReachableStore(c, s);
    }
    StoredExactlyWhen(c, s.log, h.run, SetReport(pod, h.report), h.read);
    BuiltReportAdmitted(c.decode, claim, FlagsOf(h.read.run.spec), order);
    hide Reachable, TryPut, R.BuildReport, R.IsOrder, R.ClaimSafe, AdmitsReport, KnownStates, Untouched;
  }

  /** Every stored report says of some claim, row by row, what the two flags of the spec it was
      stored beside ask for: all logs if all results' logs are asked for, and the resources of
      passed cases if compliant resources are. */
  lemma StoredReportsReadOff(c: Config, s: State, i: nat) returns (claim: R.Claim, order: seq<string>)
    requires Reachable(c, s) && i < |s.log| && s.log[i].op.SetReport?
    ensures RunAt(s.log, i, s.log[i].key).Some? && R.IsOrder(claim.cases, order)
    ensures
      var spec := RunAt(s.log, i, s.log[i].key).value.spec;
      R.ReadsOff(c.decode, s.log[i].op.report, claim, order, spec.showAllResultsLogs, spec.showCompliantResourcesAlways)
  {
    ReportsAreRight(c, s, i);
    hide Reachable, R.BuildReport, R.ReadsOff;
    var spec := RunAt(s.log, i, s.log[i].key).value.spec;
    claim, order :| BuiltWith(c.decode, s.log[i].op.report, spec, claim, order);
    R.ReportReadsOff(c.decode, claim, FlagsOf(spec), order);
  }

  // ------------------------------------------- who a stored report is from

  /** The write at `i` stored a report of that very incarnation of the run. */
  predicate ReportedAt(log: Log, i: nat, k: Key, uid: nat)
    requires i < |log|
  {
    log[i].key == k && log[i].op.SetReport? && log[i].value.Some? && log[i].value.value.uid == uid
  }

  ghost predicate Reported(log: Log, t: nat, k: Key, uid: nat)
    requires t <= |log|
  {
    exists i :: 0 <= i < t && ReportedAt(log, i, k, uid)
  }

  lemma {:induction false} ReportedExactlyWhen(log: Log, t: nat, k: Key)
    requires Atomic(log) && FreshEntries(log) && t <= |log|
    requires At(log, t, k).Some?
    ensures At(log, t, k).value.run.status.report.Some? <==> Reported(log, t, k, At(log, t, k).value.run.uid)
  {
    if t != 0 {
      assert EntryAtomic(log, t - 1) && FreshEntry(log, t - 1);
      var uid := At(log, t, k).value.run.uid;
      if log[t - 1].key != k || !log[t - 1].op.Create? {
        ReportedExactlyWhen(log, t - 1, k);
      } else {
        assert !Reported(log, t, k, uid);
      }
      ReportedOneMore(log, t, k, uid);
    }
  }

  lemma ReportedOneMore(log: Log, t: nat, k: Key, uid: nat)
    requires 0 < t <= |log|
    ensures Reported(log, t, k, uid) <==> Reported(log, t - 1, k, uid) || ReportedAt(log, t - 1, k, uid)
  {
  }

  /** A live run has a report if and only if some sidecar stored one in this incarnation of it,
      whether or not its name was used before. */
  lemma ReportIffStored(c: Config, s: State, k: Key)
    requires Reachable(c, s) && Now(s.log, k).Some?
    ensures Now(s.log, k).value.run.status.report.Some? <==> Reported(s.log, |s.log|, k, Now(s.log, k).value.run.uid)
  {
    hide Reachable, Inv;
    ReachableInv(c, s);
    InvParts(c, s);
    ReportedExactlyWhen(s.log, |s.log|, k);
  }

  // ------------------------------------- the sidecar of the pod a run names

  lemma OneNameEach(issued: seq<Key>, k: Key, name: string, other: string)
    requires IssuedOnce(issued, k) && Owned(issued, k, name) && Owned(issued, k, other)
    ensures name == other
  {
    var i :| IssuedAs(issued, k, name, i);
    var j :| IssuedAs(issued, k, other, j);
    assert issued[i - 1] == k && issued[j - 1] == k;
  }

  /** All objects ever stored under a name created once are of one incarnation. */
  lemma {:induction false} OneIncarnation(log: Log, t: nat, k: Key, i: nat)
    requires Atomic(log) && t <= |log| && Creations(log[..t], k) <= 1
    requires At(log, t, k).Some? && i < t && log[i].key == k && log[i].value.Some?
    ensures log[i].value.value.uid == At(log, t, k).value.run.uid
  {
    if i < t - 1 {
      assert EntryAtomic(log, t - 1);
      assert log[..t] == log[..t - 1] + [log[t - 1]];
      CreationsAppend(log[..t - 1], log[t - 1], k);
      if log[t - 1].key == k && log[t - 1].op.Create? {
        NeverSeen(log, i + 1, t - 1, k);
        assert false;
      } else {
        OneIncarnation(log, t - 1, k, i);
      }
    }
  }

  lemma DoneMeansReported(log: Log, issued: seq<Key>, sidecars: map<Key, Sidecar>, k: Key, pod: Key)
    requires Atomic(log) && Creations(log, k) == 1 && Now(log, k).Some?
    requires AuthorsFinished(log, sidecars, issued) && DoneReported(log, sidecars)
    requires Owned(issued, k, pod.name) && pod in sidecars && sidecars[pod].Done?
    ensures Reported(log, |log|, k, Now(log, k).value.run.uid)
  {
    assert Authored(log, pod);
    var i :| 0 <= i < |log| && log[i].op.SetReport? && log[i].op.author == pod;
    OwnedUnique(issued, log[i].key, k, pod.name);
    assert EntryAtomic(log, i);
    assert log[..|log|] == log;
    OneIncarnation(log, |log|, k, i);
    assert ReportedAt(log, i, k, Now(log, k).value.run.uid);
  }

  lemma ReportedMeansDone(log: Log, issued: seq<Key>, sidecars: map<Key, Sidecar>, k: Key, uid: nat, pod: Key)
    requires AuthorsFinished(log, sidecars, issued) && IssuedOnce(issued, k)
    requires Owned(issued, k, pod.name) && pod.ns == k.ns && Reported(log, |log|, k, uid)
    ensures pod in sidecars && sidecars[pod].Done?
  {
    var i :| 0 <= i < |log| && ReportedAt(log, i, k, uid);
    var author := log[i].op.author;
    assert Aimed(issued, author, k);
    OneNameEach(issued, k, author.name, pod.name);
    assert author == pod;
  }

  /** When a run has its report: a run whose name is not reused and that names a pod has one if
      and only if the sidecar of that pod is done, that is, got its one update through. */
  lemma ReportIffSidecarDone(c: Config, s: State, k: Key)
    requires Reachable(c, s)
    requires Creations(s.log, k) == 1 && Now(s.log, k).Some? && Now(s.log, k).value.run.status.podName.Some?
    ensures
      var status := Now(s.log, k).value.run.status;
      var pod := Key(k.ns, status.podName.value);
      && pod in s.cluster.sidecars
      && (status.report.Some? <==> s.cluster.sidecars[pod].Done?)
  {
    hide Reachable, Inv, StageInv, LaunchInv, SidecarsNamed;
    ReachableInv(c, s);
    InvParts(c, s);
    ReportIffStored(c, s, k);
    var run := Now(s.log, k).value.run;
    var pod := Key(k.ns, run.status.podName.value);
    NowNamesSidecar(s, k);
    PastOwnedNow(s.log, s.ctl.issued, k);
    LaunchIsOnce(s, k);
    hide Reported, Owned, NameInv, SidecarInv;
    if run.status.report.Some? {
      ReportedMeansDone(s.log, s.ctl.issued, s.cluster.sidecars, k, run.uid, pod);
    }
    if s.cluster.sidecars[pod].Done? {
      DoneMeansReported(s.log, s.ctl.issued, s.cluster.sidecars, k, pod);
    }
  }

  lemma LaunchIsOnce(s: State, k: Key)
    requires LaunchInv(s) && Creations(s.log, k) == 1 && Now(s.log, k).Some?
    ensures IssuedOnce(s.ctl.issued, k)
  {
    assert LaunchOf(s, k);
  }
}
