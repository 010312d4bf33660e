/** The sidecar's report as it is built: counters, a growing list of results, and rows and
    resource maps filled in place, proved against the report as a function of the claim. */
module ReportBuilder {
  import opened Api
  import opened ReportModel

  /** The sidecar's copy of the CertsuiteRun object. */
  class CertsuiteRun {
    const uid: nat
    var spec: RunSpec
    var status: RunStatus

    constructor (run: Run)
      ensures Value() == run
    {
      uid := run.uid;
      spec := run.spec;
      status := run.status;
    }

    ghost function Value(): Run
      reads this
    {
      Run(uid, spec, status)
    }
  }

  /** One result row while it is being filled in. */
  class TestCase {
    const testCaseName: string
    const description: string
    const result: string
    var reason: string
    var remediation: string
    var logs: string
    var targetResources: Option<TargetResources>

    constructor (testCaseName: string, description: string, result: string)
      ensures Value() == TestCaseResult(testCaseName, description, result, "", "", "", None)
    {
      this.testCaseName := testCaseName;
      this.description := description;
      this.result := result;
      reason, remediation, logs, targetResources := "", "", "", None;
    }

    function Value(): TestCaseResult
      reads this
    {
      TestCaseResult(testCaseName, description, result, reason, remediation, logs, targetResources)
    }

    /** Fills in the targets the check details tell of; a failed type assertion stops it. */
    method SetTargets(decode: Decoder, details: string) returns (ok: bool)
      modifies this`targetResources
      ensures ok <==> (details != "" && decode(details).Some? ==>
                         AllZippable(decode(details).value.compliant) && AllZippable(decode(details).value.nonCompliant))
      ensures ok ==> targetResources ==
                     if details == "" || decode(details).None? then old(targetResources)
                     else
                       Some(TargetResources(ZipAll(decode(details).value.compliant),
                                            ZipAll(decode(details).value.nonCompliant)))
    {
      if details == "" {
        return true;
      }
      var decoded := decode(details);
      if decoded.None? {
        return true;
      }
      var compliant := GetTargetResources(decoded.value.compliant);
      if compliant.None? {
        return false;
      }
      var nonCompliant := GetTargetResources(decoded.value.nonCompliant);
      if nonCompliant.None? {
        return false;
      }
      targetResources := Some(TargetResources(compliant.value, nonCompliant.value));
      return true;
    }
  }

  /** One map per object, filled key by key; None when a type assertion or an index fails. */
  method GetTargetResources(targets: seq<RawObject>) returns (resources: Option<seq<TargetResource>>)
    ensures resources.Some? <==> AllZippable(targets)
    ensures resources.Some? ==> resources.value == ZipAll(targets)
  {
    var maps: seq<TargetResource> := [];
    for i := 0 to |targets|
      invariant AllZippable(targets[..i])
      invariant maps == ZipAll(targets[..i])
    {
      maps := maps + [map[]];
      if targets[i].keys.NotAList? || targets[i].values.NotAList? {
        assert !Zippable(targets[i]);
        return None;
      }
      var keys, values := targets[i].keys.items, targets[i].values.items;
      for j := 0 to |keys|
        invariant |maps| == i + 1 && maps[..i] == ZipAll(targets[..i])
        invariant j <= |values|
        invariant forall l :: 0 <= l < j ==> keys[l].Text? && values[l].Text?
        invariant maps[i] == ZipItems(keys, values, j)
      {
        if keys[j].NotText? || j >= |values| || values[j].NotText? {
          assert !Zippable(targets[i]);
          return None;
        }
        maps := maps[i := maps[i][keys[j].text := values[j].text]];
      }
      assert Zippable(targets[i]);
      ZipItemsIsZip(targets[i], |keys|);
      assert targets[..i + 1] == targets[..i] + [targets[i]];
      assert maps == maps[..i] + [maps[i]];
    }
    assert targets[..|targets|] == targets;
    return Some(maps);
  }

  function ZipItems(keys: seq<Item>, values: seq<Item>, n: nat): TargetResource
    requires n <= |keys| && n <= |values|
    requires forall l :: 0 <= l < n ==> keys[l].Text? && values[l].Text?
  {
    if n == 0 then map[] else ZipItems(keys, values, n - 1)[keys[n - 1].text := values[n - 1].text]
  }

  lemma {:induction false} ZipItemsIsZip(o: RawObject, n: nat)
    requires Zippable(o) && n <= |o.keys.items|
    ensures ZipItems(o.keys.items, o.values.items, n) == ZipFirst(o, n)
  {
    if n != 0 {
      ZipItemsIsZip(o, n - 1);
    }
  }

  /** The row of one case, set field by field. */
  method BuildRow(decode: Decoder, flags: Flags, name: string, tc: CaseResult) returns (row: TestCase, ok: bool)
    ensures fresh(row)
    ensures ok <==> RowSafe(decode, tc, flags)
    ensures ok ==> row.Value() == Row(decode, name, tc, flags)
  {
    StatesDiffer();
    row := new TestCase(name, tc.description, tc.state);
    if tc.state == STATE_SKIPPED {
      row.reason := tc.skipReason;
    } else if tc.state == STATE_FAILED {
      row.reason := tc.failureReason;
      row.logs := tc.output;
      row.remediation := tc.remediation;
    }
    if tc.state == STATE_FAILED || (tc.state == STATE_PASSED && flags.compliantAlways) {
      ok := row.SetTargets(decode, tc.checkDetails);
      if !ok {
        return;
      }
    }
    if flags.allLogs {
      row.logs := tc.output;
    }
    return row, true;
  }

  lemma StatesDiffer()
    ensures STATE_PASSED != STATE_SKIPPED && STATE_PASSED != STATE_FAILED && STATE_PASSED != STATE_ERROR
    ensures STATE_SKIPPED != STATE_FAILED && STATE_SKIPPED != STATE_ERROR && STATE_FAILED != STATE_ERROR
  {
    assert STATE_PASSED[0] == 'p' && STATE_SKIPPED[0] == 's' && STATE_FAILED[0] == 'f' && STATE_ERROR[0] == 'e';
  }

  lemma CountOneMore(cases: Cases, order: seq<string>, name: string, state: string)
    requires name in cases
    requires forall i :: 0 <= i < |order| ==> order[i] in cases
    ensures CountState(cases, order + [name], state) ==
            CountState(cases, order, state) + if cases[name].state == state then 1 else 0
  {
    assert (order + [name])[..|order + [name]| - 1] == order;
  }

  /** One more case counts once in the total and once in the counter of its state, if that
      state has one. */
  lemma CountNext(cases: Cases, order: seq<string>, name: string)
    requires name in cases
    requires forall i :: 0 <= i < |order| ==> order[i] in cases
    ensures
      var s, state := Summarize(cases, order), cases[name].state;
      Summarize(cases, order + [name]) ==
      if state == STATE_PASSED then s.(total := s.total + 1, passed := s.passed + 1)
      else if state == STATE_SKIPPED then s.(total := s.total + 1, skipped := s.skipped + 1)
      else if state == STATE_FAILED then s.(total := s.total + 1, failed := s.failed + 1)
      else if state == STATE_ERROR then s.(total := s.total + 1, errored := s.errored + 1)
      else s.(total := s.total + 1)
  {
    StatesDiffer();
    CountOneMore(cases, order, name, STATE_PASSED);
    CountOneMore(cases, order, name, STATE_SKIPPED);
    CountOneMore(cases, order, name, STATE_FAILED);
    CountOneMore(cases, order, name, STATE_ERROR);
    hide CountState;
  }

  /** `order` lists, each once, the names of the claim that are not remaining. */
  ghost predicate PartialOrder(cases: Cases, remaining: set<string>, order: seq<string>) {
    && remaining <= cases.Keys
    && (forall i :: 0 <= i < |order| ==> order[i] in cases && order[i] !in remaining)
    && (forall i, j :: 0 <= i < j < |order| ==> order[i] != order[j])
    && (forall name :: name in cases ==> name in remaining || name in order)
  }

  /** The results are the safely built rows of the cases listed so far. */
  ghost predicate RowsSoFar(decode: Decoder, cases: Cases, flags: Flags, order: seq<string>, results: seq<TestCaseResult>) {
    && |results| == |order|
    && (forall i :: 0 <= i < |order| ==>
          order[i] in cases && RowSafe(decode, cases[order[i]], flags)
          && results[i] == Row(decode, order[i], cases[order[i]], flags))
  }

  lemma OneMore(decode: Decoder, cases: Cases, flags: Flags, remaining: set<string>, order: seq<string>,
                results: seq<TestCaseResult>, name: string)
    requires PartialOrder(cases, remaining, order) && RowsSoFar(decode, cases, flags, order, results)
    requires name in remaining && RowSafe(decode, cases[name], flags)
    ensures PartialOrder(cases, remaining - {name}, order + [name])
    ensures RowsSoFar(decode, cases, flags, order + [name], results + [Row(decode, name, cases[name], flags)])
  {
    hide RowSafe, Row;
  }

  lemma AllListed(decode: Decoder, claim: Claim, flags: Flags, order: seq<string>, results: seq<TestCaseResult>)
    requires PartialOrder(claim.cases, {}, order) && RowsSoFar(decode, claim.cases, flags, order, results)
    ensures IsOrder(claim.cases, order) && ClaimSafe(decode, claim.cases, flags)
    ensures results == Rows(decode, claim.cases, flags, order)
  {
    hide RowSafe, Row;
  }

  lemma NoneListed(decode: Decoder, cases: Cases, flags: Flags)
    ensures PartialOrder(cases, cases.Keys, []) && RowsSoFar(decode, cases, flags, [], [])
    ensures Summarize(cases, []) == Summary(0, 0, 0, 0, 0)
  {
  }

  /** Sets the run's report from a claim, iterating its map of results in an order of the
      map's own choosing. It stops, with the status as it was, exactly when some case that
      shows its targets has check details of the wrong shape. */
  method SetRunCRStatus(decode: Decoder, runCR: CertsuiteRun, claim: Claim) returns (ok: bool, order: seq<string>)
    modifies runCR`status
    ensures ok <==> ClaimSafe(decode, claim.cases,
                      Flags(runCR.spec.showAllResultsLogs, runCR.spec.showCompliantResourcesAlways))
    ensures !ok ==> runCR.status == old(runCR.status)
    ensures ok ==> IsOrder(claim.cases, order)
    ensures ok ==> runCR.status ==
                   old(runCR.status).(report := Some(BuildReport(decode, claim,
                     Flags(runCR.spec.showAllResultsLogs, runCR.spec.showCompliantResourcesAlways), order)))
  {
    hide PartialOrder, RowsSoFar, Row, RowSafe, Rows, Summarize, IsOrder;
    var cases := claim.cases;
    var flags := Flags(runCR.spec.showAllResultsLogs, runCR.spec.showCompliantResourcesAlways);
    var results: seq<TestCaseResult> := [];
    var total: nat, passed: nat, skipped: nat, failed: nat, errored: nat := 0, 0, 0, 0, 0;
    var remaining := cases.Keys;
    order := [];
    NoneListed(decode, cases, flags);
    while remaining != {}
      invariant runCR.status == old(runCR.status)
      invariant PartialOrder(cases, remaining, order)
      invariant RowsSoFar(decode, cases, flags, order, results)
      invariant remaining <= cases.Keys && forall i :: 0 <= i < |order| ==> order[i] in cases
      invariant Summary(total, passed, skipped, failed, errored) == Summarize(cases, order)
      decreases |remaining|
    {
      var name :| name in remaining;
      var row, safe := BuildRow(decode, flags, name, cases[name]);
      if !safe {
        return false, order;
      }
      var state := cases[name].state;
      CountNext(cases, order, name);
      if state == STATE_PASSED {
        passed := passed + 1;
      } else if state == STATE_SKIPPED {
        skipped := skipped + 1;
      } else if state == STATE_FAILED {
        failed := failed + 1;
      } else if state == STATE_ERROR {
        errored := errored + 1;
      }
      total := total + 1;
      OneMore(decode, cases, flags, remaining, order, results, name);
      remaining := remaining - {name};
      order := order + [name];
      results := results + [row.Value()];
    }
    AllListed(decode, claim, flags, order, results);
    var verdict;
    if errored >= 1 {
      verdict := VERDICT_ERROR;
    } else if failed >= 1 {
      verdict := VERDICT_FAIL;
    } else if skipped == total {
      verdict := VERDICT_SKIP;
    } else {
      verdict := VERDICT_PASS;
    }
    runCR.status := runCR.status.(report :=
      Some(Report(verdict, claim.ocpVersion, claim.suiteVersion, Summary(total, passed, skipped, failed, errored), results)));
    return true, order;
  }
}
