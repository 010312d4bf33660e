/** The report a sidecar makes of a claim, as a function of the claim, the run's display
    flags and the order in which the claim's map of results happened to be iterated. */
module ReportModel {
  import opened Api
  import opened Bags

  datatype CaseResult = CaseResult(
    state: string,
    description: string,
    remediation: string,
    skipReason: string,
    failureReason: string,
    output: string,
    checkDetails: string)

  type Cases = map<string, CaseResult>

  datatype Claim = Claim(cases: Cases, ocpVersion: string, suiteVersion: string)

  /** A decoded JSON value where a list of strings is expected. */
  datatype Item = Text(text: string) | NotText

  datatype List = Items(items: seq<Item>) | NotAList

  datatype RawObject = RawObject(keys: List, values: List)

  datatype CheckDetails = CheckDetails(compliant: seq<RawObject>, nonCompliant: seq<RawObject>)

  /** JSON decoding of the check details, which this model does not look into. */
  type Decoder = string -> Option<CheckDetails>

  datatype Flags = Flags(allLogs: bool, compliantAlways: bool)

  // -------------------------------------------------- target resources

  /** The object's type assertions hold and there is a value for every key. */
  predicate Zippable(o: RawObject) {
    && o.keys.Items? && o.values.Items?
    && |o.keys.items| <= |o.values.items|
    && forall j :: 0 <= j < |o.keys.items| ==> o.keys.items[j].Text? && o.values.items[j].Text?
  }

  predicate AllZippable(os: seq<RawObject>) {
    forall i :: 0 <= i < |os| ==> Zippable(os[i])
  }

  /** The map of the first `n` keys to their values, later pairs overwriting earlier ones. */
  function ZipFirst(o: RawObject, n: nat): (m: TargetResource)
    requires Zippable(o) && n <= |o.keys.items|
  {
    if n == 0 then map[]
    else ZipFirst(o, n - 1)[o.keys.items[n - 1].text := o.values.items[n - 1].text]
  }

  function Zip(o: RawObject): TargetResource
    requires Zippable(o)
  {
    ZipFirst(o, |o.keys.items|)
  }

  lemma {:induction false} ZipKeys(o: RawObject, n: nat, k: string)
    requires Zippable(o) && n <= |o.keys.items|
    ensures k in ZipFirst(o, n) <==> exists j :: 0 <= j < n && o.keys.items[j] == Text(k)
  {
    if n != 0 {
      ZipKeys(o, n - 1, k);
      if o.keys.items[n - 1].text == k {
        assert o.keys.items[n - 1] == Text(k);
      } else if k in ZipFirst(o, n - 1) {
        var j :| 0 <= j < n - 1 && o.keys.items[j] == Text(k);
      }
    }
  }

  predicate LastOfItsKey(o: RawObject, n: nat, j: nat)
    requires Zippable(o) && j < n <= |o.keys.items|
  {
    forall l :: j < l < n ==> o.keys.items[l] != o.keys.items[j]
  }

  lemma {:induction false} ZipLastValue(o: RawObject, n: nat, j: nat)
    requires Zippable(o) && j < n <= |o.keys.items| && LastOfItsKey(o, n, j)
    ensures o.keys.items[j].text in ZipFirst(o, n) && ZipFirst(o, n)[o.keys.items[j].text] == o.values.items[j].text
  {
    if j < n - 1 {
      assert o.keys.items[n - 1] != o.keys.items[j];
      ZipLastValue(o, n - 1, j);
    }
  }

  /** A key maps to the value at its last occurrence, and there are no other keys. */
  lemma ZipLastWins(o: RawObject)
    requires Zippable(o)
    ensures forall k :: k in Zip(o) <==> exists j :: 0 <= j < |o.keys.items| && o.keys.items[j] == Text(k)
    ensures forall j :: 0 <= j < |o.keys.items| && LastOfItsKey(o, |o.keys.items|, j) ==>
              o.keys.items[j].text in Zip(o) && Zip(o)[o.keys.items[j].text] == o.values.items[j].text
  {
    var n := |o.keys.items|;
    forall k ensures k in Zip(o) <==> exists j :: 0 <= j < n && o.keys.items[j] == Text(k) {
      ZipKeys(o, n, k);
    }
    forall j | 0 <= j < n && LastOfItsKey(o, n, j)
      ensures o.keys.items[j].text in Zip(o) && Zip(o)[o.keys.items[j].text] == o.values.items[j].text
    {
      ZipLastValue(o, n, j);
    }
  }

  /** With distinct keys every pair can be read back from the map. */
  lemma ZipRecoverable(o: RawObject, j: nat)
    requires Zippable(o) && j < |o.keys.items|
    requires forall i, l :: 0 <= i < l < |o.keys.items| ==> o.keys.items[i] != o.keys.items[l]
    ensures o.keys.items[j].text in Zip(o) && Zip(o)[o.keys.items[j].text] == o.values.items[j].text
  {
    ZipLastValue(o, |o.keys.items|, j);
  }

  function ZipAll(os: seq<RawObject>): seq<TargetResource>
    requires AllZippable(os)
  {
    seq(|os|, i requires 0 <= i < |os| => Zip(os[i]))
  }

  // ------------------------------------------------------- one test case

  predicate ShowsTargets(c: CaseResult, f: Flags) {
    c.state == STATE_FAILED || (c.state == STATE_PASSED && f.compliantAlways)
  }

  /** Building this case's row does not stop the sidecar with a failed type assertion. */
  predicate RowSafe(d: Decoder, c: CaseResult, f: Flags) {
    ShowsTargets(c, f) && c.checkDetails != "" && d(c.checkDetails).Some? ==>
      AllZippable(d(c.checkDetails).value.compliant) && AllZippable(d(c.checkDetails).value.nonCompliant)
  }

  function TargetsOf(d: Decoder, c: CaseResult, f: Flags): Option<TargetResources>
    requires RowSafe(d, c, f)
  {
    if !ShowsTargets(c, f) || c.checkDetails == "" || d(c.checkDetails).None? then None
    else
      Some(TargetResources(ZipAll(d(c.checkDetails).value.compliant), ZipAll(d(c.checkDetails).value.nonCompliant)))
  }

  function Row(d: Decoder, name: string, c: CaseResult, f: Flags): TestCaseResult
    requires RowSafe(d, c, f)
  {
    TestCaseResult(
      name, c.description, c.state,
      if c.state == STATE_SKIPPED then c.skipReason else if c.state == STATE_FAILED then c.failureReason else "",
      if c.state == STATE_FAILED then c.remediation else "",
      if c.state == STATE_FAILED || f.allLogs then c.output else "",
      TargetsOf(d, c, f))
  }

  // --------------------------------------------------------- the whole claim

  /** `order` lists the test names of the claim, each once. */
  predicate IsOrder(cases: Cases, order: seq<string>) {
    && (forall i :: 0 <= i < |order| ==> order[i] in cases)
    && (forall i, j :: 0 <= i < j < |order| ==> order[i] != order[j])
    && (forall name :: name in cases ==> name in order)
  }

  predicate ClaimSafe(d: Decoder, cases: Cases, f: Flags) {
    forall name :: name in cases ==> RowSafe(d, cases[name], f)
  }

  function Rows(d: Decoder, cases: Cases, f: Flags, order: seq<string>): (rows: seq<TestCaseResult>)
    requires forall i :: 0 <= i < |order| ==> order[i] in cases
    requires ClaimSafe(d, cases, f)
  {
    seq(|order|, i requires 0 <= i < |order| => Row(d, order[i], cases[order[i]], f))
  }

  function CountState(cases: Cases, order: seq<string>, state: string): nat
    requires forall i :: 0 <= i < |order| ==> order[i] in cases
  {
    if order == [] then 0
    else CountState(cases, order[..|order| - 1], state) + if cases[order[|order| - 1]].state == state then 1 else 0
  }

  function Summarize(cases: Cases, order: seq<string>): Summary
    requires forall i :: 0 <= i < |order| ==> order[i] in cases
  {
    Summary(|order|, CountState(cases, order, STATE_PASSED), CountState(cases, order, STATE_SKIPPED),
            CountState(cases, order, STATE_FAILED), CountState(cases, order, STATE_ERROR))
  }

  function Verdict(s: Summary): string {
    if s.errored >= 1 then VERDICT_ERROR
    else if s.failed >= 1 then VERDICT_FAIL
    else if s.skipped == s.total then VERDICT_SKIP
    else VERDICT_PASS
  }

  function BuildReport(d: Decoder, claim: Claim, f: Flags, order: seq<string>): Report
    requires forall i :: 0 <= i < |order| ==> order[i] in claim.cases
    requires ClaimSafe(d, claim.cases, f)
  {
    var s := Summarize(claim.cases, order);
    Report(Verdict(s), claim.ocpVersion, claim.suiteVersion, s, Rows(d, claim.cases, f, order))
  }

  // --------------------------- the counters, said without any order at all

  function Named(cases: Cases, state: string): set<string> {
    set name | name in cases && cases[name].state == state
  }

  ghost function Listed(cases: Cases, order: seq<string>, state: string): set<string>
    requires forall i :: 0 <= i < |order| ==> order[i] in cases
  {
    set name | name in order && cases[name].state == state
  }

  lemma ListedOneMore(cases: Cases, init: seq<string>, last: string, state: string)
    requires forall i :: 0 <= i < |init| ==> init[i] in cases
    requires last in cases && last !in init
    ensures last !in Listed(cases, init, state)
    ensures Listed(cases, init + [last], state) ==
            Listed(cases, init, state) + if cases[last].state == state then {last} else {}
  {
  }

  lemma {:induction false} CountIsCardinality(cases: Cases, order: seq<string>, state: string)
    requires forall i :: 0 <= i < |order| ==> order[i] in cases
    requires forall i, j :: 0 <= i < j < |order| ==> order[i] != order[j]
    ensures CountState(cases, order, state) == |Listed(cases, order, state)|
  {
    if order != [] {
      var init, last := order[..|order| - 1], order[|order| - 1];
      CountIsCardinality(cases, init, state);
      assert order == init + [last];
      assert last !in init;
      ListedOneMore(cases, init, last, state);
      hide Listed;
    }
  }

  lemma OrderCounts(cases: Cases, order: seq<string>, state: string)
    requires IsOrder(cases, order)
    ensures CountState(cases, order, state) == |Named(cases, state)|
  {
    CountIsCardinality(cases, order, state);
    assert Listed(cases, order, state) == Named(cases, state);
  }

  lemma {:induction false} DistinctLength(order: seq<string>)
    requires forall i, j :: 0 <= i < j < |order| ==> order[i] != order[j]
    ensures |set name | name in order| == |order|
  {
    if order != [] {
      var init, last := order[..|order| - 1], order[|order| - 1];
      DistinctLength(init);
      assert order == init + [last];
      assert (set name | name in order) == (set name | name in init) + {last};
    }
  }

  lemma OrderLength(cases: Cases, order: seq<string>)
    requires IsOrder(cases, order)
    ensures |order| == |cases|
  {
    DistinctLength(order);
    assert (set name | name in order) == cases.Keys;
  }

  ghost function Number(cases: Cases, state: string): nat {
    |Named(cases, state)|
  }

  /** What a claim counts up to, said without an order. */
  ghost function Counts(cases: Cases): Summary {
    Summary(|cases|, Number(cases, STATE_PASSED), Number(cases, STATE_SKIPPED),
            Number(cases, STATE_FAILED), Number(cases, STATE_ERROR))
  }

  /** The summary depends on the claim alone, whatever order its map was iterated in. */
  lemma SummaryIsOrderFree(cases: Cases, order: seq<string>)
    requires IsOrder(cases, order)
    ensures Summarize(cases, order) == Counts(cases)
  {
    OrderLength(cases, order);
    OrderCounts(cases, order, STATE_PASSED);
    OrderCounts(cases, order, STATE_SKIPPED);
    OrderCounts(cases, order, STATE_FAILED);
    OrderCounts(cases, order, STATE_ERROR);
  }

  // ------------------------------------------------- order independence

  lemma {:induction false} PermutedOrders(xs: seq<string>, ys: seq<string>)
    requires forall i, j :: 0 <= i < j < |xs| ==> xs[i] != xs[j]
    requires forall i, j :: 0 <= i < j < |ys| ==> ys[i] != ys[j]
    requires forall n :: n in xs <==> n in ys
    ensures multiset(xs) == multiset(ys)
  {
    CountOne(xs);
    CountOne(ys);
    forall n ensures multiset(xs)[n] == multiset(ys)[n] {
      assert n in multiset(xs) <==> n in xs;
      assert n in multiset(ys) <==> n in ys;
    }
  }

  lemma {:induction false} CountOne(xs: seq<string>)
    requires forall i, j :: 0 <= i < j < |xs| ==> xs[i] != xs[j]
    ensures forall n :: multiset(xs)[n] <= 1
  {
    if xs != [] {
      var init, last := xs[..|xs| - 1], xs[|xs| - 1];
      CountOne(init);
      assert xs == init + [last];
      assert last !in init;
    }
  }

  lemma RowsConcat(d: Decoder, cases: Cases, f: Flags, a: seq<string>, b: seq<string>)
    requires forall i :: 0 <= i < |a| ==> a[i] in cases
    requires forall i :: 0 <= i < |b| ==> b[i] in cases
    requires ClaimSafe(d, cases, f)
    ensures Rows(d, cases, f, a + b) == Rows(d, cases, f, a) + Rows(d, cases, f, b)
  {
  }

  function RowBag(d: Decoder, cases: Cases, f: Flags, order: seq<string>): multiset<TestCaseResult>
    requires forall i :: 0 <= i < |order| ==> order[i] in cases
    requires ClaimSafe(d, cases, f)
  {
    multiset(Rows(d, cases, f, order))
  }

  lemma RowBagWithout(d: Decoder, cases: Cases, f: Flags, a: seq<string>, x: string, c: seq<string>)
    requires forall i :: 0 <= i < |a| ==> a[i] in cases
    requires forall i :: 0 <= i < |c| ==> c[i] in cases
    requires x in cases && ClaimSafe(d, cases, f)
    ensures RowBag(d, cases, f, a + [x] + c) == RowBag(d, cases, f, a + c) + multiset{Row(d, x, cases[x], f)}
  {
    hide Row, RowSafe;
    RowsConcat(d, cases, f, a + [x], c);
    RowsConcat(d, cases, f, a, [x]);
    RowsConcat(d, cases, f, a, c);
    assert Rows(d, cases, f, [x]) == [Row(d, x, cases[x], f)];
  }

  lemma {:induction false} RowsPermute(d: Decoder, cases: Cases, f: Flags, xs: seq<string>, ys: seq<string>)
    requires forall i :: 0 <= i < |xs| ==> xs[i] in cases
    requires forall i :: 0 <= i < |ys| ==> ys[i] in cases
    requires ClaimSafe(d, cases, f)
    requires multiset(xs) == multiset(ys)
    ensures RowBag(d, cases, f, xs) == RowBag(d, cases, f, ys)
    decreases |xs|
  {
    hide Row, ClaimSafe, Rows;
    if xs == [] {
      assert |multiset(ys)| == |ys|;
    } else {
      hide RowBag;
      var i := FirstMatch(xs, ys);
      var x, a, c := xs[0], ys[..i], ys[i + 1..];
      RowsPermute(d, cases, f, xs[1..], a + c);
      RowBagWithout(d, cases, f, [], x, xs[1..]);
      RowBagWithout(d, cases, f, a, x, c);
      assert xs == [] + [x] + xs[1..] && [] + xs[1..] == xs[1..];
    }
  }

  /** Two iteration orders give the same summary, the same verdict and the same rows as a bag. */
  lemma ReportIsOrderFree(d: Decoder, claim: Claim, f: Flags, xs: seq<string>, ys: seq<string>)
    requires IsOrder(claim.cases, xs) && IsOrder(claim.cases, ys)
    requires ClaimSafe(d, claim.cases, f)
    ensures
      var a, b := BuildReport(d, claim, f, xs), BuildReport(d, claim, f, ys);
      a.(results := []) == b.(results := []) && multiset(a.results) == multiset(b.results)
  {
    SummaryIsOrderFree(claim.cases, xs);
    SummaryIsOrderFree(claim.cases, ys);
    PermutedOrders(xs, ys);
    RowsPermute(d, claim.cases, f, xs, ys);
  }

  // --------------------------------------------------------- conservation

  /** How many rows show a result, counted on the finished report. */
  function Recount(rows: seq<TestCaseResult>, state: string): nat {
    if rows == [] then 0
    else Recount(rows[..|rows| - 1], state) + if rows[|rows| - 1].result == state then 1 else 0
  }

  lemma {:induction false} RecountIsCount(d: Decoder, cases: Cases, f: Flags, order: seq<string>, state: string)
    requires forall i :: 0 <= i < |order| ==> order[i] in cases
    requires ClaimSafe(d, cases, f)
    ensures Recount(Rows(d, cases, f, order), state) == CountState(cases, order, state)
  {
    if order != [] {
      var init := order[..|order| - 1];
      RecountIsCount(d, cases, f, init, state);
      var rows := Rows(d, cases, f, order);
      assert rows[..|rows| - 1] == Rows(d, cases, f, init);
    }
  }

  lemma {:induction false} KnownStates(cases: Cases, order: seq<string>)
    requires forall i :: 0 <= i < |order| ==> order[i] in cases
    ensures
      var s := Summarize(cases, order);
      && s.passed + s.skipped + s.failed + s.errored <= s.total
      && (s.passed + s.skipped + s.failed + s.errored == s.total <==>
            forall i :: 0 <= i < |order| ==> InStateEnum(cases[order[i]].state))
  {
    if order != [] {
      var init, last := order[..|order| - 1], order[|order| - 1];
      KnownStates(cases, init);
      assert order == init + [last];
      OneState(cases[last].state);
    }
  }

  lemma OneState(state: string)
    ensures
      (if state == STATE_PASSED then 1 else 0) + (if state == STATE_SKIPPED then 1 else 0)
      + (if state == STATE_FAILED then 1 else 0) + (if state == STATE_ERROR then 1 else 0)
      == if InStateEnum(state) then 1 else 0
  {
    assert STATE_PASSED[0] != STATE_SKIPPED[0] && STATE_PASSED[0] != STATE_FAILED[0] && STATE_PASSED[0] != STATE_ERROR[0];
    assert STATE_SKIPPED[0] != STATE_FAILED[0] && STATE_SKIPPED[0] != STATE_ERROR[0] && STATE_FAILED[0] != STATE_ERROR[0];
  }

  /** The rows carry each test name of the claim exactly once. */
  lemma EachNameOnce(d: Decoder, claim: Claim, f: Flags, order: seq<string>)
    requires IsOrder(claim.cases, order)
    requires ClaimSafe(d, claim.cases, f)
    ensures
      var rows := BuildReport(d, claim, f, order).results;
      && |rows| == |claim.cases|
      && (forall i, j :: 0 <= i < j < |rows| ==> rows[i].testCaseName != rows[j].testCaseName)
      && (forall name :: name in claim.cases <==> exists i :: 0 <= i < |rows| && rows[i].testCaseName == name)
  {
    hide TargetsOf, Verdict, Summarize, RowSafe;
    var rows := Rows(d, claim.cases, f, order);
    OrderLength(claim.cases, order);
    assert forall i :: 0 <= i < |order| ==> rows[i].testCaseName == order[i];
    forall name | name in claim.cases ensures exists i :: 0 <= i < |rows| && rows[i].testCaseName == name {
      var i :| 0 <= i < |order| && order[i] == name;
      assert rows[i].testCaseName == name;
    }
  }

  /** Counting the finished rows again gives the summary. */
  lemma SummaryIsRecount(d: Decoder, claim: Claim, f: Flags, order: seq<string>)
    requires IsOrder(claim.cases, order)
    requires ClaimSafe(d, claim.cases, f)
    ensures
      var r := BuildReport(d, claim, f, order);
      r.summary == Summary(|r.results|, Recount(r.results, STATE_PASSED), Recount(r.results, STATE_SKIPPED),
                           Recount(r.results, STATE_FAILED), Recount(r.results, STATE_ERROR))
  {
    RecountIsCount(d, claim.cases, f, order, STATE_PASSED);
    RecountIsCount(d, claim.cases, f, order, STATE_SKIPPED);
    RecountIsCount(d, claim.cases, f, order, STATE_FAILED);
    RecountIsCount(d, claim.cases, f, order, STATE_ERROR);
  }

  /** The four counters add up to the number of cases exactly when every state is a known one. */
  lemma CountersAddUp(cases: Cases, order: seq<string>)
    requires IsOrder(cases, order)
    ensures
      var s := Summarize(cases, order);
      && s.total == |cases|
      && s.passed + s.skipped + s.failed + s.errored <= s.total
      && (s.passed + s.skipped + s.failed + s.errored == s.total <==>
            forall name :: name in cases ==> InStateEnum(cases[name].state))
  {
    OrderLength(cases, order);
    KnownStates(cases, order);
    if forall i :: 0 <= i < |order| ==> InStateEnum(cases[order[i]].state) {
      forall name | name in cases ensures InStateEnum(cases[name].state) {
        var i :| 0 <= i < |order| && order[i] == name;
      }
    }
  }

  // --------------------------------------------------- what each row says

  /** The maps are the objects' own, one each, in their places. */
  predicate ZippedInPlace(maps: seq<TargetResource>, os: seq<RawObject>) {
    |maps| == |os| && forall i :: 0 <= i < |os| ==> Zippable(os[i]) && maps[i] == Zip(os[i])
  }

  /** The row says of the case what there is to say when all logs, or the resources of passed
      cases too, are asked for or not. */
  predicate SaysOf(d: Decoder, row: TestCaseResult, name: string, c: CaseResult, allLogs: bool, compliantAlways: bool) {
    && row.testCaseName == name && row.description == c.description && row.result == c.state
    && (c.state == "skipped" ==> row.reason == c.skipReason && row.remediation == "")
    && (c.state == "failed" ==> row.reason == c.failureReason && row.remediation == c.remediation)
    && (c.state != "skipped" && c.state != "failed" ==> row.reason == "" && row.remediation == "")
    && (c.state == "failed" || allLogs ==> row.logs == c.output)
    && (c.state != "failed" && !allLogs ==> row.logs == "")
    && (row.targetResources.Some? <==>
          && (c.state == "failed" || (c.state == "passed" && compliantAlways))
          && c.checkDetails != "" && d(c.checkDetails).Some?)
    && (row.targetResources.Some? ==>
          && ZippedInPlace(row.targetResources.value.compliant, d(c.checkDetails).value.compliant)
          && ZippedInPlace(row.targetResources.value.nonCompliant, d(c.checkDetails).value.nonCompliant))
  }

  lemma RowSays(d: Decoder, name: string, c: CaseResult, f: Flags)
    requires RowSafe(d, c, f)
    ensures SaysOf(d, Row(d, name, c, f), name, c, f.allLogs, f.compliantAlways)
  {
    assert "passed" == STATE_PASSED && "skipped" == STATE_SKIPPED && "failed" == STATE_FAILED;
    assert "skipped"[0] != "failed"[0] && "passed"[0] != "failed"[0];
    hide Zip;
  }

  /** The report says, row by row, what there is to say of the claim's cases, and its versions. */
  predicate ReadsOff(d: Decoder, r: Report, claim: Claim, order: seq<string>, allLogs: bool, compliantAlways: bool) {
    && r.ocpVersion == claim.ocpVersion && r.cnfCertSuiteVersion == claim.suiteVersion
    && |r.results| == |order|
    && forall i :: 0 <= i < |order| ==>
         && order[i] in claim.cases
         && SaysOf(d, r.results[i], order[i], claim.cases[order[i]], allLogs, compliantAlways)
  }

  /** Read off the claim, row by row: a skipped case gives its skip reason, a failed one its
      failure reason, its remediation and its output, any other neither reason nor remediation;
      the output is shown of other cases exactly if all logs are asked for; and the target
      resources are the case's own, list by list and object by object, exactly of a failed case,
      or of a passed one if that is asked for, whose details decode. The versions are the claim's. */
  lemma ReportReadsOff(d: Decoder, claim: Claim, f: Flags, order: seq<string>)
    requires IsOrder(claim.cases, order) && ClaimSafe(d, claim.cases, f)
    ensures ReadsOff(d, BuildReport(d, claim, f, order), claim, order, f.allLogs, f.compliantAlways)
  {
    hide SaysOf, Row, RowSafe, Verdict, Summarize;
    var cases := claim.cases;
    forall i | 0 <= i < |order|
      ensures SaysOf(d, Row(d, order[i], cases[order[i]], f), order[i], cases[order[i]], f.allLogs, f.compliantAlways)
    {
      RowSays(d, order[i], cases[order[i]], f);
    }
  }

  // ---------------------------------------------- the verdict is a homomorphism

  /** How bad a case is. A state outside the known four counts like a pass. */
  function Severity(state: string): nat {
    if state == STATE_SKIPPED then 0
    else if state == STATE_FAILED then 2
    else if state == STATE_ERROR then 3
    else 1
  }

  function VerdictOf(severity: nat): string {
    match severity
    case 0 => VERDICT_SKIP
    case 1 => VERDICT_PASS
    case 2 => VERDICT_FAIL
    case _ => VERDICT_ERROR
  }

  function Max(a: nat, b: nat): nat {
    if a < b then b else a
  }

  ghost predicate IsWorst(cases: Cases, severity: nat) {
    && (forall name :: name in cases ==> Severity(cases[name].state) <= severity)
    && (if |cases| == 0 then severity == 0 else exists name :: name in cases && Severity(cases[name].state) == severity)
  }

  lemma WorstExists(cases: Cases) returns (severity: nat)
    ensures IsWorst(cases, severity)
    ensures severity <= 3
  {
    if name :| name in cases && Severity(cases[name].state) == 3 {
      severity := 3;
    } else if name :| name in cases && Severity(cases[name].state) == 2 {
      severity := 2;
    } else if name :| name in cases && Severity(cases[name].state) == 1 {
      severity := 1;
    } else {
      severity := 0;
      if |cases| != 0 {
        var name :| name in cases.Keys;
        assert name in cases && Severity(cases[name].state) == 0;
      }
    }
  }

  lemma NamedNonEmpty(cases: Cases, state: string)
    ensures |Named(cases, state)| >= 1 <==> exists name :: name in cases && cases[name].state == state
  {
    if name :| name in cases && cases[name].state == state {
      assert name in Named(cases, state);
    } else {
      assert Named(cases, state) == {};
    }
  }

  lemma AllSkipped(cases: Cases)
    ensures |Named(cases, STATE_SKIPPED)| == |cases| <==> forall name :: name in cases ==> cases[name].state == STATE_SKIPPED
  {
    var skipped := Named(cases, STATE_SKIPPED);
    assert skipped <= cases.Keys;
    if forall name :: name in cases ==> cases[name].state == STATE_SKIPPED {
      assert skipped == cases.Keys;
    } else {
      var name :| name in cases && cases[name].state != STATE_SKIPPED;
      assert skipped <= cases.Keys - {name};
      Smaller(skipped, cases.Keys - {name});
    }
  }

  lemma {:induction false} Smaller(a: set<string>, b: set<string>)
    requires a <= b
    ensures |a| <= |b|
  {
    if x :| x in a {
      Smaller(a - {x}, b - {x});
    }
  }

  /** The verdict is the worst severity among the cases, and "skip" for an empty claim. */
  lemma VerdictIsWorst(cases: Cases, order: seq<string>, severity: nat)
    requires IsOrder(cases, order)
    requires IsWorst(cases, severity)
    ensures Verdict(Summarize(cases, order)) == VerdictOf(severity)
  {
    SummaryIsOrderFree(cases, order);
    NamedNonEmpty(cases, STATE_ERROR);
    NamedNonEmpty(cases, STATE_FAILED);
    AllSkipped(cases);
    OneState(STATE_ERROR);
    OneState(STATE_FAILED);
    if name :| name in cases && cases[name].state == STATE_ERROR {
      assert Severity(cases[name].state) == 3;
    } else if name :| name in cases && cases[name].state == STATE_FAILED {
      assert Severity(cases[name].state) == 2;
    } else if name :| name in cases && cases[name].state != STATE_SKIPPED {
      assert Severity(cases[name].state) == 1;
    }
  }

  /** The verdict read off the claim's cases, and the report's counters. */
  lemma VerdictReadsOff(d: Decoder, claim: Claim, f: Flags, order: seq<string>)
    requires IsOrder(claim.cases, order) && ClaimSafe(d, claim.cases, f)
    ensures
      var r, cases := BuildReport(d, claim, f, order), claim.cases;
      && (r.verdict == "error" <==> exists n :: n in cases && cases[n].state == "error")
      && (r.verdict == "fail" <==>
            (exists n :: n in cases && cases[n].state == "failed") && forall n :: n in cases ==> cases[n].state != "error")
      && (r.verdict == "skip" <==> forall n :: n in cases ==> cases[n].state == "skipped")
      && (r.verdict != "error" && r.verdict != "fail" && r.verdict != "skip" ==> r.verdict == "pass")
      && r.summary.total == |cases|
      && r.summary.passed == |set n | n in cases && cases[n].state == "passed"|
      && r.summary.skipped == |set n | n in cases && cases[n].state == "skipped"|
      && r.summary.failed == |set n | n in cases && cases[n].state == "failed"|
      && r.summary.errored == |set n | n in cases && cases[n].state == "error"|
  {
    var cases := claim.cases;
    SummaryIsOrderFree(cases, order);
    NamedNonEmpty(cases, "error");
    NamedNonEmpty(cases, "failed");
    AllSkipped(cases);
    hide RowSafe, Summarize, Row, IsOrder;
    assert "error"[0] != "skipped"[0] && "failed"[0] != "skipped"[0] && "error"[0] != "failed"[0];
    assert "error"[0] != "skip"[0] && "error"[0] != "fail"[0] && "error"[0] != "pass"[0];
    assert "fail"[0] != "skip"[0] && "fail"[0] != "pass"[0] && "pass"[0] != "skip"[0];
  }

  lemma WorstOfUnion(a: Cases, b: Cases, x: nat, y: nat)
    requires a.Keys !! b.Keys
    requires IsWorst(a, x) && IsWorst(b, y)
    ensures IsWorst(a + b, Max(x, y))
  {
    var c := a + b;
    assert |a| == 0 ==> c == b;
    assert |b| == 0 ==> c == a;
    if |a| != 0 && |b| != 0 {
      var name;
      if x < y {
        name :| name in b && Severity(b[name].state) == y;
      } else {
        name :| name in a && Severity(a[name].state) == x;
      }
      assert name in c && Severity(c[name].state) == Max(x, y);
      assert |c.Keys| != 0;
    }
  }

  function AddSummaries(a: Summary, b: Summary): Summary {
    Summary(a.total + b.total, a.passed + b.passed, a.skipped + b.skipped, a.failed + b.failed, a.errored + b.errored)
  }

  lemma NumberOfUnion(a: Cases, b: Cases, state: string)
    requires a.Keys !! b.Keys
    ensures Number(a + b, state) == Number(a, state) + Number(b, state)
  {
    assert Named(a + b, state) == Named(a, state) + Named(b, state);
    assert Named(a, state) !! Named(b, state);
  }

  lemma SizeOfUnion(a: Cases, b: Cases)
    requires a.Keys !! b.Keys
    ensures |a + b| == |a| + |b|
  {
    assert (a + b).Keys == a.Keys + b.Keys;
    assert |a.Keys + b.Keys| == |a.Keys| + |b.Keys|;
  }

  lemma CountsOfUnion(a: Cases, b: Cases)
    requires a.Keys !! b.Keys
    ensures Counts(a + b) == AddSummaries(Counts(a), Counts(b))
  {
    hide Number;
    SizeOfUnion(a, b);
    forall state ensures Number(a + b, state) == Number(a, state) + Number(b, state) {
      NumberOfUnion(a, b, state);
    }
  }

  /** Joining two disjoint claims adds the summaries. */
  lemma SummaryOfUnion(a: Cases, b: Cases, xs: seq<string>, ys: seq<string>, zs: seq<string>)
    requires a.Keys !! b.Keys
    requires IsOrder(a, xs) && IsOrder(b, ys) && IsOrder(a + b, zs)
    ensures Summarize(a + b, zs) == AddSummaries(Summarize(a, xs), Summarize(b, ys))
  {
    hide Counts, Summarize, CountState;
    SummaryIsOrderFree(a, xs);
    SummaryIsOrderFree(b, ys);
    SummaryIsOrderFree(a + b, zs);
    CountsOfUnion(a, b);
  }

  /** The verdict read back as a severity. */
  function SeverityOfVerdict(verdict: string): nat {
    if verdict == VERDICT_SKIP then 0
    else if verdict == VERDICT_PASS then 1
    else if verdict == VERDICT_FAIL then 2
    else 3
  }

  lemma VerdictRoundTrip(severity: nat)
    requires severity <= 3
    ensures SeverityOfVerdict(VerdictOf(severity)) == severity
  {
    assert VERDICT_SKIP[0] != VERDICT_PASS[0] && VERDICT_SKIP[0] != VERDICT_FAIL[0] && VERDICT_SKIP[0] != VERDICT_ERROR[0];
    assert VERDICT_PASS[0] != VERDICT_FAIL[0] && VERDICT_PASS[0] != VERDICT_ERROR[0] && VERDICT_FAIL[0] != VERDICT_ERROR[0];
  }

  /** The verdict on the union of two disjoint claims is the worse of their verdicts. */
  lemma VerdictOfUnion(a: Cases, b: Cases, xs: seq<string>, ys: seq<string>, zs: seq<string>)
    requires a.Keys !! b.Keys
    requires IsOrder(a, xs) && IsOrder(b, ys) && IsOrder(a + b, zs)
    ensures SeverityOfVerdict(Verdict(Summarize(a + b, zs)))
         == Max(SeverityOfVerdict(Verdict(Summarize(a, xs))), SeverityOfVerdict(Verdict(Summarize(b, ys))))
  {
    var x := WorstExists(a);
    var y := WorstExists(b);
    WorstOfUnion(a, b, x, y);
    VerdictIsWorst(a, xs, x);
    VerdictIsWorst(b, ys, y);
    VerdictIsWorst(a + b, zs, Max(x, y));
    VerdictRoundTrip(x);
    VerdictRoundTrip(y);
  }

  // --------------------------------------------- display flags do not interfere

  /** Turning flags on only shows more. */
  predicate ShowsAtLeast(g: Flags, f: Flags) {
    (f.allLogs ==> g.allLogs) && (f.compliantAlways ==> g.compliantAlways)
  }

  /** Two rows that tell the same about a test case, whatever they display. */
  predicate SameFacts(a: TestCaseResult, b: TestCaseResult) {
    a.(logs := "", targetResources := None) == b.(logs := "", targetResources := None)
  }

  /** The case has check details that decode to something of the wrong shape. */
  predicate Malformed(d: Decoder, c: CaseResult) {
    && c.checkDetails != "" && d(c.checkDetails).Some?
    && !(AllZippable(d(c.checkDetails).value.compliant) && AllZippable(d(c.checkDetails).value.nonCompliant))
  }

  predicate SomePassedMalformed(d: Decoder, cases: Cases) {
    exists name :: name in cases && cases[name].state == STATE_PASSED && Malformed(d, cases[name])
  }

  lemma RowSafeIff(d: Decoder, c: CaseResult, f: Flags)
    ensures RowSafe(d, c, f) <==> !(ShowsTargets(c, f) && Malformed(d, c))
  {
  }

  /** A claim that does not stop the sidecar under some flags does not under others either,
      unless these newly ask for the resources of passed cases and one of them is malformed. */
  lemma SafetyAcrossFlags(d: Decoder, cases: Cases, f: Flags, g: Flags)
    requires ClaimSafe(d, cases, f)
    ensures ClaimSafe(d, cases, g) <==> !(g.compliantAlways && !f.compliantAlways && SomePassedMalformed(d, cases))
  {
    hide RowSafe, Malformed;
    assert STATE_PASSED[0] != STATE_FAILED[0];
    forall name | name in cases
      ensures RowSafe(d, cases[name], g) <==>
              !(g.compliantAlways && !f.compliantAlways && cases[name].state == STATE_PASSED && Malformed(d, cases[name]))
    {
      assert RowSafe(d, cases[name], f);
      RowSafeIff(d, cases[name], f);
      RowSafeIff(d, cases[name], g);
    }
  }

  /** A display flag can cost the whole report: with one passed case whose only object has a key
      and no value, the claim is safe without the flag and stops the sidecar with it. */
  lemma FlagCanStopTheSidecar() returns (d: Decoder, cases: Cases, f: Flags, g: Flags)
    ensures ShowsAtLeast(g, f) && ClaimSafe(d, cases, f) && !ClaimSafe(d, cases, g)
  {
    var object' := RawObject(Items([Text("key")]), Items([]));
    d := (details: string) => Some(CheckDetails([object'], []));
    var case' := CaseResult(STATE_PASSED, "", "", "", "", "", "{}");
    cases := map["test" := case'];
    f, g := Flags(false, false), Flags(false, true);
    assert STATE_PASSED[0] != STATE_FAILED[0];
    assert !Zippable([object'][0]);
    assert "test" in cases && !RowSafe(d, cases["test"], g);
  }

  /** The flags change nothing but the logs and the target resources, and nothing at all of a
      failed case, wherever both settings give a report; and when the second gives none. */
  lemma FlagsDoNotInterfere(d: Decoder, claim: Claim, f: Flags, g: Flags, order: seq<string>)
    requires IsOrder(claim.cases, order)
    requires ClaimSafe(d, claim.cases, f)
    ensures ClaimSafe(d, claim.cases, g) <==>
              !(g.compliantAlways && !f.compliantAlways && SomePassedMalformed(d, claim.cases))
    ensures ClaimSafe(d, claim.cases, g) ==>
              var a, b := BuildReport(d, claim, f, order), BuildReport(d, claim, g, order);
              && a.(results := []) == b.(results := [])
              && |a.results| == |b.results|
              && (forall i :: 0 <= i < |a.results| ==> SameFacts(a.results[i], b.results[i]))
              && (forall i :: 0 <= i < |a.results| && a.results[i].result == STATE_FAILED ==> a.results[i] == b.results[i])
  {
    SafetyAcrossFlags(d, claim.cases, f, g);
    hide SomePassedMalformed;
    if ClaimSafe(d, claim.cases, g) {
      forall i | 0 <= i < |order|
        ensures SameFacts(Row(d, order[i], claim.cases[order[i]], f), Row(d, order[i], claim.cases[order[i]], g))
      {
      }
    }
  }

  /** Turning flags on keeps every value that was shown and can only fill in empty ones, unless
      the new flags make the claim stop the sidecar. */
  lemma FlagsOnlyReveal(d: Decoder, claim: Claim, f: Flags, g: Flags, order: seq<string>)
    requires IsOrder(claim.cases, order)
    requires ClaimSafe(d, claim.cases, f)
    requires ShowsAtLeast(g, f)
    ensures ClaimSafe(d, claim.cases, g) <==>
              !(g.compliantAlways && !f.compliantAlways && SomePassedMalformed(d, claim.cases))
    ensures ClaimSafe(d, claim.cases, g) ==>
              var a, b := BuildReport(d, claim, f, order), BuildReport(d, claim, g, order);
              forall i :: 0 <= i < |a.results| ==>
                && (a.results[i].logs != "" ==> b.results[i].logs == a.results[i].logs)
                && (a.results[i].targetResources.Some? ==> b.results[i].targetResources == a.results[i].targetResources)
  {
    SafetyAcrossFlags(d, claim.cases, f, g);
    hide SomePassedMalformed;
    if ClaimSafe(d, claim.cases, g) {
      forall i | 0 <= i < |order|
        ensures
          var a, b := Row(d, order[i], claim.cases[order[i]], f), Row(d, order[i], claim.cases[order[i]], g);
          && (a.logs != "" ==> b.logs == a.logs)
          && (a.targetResources.Some? ==> b.targetResources == a.targetResources)
      {
      }
    }
  }

  /** A claim that can be shown with more flags on can be shown with fewer. */
  lemma SafetyIsAntitone(d: Decoder, cases: Cases, f: Flags, g: Flags)
    requires ShowsAtLeast(g, f)
    requires ClaimSafe(d, cases, g)
    ensures ClaimSafe(d, cases, f)
  {
    SafetyAcrossFlags(d, cases, g, f);
  }
}
