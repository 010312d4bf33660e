/** The generated deep copies, on a real heap.

    A Go struct is a datatype whose slice, pointer and map fields are references: a slice is a
    possibly null array, a pointer a possibly null cell, a map a possibly null object. A deep
    copy first copies the struct, which shares every reference, and then replaces the
    references one field at a time.

    `IsReport(r, v, repr)` and its like say that the struct `r` shows the value `v`, nil kept
    apart from empty, and reaches only objects in `repr`. Nothing is assumed about sharing:
    the original may reach the same array, cell or map along several paths. */
module DeepCopy {
  import opened Api

  class Cell<T> {
    var value: T

    constructor (value: T)
      ensures this.value == value
    {
      this.value := value;
    }
  }

  class StringMap {
    var entries: map<string, string>

    constructor ()
      ensures entries == map[]
    {
      entries := map[];
    }
  }

  // ---------------------------------------------------- structs in memory

  datatype CnfResource = CnfResource(name: string, namespace: string)

  datatype CnfPod = CnfPod(name: string, namespace: string, containers: array?<string>)

  datatype CnfTargets = CnfTargets(
    namespaces: array?<string>,
    nodes: array?<string>,
    pods: array?<CnfPod>,
    deployments: array?<CnfResource>,
    statefulSets: array?<CnfResource>,
    csvs: array?<CnfResource>,
    crds: array?<string>,
    services: array?<CnfResource>,
    helmChartReleases: array?<CnfResource>)

  datatype Targets = Targets(compliant: array?<StringMap?>, nonCompliant: array?<StringMap?>)

  datatype CaseTexts = CaseTexts(
    testCaseName: string, description: string, result: string, reason: string, remediation: string, logs: string)

  datatype CaseResult = CaseResult(texts: CaseTexts, targetResources: Cell?<Targets>)

  datatype ReportTexts = ReportTexts(verdict: string, ocpVersion: string, cnfCertSuiteVersion: string)

  datatype CertsuiteReport = CertsuiteReport(
    texts: ReportTexts, cnfTargets: CnfTargets, summary: Summary, results: array?<CaseResult>)

  datatype Status = Status(phase: string, podName: Cell?<string>, report: Cell?<CertsuiteReport>)

  datatype SpecSettings = SpecSettings(
    labelsFilter: string, logLevel: string, timeOut: string, configMapName: string,
    enableDataCollection: bool, showAllResultsLogs: bool, showCompliantResourcesAlways: bool)

  datatype Spec = Spec(settings: SpecSettings, preflightSecretName: Cell?<string>)

  // ------------------------------------------------- the values they show

  datatype PodValue = PodValue(name: string, namespace: string, containers: Option<seq<string>>)

  datatype TargetsValue = TargetsValue(
    namespaces: Option<seq<string>>,
    nodes: Option<seq<string>>,
    pods: Option<seq<PodValue>>,
    deployments: Option<seq<CnfResource>>,
    statefulSets: Option<seq<CnfResource>>,
    csvs: Option<seq<CnfResource>>,
    crds: Option<seq<string>>,
    services: Option<seq<CnfResource>>,
    helmChartReleases: Option<seq<CnfResource>>)

  type MapValue = Option<map<string, string>>

  datatype ResourcesValue = ResourcesValue(compliant: Option<seq<MapValue>>, nonCompliant: Option<seq<MapValue>>)

  datatype CaseValue = CaseValue(texts: CaseTexts, targetResources: Option<ResourcesValue>)

  datatype ReportValue = ReportValue(
    texts: ReportTexts, cnfTargets: TargetsValue, summary: Summary, results: Option<seq<CaseValue>>)

  datatype StatusValue = StatusValue(phase: string, podName: Option<string>, report: Option<ReportValue>)

  datatype SpecValue = SpecValue(settings: SpecSettings, preflightSecretName: Option<string>)

  ghost predicate IsSlice<T>(s: array?<T>, v: Option<seq<T>>, repr: set<object>)
    reads repr
  {
    if s == null then v.None? else v.Some? && s in repr && s[..] == v.value
  }

  ghost predicate IsString(p: Cell?<string>, v: Option<string>, repr: set<object>)
    reads repr
  {
    if p == null then v.None? else v.Some? && p in repr && p.value == v.value
  }

  ghost predicate IsMap(m: StringMap?, v: MapValue, repr: set<object>)
    reads repr
  {
    if m == null then v.None? else v.Some? && m in repr && m.entries == v.value
  }

  ghost predicate IsPod(p: CnfPod, v: PodValue, repr: set<object>)
    reads repr
  {
    p.name == v.name && p.namespace == v.namespace && IsSlice(p.containers, v.containers, repr)
  }

  ghost predicate IsPods(s: array?<CnfPod>, v: Option<seq<PodValue>>, repr: set<object>)
    reads repr
  {
    if s == null then v.None?
    else
      && v.Some? && s in repr && s.Length == |v.value|
      && forall i :: 0 <= i < s.Length ==> IsPod(s[i], v.value[i], repr)
  }

  ghost predicate IsCnfTargets(t: CnfTargets, v: TargetsValue, repr: set<object>)
    reads repr
  {
    && IsSlice(t.namespaces, v.namespaces, repr)
    && IsSlice(t.nodes, v.nodes, repr)
    && IsPods(t.pods, v.pods, repr)
    && IsSlice(t.deployments, v.deployments, repr)
    && IsSlice(t.statefulSets, v.statefulSets, repr)
    && IsSlice(t.csvs, v.csvs, repr)
    && IsSlice(t.crds, v.crds, repr)
    && IsSlice(t.services, v.services, repr)
    && IsSlice(t.helmChartReleases, v.helmChartReleases, repr)
  }

  ghost predicate IsMaps(s: array?<StringMap?>, v: Option<seq<MapValue>>, repr: set<object>)
    reads repr
  {
    if s == null then v.None?
    else
      && v.Some? && s in repr && s.Length == |v.value|
      && forall i :: 0 <= i < s.Length ==> IsMap(s[i], v.value[i], repr)
  }

  ghost predicate IsTargets(t: Targets, v: ResourcesValue, repr: set<object>)
    reads repr
  {
    IsMaps(t.compliant, v.compliant, repr) && IsMaps(t.nonCompliant, v.nonCompliant, repr)
  }

  ghost predicate IsTargetsPointer(p: Cell?<Targets>, v: Option<ResourcesValue>, repr: set<object>)
    reads repr
  {
    if p == null then v.None? else v.Some? && p in repr && IsTargets(p.value, v.value, repr)
  }

  ghost predicate IsCase(r: CaseResult, v: CaseValue, repr: set<object>)
    reads repr
  {
    r.texts == v.texts && IsTargetsPointer(r.targetResources, v.targetResources, repr)
  }

  ghost predicate IsCases(s: array?<CaseResult>, v: Option<seq<CaseValue>>, repr: set<object>)
    reads repr
  {
    if s == null then v.None?
    else
      && v.Some? && s in repr && s.Length == |v.value|
      && forall i :: 0 <= i < s.Length ==> IsCase(s[i], v.value[i], repr)
  }

  ghost predicate IsReport(r: CertsuiteReport, v: ReportValue, repr: set<object>)
    reads repr
  {
    && r.texts == v.texts && r.summary == v.summary
    && IsCnfTargets(r.cnfTargets, v.cnfTargets, repr)
    && IsCases(r.results, v.results, repr)
  }

  ghost predicate IsReportPointer(p: Cell?<CertsuiteReport>, v: Option<ReportValue>, repr: set<object>)
    reads repr
  {
    if p == null then v.None? else v.Some? && p in repr && IsReport(p.value, v.value, repr)
  }

  ghost predicate IsStatus(s: Status, v: StatusValue, repr: set<object>)
    reads repr
  {
    s.phase == v.phase && IsString(s.podName, v.podName, repr) && IsReportPointer(s.report, v.report, repr)
  }

  ghost predicate IsSpec(s: Spec, v: SpecValue, repr: set<object>)
    reads repr
  {
    s.settings == v.settings && IsString(s.preflightSecretName, v.preflightSecretName, repr)
  }

  // ------------------------------------- more objects in reach do no harm

  lemma PodReach(p: CnfPod, v: PodValue, repr: set<object>, more: set<object>)
    requires IsPod(p, v, repr) && repr <= more
    ensures IsPod(p, v, more)
  {
  }

  lemma SliceReach<T>(s: array?<T>, v: Option<seq<T>>, repr: set<object>, more: set<object>)
    requires IsSlice(s, v, repr) && repr <= more
    ensures IsSlice(s, v, more)
  {
  }

  lemma PodsReach(s: array?<CnfPod>, v: Option<seq<PodValue>>, repr: set<object>, more: set<object>)
    requires IsPods(s, v, repr) && repr <= more
    ensures IsPods(s, v, more)
  {
  }

  lemma CnfTargetsReach(t: CnfTargets, v: TargetsValue, repr: set<object>, more: set<object>)
    requires IsCnfTargets(t, v, repr) && repr <= more
    ensures IsCnfTargets(t, v, more)
  {
  }

  lemma TargetsReach(t: Targets, v: ResourcesValue, repr: set<object>, more: set<object>)
    requires IsTargets(t, v, repr) && repr <= more
    ensures IsTargets(t, v, more)
  {
  }

  lemma CaseReach(r: CaseResult, v: CaseValue, repr: set<object>, more: set<object>)
    requires IsCase(r, v, repr) && repr <= more
    ensures IsCase(r, v, more)
  {
    if r.targetResources != null {
      TargetsReach(r.targetResources.value, v.targetResources.value, repr, more);
    }
  }

  lemma CasesReach(s: array?<CaseResult>, v: Option<seq<CaseValue>>, repr: set<object>, more: set<object>)
    requires IsCases(s, v, repr) && repr <= more
    ensures IsCases(s, v, more)
  {
    if s != null {
      forall i | 0 <= i < s.Length ensures IsCase(s[i], v.value[i], more) {
        CaseReach(s[i], v.value[i], repr, more);
      }
    }
  }

  lemma ReportReach(r: CertsuiteReport, v: ReportValue, repr: set<object>, more: set<object>)
    requires IsReport(r, v, repr) && repr <= more
    ensures IsReport(r, v, more)
  {
    hide IsCnfTargets, IsCases;
    CnfTargetsReach(r.cnfTargets, v.cnfTargets, repr, more);
    CasesReach(r.results, v.results, repr, more);
  }

  // ------------------------------------------------------------ the copies

  /** make and copy: a new slice with the same elements. */
  method CopySlice<T(0)>(s: array?<T>, ghost v: Option<seq<T>>, ghost repr: set<object>)
    returns (out: array?<T>, ghost reach: set<object>)
    requires IsSlice(s, v, repr)
    ensures IsSlice(out, v, reach) && fresh(reach)
  {
    if s == null {
      return null, {};
    }
    var copy := new T[s.Length];
    for i := 0 to s.Length
      invariant copy[..i] == s[..i]
      invariant s[..] == v.value
    {
      copy[i] := s[i];
    }
    assert copy[..] == s[..];
    return copy, {copy};
  }

  method CopyString(p: Cell?<string>, ghost v: Option<string>, ghost repr: set<object>)
    returns (out: Cell?<string>, ghost reach: set<object>)
    requires IsString(p, v, repr)
    ensures IsString(out, v, reach) && fresh(reach)
  {
    if p == null {
      return null, {};
    }
    var copy := new Cell(p.value);
    return copy, {copy};
  }

  method CopyMap(m: StringMap?, ghost v: MapValue, ghost repr: set<object>)
    returns (out: StringMap?, ghost reach: set<object>)
    requires IsMap(m, v, repr)
    ensures IsMap(out, v, reach) && fresh(reach)
  {
    if m == null {
      return null, {};
    }
    var copy := new StringMap();
    var keys := m.entries.Keys;
    while keys != {}
      invariant keys <= m.entries.Keys && m.entries == v.value
      invariant copy.entries == map k | k in m.entries && k !in keys :: m.entries[k]
      decreases |keys|
    {
      var key :| key in keys;
      copy.entries := copy.entries[key := m.entries[key]];
      keys := keys - {key};
    }
    assert copy.entries == m.entries;
    return copy, {copy};
  }

  method CopyPod(p: CnfPod, ghost v: PodValue, ghost repr: set<object>) returns (out: CnfPod, ghost reach: set<object>)
    requires IsPod(p, v, repr)
    ensures IsPod(out, v, reach) && fresh(reach)
  {
    out, reach := p, {};
    if p.containers != null {
      var copy; copy, reach := CopySlice(p.containers, v.containers, repr);
      out := out.(containers := copy);
    }
  }

  method CopyPods(s: array?<CnfPod>, ghost v: Option<seq<PodValue>>, ghost repr: set<object>)
    returns (out: array?<CnfPod>, ghost reach: set<object>)
    requires IsPods(s, v, repr)
    ensures IsPods(out, v, reach) && fresh(reach)
  {
    if s == null {
      return null, {};
    }
    var copy := new CnfPod[s.Length];
    reach := {};
    for i := 0 to s.Length
      invariant IsPods(s, v, repr)
      invariant fresh(reach) && copy !in reach
      invariant forall j :: 0 <= j < i ==> IsPod(copy[j], v.value[j], reach)
    {
      var pod; ghost var added;
      pod, added := CopyPod(s[i], v.value[i], repr);
      copy[i] := pod;
      forall j | 0 <= j <= i ensures IsPod(copy[j], v.value[j], reach + added) {
        PodReach(copy[j], v.value[j], if j < i then reach else added, reach + added);
      }
      reach := reach + added;
    }
    forall j | 0 <= j < copy.Length ensures IsPod(copy[j], v.value[j], reach + {copy}) {
      PodReach(copy[j], v.value[j], reach, reach + {copy});
    }
    return copy, reach + {copy};
  }

  /** Replaces the slices of names and of pods. */
  method UnaliasNames(t: CnfTargets, ghost v: TargetsValue, ghost repr: set<object>)
    returns (out: CnfTargets, ghost reach: set<object>)
    requires IsCnfTargets(t, v, repr)
    ensures fresh(reach)
    ensures out == t.(namespaces := out.namespaces, nodes := out.nodes, pods := out.pods, crds := out.crds)
    ensures IsSlice(out.namespaces, v.namespaces, reach) && IsSlice(out.nodes, v.nodes, reach)
    ensures IsPods(out.pods, v.pods, reach) && IsSlice(out.crds, v.crds, reach)
  {
    hide IsSlice, IsPods;
    var namespaces; ghost var r1;
    namespaces, r1 := CopySlice(t.namespaces, v.namespaces, repr);
    var nodes; ghost var r2;
    nodes, r2 := CopySlice(t.nodes, v.nodes, repr);
    var pods; ghost var r3;
    pods, r3 := CopyPods(t.pods, v.pods, repr);
    var crds; ghost var r4;
    crds, r4 := CopySlice(t.crds, v.crds, repr);
    out := t.(namespaces := namespaces, nodes := nodes, pods := pods, crds := crds);
    reach := r1 + r2 + r3 + r4;
    SliceReach(namespaces, v.namespaces, r1, reach);
    SliceReach(nodes, v.nodes, r2, reach);
    PodsReach(pods, v.pods, r3, reach);
    SliceReach(crds, v.crds, r4, reach);
  }

  /** Replaces the slices of resources. */
  method UnaliasResources(t: CnfTargets, ghost v: TargetsValue, ghost repr: set<object>)
    returns (out: CnfTargets, ghost reach: set<object>)
    requires IsSlice(t.deployments, v.deployments, repr) && IsSlice(t.statefulSets, v.statefulSets, repr)
    requires IsSlice(t.csvs, v.csvs, repr) && IsSlice(t.services, v.services, repr)
    requires IsSlice(t.helmChartReleases, v.helmChartReleases, repr)
    ensures fresh(reach)
    ensures out == t.(deployments := out.deployments, statefulSets := out.statefulSets, csvs := out.csvs,
                      services := out.services, helmChartReleases := out.helmChartReleases)
    ensures IsSlice(out.deployments, v.deployments, reach) && IsSlice(out.statefulSets, v.statefulSets, reach)
    ensures IsSlice(out.csvs, v.csvs, reach) && IsSlice(out.services, v.services, reach)
    ensures IsSlice(out.helmChartReleases, v.helmChartReleases, reach)
  {
    hide IsSlice;
    var deployments; ghost var r1;
    deployments, r1 := CopySlice(t.deployments, v.deployments, repr);
    var statefulSets; ghost var r2;
    statefulSets, r2 := CopySlice(t.statefulSets, v.statefulSets, repr);
    var csvs; ghost var r3;
    csvs, r3 := CopySlice(t.csvs, v.csvs, repr);
    var services; ghost var r4;
    services, r4 := CopySlice(t.services, v.services, repr);
    var helmChartReleases; ghost var r5;
    helmChartReleases, r5 := CopySlice(t.helmChartReleases, v.helmChartReleases, repr);
    out := t.(deployments := deployments, statefulSets := statefulSets, csvs := csvs, services := services,
              helmChartReleases := helmChartReleases);
    reach := r1 + r2 + r3 + r4 + r5;
    SliceReach(deployments, v.deployments, r1, reach);
    SliceReach(statefulSets, v.statefulSets, r2, reach);
    SliceReach(csvs, v.csvs, r3, reach);
    SliceReach(services, v.services, r4, reach);
    SliceReach(helmChartReleases, v.helmChartReleases, r5, reach);
  }

  method CopyCnfTargets(t: CnfTargets, ghost v: TargetsValue, ghost repr: set<object>)
    returns (out: CnfTargets, ghost reach: set<object>)
    requires IsCnfTargets(t, v, repr)
    ensures IsCnfTargets(out, v, reach) && fresh(reach)
  {
    hide IsSlice, IsPods;
    out := t;
    ghost var r1, r2;
    out, r1 := UnaliasNames(out, v, repr);
    out, r2 := UnaliasResources(out, v, repr);
    reach := r1 + r2;
    SliceReach(out.namespaces, v.namespaces, r1, reach);
    SliceReach(out.nodes, v.nodes, r1, reach);
    PodsReach(out.pods, v.pods, r1, reach);
    SliceReach(out.crds, v.crds, r1, reach);
    SliceReach(out.deployments, v.deployments, r2, reach);
    SliceReach(out.statefulSets, v.statefulSets, r2, reach);
    SliceReach(out.csvs, v.csvs, r2, reach);
    SliceReach(out.services, v.services, r2, reach);
    SliceReach(out.helmChartReleases, v.helmChartReleases, r2, reach);
  }

  method CopyMaps(s: array?<StringMap?>, ghost v: Option<seq<MapValue>>, ghost repr: set<object>)
    returns (out: array?<StringMap?>, ghost reach: set<object>)
    requires IsMaps(s, v, repr)
    ensures IsMaps(out, v, reach) && fresh(reach)
  {
    if s == null {
      return null, {};
    }
    var copy := new StringMap?[s.Length];
    reach := {};
    for i := 0 to s.Length
      invariant IsMaps(s, v, repr)
      invariant fresh(reach) && copy !in reach
      invariant forall j :: 0 <= j < i ==> IsMap(copy[j], v.value[j], reach)
    {
      var m; ghost var added;
      m, added := CopyMap(s[i], v.value[i], repr);
      copy[i] := m;
      reach := reach + added;
    }
    return copy, reach + {copy};
  }

  method CopyTargets(t: Targets, ghost v: ResourcesValue, ghost repr: set<object>)
    returns (out: Targets, ghost reach: set<object>)
    requires IsTargets(t, v, repr)
    ensures IsTargets(out, v, reach) && fresh(reach)
  {
    out := t;
    var compliant; ghost var r1;
    compliant, r1 := CopyMaps(t.compliant, v.compliant, repr);
    out := out.(compliant := compliant);
    var nonCompliant; ghost var r2;
    nonCompliant, r2 := CopyMaps(t.nonCompliant, v.nonCompliant, repr);
    out := out.(nonCompliant := nonCompliant);
    reach := r1 + r2;
  }

  method CopyCase(r: CaseResult, ghost v: CaseValue, ghost repr: set<object>)
    returns (out: CaseResult, ghost reach: set<object>)
    requires IsCase(r, v, repr)
    ensures IsCase(out, v, reach) && fresh(reach)
  {
    out, reach := r, {};
    if r.targetResources != null {
      var targets; targets, reach := CopyTargets(r.targetResources.value, v.targetResources.value, repr);
      var copy := new Cell(targets);
      TargetsReach(targets, v.targetResources.value, reach, reach + {copy});
      out, reach := out.(targetResources := copy), reach + {copy};
    }
  }

  method CopyCases(s: array?<CaseResult>, ghost v: Option<seq<CaseValue>>, ghost repr: set<object>)
    returns (out: array?<CaseResult>, ghost reach: set<object>)
    requires IsCases(s, v, repr)
    ensures IsCases(out, v, reach) && fresh(reach)
  {
    hide IsCase;
    if s == null {
      return null, {};
    }
    var copy := new CaseResult[s.Length];
    reach := {};
    for i := 0 to s.Length
      invariant IsCases(s, v, repr)
      invariant fresh(reach) && copy !in reach
      invariant forall j :: 0 <= j < i ==> IsCase(copy[j], v.value[j], reach)
    {
      var row; ghost var added;
      row, added := CopyCase(s[i], v.value[i], repr);
      copy[i] := row;
      forall j | 0 <= j <= i ensures IsCase(copy[j], v.value[j], reach + added) {
        CaseReach(copy[j], v.value[j], if j < i then reach else added, reach + added);
      }
      reach := reach + added;
    }
    forall j | 0 <= j < copy.Length ensures IsCase(copy[j], v.value[j], reach + {copy}) {
      CaseReach(copy[j], v.value[j], reach, reach + {copy});
    }
    return copy, reach + {copy};
  }

  method CopyReport(r: CertsuiteReport, ghost v: ReportValue, ghost repr: set<object>)
    returns (out: CertsuiteReport, ghost reach: set<object>)
    requires IsReport(r, v, repr)
    ensures IsReport(out, v, reach) && fresh(reach)
  {
    hide IsCnfTargets, IsCases;
    out := r;
    var targets; ghost var r1;
    targets, r1 := CopyCnfTargets(r.cnfTargets, v.cnfTargets, repr);
    var results; ghost var r2;
    results, r2 := CopyCases(r.results, v.results, repr);
    out, reach := out.(cnfTargets := targets, results := results), r1 + r2;
    CnfTargetsReach(targets, v.cnfTargets, r1, reach);
    CasesReach(results, v.results, r2, reach);
  }

  method CopyReportPointer(p: Cell?<CertsuiteReport>, ghost v: Option<ReportValue>, ghost repr: set<object>)
    returns (out: Cell?<CertsuiteReport>, ghost reach: set<object>)
    requires IsReportPointer(p, v, repr)
    ensures IsReportPointer(out, v, reach) && fresh(reach)
  {
    hide IsReport;
    if p == null {
      return null, {};
    }
    var report; report, reach := CopyReport(p.value, v.value, repr);
    out := new Cell(report);
    ReportReach(report, v.value, reach, reach + {out});
    reach := reach + {out};
  }

  method CopyStatus(s: Status, ghost v: StatusValue, ghost repr: set<object>)
    returns (out: Status, ghost reach: set<object>)
    requires IsStatus(s, v, repr)
    ensures IsStatus(out, v, reach) && fresh(reach)
  {
    hide IsReport;
    out := s;
    var podName; ghost var r1;
    podName, r1 := CopyString(s.podName, v.podName, repr);
    var report; ghost var r2;
    report, r2 := CopyReportPointer(s.report, v.report, repr);
    out, reach := out.(podName := podName, report := report), r1 + r2;
    if report != null {
      ReportReach(report.value, v.report.value, r2, reach);
    }
  }

  method CopySpec(s: Spec, ghost v: SpecValue, ghost repr: set<object>)
    returns (out: Spec, ghost reach: set<object>)
    requires IsSpec(s, v, repr)
    ensures IsSpec(out, v, reach) && fresh(reach)
  {
    out := s;
    var secret; secret, reach := CopyString(s.preflightSecretName, v.preflightSecretName, repr);
    out := out.(preflightSecretName := secret);
  }

  // -------------------------------------------- every struct has a value

  lemma ViewPods(s: array?<CnfPod>) returns (v: Option<seq<PodValue>>, repr: set<object>)
    ensures IsPods(s, v, repr)
  {
    if s == null {
      return None, {};
    }
    var values: seq<PodValue> := [];
    repr := {s};
    for i := 0 to s.Length
      invariant |values| == i && s in repr
      invariant forall j :: 0 <= j < i ==> IsPod(s[j], values[j], repr)
    {
      var inner := s[i].containers;
      var more := if inner == null then repr else repr + {inner};
      forall j | 0 <= j < i ensures IsPod(s[j], values[j], more) {
        PodReach(s[j], values[j], repr, more);
      }
      repr := more;
      values := values + [PodValue(s[i].name, s[i].namespace, if inner == null then None else Some(inner[..]))];
    }
    return Some(values), repr;
  }

  lemma ViewMaps(s: array?<StringMap?>) returns (v: Option<seq<MapValue>>, repr: set<object>)
    ensures IsMaps(s, v, repr)
  {
    if s == null {
      return None, {};
    }
    var values: seq<MapValue> := [];
    repr := {s};
    for i := 0 to s.Length
      invariant |values| == i && s in repr
      invariant forall j :: 0 <= j < i ==> IsMap(s[j], values[j], repr)
    {
      if s[i] == null {
        values := values + [None];
      } else {
        values := values + [Some(s[i].entries)];
        repr := repr + {s[i]};
      }
    }
    return Some(values), repr;
  }

  lemma ViewCase(r: CaseResult) returns (v: CaseValue, repr: set<object>)
    ensures IsCase(r, v, repr)
  {
    if r.targetResources == null {
      return CaseValue(r.texts, None), {};
    }
    var t := r.targetResources.value;
    var compliant, r1 := ViewMaps(t.compliant);
    var nonCompliant, r2 := ViewMaps(t.nonCompliant);
    repr := r1 + r2 + {r.targetResources};
    return CaseValue(r.texts, Some(ResourcesValue(compliant, nonCompliant))), repr;
  }

  lemma ViewCases(s: array?<CaseResult>) returns (v: Option<seq<CaseValue>>, repr: set<object>)
    ensures IsCases(s, v, repr)
  {
    hide IsCase;
    if s == null {
      return None, {};
    }
    var values: seq<CaseValue> := [];
    repr := {s};
    for i := 0 to s.Length
      invariant |values| == i && s in repr
      invariant forall j :: 0 <= j < i ==> IsCase(s[j], values[j], repr)
    {
      var value, inner := ViewCase(s[i]);
      forall j | 0 <= j < i ensures IsCase(s[j], values[j], repr + inner) {
        CaseReach(s[j], values[j], repr, repr + inner);
      }
      CaseReach(s[i], value, inner, repr + inner);
      repr := repr + inner;
      values := values + [value];
    }
    return Some(values), repr;
  }

  ghost function ReachOf<T>(s: array?<T>): set<object> {
    if s == null then {} else {s}
  }

  ghost function SliceValue<T>(s: array?<T>): Option<seq<T>>
    reads ReachOf(s)
  {
    if s == null then None else Some(s[..])
  }

  lemma ViewCnfTargets(t: CnfTargets) returns (v: TargetsValue, repr: set<object>)
    ensures IsCnfTargets(t, v, repr)
  {
    var pods, r := ViewPods(t.pods);
    v := TargetsValue(SliceValue(t.namespaces), SliceValue(t.nodes), pods, SliceValue(t.deployments),
                      SliceValue(t.statefulSets), SliceValue(t.csvs), SliceValue(t.crds),
                      SliceValue(t.services), SliceValue(t.helmChartReleases));
    repr := r + ReachOf(t.namespaces) + ReachOf(t.nodes) + ReachOf(t.deployments) + ReachOf(t.statefulSets)
      + ReachOf(t.csvs) + ReachOf(t.crds) + ReachOf(t.services) + ReachOf(t.helmChartReleases);
    PodsReach(t.pods, pods, r, repr);
  }

  lemma ViewReportPointer(p: Cell?<CertsuiteReport>) returns (v: Option<ReportValue>, repr: set<object>)
    ensures IsReportPointer(p, v, repr)
  {
    hide IsCnfTargets, IsCases;
    if p == null {
      return None, {};
    }
    var r := p.value;
    var targets, r1 := ViewCnfTargets(r.cnfTargets);
    var results, r2 := ViewCases(r.results);
    repr := r1 + r2 + {p};
    v := Some(ReportValue(r.texts, targets, r.summary, results));
    CnfTargetsReach(r.cnfTargets, targets, r1, repr);
    CasesReach(r.results, results, r2, repr);
  }

  /** Every status whatsoever, however its parts are shared, shows some value. */
  lemma ViewStatus(s: Status) returns (v: StatusValue, repr: set<object>)
    ensures IsStatus(s, v, repr)
  {
    hide IsReport;
    var report, r := ViewReportPointer(s.report);
    v := StatusValue(s.phase, if s.podName == null then None else Some(s.podName.value), report);
    repr := r + if s.podName == null then {} else {s.podName};
    if s.report != null {
      ReportReach(s.report.value, report.value, r, repr);
    }
  }

  // ------------------------------------- and it has only one such value

  lemma OnePodsValue(s: array?<CnfPod>, v: Option<seq<PodValue>>, w: Option<seq<PodValue>>, r: set<object>, q: set<object>)
    requires IsPods(s, v, r) && IsPods(s, w, q)
    ensures v == w
  {
    if s != null {
      forall i | 0 <= i < s.Length ensures v.value[i] == w.value[i] {
        assert IsPod(s[i], v.value[i], r) && IsPod(s[i], w.value[i], q);
      }
      assert v.value == w.value;
    }
  }

  lemma OneMapsValue(s: array?<StringMap?>, v: Option<seq<MapValue>>, w: Option<seq<MapValue>>, r: set<object>, q: set<object>)
    requires IsMaps(s, v, r) && IsMaps(s, w, q)
    ensures v == w
  {
    if s != null {
      forall i | 0 <= i < s.Length ensures v.value[i] == w.value[i] {
        assert IsMap(s[i], v.value[i], r) && IsMap(s[i], w.value[i], q);
      }
      assert v.value == w.value;
    }
  }

  lemma OneCaseValue(s: CaseResult, v: CaseValue, w: CaseValue, r: set<object>, q: set<object>)
    requires IsCase(s, v, r) && IsCase(s, w, q)
    ensures v == w
  {
    if s.targetResources != null {
      var t := s.targetResources.value;
      OneMapsValue(t.compliant, v.targetResources.value.compliant, w.targetResources.value.compliant, r, q);
      OneMapsValue(t.nonCompliant, v.targetResources.value.nonCompliant, w.targetResources.value.nonCompliant, r, q);
    }
  }

  lemma OneReportValue(s: CertsuiteReport, v: ReportValue, w: ReportValue, r: set<object>, q: set<object>)
    requires IsReport(s, v, r) && IsReport(s, w, q)
    ensures v == w
  {
    OnePodsValue(s.cnfTargets.pods, v.cnfTargets.pods, w.cnfTargets.pods, r, q);
    hide IsPods, IsCase;
    if s.results != null {
      forall i | 0 <= i < s.results.Length ensures v.results.value[i] == w.results.value[i] {
        OneCaseValue(s.results[i], v.results.value[i], w.results.value[i], r, q);
      }
      assert v.results.value == w.results.value;
    }
  }

  /** A status shows one value only: there is nothing a reader could see besides. */
  lemma OneStatusValue(s: Status, v: StatusValue, w: StatusValue, r: set<object>, q: set<object>)
    requires IsStatus(s, v, r) && IsStatus(s, w, q)
    ensures v == w
  {
    hide IsReport;
    if s.report != null {
      OneReportValue(s.report.value, v.report.value, w.report.value, r, q);
    }
  }

  // --------------------------------------------------------- independence

  ghost predicate IsStatusPointer(p: Cell?<Status>, v: Option<StatusValue>, repr: set<object>)
    reads repr
  {
    if p == null then v.None? else v.Some? && p in repr && IsStatus(p.value, v.value, repr)
  }

  lemma StatusReach(s: Status, v: StatusValue, repr: set<object>, more: set<object>)
    requires IsStatus(s, v, repr) && repr <= more
    ensures IsStatus(s, v, more)
  {
    hide IsReport;
    if s.report != null {
      ReportReach(s.report.value, v.report.value, repr, more);
    }
  }

  /** The deep copy of any status at all, nil included: it shows the same value, and what it
      reaches is new, so that the two share nothing. */
  method DeepCopyStatus(p: Cell?<Status>)
    returns (out: Cell?<Status>, ghost v: Option<StatusValue>, ghost repr: set<object>, ghost reach: set<object>)
    ensures IsStatusPointer(p, v, repr) && IsStatusPointer(out, v, reach)
    ensures fresh(reach) && repr !! reach
  {
    hide IsStatus;
    if p == null {
      return null, None, {}, {};
    }
    ghost var value, inner := ViewStatus(p.value);
    StatusReach(p.value, value, inner, inner + {p});
    var status; status, reach := CopyStatus(p.value, value, inner);
    out := new Cell(status);
    StatusReach(status, value, reach, reach + {out});
    v, repr, reach := Some(value), inner + {p}, reach + {out};
  }

  /** Whatever is written, as often as one likes, into objects a status does not reach leaves
      its value as it was. Since a status and its deep copy share no object, this is about
      writes through either of them and the value of the other. */
  twostate lemma OtherWritesDoNotShow(p: Cell?<Status>, v: Option<StatusValue>, repr: set<object>, written: set<object>)
    requires old(IsStatusPointer(p, v, repr))
    requires repr !! written
    requires forall o :: o in repr && o !in written ==> unchanged(o)
    ensures IsStatusPointer(p, v, repr)
  {
  }
}
