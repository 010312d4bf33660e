/** The API types the operator works on, as values: the CertsuiteRun resource, its
    status and report, and the cluster objects the controller and the sidecar touch. */
module Api {

  datatype Option<+T> = None | Some(value: T)

  /** A namespaced name, the key of every object in the cluster. */
  datatype Key = Key(ns: string, name: string)

  datatype RunSpec = RunSpec(
    labelsFilter: string,
    logLevel: string,
    timeOut: string,
    configMapName: string,
    preflightSecretName: Option<string>,
    enableDataCollection: bool,
    showAllResultsLogs: bool,
    showCompliantResourcesAlways: bool)

  datatype RunStatus = RunStatus(phase: string, podName: Option<string>, report: Option<Report>)

  /** One CertsuiteRun object. `uid` tells incarnations of the same name apart. */
  datatype Run = Run(uid: nat, spec: RunSpec, status: RunStatus)

  type TargetResource = map<string, string>

  datatype TargetResources = TargetResources(compliant: seq<TargetResource>, nonCompliant: seq<TargetResource>)

  datatype TestCaseResult = TestCaseResult(
    testCaseName: string,
    description: string,
    result: string,
    reason: string,
    remediation: string,
    logs: string,
    targetResources: Option<TargetResources>)

  datatype Summary = Summary(total: nat, passed: nat, skipped: nat, failed: nat, errored: nat)

  /** The list of targets under test (the CnfTargets field) is left out of the report. */
  datatype Report = Report(
    verdict: string,
    ocpVersion: string,
    cnfCertSuiteVersion: string,
    summary: Summary,
    results: seq<TestCaseResult>)

  /** The state the cluster reports of one container of a pod. */
  datatype ContainerState =
    | Waiting
    | Running(startedAt: int)
    | Terminated(exitCode: int, ranFrom: int)

  const PHASE_UNSET := ""
  const PHASE_DEPLOYING := "CertSuiteDeploying"
  const PHASE_DEPLOY_ERROR := "CertSuiteDeployError"
  const PHASE_DEPLOY_FAILURE := "CertSuiteDeployFailure"
  const PHASE_RUNNING := "CertSuiteRunning"
  const PHASE_FINISHED := "CertSuiteFinished"
  const PHASE_ERROR := "CertSuiteError"
  const PHASE_TIMEOUT := "CertSuiteTimeout"

  /** The enum the CRD schema puts on `status.phase`. */
  predicate InPhaseEnum(phase: string) {
    phase == PHASE_DEPLOYING || phase == PHASE_DEPLOY_FAILURE || phase == PHASE_RUNNING
    || phase == PHASE_FINISHED || phase == PHASE_ERROR
  }

  /** The phases after which the controller has nothing left to do for a run. */
  predicate IsTerminal(phase: string) {
    phase == PHASE_DEPLOY_ERROR || phase == PHASE_FINISHED || phase == PHASE_ERROR || phase == PHASE_TIMEOUT
  }

  lemma PhasesDiffer()
    ensures PHASE_FINISHED != PHASE_UNSET && PHASE_FINISHED != PHASE_DEPLOYING && PHASE_FINISHED != PHASE_RUNNING
    ensures PHASE_FINISHED != PHASE_ERROR && PHASE_FINISHED != PHASE_TIMEOUT && PHASE_FINISHED != PHASE_DEPLOY_ERROR
    ensures PHASE_ERROR != PHASE_UNSET && PHASE_ERROR != PHASE_DEPLOYING && PHASE_ERROR != PHASE_RUNNING
    ensures PHASE_ERROR != PHASE_TIMEOUT && PHASE_ERROR != PHASE_DEPLOY_ERROR
    ensures PHASE_TIMEOUT != PHASE_UNSET && PHASE_TIMEOUT != PHASE_DEPLOYING && PHASE_TIMEOUT != PHASE_RUNNING
    ensures PHASE_TIMEOUT != PHASE_DEPLOY_ERROR
    ensures PHASE_DEPLOY_ERROR != PHASE_UNSET && PHASE_DEPLOY_ERROR != PHASE_DEPLOYING && PHASE_DEPLOY_ERROR != PHASE_RUNNING
    ensures PHASE_DEPLOYING != PHASE_UNSET && PHASE_DEPLOYING != PHASE_RUNNING && PHASE_RUNNING != PHASE_UNSET
    ensures !InPhaseEnum(PHASE_TIMEOUT) && !InPhaseEnum(PHASE_DEPLOY_ERROR) && !InPhaseEnum(PHASE_UNSET)
  {
    assert |PHASE_FINISHED| == 17 && |PHASE_ERROR| == 14 && |PHASE_TIMEOUT| == 16 && |PHASE_DEPLOY_ERROR| == 20;
    assert |PHASE_DEPLOYING| == 18 && |PHASE_RUNNING| == 16 && |PHASE_DEPLOY_FAILURE| == 22;
    assert PHASE_TIMEOUT[9] == 'T' && PHASE_RUNNING[9] == 'R';
  }

  const STATE_PASSED := "passed"
  const STATE_SKIPPED := "skipped"
  const STATE_FAILED := "failed"
  const STATE_ERROR := "error"

  const VERDICT_PASS := "pass"
  const VERDICT_SKIP := "skip"
  const VERDICT_FAIL := "fail"
  const VERDICT_ERROR := "error"

  predicate InStateEnum(state: string) {
    state == STATE_PASSED || state == STATE_SKIPPED || state == STATE_FAILED || state == STATE_ERROR
  }
}
