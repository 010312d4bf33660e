/** One poll of a job pod: which container status is looked at, and what it decides. */
module Polling {
  import opened Api
  import opened StatusStore
  import JobPod

  /** Go's time.Duration: nanoseconds in 64 bits. */
  type Duration = d: int | -0x8000_0000_0000_0000 <= d < 0x8000_0000_0000_0000

  const MIN_DURATION: int := -0x8000_0000_0000_0000
  const MAX_DURATION: int := 0x7fff_ffff_ffff_ffff

  const SECOND := 1_000_000_000
  const CHECK_INTERVAL: Duration := 10 * SECOND
  const DEFAULT_TIMEOUT: Duration := 3600 * SECOND
  const SAFE_GUARD: Duration := 120 * SECOND

  /** time.ParseDuration, left uninterpreted: None is a parse error. */
  type DurationParser = string -> Option<Duration>

  /** Duration addition wraps around. */
  function WrapAdd(a: Duration, b: Duration): Duration {
    var sum := a + b;
    if sum > MAX_DURATION then sum - 0x1_0000_0000_0000_0000
    else if sum < MIN_DURATION then sum + 0x1_0000_0000_0000_0000
    else sum
  }

  /** time.Since saturates. */
  function Since(now: int, start: int): Duration {
    var d := now - start;
    if d > MAX_DURATION then MAX_DURATION else if d < MIN_DURATION then MIN_DURATION else d
  }

  /** What a timeout means, in nanoseconds: its value, or an hour when it does not parse. */
  function Nanoseconds(parse: DurationParser, timeout: string): int {
    match parse(timeout)
    case None => 3_600_000_000_000
    case Some(value) => value
  }

  function JobRunTimeThreshold(parse: DurationParser, timeout: string): Duration {
    match parse(timeout)
    case None => DEFAULT_TIMEOUT
    case Some(d) => d
  }

  function Overdue(now: int, start: int, threshold: Duration): bool {
    Since(now, start) > WrapAdd(threshold, SAFE_GUARD)
  }

  /** A pod in the cluster. statuses[i] describes the i-th container; some may be missing yet. */
  datatype ClusterPod = ClusterPod(spec: JobPod.Pod, statuses: seq<ContainerState>)

  predicate StatusesFit(p: ClusterPod) {
    |p.statuses| <= |p.spec.containers|
  }

  /** The status at the first index, among those reported, whose container has that name. */
  function StatusFrom(p: ClusterPod, name: string, i: nat): Option<ContainerState>
    requires StatusesFit(p) && i <= |p.statuses|
    decreases |p.statuses| - i
  {
    if i == |p.statuses| then None
    else if p.spec.containers[i].name == name then Some(p.statuses[i])
    else StatusFrom(p, name, i + 1)
  }

  function ContainerStatus(p: ClusterPod, name: string): Option<ContainerState>
    requires StatusesFit(p)
  {
    StatusFrom(p, name, 0)
  }

  lemma {:induction false} StatusFromIs(p: ClusterPod, name: string, i: nat, j: nat)
    requires StatusesFit(p) && i <= j < |p.spec.containers|
    requires p.spec.containers[j].name == name
    requires forall l :: i <= l < j ==> p.spec.containers[l].name != name
    requires i <= |p.statuses|
    ensures StatusFrom(p, name, i) == if j < |p.statuses| then Some(p.statuses[j]) else None
    decreases j - i
  {
    if i < j && i < |p.statuses| {
      StatusFromIs(p, name, i + 1, j);
    }
  }

  /** In a pod with the two containers in their order, the status found for the certsuite
      container is the second one reported. */
  lemma CertsuiteStatus(p: ClusterPod)
    requires StatusesFit(p) && JobPod.TwoContainers(p.spec)
    ensures ContainerStatus(p, JobPod.CERTSUITE) == if |p.statuses| > 1 then Some(p.statuses[1]) else None
  {
    StatusFromIs(p, JobPod.CERTSUITE, 0, 1);
  }

  datatype Outcome =
    | NoStatus
    | NilDereference
    | StillRunning(startedAt: int)
    | Decided(phase: string)

  /** The decision of one poll on an observed pod. */
  function PollOutcome(p: ClusterPod, threshold: Duration, now: int): Outcome
    requires StatusesFit(p)
  {
    match ContainerStatus(p, JobPod.CERTSUITE)
    case None => NoStatus
    case Some(Waiting) => NilDereference
    case Some(Running(start)) =>
      if Overdue(now, start, threshold) then Decided(PHASE_TIMEOUT) else StillRunning(start)
    case Some(Terminated(code, _)) => if code == 0 then Decided(PHASE_FINISHED) else Decided(PHASE_ERROR)
  }

  // --------------------------------------------------------- the bound

  /** The caps T the bound is about: the deadline is not before the start, adding the safe guard
      does not wrap, and the saturating elapsed time can exceed the deadline. */
  predicate SaneTimeout(t: Duration) {
    -SAFE_GUARD <= t < MAX_DURATION - SAFE_GUARD
  }

  /** The deadline wraps to before the start exactly when the timeout is within two minutes
      of the largest duration, and then every poll of a started container times it out. */
  lemma DeadlineWraps(t: Duration)
    requires t >= 0
    ensures (forall now, start {:trigger Overdue(now, start, t)} :: start <= now ==> Overdue(now, start, t))
            <==> t > MAX_DURATION - SAFE_GUARD
  {
    if t <= MAX_DURATION - SAFE_GUARD {
      assert !Overdue(0, 0, t);
    }
  }

  /** When a poll of a running container times it out: with the timeout in nanoseconds, or an
      hour when it does not parse, exactly when the container has been running for longer than
      that and two minutes. It holds for every timeout up to two minutes below the largest
      duration, and for every container that started at most that long ago. */
  lemma TimedOutExactlyWhen(parse: DurationParser, timeout: string, p: ClusterPod, now: int, start: int)
    requires Nanoseconds(parse, timeout) < 9_223_372_036_854_775_807 - 120_000_000_000
    requires StatusesFit(p) && ContainerStatus(p, JobPod.CERTSUITE) == Some(Running(start))
    requires start <= now <= start + 9_223_372_036_854_775_807
    ensures
      var outcome := PollOutcome(p, JobRunTimeThreshold(parse, timeout), now);
      if now - start > Nanoseconds(parse, timeout) + 120_000_000_000 then outcome == Decided(PHASE_TIMEOUT)
      else outcome == StillRunning(start)
  {
    hide StatusFrom;
  }

  /** Polls that found the container still running: when, and since when it was running. */
  datatype Poll = Poll(pod: Key, run: Key, at: int, startedAt: int, threshold: Duration)

  /** Polls of one container, at least an interval apart, none of them overdue. */
  ghost predicate Spaced(ps: seq<Poll>) {
    && (forall i :: 0 <= i < |ps| ==> ps[i].startedAt <= ps[i].at && !Overdue(ps[i].at, ps[i].startedAt, ps[i].threshold))
    && (forall i, j :: 0 <= i < |ps| && 0 <= j < |ps| ==> ps[i].startedAt == ps[j].startedAt)
    && (forall i :: 0 < i < |ps| ==> ps[i].at >= ps[i - 1].at + CHECK_INTERVAL)
  }

  lemma {:induction false} SpacedSpan(ps: seq<Poll>)
    requires Spaced(ps) && |ps| > 0
    ensures ps[|ps| - 1].at >= ps[0].at + (|ps| - 1) * CHECK_INTERVAL
  {
    if |ps| > 1 {
      var init := ps[..|ps| - 1];
      assert Spaced(init) by {
        forall i, j | 0 <= i < |init| && 0 <= j < |init| ensures init[i].startedAt == init[j].startedAt {
          assert ps[i].startedAt == ps[j].startedAt;
        }
      }
      SpacedSpan(init);
    }
  }

  /** At most floor((T + 2 min) / 10 s) + 1 polls can say "still running" when no timeout
      they read exceeds T. */
  lemma PollsAreBounded(ps: seq<Poll>, t: Duration)
    requires Spaced(ps) && SaneTimeout(t)
    requires forall i :: 0 <= i < |ps| ==> ps[i].threshold <= t
    ensures |ps| <= (t + 120_000_000_000) / 10_000_000_000 + 1
  {
    if |ps| > 0 {
      SpacedSpan(ps);
      var last := ps[|ps| - 1];
      assert last.startedAt == ps[0].startedAt;
      assert !Overdue(last.at, last.startedAt, last.threshold);
      assert Since(last.at, last.startedAt) <= t + SAFE_GUARD;
      assert (|ps| - 1) * CHECK_INTERVAL <= t + SAFE_GUARD;
      DivideBound(|ps| - 1, t + SAFE_GUARD);
    }
  }

  lemma DivideBound(n: int, x: int)
    requires n * CHECK_INTERVAL <= x
    ensures n <= x / CHECK_INTERVAL
  {
  }

  /** Each "still running" poll comes before the deadline, and one interval later the time
      left has shrunk by the interval: once none is left the next poll decides. */
  lemma PollDecides(p: ClusterPod, threshold: Duration, now: int, start: int)
    requires StatusesFit(p) && SaneTimeout(threshold)
    requires ContainerStatus(p, JobPod.CERTSUITE) == Some(Running(start)) && start <= now <= start + MAX_DURATION
    ensures PollOutcome(p, threshold, now).StillRunning? <==> threshold + SAFE_GUARD - (now - start) >= 0
    ensures PollOutcome(p, threshold, now).Decided? <==> threshold + SAFE_GUARD - (now - start) < 0
  {
  }
}
