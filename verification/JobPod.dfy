/** The job pod builder as a function: an initial pod and options applied to it in order.
    PodBuilder has the same thing in the in-place form the program uses. */
module JobPod {
  import opened Api

  const SIDECAR := "certsuite-sidecar"
  const CERTSUITE := "certsuite"
  const RESULTS_FOLDER := "/certsuite/results"
  const CONFIG_FOLDER := "/certsuite/config/suite"
  const PREFLIGHT_FOLDER := "/certsuite/config/preflight"
  const CONFIG_FILE := "/certsuite/config/suite/tnf_config.yaml"
  const PREFLIGHT_FILE := "/certsuite/config/preflight/preflight_dockerconfig.json"
  const SERVICE_ACCOUNT := "certsuite-cluster-access"
  const CERTSUITE_IMAGE := "quay.io/redhat-best-practices-for-k8s/certsuite:unstable"

  const OUTPUT_VOLUME := "certsuite-output"
  const CONFIG_VOLUME := "certsuite-config"
  const PREFLIGHT_VOLUME := "certsuite-preflight-dockerconfig"

  datatype EnvVar = Literal(name: string, value: string) | FieldRef(name: string, path: string)

  datatype Mount = Mount(name: string, readOnly: bool, path: string)

  datatype VolumeSource = EmptyDir | ConfigMap(configMap: string) | Secret(secret: string)

  datatype Volume = Volume(name: string, source: VolumeSource)

  datatype Owner = Owner(apiVersion: string, kind: string, name: string, uid: nat)

  datatype Container = Container(
    name: string,
    image: string,
    pullPolicy: string,
    command: seq<string>,
    args: seq<string>,
    env: seq<EnvVar>,
    mounts: seq<Mount>)

  datatype Pod = Pod(
    name: string,
    namespace: string,
    owners: seq<Owner>,
    serviceAccount: string,
    restartPolicy: string,
    containers: seq<Container>,
    volumes: seq<Volume>)

  datatype PodOption =
    | WithPodName(podName: string)
    | WithNamespace(namespace: string)
    | WithCertSuiteConfigRunName(runName: string)
    | WithLabelsFilter(labelsFilter: string)
    | WithLogLevel(logLevel: string)
    | WithTimeOut(timeOut: string)
    | WithConfigMap(configMapName: string)
    | WithPreflightSecret(secretName: Option<string>)
    | WithSideCarApp(image: string)
    | WithEnableDataCollection(enable: string)
    | WithOwnerReference(uid: nat, ownerName: string, kind: string, apiVersion: string)

  /** What applying options can come to: a pod, a reported error, or a nil dereference. */
  datatype Outcome = Built(pod: Pod) | Failed | Panicked

  function InitialSidecar(): Container {
    Container(SIDECAR, "", "IfNotPresent", [], [],
              [FieldRef("MY_POD_NAME", "metadata.name"), FieldRef("MY_POD_NAMESPACE", "metadata.namespace"),
               Literal("TNF_RESULTS_FOLDER", RESULTS_FOLDER)],
              [Mount(OUTPUT_VOLUME, true, RESULTS_FOLDER)])
  }

  function InitialCertsuite(): Container {
    Container(CERTSUITE, CERTSUITE_IMAGE, "Always", ["certsuite"],
              ["run", "--output-dir", RESULTS_FOLDER, "--config-file", CONFIG_FILE,
               "--preflight-dockerconfig", PREFLIGHT_FILE, "--intrusive", "false"],
              [],
              [Mount(OUTPUT_VOLUME, false, RESULTS_FOLDER), Mount(CONFIG_VOLUME, true, CONFIG_FOLDER)])
  }

  function InitialPod(): Pod {
    Pod("", "", [], SERVICE_ACCOUNT, "Never", [InitialSidecar(), InitialCertsuite()],
        [Volume(OUTPUT_VOLUME, EmptyDir)])
  }

  /** The index of the first container of that name, or the number of containers. */
  function Find(cs: seq<Container>, name: string): (i: nat)
    ensures i <= |cs|
    ensures i < |cs| ==> cs[i].name == name
    ensures forall j :: 0 <= j < i ==> cs[j].name != name
  {
    if cs == [] then 0
    else if cs[0].name == name then 0
    else 1 + Find(cs[1..], name)
  }

  function AddArgs(p: Pod, flag: string, value: string): Outcome {
    var i := Find(p.containers, CERTSUITE);
    if i == |p.containers| then Failed
    else Built(p.(containers := p.containers[i := p.containers[i].(args := p.containers[i].args + [flag, value])]))
  }

  function ApplyOption(o: PodOption, p: Pod): Outcome {
    match o
    case WithPodName(n) => Built(p.(name := n))
    case WithNamespace(ns) => Built(p.(namespace := ns))
    case WithCertSuiteConfigRunName(n) =>
      var i := Find(p.containers, SIDECAR);
      if i == |p.containers| then Failed
      else
        var env := p.containers[i].env + [Literal("RUN_CR_NAME", n)];
        Built(p.(containers := p.containers[i := p.containers[i].(env := env)]))
    case WithLabelsFilter(l) => AddArgs(p, "-l", l)
    case WithLogLevel(l) => AddArgs(p, "--log-level", l)
    case WithTimeOut(t) => AddArgs(p, "--timeout", t)
    case WithConfigMap(cm) => Built(p.(volumes := p.volumes + [Volume(CONFIG_VOLUME, ConfigMap(cm))]))
    case WithPreflightSecret(None) => Built(p)
    case WithPreflightSecret(Some(s)) =>
      var i := Find(p.containers, CERTSUITE);
      if i == |p.containers| then Panicked
      else
        var mounts := p.containers[i].mounts + [Mount(PREFLIGHT_VOLUME, true, PREFLIGHT_FOLDER)];
        Built(p.(volumes := p.volumes + [Volume(PREFLIGHT_VOLUME, Secret(s))],
                 containers := p.containers[i := p.containers[i].(mounts := mounts)]))
    case WithSideCarApp(image) =>
      var i := Find(p.containers, SIDECAR);
      if i == |p.containers| then Failed
      else Built(p.(containers := p.containers[i := p.containers[i].(image := image)]))
    case WithEnableDataCollection(e) => AddArgs(p, "--enable-data-collection", e)
    case WithOwnerReference(uid, n, kind, version) => Built(p.(owners := [Owner(version, kind, n, uid)]))
  }

  /** Options applied left to right; the first error or panic ends it. */
  function Fold(os: seq<PodOption>, p: Pod): Outcome {
    if os == [] then Built(p)
    else
      match ApplyOption(os[0], p)
      case Built(q) => Fold(os[1..], q)
      case bad => bad
  }

  function New(os: seq<PodOption>): Outcome {
    Fold(os, InitialPod())
  }

  /** The list Reconcile passes for a run it found. */
  function LaunchOptions(podName: string, run: Key, owner: Owner, spec: RunSpec, sideCarImage: string): seq<PodOption> {
    [WithPodName(podName), WithNamespace(run.ns), WithCertSuiteConfigRunName(run.name)]
    + [WithLabelsFilter(spec.labelsFilter), WithLogLevel(spec.logLevel), WithTimeOut(spec.timeOut)]
    + [WithConfigMap(spec.configMapName), WithPreflightSecret(spec.preflightSecretName), WithSideCarApp(sideCarImage)]
    + [WithEnableDataCollection(if spec.enableDataCollection then "true" else "false"),
       WithOwnerReference(owner.uid, owner.name, owner.kind, owner.apiVersion)]
  }

  // ------------------------------------------------------------- totality

  /** What every option keeps: the two containers, in this order. */
  predicate TwoContainers(p: Pod) {
    |p.containers| == 2 && p.containers[0].name == SIDECAR && p.containers[1].name == CERTSUITE
  }

  lemma FindBoth(p: Pod)
    requires TwoContainers(p)
    ensures Find(p.containers, SIDECAR) == 0 && Find(p.containers, CERTSUITE) == 1
  {
  }

  lemma OptionKeepsContainers(o: PodOption, p: Pod)
    requires TwoContainers(p)
    ensures ApplyOption(o, p).Built? && TwoContainers(ApplyOption(o, p).pod)
  {
    FindBoth(p);
  }

  lemma {:induction false} FoldIsTotal(os: seq<PodOption>, p: Pod)
    requires TwoContainers(p)
    ensures Fold(os, p).Built? && TwoContainers(Fold(os, p).pod)
  {
    if os != [] {
      OptionKeepsContainers(os[0], p);
      FoldIsTotal(os[1..], ApplyOption(os[0], p).pod);
    }
  }

  /** No list of options, of any length and with any repeats, makes New fail or panic. */
  lemma NewIsTotal(os: seq<PodOption>)
    ensures New(os).Built?
    ensures TwoContainers(New(os).pod)
  {
    FoldIsTotal(os, InitialPod());
  }

  function NewPod(os: seq<PodOption>): Pod {
    NewIsTotal(os);
    New(os).pod
  }

  function LaunchPod(podName: string, run: Key, owner: Owner, spec: RunSpec, sideCarImage: string): Pod {
    NewPod(LaunchOptions(podName, run, owner, spec, sideCarImage))
  }

  // ------------------------------------------------- reference integrity

  predicate HasVolume(p: Pod, name: string) {
    exists v :: v in p.volumes && v.name == name
  }

  ghost predicate Mounts(p: Pod, name: string) {
    exists i, m :: 0 <= i < |p.containers| && m in p.containers[i].mounts && m.name == name
  }

  ghost predicate MountsResolve(p: Pod) {
    forall name :: Mounts(p, name) ==> HasVolume(p, name)
  }

  /** The mounts a pod can have, and the volumes behind them. */
  ghost predicate References(p: Pod, configMap: bool) {
    && TwoContainers(p)
    && HasVolume(p, OUTPUT_VOLUME)
    && Mounts(p, CONFIG_VOLUME)
    && (HasVolume(p, CONFIG_VOLUME) <==> configMap)
    && (forall name :: Mounts(p, name) ==>
          name == OUTPUT_VOLUME || name == CONFIG_VOLUME || (name == PREFLIGHT_VOLUME && HasVolume(p, PREFLIGHT_VOLUME)))
  }

  ghost predicate UsesConfigMap(os: seq<PodOption>) {
    exists i :: 0 <= i < |os| && os[i].WithConfigMap?
  }

  lemma OptionReferences(o: PodOption, p: Pod, configMap: bool)
    requires References(p, configMap)
    ensures ApplyOption(o, p).Built? && References(ApplyOption(o, p).pod, configMap || o.WithConfigMap?)
  {
    OptionKeepsContainers(o, p);
    var q := ApplyOption(o, p).pod;
    VolumesGrow(o, p, q);
    MountsGrow(o, p, q);
    hide ApplyOption, HasVolume, Mounts, TwoContainers, CONFIG_VOLUME, PREFLIGHT_VOLUME, OUTPUT_VOLUME;
    VolumesDiffer();
  }

  lemma VolumesDiffer()
    ensures CONFIG_VOLUME != PREFLIGHT_VOLUME && CONFIG_VOLUME != OUTPUT_VOLUME && PREFLIGHT_VOLUME != OUTPUT_VOLUME
  {
    assert |CONFIG_VOLUME| == 16 && CONFIG_VOLUME[10] == 'c' && OUTPUT_VOLUME[10] == 'o' && PREFLIGHT_VOLUME[10] == 'p';
  }

  lemma MountsGrow(o: PodOption, p: Pod, q: Pod)
    requires TwoContainers(p) && ApplyOption(o, p) == Built(q)
    ensures forall name :: Mounts(q, name) <==>
              Mounts(p, name) || (o.WithPreflightSecret? && o.secretName.Some? && name == PREFLIGHT_VOLUME)
  {
    FindBoth(p);
    var mount := Mount(PREFLIGHT_VOLUME, true, PREFLIGHT_FOLDER);
    if o.WithPreflightSecret? && o.secretName.Some? {
      assert mount in q.containers[1].mounts;
    }
    forall name | Mounts(q, name)
      ensures Mounts(p, name) || (o.WithPreflightSecret? && o.secretName.Some? && name == PREFLIGHT_VOLUME)
    {
      var i, m :| 0 <= i < |q.containers| && m in q.containers[i].mounts && m.name == name;
      assert m in p.containers[i].mounts || (o.WithPreflightSecret? && o.secretName.Some? && m == mount);
    }
    forall name | Mounts(p, name) ensures Mounts(q, name) {
      var i, m :| 0 <= i < |p.containers| && m in p.containers[i].mounts && m.name == name;
      assert m in q.containers[i].mounts;
    }
  }

  lemma VolumesGrow(o: PodOption, p: Pod, q: Pod)
    requires TwoContainers(p) && ApplyOption(o, p) == Built(q)
    ensures forall name :: HasVolume(q, name) <==>
              || HasVolume(p, name)
              || (o.WithConfigMap? && name == CONFIG_VOLUME)
              || (o.WithPreflightSecret? && o.secretName.Some? && name == PREFLIGHT_VOLUME)
  {
    FindBoth(p);
    if o.WithConfigMap? {
      var v := Volume(CONFIG_VOLUME, ConfigMap(o.configMapName));
      assert v in q.volumes;
    } else if o.WithPreflightSecret? && o.secretName.Some? {
      var v := Volume(PREFLIGHT_VOLUME, Secret(o.secretName.value));
      assert v in q.volumes;
    }
    forall name | HasVolume(p, name) ensures HasVolume(q, name) {
      var v :| v in p.volumes && v.name == name;
      assert v in q.volumes;
    }
  }

  lemma {:induction false} FoldReferences(os: seq<PodOption>, p: Pod, configMap: bool)
    requires References(p, configMap)
    ensures Fold(os, p).Built? && References(Fold(os, p).pod, configMap || UsesConfigMap(os))
  {
    if os != [] {
      var o, rest := os[0], os[1..];
      OptionReferences(o, p, configMap);
      FoldReferences(rest, ApplyOption(o, p).pod, configMap || o.WithConfigMap?);
      assert UsesConfigMap(os) <==> o.WithConfigMap? || UsesConfigMap(rest) by {
        if UsesConfigMap(rest) {
          var i :| 0 <= i < |rest| && rest[i].WithConfigMap?;
          assert os[i + 1].WithConfigMap?;
        }
        if UsesConfigMap(os) && !o.WithConfigMap? {
          var i :| 0 <= i < |os| && os[i].WithConfigMap?;
          assert rest[i - 1].WithConfigMap?;
        }
      }
    }
  }

  /** Every volume mount of the built pod names one of its volumes exactly when the
      options name a config map: the initial pod mounts one it does not declare. */
  lemma MountsResolveIff(os: seq<PodOption>)
    ensures New(os).Built?
    ensures MountsResolve(New(os).pod) <==> UsesConfigMap(os)
  {
    var p := InitialPod();
    assert References(p, false) by {
      assert p.volumes[0] in p.volumes;
      assert p.containers[1].mounts[1].name == CONFIG_VOLUME;
      assert Mounts(p, CONFIG_VOLUME);
      forall name | Mounts(p, name) ensures name == OUTPUT_VOLUME || name == CONFIG_VOLUME {
        var i, m :| 0 <= i < |p.containers| && m in p.containers[i].mounts && m.name == name;
        assert i == 0 || i == 1;
      }
    }
    FoldReferences(os, p, false);
  }

  // ------------------------------------- the parts of a pod options reach

  /** What one option does to a pod, without saying where: the option's effect. */
  datatype Effect =
    | Nothing
    | SetName(name: string)
    | SetNamespace(namespace: string)
    | SetOwner(owner: Owner)
    | SetImage(image: string)
    | AddEnv(env: EnvVar)
    | AddFlag(flag: string, value: string)
    | AddVolume(volume: Volume)
    | AddMountedVolume(mounted: Volume, mount: Mount)

  function EffectOf(o: PodOption): Effect {
    match o
    case WithPodName(n) => SetName(n)
    case WithNamespace(ns) => SetNamespace(ns)
    case WithCertSuiteConfigRunName(n) => AddEnv(Literal("RUN_CR_NAME", n))
    case WithLabelsFilter(l) => AddFlag("-l", l)
    case WithLogLevel(l) => AddFlag("--log-level", l)
    case WithTimeOut(t) => AddFlag("--timeout", t)
    case WithConfigMap(cm) => AddVolume(Volume(CONFIG_VOLUME, ConfigMap(cm)))
    case WithPreflightSecret(None) => Nothing
    case WithPreflightSecret(Some(s)) =>
      AddMountedVolume(Volume(PREFLIGHT_VOLUME, Secret(s)), Mount(PREFLIGHT_VOLUME, true, PREFLIGHT_FOLDER))
    case WithSideCarApp(image) => SetImage(image)
    case WithEnableDataCollection(e) => AddFlag("--enable-data-collection", e)
    case WithOwnerReference(uid, n, kind, version) => SetOwner(Owner(version, kind, n, uid))
  }

  /** The fields options can change, as additions to a base pod. */
  datatype Parts = Parts(
    name: string,
    namespace: string,
    owners: seq<Owner>,
    image: string,
    env: seq<EnvVar>,
    args: seq<string>,
    mounts: seq<Mount>,
    volumes: seq<Volume>)

  const NO_PARTS := Parts("", "", [], "", [], [], [], [])

  function Assemble(base: Pod, f: Parts): Pod
    requires TwoContainers(base)
  {
    base.(
      name := f.name, namespace := f.namespace, owners := f.owners,
      containers := [base.containers[0].(image := f.image, env := base.containers[0].env + f.env),
                     base.containers[1].(args := base.containers[1].args + f.args,
                                         mounts := base.containers[1].mounts + f.mounts)],
      volumes := base.volumes + f.volumes)
  }

  function Touch(e: Effect, f: Parts): Parts {
    match e
    case Nothing => f
    case SetName(n) => f.(name := n)
    case SetNamespace(ns) => f.(namespace := ns)
    case SetOwner(owner) => f.(owners := [owner])
    case SetImage(image) => f.(image := image)
    case AddEnv(env) => f.(env := f.env + [env])
    case AddFlag(flag, value) => f.(args := f.args + [flag, value])
    case AddVolume(v) => f.(volumes := f.volumes + [v])
    case AddMountedVolume(v, m) => f.(volumes := f.volumes + [v], mounts := f.mounts + [m])
  }

  function TouchAll(es: seq<Effect>, f: Parts): Parts {
    if es == [] then f else TouchAll(es[1..], Touch(es[0], f))
  }

  function Effects(os: seq<PodOption>): (es: seq<Effect>)
    ensures |es| == |os|
  {
    if os == [] then [] else [EffectOf(os[0])] + Effects(os[1..])
  }

  lemma {:induction false} EffectsConcat(a: seq<PodOption>, b: seq<PodOption>)
    ensures Effects(a + b) == Effects(a) + Effects(b)
  {
    if a == [] {
      assert a + b == b;
    } else {
      EffectsConcat(a[1..], b);
      assert (a + b)[1..] == a[1..] + b;
    }
  }

  lemma EffectTouches(o: PodOption, base: Pod, f: Parts)
    requires TwoContainers(base)
    ensures ApplyOption(o, Assemble(base, f)) == Built(Assemble(base, Touch(EffectOf(o), f)))
  {
    var p, g := Assemble(base, f), Touch(EffectOf(o), f);
    FindBoth(p);
    var r := ApplyOption(o, p).pod;
    assert r.volumes == base.volumes + g.volumes;
    assert r.containers[0].env == base.containers[0].env + g.env;
    assert r.containers[1].args == base.containers[1].args + g.args;
    assert r.containers[1].mounts == base.containers[1].mounts + g.mounts;
    assert r.containers == Assemble(base, g).containers;
  }

  lemma {:induction false} FoldTouches(os: seq<PodOption>, base: Pod, f: Parts)
    requires TwoContainers(base)
    ensures Fold(os, Assemble(base, f)) == Built(Assemble(base, TouchAll(Effects(os), f)))
  {
    if os != [] {
      EffectTouches(os[0], base, f);
      FoldTouches(os[1..], base, Touch(EffectOf(os[0]), f));
      assert Effects(os)[1..] == Effects(os[1..]);
    }
  }

  lemma AssembleNothing(base: Pod)
    requires TwoContainers(base)
    requires base.name == "" && base.namespace == "" && base.owners == [] && base.containers[0].image == ""
    ensures Assemble(base, NO_PARTS) == base
  {
    var p := Assemble(base, NO_PARTS);
    assert p.volumes == base.volumes;
    assert p.containers[0].env == base.containers[0].env;
    assert p.containers[1].args == base.containers[1].args;
    assert p.containers[1].mounts == base.containers[1].mounts;
    assert p.containers == base.containers;
  }

  /** Whatever the options, the pod is the initial one with its reachable parts filled in. */
  lemma NewAssembles(os: seq<PodOption>)
    ensures New(os) == Built(Assemble(InitialPod(), TouchAll(Effects(os), NO_PARTS)))
  {
    AssembleNothing(InitialPod());
    FoldTouches(os, InitialPod(), NO_PARTS);
  }

  // --------------------------------------------------- what Reconcile builds

  function LaunchParts(podName: string, run: Key, owner: Owner, spec: RunSpec, image: string): Parts {
    Parts(podName, run.ns, [owner], image, [Literal("RUN_CR_NAME", run.name)], LaunchArgs(spec),
          if spec.preflightSecretName.None? then [] else [Mount(PREFLIGHT_VOLUME, true, PREFLIGHT_FOLDER)],
          LaunchVolumes(spec))
  }

  function LaunchArgs(spec: RunSpec): seq<string> {
    ["-l", spec.labelsFilter] + ["--log-level", spec.logLevel] + ["--timeout", spec.timeOut]
    + ["--enable-data-collection", if spec.enableDataCollection then "true" else "false"]
  }

  function LaunchVolumes(spec: RunSpec): seq<Volume> {
    [Volume(CONFIG_VOLUME, ConfigMap(spec.configMapName))]
    + if spec.preflightSecretName.None? then []
      else [Volume(PREFLIGHT_VOLUME, Secret(spec.preflightSecretName.value))]
  }

  lemma {:induction false} TouchAllConcat(a: seq<Effect>, b: seq<Effect>, f: Parts)
    ensures TouchAll(a + b, f) == TouchAll(b, TouchAll(a, f))
  {
    if a == [] {
      assert a + b == b;
    } else {
      assert (a + b)[1..] == a[1..] + b;
      TouchAllConcat(a[1..], b, Touch(a[0], f));
    }
  }

  lemma TwoEffects(x: PodOption, y: PodOption, f: Parts)
    ensures Effects([x, y]) == [EffectOf(x), EffectOf(y)]
    ensures TouchAll(Effects([x, y]), f) == Touch(EffectOf(y), Touch(EffectOf(x), f))
  {
    assert [x, y] == [x] + [y];
    EffectsConcat([x], [y]);
    assert Effects([x]) == [EffectOf(x)] && Effects([y]) == [EffectOf(y)];
    TouchAllConcat([EffectOf(x)], [EffectOf(y)], f);
  }

  lemma ThreeEffects(x: PodOption, y: PodOption, z: PodOption, f: Parts)
    ensures Effects([x, y, z]) == [EffectOf(x), EffectOf(y), EffectOf(z)]
    ensures TouchAll(Effects([x, y, z]), f) == Touch(EffectOf(z), Touch(EffectOf(y), Touch(EffectOf(x), f)))
  {
    assert [x, y, z] == [x, y] + [z];
    EffectsConcat([x, y], [z]);
    TwoEffects(x, y, f);
    assert Effects([z]) == [EffectOf(z)];
    TouchAllConcat(Effects([x, y]), [EffectOf(z)], f);
  }

  lemma TouchAllFour(a: seq<PodOption>, b: seq<PodOption>, c: seq<PodOption>, d: seq<PodOption>, f: Parts)
    ensures Effects(a + b + c + d) == Effects(a) + Effects(b) + Effects(c) + Effects(d)
    ensures TouchAll(Effects(a + b + c + d), f)
         == TouchAll(Effects(d), TouchAll(Effects(c), TouchAll(Effects(b), TouchAll(Effects(a), f))))
  {
    EffectsConcat(a, b);
    EffectsConcat(a + b, c);
    EffectsConcat(a + b + c, d);
    TouchAllConcat(Effects(a), Effects(b), f);
    TouchAllConcat(Effects(a) + Effects(b), Effects(c), f);
    TouchAllConcat(Effects(a) + Effects(b) + Effects(c), Effects(d), f);
  }

  /** The pod Reconcile creates, part by part. */
  lemma LaunchPodIs(podName: string, run: Key, owner: Owner, spec: RunSpec, image: string)
    ensures LaunchPod(podName, run, owner, spec, image)
         == Assemble(InitialPod(), LaunchParts(podName, run, owner, spec, image))
  {
    NewAssembles(LaunchOptions(podName, run, owner, spec, image));
    LaunchTouches(podName, run, owner, spec, image);
  }

  lemma NamesTouch(podName: string, run: Key)
    ensures TouchAll(Effects([WithPodName(podName), WithNamespace(run.ns), WithCertSuiteConfigRunName(run.name)]), NO_PARTS)
         == NO_PARTS.(name := podName, namespace := run.ns, env := [Literal("RUN_CR_NAME", run.name)])
  {
    ThreeEffects(WithPodName(podName), WithNamespace(run.ns), WithCertSuiteConfigRunName(run.name), NO_PARTS);
    hide TouchAll, Effects;
  }

  lemma FlagsTouch(spec: RunSpec, f: Parts)
    requires f.args == []
    ensures TouchAll(Effects([WithLabelsFilter(spec.labelsFilter), WithLogLevel(spec.logLevel), WithTimeOut(spec.timeOut)]), f)
         == f.(args := ["-l", spec.labelsFilter] + ["--log-level", spec.logLevel] + ["--timeout", spec.timeOut])
  {
    ThreeEffects(WithLabelsFilter(spec.labelsFilter), WithLogLevel(spec.logLevel), WithTimeOut(spec.timeOut), f);
    hide TouchAll, Effects;
    assert [] + ["-l", spec.labelsFilter] == ["-l", spec.labelsFilter];
  }

  lemma LaunchTouches(podName: string, run: Key, owner: Owner, spec: RunSpec, image: string)
    ensures TouchAll(Effects(LaunchOptions(podName, run, owner, spec, image)), NO_PARTS)
         == LaunchParts(podName, run, owner, spec, image)
  {
    hide TouchAll, Effects;
    var g := LaunchParts(podName, run, owner, spec, image);
    var names := [WithPodName(podName), WithNamespace(run.ns), WithCertSuiteConfigRunName(run.name)];
    var flags := [WithLabelsFilter(spec.labelsFilter), WithLogLevel(spec.logLevel), WithTimeOut(spec.timeOut)];
    var o7, o8, o9 := WithConfigMap(spec.configMapName), WithPreflightSecret(spec.preflightSecretName), WithSideCarApp(image);
    var o10 := WithEnableDataCollection(if spec.enableDataCollection then "true" else "false");
    var o11 := WithOwnerReference(owner.uid, owner.name, owner.kind, owner.apiVersion);
    TouchAllFour(names, flags, [o7, o8, o9], [o10, o11], NO_PARTS);
    NamesTouch(podName, run);
    var f3 := TouchAll(Effects(names), NO_PARTS);
    FlagsTouch(spec, f3);
    var f6 := TouchAll(Effects(flags), f3);
    ThreeEffects(o7, o8, o9, f6);
    LaunchTouchesVolumes(f6, g, o7, o8, image);
    var f9 := TouchAll(Effects([o7, o8, o9]), f6);
    TwoEffects(o10, o11, f9);
  }

  lemma LaunchTouchesVolumes(f: Parts, g: Parts, config: PodOption, secret: PodOption, image: string)
    requires config.WithConfigMap? && secret.WithPreflightSecret?
    requires f.volumes == [] && f.mounts == []
    requires g.volumes == [Volume(CONFIG_VOLUME, ConfigMap(config.configMapName))]
               + if secret.secretName.None? then [] else [Volume(PREFLIGHT_VOLUME, Secret(secret.secretName.value))]
    requires g.mounts == if secret.secretName.None? then [] else [Mount(PREFLIGHT_VOLUME, true, PREFLIGHT_FOLDER)]
    ensures Touch(SetImage(image), Touch(EffectOf(secret), Touch(EffectOf(config), f)))
         == f.(volumes := g.volumes, mounts := g.mounts, image := image)
  {
    var h := Touch(EffectOf(secret), Touch(EffectOf(config), f));
    assert h.volumes == g.volumes;
    assert h.mounts == g.mounts;
  }

  /** What a variable is set to in the containers of a pod: what it says, or a field of the pod. */
  function Resolve(v: EnvVar, p: Pod): string {
    match v
    case Literal(_, value) => value
    case FieldRef(_, path) =>
      if path == "metadata.name" then p.name else if path == "metadata.namespace" then p.namespace else ""
  }

  /** The value of an environment variable: of several with one name the last counts. */
  function Lookup(env: seq<EnvVar>, name: string, p: Pod): string {
    if env == [] then ""
    else
      var last := env[|env| - 1];
      if last.name == name then Resolve(last, p) else Lookup(env[..|env| - 1], name, p)
  }

  /** What the sidecar of a pod reads from its environment. */
  function Getenv(p: Pod, name: string): string {
    if |p.containers| > 0 then Lookup(p.containers[0].env, name, p) else ""
  }

  /** The run a pod's sidecar reports to, as its environment names it. */
  function ReportsTo(p: Pod): Key {
    Key(Getenv(p, "MY_POD_NAMESPACE"), Getenv(p, "RUN_CR_NAME"))
  }

  lemma LookupAppend(env: seq<EnvVar>, v: EnvVar, name: string, p: Pod)
    ensures Lookup(env + [v], name, p) == if v.name == name then Resolve(v, p) else Lookup(env, name, p)
  {
    assert (env + [v])[..|env|] == env;
  }

  lemma LookupInFour(a: EnvVar, b: EnvVar, c: EnvVar, d: EnvVar, name: string, p: Pod)
    ensures Lookup([a, b, c, d], name, p) ==
              if d.name == name then Resolve(d, p) else if c.name == name then Resolve(c, p)
              else if b.name == name then Resolve(b, p) else if a.name == name then Resolve(a, p) else ""
  {
    LookupAppend([], a, name, p);
    LookupAppend([a], b, name, p);
    LookupAppend([a, b], c, name, p);
    LookupAppend([a, b, c], d, name, p);
    assert [a, b, c, d] == [a, b, c] + [d] && [a, b, c] == [a, b] + [c] && [a, b] == [a] + [b] && [a] == [] + [a];
  }

  /** What the launched sidecar reads from its environment. */
  lemma LaunchEnv(podName: string, run: Key, owner: Owner, spec: RunSpec, image: string)
    ensures
      var p := LaunchPod(podName, run, owner, spec, image);
      && Getenv(p, "MY_POD_NAME") == podName && Getenv(p, "MY_POD_NAMESPACE") == run.ns
      && Getenv(p, "TNF_RESULTS_FOLDER") == "/certsuite/results" && Getenv(p, "RUN_CR_NAME") == run.name
  {
    LaunchPodIs(podName, run, owner, spec, image);
    var p := LaunchPod(podName, run, owner, spec, image);
    var a, b := FieldRef("MY_POD_NAME", "metadata.name"), FieldRef("MY_POD_NAMESPACE", "metadata.namespace");
    var c, d := Literal("TNF_RESULTS_FOLDER", "/certsuite/results"), Literal("RUN_CR_NAME", run.name);
    assert p.containers[0].env == [a, b, c, d] && p.name == podName && p.namespace == run.ns;
    NamesDiffer();
    assert |"metadata.name"| != |"metadata.namespace"|;
    hide LaunchPod, Lookup;
    forall name ensures Getenv(p, name) == Lookup([a, b, c, d], name, p) {}
    LookupInFour(a, b, c, d, "MY_POD_NAME", p);
    LookupInFour(a, b, c, d, "MY_POD_NAMESPACE", p);
    LookupInFour(a, b, c, d, "TNF_RESULTS_FOLDER", p);
    LookupInFour(a, b, c, d, "RUN_CR_NAME", p);
  }

  lemma NamesDiffer()
    ensures "RUN_CR_NAME" != "TNF_RESULTS_FOLDER" && "RUN_CR_NAME" != "MY_POD_NAMESPACE" && "RUN_CR_NAME" != "MY_POD_NAME"
    ensures "TNF_RESULTS_FOLDER" != "MY_POD_NAMESPACE" && "TNF_RESULTS_FOLDER" != "MY_POD_NAME"
    ensures "MY_POD_NAMESPACE" != "MY_POD_NAME"
  {
    assert "RUN_CR_NAME"[0] == 'R' && "TNF_RESULTS_FOLDER"[0] == 'T';
    assert "MY_POD_NAME"[0] == 'M' && "MY_POD_NAMESPACE"[0] == 'M';
    assert |"MY_POD_NAME"| != |"MY_POD_NAMESPACE"|;
  }

  /** The sidecar Reconcile launches reports to the run it was launched for. */
  lemma LaunchReportsBack(podName: string, run: Key, owner: Owner, spec: RunSpec, image: string)
    ensures ReportsTo(LaunchPod(podName, run, owner, spec, image)) == run
  {
    LaunchEnv(podName, run, owner, spec, image);
    hide LaunchPod, Getenv;
  }

  predicate NamedOnce(p: Pod, name: string) {
    exists j :: 0 <= j < |p.volumes| && p.volumes[j].name == name
      && forall k :: 0 <= k < |p.volumes| && p.volumes[k].name == name ==> k == j
  }

  /** In Reconcile's pod every mount names exactly one volume. */
  lemma LaunchMountsResolveOnce(podName: string, run: Key, owner: Owner, spec: RunSpec, image: string)
    ensures forall name :: Mounts(LaunchPod(podName, run, owner, spec, image), name) ==>
              NamedOnce(LaunchPod(podName, run, owner, spec, image), name)
  {
    var os := LaunchOptions(podName, run, owner, spec, image);
    var p := LaunchPod(podName, run, owner, spec, image);
    MountsResolveIff(os);
    assert os[6].WithConfigMap?;
    LaunchPodIs(podName, run, owner, spec, image);
    LaunchVolumeNames(spec);
    assert p.volumes == [Volume(OUTPUT_VOLUME, EmptyDir)] + LaunchVolumes(spec);
    forall name | Mounts(p, name) ensures NamedOnce(p, name) {
      assert HasVolume(p, name);
      var v :| v in p.volumes && v.name == name;
      var j :| 0 <= j < |p.volumes| && p.volumes[j] == v;
    }
  }

  lemma LaunchVolumeNames(spec: RunSpec)
    ensures
      var vs := [Volume(OUTPUT_VOLUME, EmptyDir)] + LaunchVolumes(spec);
      forall i, j :: 0 <= i < j < |vs| ==> vs[i].name != vs[j].name
  {
    assert |OUTPUT_VOLUME| == |CONFIG_VOLUME| < |PREFLIGHT_VOLUME|;
    assert OUTPUT_VOLUME[10] != CONFIG_VOLUME[10];
  }
}
