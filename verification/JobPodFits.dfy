/** That the parts of the pod Reconcile launches fit: what a container is told to use is there,
    mounted from where it should come. */
module JobPodFits {
  import opened Api
  import opened JobPod
  import opened JobPodOrder

  /** The value of a flag: of several with one name the last counts. */
  function ValueOf(fs: seq<Flag>, flag: string): Option<string> {
    if fs == [] then None
    else
      var last := fs[|fs| - 1];
      if last.0 == flag then Some(last.1) else ValueOf(fs[..|fs| - 1], flag)
  }

  /** What the command line of a pod's second container, the suite, sets a flag to. */
  function Setting(p: Pod, flag: string): Option<string> {
    if |p.containers| < 2 || ParseArgs(p.containers[1].args).None? then None
    else ValueOf(ParseArgs(p.containers[1].args).value, flag)
  }

  lemma {:induction false} ValueOfDistinct(fs: seq<Flag>, i: nat)
    requires i < |fs| && forall a, b :: 0 <= a < b < |fs| ==> fs[a].0 != fs[b].0
    ensures ValueOf(fs, fs[i].0) == Some(fs[i].1)
  {
    if i < |fs| - 1 {
      ValueOfDistinct(fs[..|fs| - 1], i);
    }
  }

  /** The suite is told the run's own settings, whatever strings they are, and its fixed ones. */
  lemma LaunchSettings(podName: string, run: Key, owner: Owner, spec: RunSpec, image: string)
    ensures
      var p := LaunchPod(podName, run, owner, spec, image);
      && Setting(p, "--output-dir") == Some("/certsuite/results")
      && Setting(p, "--config-file") == Some("/certsuite/config/suite/tnf_config.yaml")
      && Setting(p, "--preflight-dockerconfig") == Some("/certsuite/config/preflight/preflight_dockerconfig.json")
      && Setting(p, "--intrusive") == Some("false")
      && Setting(p, "-l") == Some(spec.labelsFilter)
      && Setting(p, "--log-level") == Some(spec.logLevel)
      && Setting(p, "--timeout") == Some(spec.timeOut)
      && Setting(p, "--enable-data-collection") == Some(if spec.enableDataCollection then "true" else "false")
  {
    ArgsRoundTrip(podName, run, owner, spec, image);
    FlagsDistinct(spec);
    var fs := BASE_FLAGS + RunFlags(spec);
    hide LaunchPod, ParseArgs, ValueOf;
    forall i | 0 <= i < 8 ensures ValueOf(fs, fs[i].0) == Some(fs[i].1) {
      ValueOfDistinct(fs, i);
    }
    assert fs[0] == ("--output-dir", "/certsuite/results");
    assert fs[1] == ("--config-file", "/certsuite/config/suite/tnf_config.yaml");
    assert fs[2] == ("--preflight-dockerconfig", "/certsuite/config/preflight/preflight_dockerconfig.json");
    assert fs[3] == ("--intrusive", "false") && fs[4] == ("-l", spec.labelsFilter);
    assert fs[5] == ("--log-level", spec.logLevel) && fs[6] == ("--timeout", spec.timeOut);
    assert fs[7] == ("--enable-data-collection", if spec.enableDataCollection then "true" else "false");
  }

  /** The container at `i` has a volume of that source at that path. */
  ghost predicate Mounted(p: Pod, i: nat, source: VolumeSource, readOnly: bool, path: string) {
    && i < |p.containers|
    && exists name :: Volume(name, source) in p.volumes && Mount(name, readOnly, path) in p.containers[i].mounts
  }

  /** Both containers have one and the same empty volume, writable in the suite's alone. */
  ghost predicate SharesVolume(p: Pod, suitePath: string, sidecarPath: string) {
    && |p.containers| == 2
    && exists name ::
         && Volume(name, EmptyDir) in p.volumes
         && Mount(name, false, suitePath) in p.containers[1].mounts
         && Mount(name, true, sidecarPath) in p.containers[0].mounts
  }

  lemma LaunchMounts(podName: string, run: Key, owner: Owner, spec: RunSpec, image: string)
    ensures
      var p := LaunchPod(podName, run, owner, spec, image);
      && SharesVolume(p, "/certsuite/results", "/certsuite/results")
      && Mounted(p, 1, ConfigMap(spec.configMapName), true, "/certsuite/config/suite")
      && (spec.preflightSecretName.Some? ==>
            Mounted(p, 1, Secret(spec.preflightSecretName.value), true, "/certsuite/config/preflight"))
  {
    LaunchPodIs(podName, run, owner, spec, image);
    var p := LaunchPod(podName, run, owner, spec, image);
    assert p.volumes[0] == Volume("certsuite-output", EmptyDir);
    assert p.containers[1].mounts[0] == Mount("certsuite-output", false, "/certsuite/results");
    assert p.containers[0].mounts[0] == Mount("certsuite-output", true, "/certsuite/results");
    assert p.volumes[1] == Volume("certsuite-config", ConfigMap(spec.configMapName));
    assert p.containers[1].mounts[1] == Mount("certsuite-config", true, "/certsuite/config/suite");
    if spec.preflightSecretName.Some? {
      assert p.volumes[2] == Volume("certsuite-preflight-dockerconfig", Secret(spec.preflightSecretName.value));
      assert p.containers[1].mounts[2] == Mount("certsuite-preflight-dockerconfig", true, "/certsuite/config/preflight");
    }
  }

  lemma LaunchFrame(podName: string, run: Key, owner: Owner, spec: RunSpec, image: string)
    ensures
      var p := LaunchPod(podName, run, owner, spec, image);
      && p.name == podName && p.namespace == run.ns && p.owners == [owner]
      && p.restartPolicy == "Never" && p.serviceAccount == "certsuite-cluster-access" && |p.containers| == 2
      && p.containers[0].name == "certsuite-sidecar" && p.containers[0].image == image
      && p.containers[0].pullPolicy == "IfNotPresent" && p.containers[1].pullPolicy == "Always"
      && p.containers[1].name == "certsuite" && p.containers[1].command == ["certsuite"]
      && p.containers[1].image == "quay.io/redhat-best-practices-for-k8s/certsuite:unstable"
  {
    LaunchPodIs(podName, run, owner, spec, image);
  }

  /** The suite is told to use a file right in the folder where it has a volume of that source. */
  ghost predicate ReadsFrom(p: Pod, flag: string, source: VolumeSource, file: string) {
    exists dir :: Mounted(p, 1, source, true, dir) && Setting(p, flag) == Some(dir + "/" + file)
  }

  lemma ReadsFromThere(p: Pod, flag: string, source: VolumeSource, dir: string, file: string, path: string)
    requires Mounted(p, 1, source, true, dir) && Setting(p, flag) == Some(path) && path == dir + "/" + file
    ensures ReadsFrom(p, flag, source, file)
  {
  }

  /** The launched pod holds together. The suite writes its results where a volume is mounted
      writable, and the sidecar has the same volume, read-only, at the folder its environment
      names; the suite's configuration file is a key of the run's config map, and its docker
      configuration a key of the run's secret, if there is one; the pod is never restarted, is
      in the run's namespace and has the run for its one owner. */
  lemma LaunchFits(podName: string, run: Key, owner: Owner, spec: RunSpec, image: string)
    ensures
      var p := LaunchPod(podName, run, owner, spec, image);
      && Setting(p, "--output-dir").Some?
      && SharesVolume(p, Setting(p, "--output-dir").value, Getenv(p, "TNF_RESULTS_FOLDER"))
      && ReadsFrom(p, "--config-file", ConfigMap(spec.configMapName), "tnf_config.yaml")
      && (spec.preflightSecretName.Some? ==>
            ReadsFrom(p, "--preflight-dockerconfig", Secret(spec.preflightSecretName.value), "preflight_dockerconfig.json"))
    ensures
      var p := LaunchPod(podName, run, owner, spec, image);
      && p.name == podName && p.namespace == run.ns && p.owners == [owner]
      && p.restartPolicy == "Never" && p.serviceAccount == "certsuite-cluster-access" && |p.containers| == 2
      && p.containers[0].name == "certsuite-sidecar" && p.containers[0].image == image
      && p.containers[0].pullPolicy == "IfNotPresent" && p.containers[1].pullPolicy == "Always"
      && p.containers[1].name == "certsuite" && p.containers[1].command == ["certsuite"]
      && p.containers[1].image == "quay.io/redhat-best-practices-for-k8s/certsuite:unstable"
  {
    LaunchSettings(podName, run, owner, spec, image);
    LaunchMounts(podName, run, owner, spec, image);
    LaunchEnv(podName, run, owner, spec, image);
    LaunchFrame(podName, run, owner, spec, image);
    PathsJoin();
    hide LaunchPod, Setting, Getenv, SharesVolume, Mounted, ReadsFrom;
    var p := LaunchPod(podName, run, owner, spec, image);
    ReadsFromThere(p, "--config-file", ConfigMap(spec.configMapName), "/certsuite/config/suite", "tnf_config.yaml",
                   "/certsuite/config/suite/tnf_config.yaml");
    if spec.preflightSecretName.Some? {
      ReadsFromThere(p, "--preflight-dockerconfig", Secret(spec.preflightSecretName.value), "/certsuite/config/preflight",
                     "preflight_dockerconfig.json", "/certsuite/config/preflight/preflight_dockerconfig.json");
    }
  }

  lemma PathsJoin()
    ensures "/certsuite/config/suite" + "/" + "tnf_config.yaml" == "/certsuite/config/suite/tnf_config.yaml"
    ensures "/certsuite/config/preflight" + "/" + "preflight_dockerconfig.json"
         == "/certsuite/config/preflight/preflight_dockerconfig.json"
  {
  }

  /** No two volumes of one container of the launched pod are mounted at one path. */
  lemma LaunchPathsDiffer(podName: string, run: Key, owner: Owner, spec: RunSpec, image: string, i: nat, j: nat, k: nat)
    requires i < |LaunchPod(podName, run, owner, spec, image).containers|
    requires j < k < |LaunchPod(podName, run, owner, spec, image).containers[i].mounts|
    ensures
      var ms := LaunchPod(podName, run, owner, spec, image).containers[i].mounts;
      ms[j].path != ms[k].path
  {
    LaunchPodIs(podName, run, owner, spec, image);
    assert |"/certsuite/results"| == 18 && |"/certsuite/config/suite"| == 23 && |"/certsuite/config/preflight"| == 27;
  }
}
