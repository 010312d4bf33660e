/** The job pod builder in place: options that append to and overwrite the fields of one
    shared pod, proved against the same builder as a function of pod values. */
module PodBuilder {
  import opened Api
  import opened JobPod

  datatype Applied = Done | Error | NilDereference

  class PodObject {
    var name: string
    var namespace: string
    var owners: seq<Owner>
    var serviceAccount: string
    var restartPolicy: string
    var containers: array<Container>
    var volumes: seq<Volume>

    /** The pod every job starts from. */
    constructor ()
      ensures View() == InitialPod() && fresh(containers)
    {
      name, namespace, owners := "", "", [];
      serviceAccount, restartPolicy := SERVICE_ACCOUNT, "Never";
      containers := new Container[] [InitialSidecar(), InitialCertsuite()];
      volumes := [Volume(OUTPUT_VOLUME, EmptyDir)];
      new;
      hide InitialSidecar, InitialCertsuite;
      assert containers[..] == [InitialSidecar(), InitialCertsuite()];
    }

    function View(): Pod
      reads this, containers
    {
      Pod(name, namespace, owners, serviceAccount, restartPolicy, containers[..], volumes)
    }

    /** The index of the first container of that name, -1 when there is none. */
    method FindContainer(name: string) returns (i: int)
      ensures -1 <= i < containers.Length
      ensures Find(containers[..], name) == if i == -1 then containers.Length else i
    {
      for j := 0 to containers.Length
        invariant forall l :: 0 <= l < j ==> containers[l].name != name
      {
        if containers[j].name == name {
          assert containers[..][j].name == name;
          return j;
        }
      }
      return -1;
    }

    /** Appends a flag and its value to the arguments of the certsuite container. */
    method AppendArgs(flag: string, value: string) returns (r: Applied)
      modifies this, containers
      ensures containers == old(containers)
      ensures r == AppliedAs(AddArgs(old(View()), flag, value))
      ensures View() == if r == Done then AddArgs(old(View()), flag, value).pod else old(View())
    {
      var i := FindContainer(CERTSUITE);
      if i == -1 {
        return Error;
      }
      containers[i] := containers[i].(args := containers[i].args + [flag, value]);
      return Done;
    }

    /** Applies one option to the pod. An error leaves the pod as it was. */
    method Apply(o: PodOption) returns (r: Applied)
      modifies this, containers
      ensures containers == old(containers)
      ensures r == AppliedAs(ApplyOption(o, old(View())))
      ensures r == Done ==> View() == ApplyOption(o, old(View())).pod
      ensures r == Error ==> View() == old(View())
    {
      match o {
        case WithPodName(n) =>
          name := n;
        case WithNamespace(ns) =>
          namespace := ns;
        case WithCertSuiteConfigRunName(n) =>
          var i := FindContainer(SIDECAR);
          if i == -1 {
            return Error;
          }
          containers[i] := containers[i].(env := containers[i].env + [Literal("RUN_CR_NAME", n)]);
        case WithLabelsFilter(l) =>
          r := AppendArgs("-l", l);
          return;
        case WithLogLevel(l) =>
          r := AppendArgs("--log-level", l);
          return;
        case WithTimeOut(t) =>
          r := AppendArgs("--timeout", t);
          return;
        case WithConfigMap(cm) =>
          volumes := volumes + [Volume(CONFIG_VOLUME, ConfigMap(cm))];
        case WithPreflightSecret(secret) =>
          r := ApplyPreflightSecret(secret);
          return;
        case WithSideCarApp(image) =>
          var i := FindContainer(SIDECAR);
          if i == -1 {
            return Error;
          }
          containers[i] := containers[i].(image := image);
        case WithEnableDataCollection(e) =>
          r := AppendArgs("--enable-data-collection", e);
          return;
        case WithOwnerReference(uid, n, kind, version) =>
          owners := [Owner(version, kind, n, uid)];
      }
      return Done;
    }

    /** Mounts the preflight secret, if there is one: the volume first, then the mount, in a
        container that is not checked to be there. */
    method ApplyPreflightSecret(secret: Option<string>) returns (r: Applied)
      modifies this, containers
      ensures containers == old(containers)
      ensures r == AppliedAs(ApplyOption(WithPreflightSecret(secret), old(View()))) && r != Error
      ensures r == Done ==> View() == ApplyOption(WithPreflightSecret(secret), old(View())).pod
    {
      if secret.None? {
        return Done;
      }
      volumes := volumes + [Volume(PREFLIGHT_VOLUME, Secret(secret.value))];
      var i := FindContainer(CERTSUITE);
      if i == -1 {
        return NilDereference;
      }
      containers[i] := containers[i].(mounts := containers[i].mounts + [Mount(PREFLIGHT_VOLUME, true, PREFLIGHT_FOLDER)]);
      return Done;
    }
  }

  function AppliedAs(o: Outcome): Applied {
    match o
    case Built(_) => Done
    case Failed => Error
    case Panicked => NilDereference
  }

  /** Builds a pod from any options. Its error return is never taken. */
  method New(options: seq<PodOption>) returns (pod: PodObject)
    ensures fresh(pod) && fresh(pod.containers)
    ensures pod.View() == NewPod(options)
  {
    hide InitialSidecar, InitialCertsuite, ApplyOption;
    NewIsTotal(options);
    pod := new PodObject();
    for i := 0 to |options|
      invariant fresh(pod) && fresh(pod.containers)
      invariant Fold(options[i..], pod.View()) == JobPod.New(options)
    {
      var r := pod.Apply(options[i]);
      assert options[i..][1..] == options[i + 1..];
      assert r == Done;
    }
  }
}
