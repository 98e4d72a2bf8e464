/** The Kubernetes `batch/v1` Job descriptor that the scheduler builds,
    as typed records in place of the nested dictionaries of the source. */
module Descriptor {
  import opened Options

  /** A value in the descriptor: an integer or a string, as Python puts
      either into the dictionary. */
  datatype Value = Int(i: int) | Str(s: string)

  /** An entry of a container's `env` list. */
  datatype EnvVar = EnvVar(name: string, value: Value)

  /** An entry of `volumeMounts`; an absent `readOnly` key is `false`. */
  datatype Mount = Mount(name: string, mountPath: string, readOnly: bool)

  /** One entry of `containers` or `initContainers`. `limits` and
      `requests` are the two dictionaries under `resources`. */
  datatype Container = Container(
    name: string,
    image: string,
    command: seq<string>,
    env: seq<EnvVar>,
    limits: map<string, Value>,
    requests: map<string, Value>,
    volumeMounts: seq<Mount>)

  /** The single backing source of a volume. */
  datatype VolumeSource = EmptyDir | Secret(secretName: string) | HostPath(path: string)

  datatype Volume = Volume(name: string, source: VolumeSource)

  /** `spec.template.spec`. A key the source never sets is `None`. */
  datatype PodSpec = PodSpec(
    restartPolicy: string,
    containers: seq<Container>,
    initContainers: Option<seq<Container>>,
    nodeSelector: Option<map<string, string>>,
    volumes: seq<Volume>)

  /** `spec.template`: its `metadata.name` and its `spec`. */
  datatype PodTemplate = PodTemplate(name: string, spec: PodSpec)

  /** The Job's `spec`. */
  datatype JobSpec = JobSpec(
    parallelism: int,
    completions: int,
    activeDeadlineSeconds: int,
    template: PodTemplate)

  /** The whole descriptor: `apiVersion`, `kind`, `metadata.name`, `spec`. */
  datatype Job = Job(apiVersion: string, kind: string, name: string, spec: JobSpec)

  /** Every container of the pod, init containers included. */
  function AllContainers(pod: PodSpec): (cs: seq<Container>) {
    pod.initContainers.GetOr([]) + pod.containers
  }

  /** The names of `volumes`, in order. */
  function VolumeNames(volumes: seq<Volume>): (names: seq<string>)
    ensures |names| == |volumes|
    ensures forall i :: 0 <= i < |volumes| ==> names[i] == volumes[i].name
  {
    if volumes == [] then [] else [volumes[0].name] + VolumeNames(volumes[1..])
  }

  /** Every volume mount of every container and init container names a
      volume the pod declares. */
  predicate MountsResolve(pod: PodSpec) {
    forall c, m :: c in AllContainers(pod) && m in c.volumeMounts ==> m.name in VolumeNames(pod.volumes)
  }
}
