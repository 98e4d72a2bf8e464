/** `OpenShiftManager.schedule`: turns the job request into a `batch/v1`
    Job descriptor. The call that submits the descriptor to the cluster is
    not part of this model; the descriptor it would be given is the result. */
module Schedule {
  import opened Options
  import opened Strings
  import opened Descriptor

  const GpuResource := "nvidia.com/gpu"
  const SharedVolume := "shared-volume"
  const SwiftCredentials := "swift-credentials"
  const KubecfgVolume := "kubecfg-volume"
  const PublisherImage := "fnndsc/pman-swift-publisher"
  /** The `resources.requests` floor that every container asks for. */
  const FloorRequests: map<string, Value> := map["memory" := Str("128Mi"), "cpu" := Str("250m")]
  /** The `resources.limits` of the two storage helper containers. */
  const HelperLimits: map<string, Value> := map["memory" := Str("1024Mi"), "cpu" := Str("2000m")]

  /** The storage type that selects the object-storage topology. */
  predicate IsSwift(storageType: Option<string>) {
    storageType == Some("swift")
  }

  /** `c` runs the caller's image and command: it is named after the job,
      echoes the worker count and the limits in its environment, asks for
      the fixed request floor, is limited by the caller's limits (plus the
      GPU count when one is asked for) and mounts the shared volume. */
  predicate IsPrimary(c: Container, image: string, command: string, name: string,
                      workers: int, cpuLimit: string, memoryLimit: string, gpuLimit: int)
  {
    && c.name == name
    && c.image == image
    && c.command == Split(command, ' ')
    && c.env == [EnvVar("NUMBER_OF_WORKERS", Int(workers)),
                 EnvVar("CPU_LIMIT", Str(cpuLimit)),
                 EnvVar("MEMORY_LIMIT", Str(memoryLimit))]
    && c.requests == FloorRequests
    && c.limits.Keys == {"memory", "cpu"} + (if gpuLimit > 0 then {GpuResource} else {})
    && c.limits["memory"] == Str(memoryLimit)
    && c.limits["cpu"] == Str(cpuLimit)
    && (gpuLimit > 0 ==> c.limits[GpuResource] == Int(gpuLimit))
    && c.volumeMounts == [Mount(SharedVolume, "/share", false)]
  }

  /** `c` fetches the job's input from object storage before the primary
      container starts. */
  predicate IsInitStorage(c: Container, name: string) {
    && c.name == "init-storage"
    && c.image == PublisherImage
    && c.command == ["python3", "get_data.py"]
    && c.env == [EnvVar("SWIFT_KEY", Str(name))]
    && c.limits == HelperLimits
    && c.requests == FloorRequests
    && c.volumeMounts == [Mount(SharedVolume, "/share", false),
                          Mount(SwiftCredentials, "/etc/swift", true)]
  }

  /** `c` ships the job's output to object storage; it alone mounts the
      cluster credentials. */
  predicate IsPublish(c: Container, name: string, project: string) {
    && c.name == "publish"
    && c.image == PublisherImage
    && c.command == ["python3", "watch.py"]
    && c.env == [EnvVar("SWIFT_KEY", Str(name)),
                 EnvVar("KUBECFG_PATH", Str("/tmp/.kube/config")),
                 EnvVar("OPENSHIFTMGR_PROJECT", Str(project))]
    && c.limits == HelperLimits
    && c.requests == FloorRequests
    && c.volumeMounts == [Mount(SharedVolume, "/share", false),
                          Mount(SwiftCredentials, "/etc/swift", true),
                          Mount(KubecfgVolume, "/tmp/.kube/", true)]
  }

  /** No container but container 0 carries the GPU limit. */
  predicate GpuOnlyOnPrimary(pod: PodSpec) {
    && (forall i :: 1 <= i < |pod.containers| ==> GpuResource !in pod.containers[i].limits)
    && (forall c :: c in pod.initContainers.GetOr([]) ==> GpuResource !in c.limits)
  }

  /** `pod` has the shape the base descriptor gives it: the primary
      container alone, no init containers, no node selector, no volumes. */
  predicate IsBasePod(pod: PodSpec, image: string, command: string, name: string,
                      workers: int, cpuLimit: string, memoryLimit: string)
  {
    && pod.restartPolicy == "Never"
    && |pod.containers| == 1
    && IsPrimary(pod.containers[0], image, command, name, workers, cpuLimit, memoryLimit, 0)
    && pod.initContainers == None
    && pod.nodeSelector == None
    && pod.volumes == []
  }

  /** The pod template of the base descriptor, before the GPU and storage
      steps. */
  method BasePod(image: string, command: string, name: string, numberOfWorkers: int,
                 cpuLimit: string, memoryLimit: string) returns (pod: PodSpec)
    ensures IsBasePod(pod, image, command, name, numberOfWorkers, cpuLimit, memoryLimit)
  {
    var primary := Container(
      name, image, Split(command, ' '),
      [EnvVar("NUMBER_OF_WORKERS", Int(numberOfWorkers)),
       EnvVar("CPU_LIMIT", Str(cpuLimit)),
       EnvVar("MEMORY_LIMIT", Str(memoryLimit))],
      map["memory" := Str(memoryLimit), "cpu" := Str(cpuLimit)],
      FloorRequests,
      [Mount(SharedVolume, "/share", false)]);
    pod := PodSpec("Never", [primary], None, None, []);
  }

  /** The GPU step: container 0 gains the `nvidia.com/gpu` limit and the
      pod a node selector for GPU nodes; nothing else changes. */
  method RequestGpu(pod: PodSpec, gpuLimit: int) returns (pod': PodSpec)
    requires |pod.containers| >= 1
    ensures |pod'.containers| == |pod.containers|
    ensures pod'.containers[0] == pod.containers[0].(limits := pod.containers[0].limits[GpuResource := Int(gpuLimit)])
    ensures pod'.containers[1..] == pod.containers[1..]
    ensures pod'.nodeSelector == Some(map["accelerator" := "gpu-node"])
    ensures pod' == pod.(containers := pod'.containers, nodeSelector := pod'.nodeSelector)
  {
    var c0 := pod.containers[0];
    pod' := pod.(containers := pod.containers[0 := c0.(limits := c0.limits[GpuResource := Int(gpuLimit)])]);
    pod' := pod'.(nodeSelector := Some(map["accelerator" := "gpu-node"]));
  }

  /** The object-storage step: the init container goes under
      `initContainers`, the publish container after the existing ones, and
      the three volumes replace the volume list. */
  method AttachSwiftStorage(pod: PodSpec, name: string, project: string) returns (pod': PodSpec)
    ensures pod'.initContainers.Some? && |pod'.initContainers.value| == 1
    ensures IsInitStorage(pod'.initContainers.value[0], name)
    ensures |pod'.containers| == |pod.containers| + 1
    ensures pod'.containers[..|pod.containers|] == pod.containers
    ensures |pod.containers| >= 1 ==> pod'.containers[0] == pod.containers[0]
    ensures GpuOnlyOnPrimary(pod) ==> GpuOnlyOnPrimary(pod')
    ensures IsPublish(pod'.containers[|pod.containers|], name, project)
    ensures pod'.volumes == [Volume(SharedVolume, EmptyDir),
                             Volume(SwiftCredentials, Secret("swift-credentials")),
                             Volume(KubecfgVolume, Secret("kubecfg"))]
    ensures pod'.restartPolicy == pod.restartPolicy && pod'.nodeSelector == pod.nodeSelector
  {
    assert GpuResource !in HelperLimits;
    pod' := pod.(initContainers := Some([
      Container("init-storage", PublisherImage, ["python3", "get_data.py"],
                [EnvVar("SWIFT_KEY", Str(name))],
                HelperLimits, FloorRequests,
                [Mount(SharedVolume, "/share", false),
                 Mount(SwiftCredentials, "/etc/swift", true)])]));
    pod' := pod'.(containers := pod'.containers + [
      Container("publish", PublisherImage, ["python3", "watch.py"],
                [EnvVar("SWIFT_KEY", Str(name)),
                 EnvVar("KUBECFG_PATH", Str("/tmp/.kube/config")),
                 EnvVar("OPENSHIFTMGR_PROJECT", Str(project))],
                HelperLimits, FloorRequests,
                [Mount(SharedVolume, "/share", false),
                 Mount(SwiftCredentials, "/etc/swift", true),
                 Mount(KubecfgVolume, "/tmp/.kube/", true)])]);
    pod' := pod'.(volumes := [Volume(SharedVolume, EmptyDir),
                              Volume(SwiftCredentials, Secret("swift-credentials")),
                              Volume(KubecfgVolume, Secret("kubecfg"))]);
  }

  /** The shared host-path step: one volume on a host directory named
      after the job; nothing else changes. */
  method AttachHostPathStorage(pod: PodSpec, name: string) returns (pod': PodSpec)
    ensures pod'.volumes == [Volume(SharedVolume, HostPath("/tmp/share/key-" + name))]
    ensures pod' == pod.(volumes := pod'.volumes)
  {
    pod' := pod.(volumes := [Volume(SharedVolume, HostPath("/tmp/share/key-" + name))]);
  }

  /** Every mount of the object-storage topology names one of its volumes. */
  lemma SwiftMountsResolve(pod: PodSpec, name: string, project: string)
    requires pod.initContainers.Some? && |pod.initContainers.value| == 1
    requires IsInitStorage(pod.initContainers.value[0], name)
    requires |pod.containers| == 2 && IsPublish(pod.containers[1], name, project)
    requires pod.containers[0].volumeMounts == [Mount(SharedVolume, "/share", false)]
    requires pod.volumes == [Volume(SharedVolume, EmptyDir),
                             Volume(SwiftCredentials, Secret("swift-credentials")),
                             Volume(KubecfgVolume, Secret("kubecfg"))]
    ensures MountsResolve(pod)
  {
    assert VolumeNames(pod.volumes) == [SharedVolume, SwiftCredentials, KubecfgVolume];
    assert AllContainers(pod) == [pod.initContainers.value[0], pod.containers[0], pod.containers[1]];
  }

  /** The one mount of the host-path topology names its one volume. */
  lemma HostPathMountsResolve(pod: PodSpec, name: string)
    requires pod.initContainers == None
    requires |pod.containers| == 1
    requires pod.containers[0].volumeMounts == [Mount(SharedVolume, "/share", false)]
    requires pod.volumes == [Volume(SharedVolume, HostPath("/tmp/share/key-" + name))]
    ensures MountsResolve(pod)
  {
  }

  /** Builds the descriptor step by step as the source does: the base job
      with the primary container, then the GPU limit and node selector on
      container 0, then the storage topology. `storageType` is the value
      of the `STORAGE_TYPE` environment variable and `project` the
      manager's project. */
  method Schedule(image: string, command: string, name: string, numberOfWorkers: int,
                  cpuLimit: string, memoryLimit: string, gpuLimit: int,
                  storageType: Option<string>, project: string) returns (job: Job)
    ensures job.apiVersion == "batch/v1" && job.kind == "Job"
    ensures job.name == name && job.spec.template.name == name
    ensures job.spec.parallelism == numberOfWorkers && job.spec.completions == numberOfWorkers
    ensures job.spec.activeDeadlineSeconds == 3600
    ensures job.spec.template.spec.restartPolicy == "Never"
    // container 0 is the primary container in either topology
    ensures |job.spec.template.spec.containers| >= 1
    ensures IsPrimary(job.spec.template.spec.containers[0], image, command, name,
                      numberOfWorkers, cpuLimit, memoryLimit, gpuLimit)
    // the GPU request touches container 0 and the node selector only
    ensures job.spec.template.spec.nodeSelector ==
            if gpuLimit > 0 then Some(map["accelerator" := "gpu-node"]) else None
    ensures GpuOnlyOnPrimary(job.spec.template.spec)
    // object-storage topology
    ensures IsSwift(storageType) ==>
              && job.spec.template.spec.initContainers.Some?
              && |job.spec.template.spec.initContainers.value| == 1
              && IsInitStorage(job.spec.template.spec.initContainers.value[0], name)
              && |job.spec.template.spec.containers| == 2
              && IsPublish(job.spec.template.spec.containers[1], name, project)
              && job.spec.template.spec.volumes ==
                   [Volume(SharedVolume, EmptyDir),
                    Volume(SwiftCredentials, Secret("swift-credentials")),
                    Volume(KubecfgVolume, Secret("kubecfg"))]
    // shared host-path topology
    ensures !IsSwift(storageType) ==>
              && job.spec.template.spec.initContainers == None
              && |job.spec.template.spec.containers| == 1
              && job.spec.template.spec.volumes ==
                   [Volume(SharedVolume, HostPath("/tmp/share/key-" + name))]
    ensures MountsResolve(job.spec.template.spec)
  {
    var pod := BasePod(image, command, name, numberOfWorkers, cpuLimit, memoryLimit);
    if gpuLimit > 0 {
      pod := RequestGpu(pod, gpuLimit);
    }
    var primary := pod.containers[0];
    assert IsPrimary(primary, image, command, name, numberOfWorkers, cpuLimit, memoryLimit, gpuLimit);
    assert GpuOnlyOnPrimary(pod);

    if IsSwift(storageType) {
      pod := AttachSwiftStorage(pod, name, project);
      SwiftMountsResolve(pod, name, project);
    } else {
      pod := AttachHostPathStorage(pod, name);
      HostPathMountsResolve(pod, name);
    }

    job := Job("batch/v1", "Job", name,
               JobSpec(numberOfWorkers, numberOfWorkers, 3600, PodTemplate(name, pod)));
  }
}
