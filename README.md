# pman OpenShift job manager — Dafny model

This project models the logic inside `OpenShiftManager`, the class in pman
that runs plugin jobs on an OpenShift/Kubernetes cluster. The model covers:

- **The Job descriptor builder** (`schedule`). It turns an image, a command line,
  a job name, a worker count and CPU, memory and GPU limits into a
  `batch/v1` Job. The descriptor is a tree of datatypes: `Job`, `JobSpec`,
  `PodTemplate`, `PodSpec`, `Container`, `EnvVar`, `Mount`, `Volume`.
  The builder runs in the same order as the source:
  1. it builds the base descriptor;
  2. when a GPU is asked for, it adds the GPU limit to container 0 and sets a node selector;
  3. it picks one of two storage topologies. `swift` storage gets an init container,
     a `publish` container and three volumes. Any other storage type gets one host-path volume.

  The `STORAGE_TYPE` environment variable and the manager's project are parameters.
- **The state deriver** (`state`). It scans the job's status conditions in
  order, stops at the first failure, and otherwise picks complete, then running,
  then inactive. It passes the counters and timestamps through.
- **The log and pod-name helpers.**
  - `get_job_pod_logs`: finds the plugin container's name from the pod name
    and joins three container logs in a fixed, labelled order.
  - `get_pod_names_in_job`: builds a `job-name=` label selector and collects
    the names of the listed pods.
- **The project fallback** in the constructor.
- **Python's `str.split`** with an explicit separator, which the builder and the
  log helper both use. It cuts at every separator and keeps empty tokens.

Cluster calls are parameters of the model: a container's log is a function
`podLog(pod, container)`, where `container` is the optional container
argument of the read, and the pod listing is a function
`listPods(selector)`. Both stand for reads in the manager's project, the
namespace every call of the source names. The job status that `state` reads is an input record.

Modules: `Options` (optional values), `Strings` (split and join),
`Descriptor` (the Job datatypes), `Schedule`, `JobState`, `PodLogs`,
`Project`.

Two details of the source the model keeps:
- The combined log has no space after `pod_name + ":"` (pman/openshiftmgr.py:331).
- In `swift` mode, the init container sits under `initContainers`. The `containers` list then holds
  two entries, primary then publish, not three (pman/openshiftmgr.py:110, :148).

## Model

| member | source | states |
|---|---|---|
| `Strings.Split` | pman/openshiftmgr.py:78 | `str.split(sep)` always yields at least one token, and no token contains the separator |
| `Strings.JoinSplit` | pman/openshiftmgr.py:78 | joining the tokens with the separator gives the input back: nothing is dropped, empty tokens included |
| `Strings.SplitUnique` | pman/openshiftmgr.py:78 | any list of separator-free tokens that joins to a string is exactly that string's split, so split is the inverse of join |
| `Strings.SplitLength` | pman/openshiftmgr.py:78 | the number of tokens is the number of separators plus one |
| `Schedule.BasePod` | pman/openshiftmgr.py:44-100 | the base pod restarts `Never` and holds only the primary container: named after the job, running the image and the space-split command, env exactly NUMBER_OF_WORKERS, CPU_LIMIT, MEMORY_LIMIT in order, requests 128Mi/250m, limits memory/cpu from the caller, one `shared-volume` mount at `/share`; no init containers, node selector or volumes |
| `Schedule.RequestGpu` | pman/openshiftmgr.py:101-106 | container 0 alone gains `nvidia.com/gpu` equal to the GPU limit, the pod gains node selector `accelerator: gpu-node`, and nothing else changes |
| `Schedule.AttachSwiftStorage` | pman/openshiftmgr.py:109-214 | sets exactly one `init-storage` init container with SWIFT_KEY = name; appends `publish` after the existing containers, leaving them in place, with env SWIFT_KEY = name, KUBECFG_PATH = /tmp/.kube/config, OPENSHIFTMGR_PROJECT = project; sets the volumes to shared-volume emptyDir, the `swift-credentials` secret and the `kubecfg` secret; keeps GPU limits off every container but 0 |
| `Schedule.AttachHostPathStorage` | pman/openshiftmgr.py:215-223 | the only change is one `shared-volume` backed by host path `/tmp/share/key-` + name |
| `Schedule.SwiftMountsResolve` | pman/openshiftmgr.py:134-214 | in the object-storage topology every volume mount of every container and init container names a declared volume |
| `Schedule.HostPathMountsResolve` | pman/openshiftmgr.py:89-94 | in the host-path topology the primary container's one mount names the one declared volume |
| `Schedule.Schedule` | pman/openshiftmgr.py:39-223 | builds a `batch/v1` Job whose job and template names are `name`, with parallelism = completions = worker count, deadline 3600 and restart policy `Never`. Container 0 is the primary container in both topologies. The GPU key and node selector are present exactly when the GPU limit is above 0, and only on container 0. Swift mode gives one init container, containers = [primary, publish] and the three volumes. Any other mode gives no init containers, one container and one host-path volume. Every mount names a declared volume |
| `JobState.DeriveState` | pman/openshiftmgr.py:283-316 | the state is `failed` exactly when some condition is Failed/True, with message `started` and the reason of the FIRST such condition, even when the job also looks complete. Otherwise it is `complete`/`finished` exactly when there is a completion time and succeeded > 0, else `running`/`started` exactly when active > 0, else `inactive`/`inactive`. The reason is None outside `failed`. Counters and timestamps pass through unchanged |
| `PodLogs.PluginContainerName` | pman/openshiftmgr.py:327-328 | the plugin container name is a prefix of the pod name with no `-`, followed in the pod name by a `-` unless it is the whole name: the part before the first `-` |
| `PodLogs.PluginContainerOfJobPod` | pman/openshiftmgr.py:324-328 | for a pod named job name + `-` + suffix, the derived container name is the job name exactly when the job name has no `-`; otherwise it is a strictly shorter prefix |
| `PodLogs.JobPodLogs` | pman/openshiftmgr.py:318-332 | the combined log is the pod name, then `:init_container log:` and the `init-storage` log, then `plugin_container log:` and the plugin container's log, then `publish_container log:` and the `publish` log, each at the stated offset, with nothing between. Each read passes its container name only when it is non-empty |
| `PodLogs.ContainerArgument` | pman/openshiftmgr.py:255-263 | a log read names its container exactly when the container name is non-empty; otherwise the pod's default container is read |
| `PodLogs.DefaultContainerRead` | pman/openshiftmgr.py:326-329 | the plugin log falls back to the pod's default container exactly when the pod name is empty or starts with `-` |
| `PodLogs.LabelSelector` | pman/openshiftmgr.py:341-342 | the selector is a `job-name` equality selector that picks exactly the given job id |
| `PodLogs.GetPodNamesInJob` | pman/openshiftmgr.py:334-345 | lists the pods for the job's selector and returns one name per listed pod: each pod's `metadata.name`, in list order |
| `Project.ProjectName` | pman/openshiftmgr.py:20 | the project is the explicit one if given, else the environment's, else `myproject`. As with Python's `or`, an empty string counts as missing, so the result is never empty |

## Left out

- `init_openshift_client` (pman/openshiftmgr.py:25-36): loading the kubeconfig and building API clients is I/O. Its read of the `KUBECFG_PATH` environment variable (:29) is left out with it.
- The submission of the built descriptor through `create_namespaced_job` (pman/openshiftmgr.py:225). `Schedule.Schedule` returns the descriptor that the call would be given.
- `create_pod`, `get_pod_status`, `get_job`, `remove_job`, `remove_pod` (pman/openshiftmgr.py:228-281) only forward a call to the cluster API. `create_pod` also fills a YAML template. None of them has logic of its own.
- The cluster reads behind `get_pod_log` and `list_namespaced_pod` appear as the `podLog` and `listPods` parameters. The one decision `get_pod_log` makes, whether to pass a container name, is `PodLogs.ContainerArgument`.
- `PodLogs.JobPodLogs`: a failing log read raises in the source. The model's `podLog` always answers, so the error path is not modelled.
- Environment reads (`OPENSHIFTMGR_PROJECT`, `STORAGE_TYPE`) are parameters, not reads of a process environment.
- `str()` of the start and completion times (pman/openshiftmgr.py:315-316): the timestamps pass through as optional opaque values, so `None` is not rendered as the string `'None'`.
- `int(gpu_limit)` (pman/openshiftmgr.py:101) is not modelled: the GPU limit is an integer parameter. The counters in the job status are natural numbers, so Python's failure on a `None` counter is not modelled.
- An absent `status.conditions` list is modelled as the empty sequence. The source skips the scan in both cases.
- An absent `readOnly` key on a volume mount is modelled as `readOnly: false`, the cluster's default.
- The values that `schedule` puts into the descriptor (worker count, limits) are modelled as an integer and strings. Python passes them through untyped.
- bin/db_clean.py is not part of this model. It removes a directory tree and saves an empty tree store through an external library, behind argument parsing.
