/** `get_job_pod_logs` and `get_pod_names_in_job`: the string work around
    two cluster reads. The reads themselves (a container's log, the pods
    that match a label selector) are parameters of the model. */
module PodLogs {
  import opened Options
  import opened Strings

  const InitStorageContainer := "init-storage"
  const PublishContainer := "publish"
  /** The markers that label the three sections of the combined log; the
      first one follows the pod name directly. */
  const InitMarker := ":init_container log:"
  const PluginMarker := "plugin_container log:"
  const PublishMarker := "publish_container log:"

  /** The container that runs the plugin: the pod name up to its first
      `-`, or the whole name when it has none. */
  function PluginContainerName(podName: string): (c: string)
    ensures |c| <= |podName| && c == podName[..|c|]
    ensures '-' !in c
    ensures |c| < |podName| ==> podName[|c|] == '-'
  {
    var parts := Split(podName, '-');
    JoinSplit(podName, '-');
    assert |parts| > 1 ==> podName == parts[0] + ['-'] + Join(parts[1..], '-');
    parts[0]
  }

  /** A job's pods are named after the job, a `-` and a suffix; the plugin
      container is then found exactly when the job name has no `-`. */
  lemma {:induction false} PluginContainerOfJobPod(jobName: string, suffix: string)
    ensures '-' !in jobName ==> PluginContainerName(jobName + "-" + suffix) == jobName
    ensures '-' in jobName ==> |PluginContainerName(jobName + "-" + suffix)| < |jobName|
  {
    if '-' !in jobName {
      SplitAfterToken(jobName, '-', suffix);
      assert jobName + "-" + suffix == jobName + ['-'] + suffix;
    } else {
      var k :| 0 <= k < |jobName| && jobName[k] == '-';
      assert (jobName + "-" + suffix)[k] == '-';
    }
  }

  /** The container argument `get_pod_log` passes on: none when the
      container name is empty, so that the cluster reads the pod's default
      container instead. */
  function ContainerArgument(container: string): (arg: Option<string>)
    ensures arg == None <==> container == ""
    ensures arg != None ==> arg.value == container
  {
    if container != "" then Some(container) else None
  }

  /** The plugin log is read without a container name exactly when the pod
      name is empty or starts with `-`. */
  lemma DefaultContainerRead(podName: string)
    ensures ContainerArgument(PluginContainerName(podName)) == None <==>
            podName == "" || podName[0] == '-'
  {
  }

  /** The combined log of the pod: the logs of the init, plugin and publish
      containers, each after its marker, in that order. `podLog(pod,
      container)` is what the cluster returns for a log read, with
      `container` the optional container argument. */
  function JobPodLogs(podName: string, podLog: (string, Option<string>) -> string): (r: string)
    ensures
      var init := podLog(podName, Some(InitStorageContainer));
      var plugin := podLog(podName, ContainerArgument(PluginContainerName(podName)));
      var publish := podLog(podName, Some(PublishContainer));
      var i := |podName| + |InitMarker|;
      var p := i + |init| + |PluginMarker|;
      var q := p + |plugin| + |PublishMarker|;
      && |r| == q + |publish|
      && r[..|podName|] == podName
      && r[|podName|..i] == InitMarker
      && r[i..i + |init|] == init
      && r[i + |init|..p] == PluginMarker
      && r[p..p + |plugin|] == plugin
      && r[p + |plugin|..q] == PublishMarker
      && r[q..] == publish
  {
    var init := podLog(podName, ContainerArgument(InitStorageContainer));
    var plugin := podLog(podName, ContainerArgument(PluginContainerName(podName)));
    var publish := podLog(podName, ContainerArgument(PublishContainer));
    Layout(podName, InitMarker, init, PluginMarker, plugin, PublishMarker, publish);
    podName + InitMarker + init + PluginMarker + plugin + PublishMarker + publish
  }

  /** Where each of seven concatenated pieces lies in the result. */
  lemma Layout(s0: string, s1: string, s2: string, s3: string, s4: string, s5: string, s6: string)
    ensures
      var r := s0 + s1 + s2 + s3 + s4 + s5 + s6;
      var i := |s0| + |s1|;
      var p := i + |s2| + |s3|;
      var q := p + |s4| + |s5|;
      && |r| == q + |s6|
      && r[..|s0|] == s0
      && r[|s0|..i] == s1
      && r[i..i + |s2|] == s2
      && r[i + |s2|..p] == s3
      && r[p..p + |s4|] == s4
      && r[p + |s4|..q] == s5
      && r[q..] == s6
  {
  }

  /** The label selector that picks the pods of job `jobId`. */
  function LabelSelector(jobId: string): (s: string)
    ensures SelectedJob(s) == [jobId]
  {
    "job-name=" + jobId
  }

  /** The job an equality selector on the `job-name` label picks: one job
      id, or none when the selector is on another label. Everything after
      `job-name=` is read as the id; this agrees with the cluster's selector
      grammar (which also splits at `,` and reads `!` and `=`) because job
      names, being DNS labels, contain none of those characters. */
  function SelectedJob(selector: string): (ids: seq<string>)
    ensures |ids| <= 1
  {
    var key := "job-name=";
    if |selector| >= |key| && selector[..|key|] == key then [selector[|key|..]] else []
  }

  /** The parts of a listed pod that the model reads. */
  datatype PodMetadata = PodMetadata(name: string)
  datatype Pod = Pod(metadata: PodMetadata)

  /** The names of the pods the cluster lists for `jobId`'s selector, one
      per pod and in list order. `listPods(selector)` is the cluster's
      answer to the listing. */
  method GetPodNamesInJob(jobId: string, listPods: string -> seq<Pod>) returns (podNames: seq<string>)
    ensures |podNames| == |listPods(LabelSelector(jobId))|
    ensures forall i :: 0 <= i < |podNames| ==>
              podNames[i] == listPods(LabelSelector(jobId))[i].metadata.name
  {
    podNames := [];
    var pods := listPods(LabelSelector(jobId));
    for i := 0 to |pods|
      invariant |podNames| == i
      invariant forall j :: 0 <= j < i ==> podNames[j] == pods[j].metadata.name
    {
      podNames := podNames + [pods[i].metadata.name];
    }
  }
}
