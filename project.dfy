/** The project (namespace) an `OpenShiftManager` works in: the one it is
    given, else the `OPENSHIFTMGR_PROJECT` environment variable, else
    `myproject`. As with Python's `or`, an empty string counts as missing. */
module Project {
  import opened Options

  const DefaultProject := "myproject"

  /** A value Python's `or` keeps: present and not the empty string. */
  predicate Given(o: Option<string>) {
    o.Some? && o.value != ""
  }

  /** `project or os.environ.get('OPENSHIFTMGR_PROJECT') or 'myproject'`. */
  function ProjectName(project: Option<string>, fromEnv: Option<string>): (p: string)
    ensures p != ""
    ensures Given(project) ==> p == project.value
    ensures !Given(project) && Given(fromEnv) ==> p == fromEnv.value
    ensures !Given(project) && !Given(fromEnv) ==> p == DefaultProject
  {
    if Given(project) then project.value
    else if Given(fromEnv) then fromEnv.value
    else DefaultProject
  }
}
