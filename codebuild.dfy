/**
 * The CodeBuild project (lib/codebuild.ts): build logs always go to
 * CloudWatch, into the caller's c3 LogGroup, in a stream named after the
 * project.
 */
module CodeBuild {
  import opened Props
  import Logs

  /** The CloudWatch part of a project's logs configuration. */
  datatype CloudWatchLogs = CloudWatchLogs(status: string, groupName: Option<Value>, streamName: Option<Value>)

  /** ProjectProps requires logsConfig, a c3 LogGroup. */
  predicate HoldsLogGroup(props: Object)
  {
    "logsConfig" in props && props["logsConfig"].LogGroupRef?
  }

  /** `const { logsConfig, ...other } = props`: the props of the base project. */
  function ProjectBaseProps(props: Object): (r: Object)
    ensures "logsConfig" !in r
    ensures forall k :: k != "logsConfig" ==> Get(r, k) == Get(props, k)
  {
    Strip(props, {"logsConfig"})
  }

  /** The logs configuration written over the CfnProject's. */
  function CloudWatchLogsConfig(props: Object): (c: CloudWatchLogs)
    requires HoldsLogGroup(props)
    ensures c.status == "ENABLED"
    ensures c.groupName == props["logsConfig"].logGroupName
    ensures c.streamName == Get(props, "projectName")
  {
    CloudWatchLogs("ENABLED", props["logsConfig"].logGroupName, Get(props, "projectName"))
  }

  /** A project logging into a c3 LogGroup writes to the group name that LogGroup was given. */
  lemma LogsGoToTheLogGroup(group: Logs.LogGroup, props: Object)
    requires "logsConfig" in props && props["logsConfig"] == group.Ref()
    ensures HoldsLogGroup(props)
    ensures CloudWatchLogsConfig(props).groupName == group.logGroupName
  {
  }

  /** The Project construct: its base props and the logs configuration it overwrites on its CfnProject. */
  class Project {
    const baseProps: Object
    var logsConfig: Option<CloudWatchLogs>

    constructor (props: Object)
      requires HoldsLogGroup(props)
      ensures baseProps == ProjectBaseProps(props)
      ensures logsConfig == Some(CloudWatchLogsConfig(props))
    {
      baseProps := ProjectBaseProps(props);
      new;
      logsConfig := Some(CloudWatchLogsConfig(props));
    }
  }
}
