/** Launch options of the Dataflow runner: the package-level flag values it reads,
    the job options it hands to the translator and the submitter, and how the
    latter are derived from the former (sdks/go/pkg/beam/runners/dataflow/dataflow.go). */
module Options {

  /** The values of the flags `Execute` reads, at one moment. `project` is the
      gcpopts `--project` flag and `workerBinary` the jobopts worker-binary flag,
      both declared in other packages. */
  datatype RawFlags = RawFlags(
    project: string,
    endpoint: string,
    stagingLocation: string,
    image: string,
    labels: string,
    numWorkers: int,
    zone: string,
    region: string,
    network: string,
    tempLocation: string,
    machineType: string,
    minCPUPlatform: string,
    dryRun: bool,
    teardownPolicy: string,
    cpuProfiling: string,
    sessionRecording: string,
    workerBinary: string)

  /** The fields of `dataflowlib.JobOptions` that `Execute` fills in. */
  datatype JobOptions = JobOptions(
    name: string,
    experiments: seq<string>,
    options: map<string, string>,
    project: string,
    region: string,
    zone: string,
    network: string,
    numWorkers: int,
    machineType: string,
    labels: map<string, string>,
    tempLocation: string,
    worker: string,
    teardownPolicy: string)

  const MinCPUPlatformKey := "min_cpu_platform="

  /** The experiment list after the minimum CPU platform has been folded in. */
  function ResolveExperiments(experiments: seq<string>, minCPUPlatform: string): (r: seq<string>)
    ensures minCPUPlatform == "" ==> r == experiments
    ensures minCPUPlatform != "" ==>
      && |r| == |experiments| + 1
      && r[..|experiments|] == experiments
      && r[|experiments|] == MinCPUPlatformKey + minCPUPlatform
  {
    if minCPUPlatform == "" then experiments else experiments + [MinCPUPlatformKey + minCPUPlatform]
  }

  /** The job options `Execute` builds from the flags and its collaborators' answers:
      `jobName` from `jobopts.GetJobName`, `experiments` from `jobopts.GetExperiments`,
      `exported` from `beam.PipelineOptions.Export`, `join` is `gcsx.Join`. */
  function AssembleJobOptions(
    f: RawFlags, jobName: string, experiments: seq<string>, exported: map<string, string>,
    labels: map<string, string>, join: (string, string) -> string): (o: JobOptions)
    ensures f.tempLocation == "" ==> o.tempLocation == join(f.stagingLocation, "tmp")
    ensures f.tempLocation != "" ==> o.tempLocation == f.tempLocation
    ensures o.experiments == ResolveExperiments(experiments, f.minCPUPlatform)
    ensures o.labels == labels && o.options == exported && o.name == jobName
    ensures o.project == f.project && o.region == f.region && o.zone == f.zone
    ensures o.network == f.network && o.numWorkers == f.numWorkers && o.machineType == f.machineType
    ensures o.worker == f.workerBinary && o.teardownPolicy == f.teardownPolicy
  {
    var o := JobOptions(jobName, ResolveExperiments(experiments, f.minCPUPlatform), exported,
                        f.project, f.region, f.zone, f.network, f.numWorkers, f.machineType,
                        labels, f.tempLocation, f.workerBinary, f.teardownPolicy);
    if o.tempLocation == "" then o.(tempLocation := join(f.stagingLocation, "tmp")) else o
  }
}
