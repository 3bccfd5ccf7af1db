/** `Execute` of the Dataflow runner (dataflow.go:76-167): validate the flags,
    assemble the job options, build and marshal the pipeline, name the staged
    artifacts and then either translate and print the job (dry run) or submit it.

    Every collaborator the runner calls is an input: a fixed answer or an
    uninterpreted function in `Env`. Calls with an effect outside the runner
    are recorded, in order, in a trace of `Call`s. */
module Orchestrator {
  import opened Wrappers
  import opened Strings
  import opened Options
  import opened Naming

  /** Opaque values produced and consumed by the collaborators. */
  datatype Edges = Edges(handle: nat)           // result of p.Build()
  datatype Model = Model(text: string)          // portable pipeline proto, as text
  datatype Job = Job(description: string)       // translated Dataflow job
  datatype JobHandle = JobHandle(id: string)    // what dataflowlib.Execute returns

  /** The answers of the collaborators for one run. */
  datatype Env = Env(
    containerImage: string,                                   // jobopts.GetContainerImage
    unmarshalLabels: string -> Result<map<string, string>>,   // json.Unmarshal into map[string]string
    experiments: seq<string>,                                 // jobopts.GetExperiments
    jobName: string,                                          // jobopts.GetJobName
    exportedOptions: map<string, string>,                     // beam.PipelineOptions.Export
    join: (string, string) -> string,                         // gcsx.Join
    build: Result<Edges>,                                     // p.Build
    marshal: (Edges, string) -> Result<Model>,                // graphx.Marshal with the image URL
    modelTime: int,                                           // time.Now().UnixNano() for the model name
    workerTime: int,                                          // time.Now().UnixNano() for the worker name
    translate: (Model, JobOptions, string, string) -> Result<Job>,                  // dataflowlib.Translate
    submit: (Model, JobOptions, string, string, string, bool) -> Result<JobHandle>) // dataflowlib.Execute

  /** The calls of a run that reach outside the runner, in the order made. */
  datatype Call =
    | GetContainerImage
    | UnmarshalLabels(text: string)
    | EnableProfCaptureHook(name: string, destination: string)
    | SerializeHooksToOptions
    | Build
    | Marshal(edges: Edges, containerImage: string)
    | LogInfo(message: string)
    | LogModel(model: Model)
    | Translate(model: Model, opts: JobOptions, workerURL: string, modelURL: string)
    | PrintJob(job: Job)
    | Submit(model: Model, opts: JobOptions, workerURL: string, modelURL: string, endpoint: string, async: bool)

  /** How a run ends: with an error, with a printed dry-run job, or with a submitted job. */
  datatype Outcome = Failed(msg: string) | Previewed(job: Job) | Submitted

  /** Where a run stages its artifacts. */
  datatype StagingPlan = StagingPlan(id: nat, modelName: string, workerName: string, modelURL: string, workerURL: string)

  /** Everything a run determines: its outcome, its calls, the value the image flag
      holds afterwards, the counter afterwards and, if it got that far, its staging plan. */
  datatype RunResult = RunResult(outcome: Outcome, trace: seq<Call>, image: string, counter: nat, plan: Option<StagingPlan>)

  const NoProjectMsg := "no Google Cloud project specified. Use " + "--project" + "=<project>"
  const NoStagingMsg := "no GCS staging location specified. Use " + "--staging_location" + "=gs://<bucket>/<path>"
  const LabelsErrPrefix := "error reading --label flag as JSON: "
  const MarshalErrPrefix := "failed to generate model pipeline: "
  const DryRunNotice := "Dry-run: not submitting job!"
  const ProfHookName := "gcs_profile_writer"

  /** The image the run uses: the flag, or the default container image when the flag is empty. */
  function ResolvedImage(f: RawFlags, env: Env): (r: string)
    ensures f.image != "" ==> r == f.image
    ensures r == f.image || r == env.containerImage
    ensures r != "" <==> f.image != "" || env.containerImage != ""
  {
    if f.image == "" then env.containerImage else f.image
  }

  /** The value of the image flag after a run: overwritten once both required flags are present. */
  function ImageAfter(f: RawFlags, env: Env): (r: string)
    ensures f.image != "" ==> r == f.image
    ensures f.project == "" || f.stagingLocation == "" ==> r == f.image
    ensures r == f.image || r == env.containerImage
  {
    if f.project == "" || f.stagingLocation == "" then f.image else ResolvedImage(f, env)
  }

  /** The run passes the option checks: the project, the staging location, and
      the labels JSON when there is one. */
  predicate OptionsValid(f: RawFlags, env: Env) {
    f.project != "" && f.stagingLocation != "" && (f.labels == "" || env.unmarshalLabels(f.labels).Ok?)
  }

  /** The job labels of a run whose labels parse. */
  function JobLabels(f: RawFlags, env: Env): (r: map<string, string>)
    requires f.labels == "" || env.unmarshalLabels(f.labels).Ok?
    ensures f.labels == "" ==> r == map[]
    ensures f.labels != "" ==> env.unmarshalLabels(f.labels) == Ok(r)
  {
    if f.labels == "" then map[] else env.unmarshalLabels(f.labels).value
  }

  /** The job options of a run whose labels parse. */
  function RunJobOptions(f: RawFlags, env: Env): (r: JobOptions)
    requires f.labels == "" || env.unmarshalLabels(f.labels).Ok?
  {
    AssembleJobOptions(f, env.jobName, env.experiments, env.exportedOptions, JobLabels(f, env), env.join)
  }

  /** The staging plan for counter value `id`. */
  function Plan(f: RawFlags, env: Env, id: nat): (p: StagingPlan)
    ensures p.id == id && p.modelName != p.workerName
    ensures p.modelName == ModelName(id, env.modelTime) && p.workerName == WorkerName(id, env.workerTime)
    ensures p.modelURL == env.join(f.stagingLocation, p.modelName) && p.workerURL == env.join(f.stagingLocation, p.workerName)
  {
    ModelNeverWorker(id, env.modelTime, id, env.workerTime);
    var mn := ModelName(id, env.modelTime);
    var wn := WorkerName(id, env.workerTime);
    StagingPlan(id, mn, wn, env.join(f.stagingLocation, mn), env.join(f.stagingLocation, wn))
  }

  /** The calls made while the options are gathered, when they pass the checks. */
  function OptionsTrace(f: RawFlags): (r: seq<Call>)
  {
    (if f.image == "" then [GetContainerImage] else [])
    + (if f.labels != "" then [UnmarshalLabels(f.labels)] else [])
    + (if f.cpuProfiling != "" then [EnableProfCaptureHook(ProfHookName, f.cpuProfiling)] else [])
    + [SerializeHooksToOptions]
  }

  /** Gathering the job options (dataflow.go:79-136): the options or the error, and the calls made. */
  function Prepare(f: RawFlags, env: Env): (r: (Result<JobOptions>, seq<Call>))
    ensures r.0.Ok? <==> OptionsValid(f, env)
    ensures r.0.Err? ==> |r.1| <= 2
    ensures r.0.Err? ==> r.0.error == NoProjectMsg || r.0.error == NoStagingMsg || LabelsErrPrefix <= r.0.error
  {
    if f.project == "" then
      (Err(NoProjectMsg), [])
    else if f.stagingLocation == "" then
      (Err(NoStagingMsg), [])
    else if f.labels != "" && env.unmarshalLabels(f.labels).Err? then
      (Err(LabelsErrPrefix + env.unmarshalLabels(f.labels).error),
       (if f.image == "" then [GetContainerImage] else []) + [UnmarshalLabels(f.labels)])
    else
      (Ok(RunJobOptions(f, env)), OptionsTrace(f))
  }

  /** One execution of the runner with flags `f`, counter value `counter` and collaborators `env`. */
  function Run(f: RawFlags, counter: nat, env: Env): (r: RunResult)
  {
    var (opts, t) := Prepare(f, env);
    match opts
    case Err(e) => RunResult(Failed(e), t, ImageAfter(f, env), counter, None)
    case Ok(o) => Stage(f, counter, env, o, t + [Build])
  }

  /** Building, marshalling, staging and dispatching (dataflow.go:138-166), after the calls `t`. */
  function Stage(f: RawFlags, counter: nat, env: Env, opts: JobOptions, t: seq<Call>): (r: RunResult)
  {
    var image := ResolvedImage(f, env);
    match env.build
    case Err(e) => RunResult(Failed(e), t, image, counter, None)
    case Ok(edges) =>
      var t' := t + [Marshal(edges, image)];
      match env.marshal(edges, image)
      case Err(e) => RunResult(Failed(MarshalErrPrefix + e), t', image, counter, None)
      case Ok(model) =>
        var plan := Plan(f, env, counter + 1);
        var (outcome, t'') := Dispatch(f, env, model, opts, plan);
        RunResult(outcome, t' + t'', image, counter + 1, Some(plan))
  }

  /** The dry-run or submit branch: its outcome and the calls it makes. */
  function Dispatch(f: RawFlags, env: Env, model: Model, opts: JobOptions, plan: StagingPlan): (r: (Outcome, seq<Call>))
    ensures f.dryRun ==> !r.0.Submitted? && 3 <= |r.1| <= 4
    ensures !f.dryRun ==> !r.0.Previewed? && |r.1| == 1
    ensures r.0.Previewed? ==> r.1[|r.1| - 1] == PrintJob(r.0.job)
  {
    if f.dryRun then
      var t := [LogInfo(DryRunNotice), LogModel(model), Translate(model, opts, plan.workerURL, plan.modelURL)];
      match env.translate(model, opts, plan.workerURL, plan.modelURL)
      case Err(e) => (Failed(e), t)
      case Ok(job) => (Previewed(job), t + [PrintJob(job)])
    else
      var t := [Submit(model, opts, plan.workerURL, plan.modelURL, f.endpoint, false)];
      match env.submit(model, opts, plan.workerURL, plan.modelURL, f.endpoint, false)
      case Err(e) => (Failed(e), t)
      case Ok(_) => (Submitted, t)
  }

  /** The package-level flag variables the runner reads; `Execute` overwrites `image`. */
  class Flags {
    var project: string
    var endpoint: string
    var stagingLocation: string
    var image: string
    var labels: string
    var numWorkers: int
    var zone: string
    var region: string
    var network: string
    var tempLocation: string
    var machineType: string
    var minCPUPlatform: string
    var dryRun: bool
    var teardownPolicy: string
    var cpuProfiling: string
    var sessionRecording: string
    var workerBinary: string

    constructor (v: RawFlags)
      ensures Values() == v
    {
      project, endpoint, stagingLocation, image, labels := v.project, v.endpoint, v.stagingLocation, v.image, v.labels;
      numWorkers, zone, region, network, tempLocation := v.numWorkers, v.zone, v.region, v.network, v.tempLocation;
      machineType, minCPUPlatform, dryRun, teardownPolicy := v.machineType, v.minCPUPlatform, v.dryRun, v.teardownPolicy;
      cpuProfiling, sessionRecording, workerBinary := v.cpuProfiling, v.sessionRecording, v.workerBinary;
    }

    /** The current values of all flags. */
    function Values(): RawFlags
      reads this
    {
      RawFlags(project, endpoint, stagingLocation, image, labels, numWorkers, zone, region, network,
               tempLocation, machineType, minCPUPlatform, dryRun, teardownPolicy, cpuProfiling,
               sessionRecording, workerBinary)
    }
  }

  /** Gathers the job options as `Execute` does before it builds the pipeline,
      overwriting an empty image flag with the default container image. */
  method PrepareOptions(flags: Flags, env: Env) returns (opts: Result<JobOptions>, trace: seq<Call>)
    modifies flags
    ensures (opts, trace) == Prepare(old(flags.Values()), env)
    ensures flags.Values() == old(flags.Values()).(image := ImageAfter(old(flags.Values()), env))
  {
    ghost var f0 := flags.Values();
    trace := [];
    var project := flags.project;
    if project == "" {
      return Err(NoProjectMsg), trace;
    }
    if flags.stagingLocation == "" {
      return Err(NoStagingMsg), trace;
    }
    if flags.image == "" {
      trace := trace + [GetContainerImage];
      flags.image := env.containerImage;
    }
    var jobLabels: map<string, string> := map[];
    if flags.labels != "" {
      trace := trace + [UnmarshalLabels(flags.labels)];
      var parsed := env.unmarshalLabels(flags.labels);
      if parsed.Err? {
        assert trace == (if f0.image == "" then [GetContainerImage] else []) + [UnmarshalLabels(f0.labels)];
        return Err(LabelsErrPrefix + parsed.error), trace;
      }
      jobLabels := parsed.value;
    }
    if flags.cpuProfiling != "" {
      trace := trace + [EnableProfCaptureHook(ProfHookName, flags.cpuProfiling)];
    }
    trace := trace + [SerializeHooksToOptions];

    var experiments := env.experiments;
    if flags.minCPUPlatform != "" {
      experiments := experiments + [MinCPUPlatformKey + flags.minCPUPlatform];
    }
    var o := JobOptions(env.jobName, experiments, env.exportedOptions, project, flags.region,
                        flags.zone, flags.network, flags.numWorkers, flags.machineType, jobLabels,
                        flags.tempLocation, flags.workerBinary, flags.teardownPolicy);
    if o.tempLocation == "" {
      o := o.(tempLocation := env.join(flags.stagingLocation, "tmp"));
    }
    assert jobLabels == JobLabels(f0, env) && flags.Values() == f0.(image := ResolvedImage(f0, env));
    assert trace == OptionsTrace(f0);
    return Ok(o), trace;
  }

  /** The runner's `Execute`: it overwrites the image flag, advances the naming
      counter and returns how the run ended together with the calls it made,
      exactly as `Run` describes. */
  method Execute(flags: Flags, namer: Namer, env: Env) returns (outcome: Outcome, trace: seq<Call>)
    modifies flags, namer
    ensures var r := Run(old(flags.Values()), old(namer.unique), env);
      && outcome == r.outcome
      && trace == r.trace
      && flags.Values() == old(flags.Values()).(image := r.image)
      && namer.unique == r.counter
  {
    ghost var f0, c0 := flags.Values(), namer.unique;
    var prepared;
    prepared, trace := PrepareOptions(flags, env);
    if prepared.Err? {
      return Failed(prepared.error), trace;
    }
    var opts := prepared.value;
    assert OptionsValid(f0, env) && flags.image == ResolvedImage(f0, env);

    trace := trace + [Build];
    if env.build.Err? {
      return Failed(env.build.error), trace;
    }
    var edges := env.build.value;
    trace := trace + [Marshal(edges, flags.image)];
    var marshaled := env.marshal(edges, flags.image);
    if marshaled.Err? {
      return Failed(MarshalErrPrefix + marshaled.error), trace;
    }
    var model := marshaled.value;

    var id := namer.Next();
    var modelURL := env.join(flags.stagingLocation, ModelName(id, env.modelTime));
    var workerURL := env.join(flags.stagingLocation, WorkerName(id, env.workerTime));
    ghost var plan := Plan(f0, env, id);
    ghost var staged := trace;
    assert Run(f0, c0, env) == RunResult(Dispatch(f0, env, model, opts, plan).0, staged + Dispatch(f0, env, model, opts, plan).1,
                                         flags.image, id, Some(plan));

    if flags.dryRun {
      trace := trace + [LogInfo(DryRunNotice), LogModel(model), Translate(model, opts, workerURL, modelURL)];
      var job := env.translate(model, opts, workerURL, modelURL);
      if job.Err? {
        return Failed(job.error), trace;
      }
      assert trace + [PrintJob(job.value)] == staged + Dispatch(f0, env, model, opts, plan).1;
      trace := trace + [PrintJob(job.value)];
      return Previewed(job.value), trace;
    }

    trace := trace + [Submit(model, opts, workerURL, modelURL, flags.endpoint, false)];
    var submitted := env.submit(model, opts, workerURL, modelURL, flags.endpoint, false);
    if submitted.Err? {
      return Failed(submitted.error), trace;
    }
    return Submitted, trace;
  }
}
