/** What the runner's `Execute` promises, stated about `Run`, the function
    `Execute` is proved to follow (dataflow.go:78-167). */
module Properties {
  import opened Wrappers
  import opened Strings
  import opened Options
  import opened Naming
  import opened Orchestrator

  /** The run gets past building and marshalling the pipeline. */
  predicate Compiles(f: RawFlags, env: Env) {
    && OptionsValid(f, env)
    && env.build.Ok?
    && env.marshal(env.build.value, ResolvedImage(f, env)).Ok?
  }

  /** The portable model of a run that compiles. */
  function CompiledModel(f: RawFlags, env: Env): Model
    requires Compiles(f, env)
  {
    env.marshal(env.build.value, ResolvedImage(f, env)).value
  }

  /** A call the option-gathering phase of a run with flags `f` may make. */
  predicate OptionsCall(c: Call, f: RawFlags) {
    || (c == GetContainerImage && f.image == "")
    || (c == UnmarshalLabels(f.labels) && f.labels != "")
    || (c == EnableProfCaptureHook(ProfHookName, f.cpuProfiling) && f.cpuProfiling != "")
    || c == SerializeHooksToOptions
  }

  /** A call the launch phase may make, with job options `opts`, in a dry run or not. */
  predicate LaunchCall(c: Call, opts: JobOptions, dryRun: bool) {
    && !c.GetContainerImage? && !c.UnmarshalLabels? && !c.EnableProfCaptureHook? && !c.SerializeHooksToOptions?
    && ((c.Translate? || c.Submit?) ==> c.opts == opts)
    && (dryRun ==> !c.Submit?)
    && (!dryRun ==> !c.Translate? && !c.PrintJob? && !c.LogModel? && !c.LogInfo?)
  }

  /** The option-gathering phase succeeds exactly when the options are valid, and
      makes only option-gathering calls (only the first two kinds when it fails). */
  lemma PrepareCalls(f: RawFlags, env: Env)
    ensures Prepare(f, env).0.Ok? <==> OptionsValid(f, env)
    ensures Prepare(f, env).0.Ok? ==> Prepare(f, env) == (Ok(RunJobOptions(f, env)), OptionsTrace(f))
    ensures forall c :: c in Prepare(f, env).1 ==>
      OptionsCall(c, f) && (Prepare(f, env).0.Err? ==> c.GetContainerImage? || c.UnmarshalLabels?)
  {
  }

  /** The dry-run or submit branch makes only launch calls. */
  lemma DispatchCalls(f: RawFlags, env: Env, model: Model, opts: JobOptions, plan: StagingPlan)
    ensures forall c :: c in Dispatch(f, env, model, opts, plan).1 ==> LaunchCall(c, opts, f.dryRun)
  {
  }

  /** The launch phase extends the calls `t` with launch calls only. */
  lemma StageCalls(f: RawFlags, counter: nat, env: Env, opts: JobOptions, t: seq<Call>)
    ensures t <= Stage(f, counter, env, opts, t).trace
    ensures forall c :: c in Stage(f, counter, env, opts, t).trace ==> c in t || LaunchCall(c, opts, f.dryRun)
  {
    if env.build.Ok? && env.marshal(env.build.value, ResolvedImage(f, env)).Ok? {
      var model := env.marshal(env.build.value, ResolvedImage(f, env)).value;
      DispatchCalls(f, env, model, opts, Plan(f, env, counter + 1));
    }
  }

  /** The calls of a run: those of the option-gathering phase first, then, if
      the options are valid, launch calls with the assembled job options. */
  lemma RunCalls(f: RawFlags, counter: nat, env: Env)
    ensures Prepare(f, env).1 <= Run(f, counter, env).trace
    ensures forall c :: c in Run(f, counter, env).trace ==>
      c in Prepare(f, env).1 || (OptionsValid(f, env) && LaunchCall(c, RunJobOptions(f, env), f.dryRun))
  {
    PrepareCalls(f, env);
    var (o, t) := Prepare(f, env);
    if o.Ok? {
      StageCalls(f, counter, env, o.value, t + [Build]);
    }
  }

  /** An empty project is the first thing checked: the run fails with the
      `--project` message and calls nothing, changes nothing. */
  lemma NoProjectFails(f: RawFlags, counter: nat, env: Env)
    requires f.project == ""
    ensures var r := Run(f, counter, env);
      && r.outcome == Failed(NoProjectMsg)
      && Contains(r.outcome.msg, "--project")
      && r.trace == []
      && r.image == f.image && r.counter == counter && r.plan == None
  {
    ContainsMiddle("no Google Cloud project specified. Use ", "--project", "=<project>");
  }

  /** With a project but no staging location the run fails with the
      `--staging_location` message before anything is called. */
  lemma NoStagingFails(f: RawFlags, counter: nat, env: Env)
    requires f.project != "" && f.stagingLocation == ""
    ensures var r := Run(f, counter, env);
      && r.outcome == Failed(NoStagingMsg)
      && Contains(r.outcome.msg, "--staging_location")
      && r.trace == []
      && r.image == f.image && r.counter == counter && r.plan == None
  {
    ContainsMiddle("no GCS staging location specified. Use ", "--staging_location", "=gs://<bucket>/<path>");
  }

  /** Once both required flags are present, an empty image flag is overwritten
      with the default container image and a set one is kept, and the default
      is asked for exactly when the flag is empty. */
  lemma ImageResolution(f: RawFlags, counter: nat, env: Env)
    requires f.project != "" && f.stagingLocation != ""
    ensures var r := Run(f, counter, env);
      && (f.image == "" ==> r.image == env.containerImage)
      && (f.image != "" ==> r.image == f.image)
      && (GetContainerImage in r.trace <==> f.image == "")
  {
    RunCalls(f, counter, env);
    PrepareCalls(f, env);
    var t := Prepare(f, env).1;
    if f.image == "" {
      assert t[0] == GetContainerImage;
    } else {
      assert GetContainerImage !in t;
    }
  }

  /** The pipeline is marshalled only with the image the flag holds after the run. */
  lemma MarshalUsesImage(f: RawFlags, counter: nat, env: Env)
    ensures var r := Run(f, counter, env);
      forall e, img :: Marshal(e, img) in r.trace ==> img == r.image
  {
    var r := Run(f, counter, env);
    PrepareCalls(f, env);
    OptionsTraceCalls(f);
    if Compiles(f, env) {
      CompiledRun(f, counter, env);
      var d := Dispatch(f, env, CompiledModel(f, env), RunJobOptions(f, env), Plan(f, env, counter + 1));
      assert forall c :: c in d.1 ==> !c.Marshal?;
    } else if OptionsValid(f, env) && env.build.Err? {
      assert r.trace == OptionsTrace(f) + [Build];
    } else if OptionsValid(f, env) {
      assert r.image == ResolvedImage(f, env);
      assert r.trace == OptionsTrace(f) + [Build] + [Marshal(env.build.value, ResolvedImage(f, env))];
    }
  }

  /** A labels flag that is not valid JSON ends the run with the parse error,
      prefixed; the profiling hook is not enabled, the hooks are not serialized
      and the pipeline is not built. */
  lemma BadLabelsAbort(f: RawFlags, counter: nat, env: Env)
    requires f.project != "" && f.stagingLocation != ""
    requires f.labels != "" && env.unmarshalLabels(f.labels).Err?
    ensures var r := Run(f, counter, env);
      && r.outcome == Failed(LabelsErrPrefix + env.unmarshalLabels(f.labels).error)
      && |r.trace| > 0 && r.trace[|r.trace| - 1] == UnmarshalLabels(f.labels)
      && (forall c :: c in r.trace ==> c.GetContainerImage? || c.UnmarshalLabels?)
      && r.counter == counter && r.plan == None
  {
  }

  /** An empty labels flag is never parsed, and the job is launched with no labels. */
  lemma EmptyLabelsNotParsed(f: RawFlags, counter: nat, env: Env)
    requires f.labels == ""
    ensures var r := Run(f, counter, env);
      && (forall c :: c in r.trace ==> !c.UnmarshalLabels?)
      && (forall c :: c in r.trace && (c.Translate? || c.Submit?) ==> c.opts.labels == map[])
  {
    RunCalls(f, counter, env);
    PrepareCalls(f, env);
  }

  /** The profiling capture hook is enabled, under its registered name and with
      the flag's destination, exactly when the flag is set and the options are valid. */
  lemma ProfilingHookEnabled(f: RawFlags, counter: nat, env: Env)
    ensures var r := Run(f, counter, env);
      && (EnableProfCaptureHook(ProfHookName, f.cpuProfiling) in r.trace <==> OptionsValid(f, env) && f.cpuProfiling != "")
      && (forall c :: c in r.trace && c.EnableProfCaptureHook? ==> c.name == ProfHookName && c.destination == f.cpuProfiling)
  {
    RunCalls(f, counter, env);
    PrepareCalls(f, env);
    if OptionsValid(f, env) && f.cpuProfiling != "" {
      var t := Prepare(f, env).1;
      var g := if f.image == "" then [GetContainerImage] else [];
      var l := if f.labels != "" then [UnmarshalLabels(f.labels)] else [];
      assert t[|g| + |l|] == EnableProfCaptureHook(ProfHookName, f.cpuProfiling);
    }
  }

  /** The job options handed to the translator or the submitter: the experiments
      with the minimum CPU platform folded in, the temp location defaulted to
      `<staging>/tmp` when empty, and the parsed labels. */
  lemma LaunchedOptions(f: RawFlags, counter: nat, env: Env)
    ensures var r := Run(f, counter, env);
      forall c :: c in r.trace && (c.Translate? || c.Submit?) ==>
        && OptionsValid(f, env)
        && c.opts.experiments == ResolveExperiments(env.experiments, f.minCPUPlatform)
        && (f.tempLocation == "" ==> c.opts.tempLocation == env.join(f.stagingLocation, "tmp"))
        && (f.tempLocation != "" ==> c.opts.tempLocation == f.tempLocation)
        && c.opts.labels == JobLabels(f, env)
        && c.opts.project == f.project && c.opts.name == env.jobName
  {
    RunCalls(f, counter, env);
    PrepareCalls(f, env);
  }

  /** The counter advances by exactly one in a run that compiles, and not at
      all otherwise; the staging plan of such a run takes the new counter value
      as its id for both names, and puts both objects under the staging location. */
  lemma StagingAdvancesCounter(f: RawFlags, counter: nat, env: Env)
    ensures var r := Run(f, counter, env);
      && (r.plan.Some? <==> Compiles(f, env))
      && r.counter == (if r.plan.Some? then counter + 1 else counter)
      && (r.plan.Some? ==>
            var p := r.plan.value;
            && p.id == r.counter
            && p.modelName == ModelName(p.id, env.modelTime)
            && p.workerName == WorkerName(p.id, env.workerTime)
            && p.modelName != p.workerName
            && p.modelURL == env.join(f.stagingLocation, p.modelName)
            && p.workerURL == env.join(f.stagingLocation, p.workerName))
  {
    var r := Run(f, counter, env);
    if r.plan.Some? {
      ModelNeverWorker(r.plan.value.id, env.modelTime, r.plan.value.id, env.workerTime);
    }
  }

  /** A build failure is returned as it is; nothing is marshalled, staged,
      translated or submitted. */
  lemma BuildFailure(f: RawFlags, counter: nat, env: Env)
    requires OptionsValid(f, env) && env.build.Err?
    ensures var r := Run(f, counter, env);
      && r.outcome == Failed(env.build.error)
      && r.trace[|r.trace| - 1] == Build
      && (forall c :: c in r.trace ==> !c.Marshal? && !c.Translate? && !c.Submit?)
      && r.counter == counter && r.plan == None
  {
  }

  /** A marshal failure is returned wrapped as a model-generation failure;
      nothing is staged, translated or submitted. */
  lemma MarshalFailure(f: RawFlags, counter: nat, env: Env)
    requires OptionsValid(f, env) && env.build.Ok?
    requires env.marshal(env.build.value, ResolvedImage(f, env)).Err?
    ensures var r := Run(f, counter, env);
      && r.outcome == Failed(MarshalErrPrefix + env.marshal(env.build.value, ResolvedImage(f, env)).error)
      && r.trace[|r.trace| - 1] == Marshal(env.build.value, ResolvedImage(f, env))
      && (forall c :: c in r.trace ==> !c.Translate? && !c.Submit?)
      && r.counter == counter && r.plan == None
  {
  }

  /** A run that compiles, unfolded: the option calls, `Build`, `Marshal`, then
      the dry-run or submit branch, with the counter advanced by one. */
  lemma CompiledRun(f: RawFlags, counter: nat, env: Env)
    requires Compiles(f, env)
    ensures var plan := Plan(f, env, counter + 1);
      var d := Dispatch(f, env, CompiledModel(f, env), RunJobOptions(f, env), plan);
      Run(f, counter, env) == RunResult(d.0, OptionsTrace(f) + [Build] + [Marshal(env.build.value, ResolvedImage(f, env))] + d.1,
                                        ResolvedImage(f, env), counter + 1, Some(plan))
  {
    PrepareCalls(f, env);
  }

  /** A dry run never submits and never ends as Submitted. */
  lemma DryRunNeverSubmits(f: RawFlags, counter: nat, env: Env)
    requires f.dryRun
    ensures var r := Run(f, counter, env);
      && (forall c :: c in r.trace ==> !c.Submit?)
      && !r.outcome.Submitted?
  {
    RunCalls(f, counter, env);
    PrepareCalls(f, env);
  }

  /** A dry run that compiles logs the model and translates it, with the job
      options and the staged URLs, as its last calls before printing. */
  lemma DryRunTranslates(f: RawFlags, counter: nat, env: Env)
    requires f.dryRun && Compiles(f, env)
    ensures var r := Run(f, counter, env);
      var p := r.plan.value;
      var m := CompiledModel(f, env);
      && p == Plan(f, env, counter + 1)
      && r.trace[|OptionsTrace(f)| + 2..|OptionsTrace(f)| + 5]
         == [LogInfo(DryRunNotice), LogModel(m), Translate(m, RunJobOptions(f, env), p.workerURL, p.modelURL)]
  {
    CompiledRun(f, counter, env);
  }

  /** Every call of the option-gathering phase is an option call. */
  lemma OptionsTraceCalls(f: RawFlags)
    ensures forall c :: c in OptionsTrace(f) ==> OptionsCall(c, f)
  {
    var g := if f.image == "" then [GetContainerImage] else [];
    var l := if f.labels != "" then [UnmarshalLabels(f.labels)] else [];
    var h := if f.cpuProfiling != "" then [EnableProfCaptureHook(ProfHookName, f.cpuProfiling)] else [];
    assert OptionsTrace(f) == g + l + h + [SerializeHooksToOptions];
  }

  /** The moment before printing: the options, build, marshal and dry-run calls hold no printed job. */
  lemma NothingPrintedBeforeDispatch(f: RawFlags, edges: Edges, image: string)
    ensures forall c :: c in OptionsTrace(f) + [Build] + [Marshal(edges, image)] ==> !c.PrintJob?
  {
    OptionsTraceCalls(f);
  }

  /** A dry run that compiles and whose translation fails ends with the
      translator's error, unwrapped, and prints nothing. */
  lemma DryRunTranslateError(f: RawFlags, counter: nat, env: Env)
    requires f.dryRun && Compiles(f, env)
    requires env.translate(CompiledModel(f, env), RunJobOptions(f, env),
                           Plan(f, env, counter + 1).workerURL, Plan(f, env, counter + 1).modelURL).Err?
    ensures var r := Run(f, counter, env);
      var p := Plan(f, env, counter + 1);
      && r.outcome == Failed(env.translate(CompiledModel(f, env), RunJobOptions(f, env), p.workerURL, p.modelURL).error)
      && (forall c :: c in r.trace ==> !c.PrintJob?)
  {
    CompiledRun(f, counter, env);
    var m, o, plan := CompiledModel(f, env), RunJobOptions(f, env), Plan(f, env, counter + 1);
    var pre := OptionsTrace(f) + [Build] + [Marshal(env.build.value, ResolvedImage(f, env))];
    NothingPrintedBeforeDispatch(f, env.build.value, ResolvedImage(f, env));
    assert Run(f, counter, env).trace == pre + [LogInfo(DryRunNotice), LogModel(m), Translate(m, o, plan.workerURL, plan.modelURL)];
  }

  /** A dry run that compiles and translates prints the translated job as its
      last call and ends Previewed with that job. */
  lemma DryRunPreviewed(f: RawFlags, counter: nat, env: Env)
    requires f.dryRun && Compiles(f, env)
    requires env.translate(CompiledModel(f, env), RunJobOptions(f, env),
                           Plan(f, env, counter + 1).workerURL, Plan(f, env, counter + 1).modelURL).Ok?
    ensures var r := Run(f, counter, env);
      var p := Plan(f, env, counter + 1);
      var job := env.translate(CompiledModel(f, env), RunJobOptions(f, env), p.workerURL, p.modelURL).value;
      && r.outcome == Previewed(job)
      && r.trace[|r.trace| - 1] == PrintJob(job)
  {
    CompiledRun(f, counter, env);
  }

  /** A run that is not a dry run never translates or prints a job and never ends Previewed. */
  lemma SubmitNeverTranslates(f: RawFlags, counter: nat, env: Env)
    requires !f.dryRun
    ensures var r := Run(f, counter, env);
      && (forall c :: c in r.trace ==> !c.Translate? && !c.PrintJob? && !c.LogModel?)
      && !r.outcome.Previewed?
  {
    RunCalls(f, counter, env);
    PrepareCalls(f, env);
  }

  /** A run that compiles and is not a dry run submits the model once, last,
      with the staged URLs and the endpoint flag, and ends with exactly the
      submitter's error, or Submitted. */
  lemma SubmitOutcomeUnchanged(f: RawFlags, counter: nat, env: Env)
    requires !f.dryRun && Compiles(f, env)
    ensures var r := Run(f, counter, env);
      var p := r.plan.value;
      var s := env.submit(CompiledModel(f, env), RunJobOptions(f, env), p.workerURL, p.modelURL, f.endpoint, false);
      && r.trace[|r.trace| - 1] == Submit(CompiledModel(f, env), RunJobOptions(f, env), p.workerURL, p.modelURL, f.endpoint, false)
      && (s.Err? ==> r.outcome == Failed(s.error))
      && (s.Ok? ==> r.outcome == Submitted)
  {
    CompiledRun(f, counter, env);
  }

  /** The image flag is overwritten in place: a later run that sees the
      overwritten flag no longer asks for the default image. */
  lemma ImageOverwriteSticks(f: RawFlags, counter: nat, env: Env, env2: Env, counter2: nat)
    requires f.project != "" && f.stagingLocation != "" && env.containerImage != ""
    ensures var r := Run(f, counter, env);
      GetContainerImage !in Run(f.(image := r.image), counter2, env2).trace
  {
    var f2 := f.(image := Run(f, counter, env).image);
    ImageResolution(f2, counter2, env2);
  }

  /** One call of `Execute` in a sequence of calls in the same process. */
  datatype Invocation = Invocation(flags: RawFlags, env: Env)

  /** Successive runs in one process: each starts from the counter the previous one left. */
  function Runs(calls: seq<Invocation>, counter: nat): (rs: seq<RunResult>)
    ensures |rs| == |calls|
    decreases |calls|
  {
    if calls == [] then []
    else
      var r := Run(calls[0].flags, counter, calls[0].env);
      [r] + Runs(calls[1..], r.counter)
  }

  /** In a sequence of runs the counter never goes below where it started, and
      each staged id is above it; the names of a staged run combine its id with
      that run's timestamps. */
  lemma {:induction false} RunsStaging(calls: seq<Invocation>, counter: nat, k: nat)
    requires k < |calls|
    ensures var rs := Runs(calls, counter);
      && rs[k].counter >= counter
      && (rs[k].plan.Some? ==>
            && rs[k].plan.value.id > counter
            && rs[k].plan.value.modelName == ModelName(rs[k].plan.value.id, calls[k].env.modelTime)
            && rs[k].plan.value.workerName == WorkerName(rs[k].plan.value.id, calls[k].env.workerTime))
    decreases |calls|
  {
    var r := Run(calls[0].flags, counter, calls[0].env);
    StagingAdvancesCounter(calls[0].flags, counter, calls[0].env);
    if k > 0 {
      assert Runs(calls, counter)[k] == Runs(calls[1..], r.counter)[k - 1];
      RunsStaging(calls[1..], r.counter, k - 1);
    }
  }

  /** Ids staged by successive runs strictly increase. */
  lemma {:induction false} StagedIdsIncrease(calls: seq<Invocation>, counter: nat, i: nat, j: nat)
    requires i < j < |calls|
    requires Runs(calls, counter)[i].plan.Some? && Runs(calls, counter)[j].plan.Some?
    ensures Runs(calls, counter)[i].plan.value.id < Runs(calls, counter)[j].plan.value.id
    decreases |calls|
  {
    var r := Run(calls[0].flags, counter, calls[0].env);
    RunsTail(calls, counter, j);
    if i == 0 {
      RunsHead(calls, counter);
      StagingAdvancesCounter(calls[0].flags, counter, calls[0].env);
      RunsStaging(calls[1..], r.counter, j - 1);
    } else {
      RunsTail(calls, counter, i);
      StagedIdsIncrease(calls[1..], r.counter, i - 1, j - 1);
    }
  }

  /** The first of successive runs starts from the initial counter. */
  lemma RunsHead(calls: seq<Invocation>, counter: nat)
    requires 0 < |calls|
    ensures Runs(calls, counter)[0] == Run(calls[0].flags, counter, calls[0].env)
  {
  }

  /** A later run of a sequence is a run of its tail, from the counter the first run left. */
  lemma RunsTail(calls: seq<Invocation>, counter: nat, k: nat)
    requires 0 < k < |calls|
    ensures Runs(calls, counter)[k] == Runs(calls[1..], Run(calls[0].flags, counter, calls[0].env).counter)[k - 1]
  {
  }

  /** Two staged runs of one process never share a model name or a worker
      name, and no model name is a worker name, whatever the timestamps. */
  lemma SuccessiveRunsDistinct(calls: seq<Invocation>, counter: nat, i: nat, j: nat)
    requires i < j < |calls|
    requires Runs(calls, counter)[i].plan.Some? && Runs(calls, counter)[j].plan.Some?
    ensures var p, q := Runs(calls, counter)[i].plan.value, Runs(calls, counter)[j].plan.value;
      && p.modelName != q.modelName && p.workerName != q.workerName
      && p.modelName != q.workerName && p.workerName != q.modelName
  {
    var p, q := Runs(calls, counter)[i].plan.value, Runs(calls, counter)[j].plan.value;
    StagedIdsIncrease(calls, counter, i, j);
    RunsStaging(calls, counter, i);
    RunsStaging(calls, counter, j);
    NamesDistinctForDistinctIds(p.id, calls[i].env.modelTime, q.id, calls[j].env.modelTime);
    NamesDistinctForDistinctIds(p.id, calls[i].env.workerTime, q.id, calls[j].env.workerTime);
    ModelNeverWorker(p.id, calls[i].env.modelTime, q.id, calls[j].env.workerTime);
    ModelNeverWorker(q.id, calls[j].env.modelTime, p.id, calls[i].env.workerTime);
  }
}
