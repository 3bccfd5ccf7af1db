# Dataflow runner `Execute`, modelled in Dafny

This project models the Go SDK's Google Cloud Dataflow runner
(`sdks/go/pkg/beam/runners/dataflow/dataflow.go`). It covers two pieces.

The first is `Execute`, which:

- checks the required project and staging-location flags;
- fills in the worker container image;
- parses the JSON job labels;
- enables the CPU-profiling capture hook;
- assembles the Dataflow job options (experiments with the minimum CPU platform, and a temp location defaulting to `<staging>/tmp`);
- builds and marshals the pipeline;
- names the staged model and worker objects from a process-wide counter and a timestamp;
- either translates and prints the job (dry run) or submits it.

The second is `gcsRecorderHook`, the profile capture hook that is registered as `gcs_profile_writer`. It parses a `gs://bucket/prefix` destination once. The function it returns writes each captured stream to `prefix/spec` in that bucket.

Layout:

- `wrappers.dfy`: `Option`, `Result` and `Status`.
- `strings.dfy`: Go's `%v` formatting of integers and `%s` formatting of a string slice. It also proves that the decimal rendering is injective.
- `options.dfy`: the flag values (`RawFlags`) and the Dataflow `JobOptions` record. It also holds the pure steps that assemble the options.
- `naming.dfy`: staged object names, and the `Namer` class. `Namer` holds the process-wide `unique` counter.
- `orchestrator.dfy`: the collaborators (`Env`), the trace of outside calls (`Call`) and the outcome of a run. It has three parts:
  - the specification function `Run`, split into the phases `Prepare`, `Stage` and `Dispatch`;
  - the `Flags` class, which holds the flag variables `Execute` reads and overwrites;
  - the imperative methods `PrepareOptions`, proved to follow `Prepare`, and `Execute`, proved to follow `Run`.
- `properties.dfy`: what a run promises, proved as lemmas about `Run` and about a sequence of runs in one process (`Runs`).
- `capture.dfy`: the hook factory and the capture function.

Collaborators are inputs. Each is a fixed answer or an uninterpreted function in `Env`: the default container image, the JSON decoder, the experiments and job name, the exported pipeline options, `gcsx.Join`, `p.Build`, `graphx.Marshal`, the two `time.Now()` readings, `dataflowlib.Translate` and `dataflowlib.Execute`. For the capture hook they are `gcsx.ParseObject`, `gcsx.NewClient`, `path.Join` and `gcsx.WriteObject`. Each call with an effect outside the runner is recorded in order, so the model can state what gets called, with which arguments, and what is never called.

## Model

| member | source | states |
|---|---|---|
| Orchestrator.Execute | sdks/go/pkg/beam/runners/dataflow/dataflow.go:78-167 | The imperative runner follows `Run`. Its outcome and call trace are exactly those of `Run` on the flags and counter it starts from. Afterwards the image flag holds the run's resolved image and the counter holds the run's counter; every other flag is unchanged. |
| Orchestrator.PrepareOptions | sdks/go/pkg/beam/runners/dataflow/dataflow.go:81-136 | The option-gathering phase returns exactly `Prepare`'s options or error and calls. It overwrites only the image flag, and only once both required flags are present. |
| Orchestrator.Run | sdks/go/pkg/beam/runners/dataflow/dataflow.go:78-167 | The specification of one execution: the option phase `Prepare`, then `Build` and the phase `Stage`. It has no contract of its own, because each clause on it makes every proof that mentions it more expensive. What it promises is stated by `Properties.RunCalls` (which calls are made, in which order), `Properties.CompiledRun` (a compiling run unfolded) and `Properties.StagingAdvancesCounter` (the counter and the staging plan). |
| Orchestrator.Prepare | sdks/go/pkg/beam/runners/dataflow/dataflow.go:81-136 | Option gathering succeeds exactly when the project is set, the staging location is set and the labels are empty or parse. A failure makes at most two calls, and its error is the project message, the staging message or the prefixed labels error. |
| Orchestrator.Stage | sdks/go/pkg/beam/runners/dataflow/dataflow.go:138-151 | Building, marshalling and staging after the option phase. It has no contract of its own for the same reason as `Run`. `Properties.StageCalls` states that it only extends the trace, and only with launch calls. `Properties.BuildFailure`, `Properties.MarshalFailure` and `Properties.StagingAdvancesCounter` state its failure paths and the counter. |
| Orchestrator.Dispatch | sdks/go/pkg/beam/runners/dataflow/dataflow.go:153-166 | A dry run never ends submitted and makes three or four calls. A run that is not a dry run never ends previewed and makes exactly one call. A previewed job is the last call, printed. |
| Orchestrator.Plan | sdks/go/pkg/beam/runners/dataflow/dataflow.go:149-151 | The plan for counter value `id` uses that id in both names, which differ from each other. The model and worker names combine the id with their own timestamps, and both objects lie under the staging location. |
| Orchestrator.ResolvedImage | sdks/go/pkg/beam/runners/dataflow/dataflow.go:88-90 | A set image flag wins. The image is either the flag or the default image, and it is empty only when both are. |
| Orchestrator.ImageAfter | sdks/go/pkg/beam/runners/dataflow/dataflow.go:88-90 | A set image flag is never changed, and the flag is untouched when a required flag is missing. Otherwise the flag ends as either its old value or the default image. |
| Orchestrator.OptionsTrace | sdks/go/pkg/beam/runners/dataflow/dataflow.go:88-112 | The calls of a successful option phase. It has no contract of its own for the same reason as `Run`. `Properties.OptionsTraceCalls` states that it holds only option calls, and `Properties.ImageResolution` and `Properties.ProfilingHookEnabled` state when each call occurs. |
| Orchestrator.JobLabels | sdks/go/pkg/beam/runners/dataflow/dataflow.go:91-96 | An empty labels flag gives no labels. A set flag gives exactly the map the decoder returned. |
| Orchestrator.RunJobOptions | sdks/go/pkg/beam/runners/dataflow/dataflow.go:119-136 | The job options of a run whose labels parse. It has no contract of its own for the same reason as `Run`. `Options.AssembleJobOptions` states each field, and `Properties.LaunchedOptions` states the options that reach translate and submit. |
| Naming.ModelName | sdks/go/pkg/beam/runners/dataflow/dataflow.go:150 | A model object name starts with `model-` followed by a digit of the id. |
| Naming.WorkerName | sdks/go/pkg/beam/runners/dataflow/dataflow.go:151 | A worker object name starts with `worker-` followed by a digit of the id. |
| Strings.IntToString | sdks/go/pkg/beam/runners/dataflow/dataflow.go:150-151 | The `%v` rendering of a timestamp is non-empty and starts with `-` exactly when the number is negative. Every other character is a decimal digit. |
| Strings.JoinSpaced | sdks/go/pkg/beam/runners/dataflow/dataflow.go:172 | Elements joined by single spaces: empty for no elements, and starting with the first element otherwise. |
| Strings.JoinSpacedContainsAll | sdks/go/pkg/beam/runners/dataflow/dataflow.go:172 | Every element occurs in the joined string. |
| Orchestrator.Flags.constructor | sdks/go/pkg/beam/runners/dataflow/dataflow.go:46-65 | A fresh flag set holds the given values. |
| Naming.Namer.constructor | sdks/go/pkg/beam/runners/dataflow/dataflow.go:74 | The process-wide counter starts at zero. |
| Naming.Namer.Next | sdks/go/pkg/beam/runners/dataflow/dataflow.go:149 | The counter is incremented by one, and the new value is returned as the id. |
| Options.ResolveExperiments | sdks/go/pkg/beam/runners/dataflow/dataflow.go:114-117 | With an empty platform flag, the experiments are unchanged. Otherwise they are the original list (as a prefix) followed by exactly one more entry, `min_cpu_platform=<flag>`. |
| Options.AssembleJobOptions | sdks/go/pkg/beam/runners/dataflow/dataflow.go:119-136 | Every job option field is its flag or collaborator value. The temp location is `join(staging, "tmp")` exactly when the flag is empty, and the flag otherwise. |
| Strings.NatToString | sdks/go/pkg/beam/runners/dataflow/dataflow.go:150-151 | The `%v` rendering of a counter value is non-empty and all decimal digits, with at least two digits from 10 upward. |
| Strings.NatToStringInjective | sdks/go/pkg/beam/runners/dataflow/dataflow.go:150-151 | Different counter values render as different strings. |
| Strings.LeadingDigits | sdks/go/pkg/beam/runners/dataflow/dataflow.go:150-151 | A proof device with no counterpart in the Go code, used to read an id back from a name. It is the length of a string's leading digit run: every character before it is a digit, and the character after it is not. |
| Strings.LeadingDigitsOfField | sdks/go/pkg/beam/runners/dataflow/dataflow.go:150-151 | In `<digits>-<rest>` the leading digit run is exactly the digits. The `-` separator is where the id field ends. |
| Strings.NumberFieldInjective | sdks/go/pkg/beam/runners/dataflow/dataflow.go:150-151 | `<id>-<anything>` fixes the id: equal strings mean equal ids, whatever follows the dash. |
| Strings.FormatStrings | sdks/go/pkg/beam/runners/dataflow/dataflow.go:172 | The `%s` rendering of a string slice holds its first element right after the opening bracket. |
| Naming.ModelNeverWorker | sdks/go/pkg/beam/runners/dataflow/dataflow.go:150-151 | No model object name equals any worker object name, whatever the ids and timestamps. |
| Naming.NamesDistinctForDistinctIds | sdks/go/pkg/beam/runners/dataflow/dataflow.go:149-151 | Two different ids give different model names and different worker names, whatever the timestamps. |
| Properties.PrepareCalls | sdks/go/pkg/beam/runners/dataflow/dataflow.go:81-136 | Option gathering succeeds exactly when the project is set, the staging location is set and the labels are empty or parse. On success the result is the assembled options. Only option calls are made, and on failure only the image lookup and the labels parse. |
| Properties.DispatchCalls | sdks/go/pkg/beam/runners/dataflow/dataflow.go:153-166 | The dry-run branch never submits. The submit branch never logs, translates or prints. Every translate or submit call carries the job options. |
| Properties.StageCalls | sdks/go/pkg/beam/runners/dataflow/dataflow.go:140-166 | The build-and-launch phase only extends the trace, and only with launch calls. |
| Properties.RunCalls | sdks/go/pkg/beam/runners/dataflow/dataflow.go:78-167 | A run's trace begins with the option-gathering calls. The later calls are launch calls with the assembled options, and happen only when the options are valid. |
| Properties.NoProjectFails | sdks/go/pkg/beam/runners/dataflow/dataflow.go:81-84 | An empty project fails with the `--project` message. Nothing is called, and the flags and counter are untouched. |
| Properties.NoStagingFails | sdks/go/pkg/beam/runners/dataflow/dataflow.go:85-87 | With a project set but no staging location, the run fails with the `--staging_location` message. Nothing is called, and the flags and counter are untouched. |
| Properties.ImageResolution | sdks/go/pkg/beam/runners/dataflow/dataflow.go:88-90 | Once both required flags are present, the image flag becomes the default image if it was empty and is kept otherwise. The default is requested exactly when the flag is empty. |
| Properties.MarshalUsesImage | sdks/go/pkg/beam/runners/dataflow/dataflow.go:144 | The pipeline is marshalled only with the image the flag holds after the run. |
| Properties.BadLabelsAbort | sdks/go/pkg/beam/runners/dataflow/dataflow.go:91-96 | Labels that do not parse fail the run with the prefixed parse error, and the parse is the last call. Nothing is enabled, serialized, built or staged. |
| Properties.EmptyLabelsNotParsed | sdks/go/pkg/beam/runners/dataflow/dataflow.go:91-96 | An empty labels flag is never parsed, and the job carries no labels. |
| Properties.ProfilingHookEnabled | sdks/go/pkg/beam/runners/dataflow/dataflow.go:98-100 | The capture hook `gcs_profile_writer` is enabled with the profiling destination exactly when that flag is set and the options are valid. |
| Properties.LaunchedOptions | sdks/go/pkg/beam/runners/dataflow/dataflow.go:114-136 | The options handed to translate or submit carry the resolved experiments, the defaulted or kept temp location, the parsed labels, the project and the job name. |
| Properties.StagingAdvancesCounter | sdks/go/pkg/beam/runners/dataflow/dataflow.go:140-151 | A run stages exactly when it compiles, and then advances the counter by exactly one; otherwise the counter is unchanged. The staging plan uses the new counter value for both names, and puts both objects under the staging location. |
| Properties.BuildFailure | sdks/go/pkg/beam/runners/dataflow/dataflow.go:140-143 | A build error is returned unchanged. Nothing is marshalled, translated, submitted or staged. |
| Properties.MarshalFailure | sdks/go/pkg/beam/runners/dataflow/dataflow.go:144-147 | A marshal error is returned with the `failed to generate model pipeline: ` prefix. Nothing is translated, submitted or staged. |
| Properties.CompiledRun | sdks/go/pkg/beam/runners/dataflow/dataflow.go:78-167 | A compiling run is, in order, the option calls, `Build`, `Marshal` with the resolved image, then the dry-run or submit branch, with the counter advanced by one. |
| Properties.DryRunNeverSubmits | sdks/go/pkg/beam/runners/dataflow/dataflow.go:153-163 | A dry run never submits and never ends as submitted. |
| Properties.DryRunTranslates | sdks/go/pkg/beam/runners/dataflow/dataflow.go:153-157 | A compiling dry run logs the notice and the model. It then translates the model with the job options and with the worker and model URLs, in that order. |
| Properties.OptionsTraceCalls | sdks/go/pkg/beam/runners/dataflow/dataflow.go:88-112 | Every call of a successful option phase is an option call: the image lookup only if the flag is empty, the labels parse only if labels are set, the hook only if profiling is set, and the hook serialization. |
| Properties.NothingPrintedBeforeDispatch | sdks/go/pkg/beam/runners/dataflow/dataflow.go:79-151 | No job is printed before the dry-run branch. |
| Properties.DryRunTranslateError | sdks/go/pkg/beam/runners/dataflow/dataflow.go:157-160 | A failed translation is returned unchanged, and no job is printed. |
| Properties.DryRunPreviewed | sdks/go/pkg/beam/runners/dataflow/dataflow.go:157-162 | A successful translation is printed as the last call, and the run ends previewed with that job. |
| Properties.SubmitNeverTranslates | sdks/go/pkg/beam/runners/dataflow/dataflow.go:165-166 | A run that is not a dry run never logs the model, translates or prints, and never ends previewed. |
| Properties.SubmitOutcomeUnchanged | sdks/go/pkg/beam/runners/dataflow/dataflow.go:165-166 | A compiling run that is not a dry run submits last and synchronously, with the worker and model URLs and the endpoint. It ends with exactly the submitter's error, or as submitted. |
| Properties.ImageOverwriteSticks | sdks/go/pkg/beam/runners/dataflow/dataflow.go:88-90 | A later run that sees the overwritten image flag does not ask for the default image again. |
| Properties.Runs | sdks/go/pkg/beam/runners/dataflow/dataflow.go:74 | Successive runs in one process, one result per call, each starting from the counter the previous run left. |
| Properties.RunsStaging | sdks/go/pkg/beam/runners/dataflow/dataflow.go:149-151 | Across successive runs the counter never falls below its start. Every staged id is above the start, and is named with its own run's timestamps. |
| Properties.StagedIdsIncrease | sdks/go/pkg/beam/runners/dataflow/dataflow.go:149 | Ids staged by successive runs strictly increase. |
| Properties.SuccessiveRunsDistinct | sdks/go/pkg/beam/runners/dataflow/dataflow.go:149-151 | Two staged runs of one process never share a model name or a worker name. No model name equals a worker name, whatever the timestamps. |
| Capture.GcsRecorderHook | sdks/go/pkg/beam/runners/dataflow/dataflow.go:169-173 | Empty options panic with Go's index-out-of-range message. Otherwise the hook is created exactly when the first option parses, and it captures the parsed bucket and prefix. A parse failure panics with the invalid-configuration message over all options. |
| Capture.PanicNamesConfig | sdks/go/pkg/beam/runners/dataflow/dataflow.go:170-173 | The invalid-configuration panic starts with its prefix, and every option occurs in it, the offending first one included. |
| Capture.Capture | sdks/go/pkg/beam/runners/dataflow/dataflow.go:175-181 | Each capture first opens a client with the read-write storage scope. If that fails, the capture returns the prefixed client error and writes nothing. Otherwise it makes exactly two storage calls, the client and then one write to the captured bucket at `path.Join(prefix, spec)`, and returns that write's result. |
| Capture.CapturesGoToConfiguredObject | sdks/go/pkg/beam/runners/dataflow/dataflow.go:169-181 | Every write made through a hook built from a destination goes to the bucket parsed from it, at the parsed prefix joined with the spec. |

## Left out

- Flag declaration, parsing and defaults (dataflow.go:46-65), and the `init` registration of the runner and the hook (dataflow.go:67-72): the flag values arrive as `RawFlags`, whatever their source.
- The internals of the collaborators are uninterpreted: `gcsx.Join`, `path.Join`, `gcsx.ParseObject`, `json.Unmarshal`, `p.Build`, `graphx.Marshal`, `dataflowlib.Translate`/`Execute`/`PrintJob`, `jobopts`, `perf.EnableProfCaptureHook` and `hooks.SerializeHooksToOptions`. They are not part of this model. So the concrete URL shapes (such as `gs://bucket/path/model-1-…`) are not derived, and every property holds for any `join`.
- The two `time.Now()` readings are inputs (`modelTime`, `workerTime`), which can differ. The distinctness lemmas hold whatever they are.
- `Naming.Namer.Next`: the counter is an unbounded natural. The source's `int32` would wrap after 2^31-1 runs, and the atomic update's concurrency is not modelled; the model runs one call at a time.
- The empty session-recording branch (dataflow.go:102-110) does nothing and is not represented.
- Logging goes into the trace only as `LogInfo`/`LogModel` entries. `proto.MarshalTextString` is the model's own text.
- `Orchestrator.Outcome.Submitted` carries no job handle, because the source discards what `dataflowlib.Execute` returns.
- A nil labels map and an empty one are both `map[]`.
- `Properties.Runs` threads only the counter between runs. The image flag a run overwrites is carried to a later run in `ImageOverwriteSticks`.
- `Execute`'s context (dataflow.go:78) is not modelled. It is only passed on to the collaborators (lines 89, 154, 156, 161, 165), so cancellation appears only as a collaborator's error in `Env`.
- The capture function's context argument and the reader are left out; the stream is the byte sequence it delivers.
- `Capture.GcsRecorderHook`: the panic for empty options uses the wording of current Go runtimes (`index out of range [0] with length 0`). Older releases print only `index out of range`, and the source does not say which release it targets.
- The test file `BigQueryToTableIT.java` in the same repository belongs to the Java SDK and is not part of this model.
