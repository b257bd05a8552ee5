/** The command line of a Workflow's container, read the way eval/vox_eval/cli.py declares it. */
module CommandLine {
  import opened Api
  import opened EvalRunController

  /** What the runner is started with: a dataset, and the options that were given. */
  datatype Invocation = Invocation(dataset: string, options: map<string, string>)

  /** The options of the run command that take a value. */
  predicate IsFlag(s: string) {
    s == "--url" || s == "--model" || s == "--threshold" || s == "--output" || s == "--timeout" || s == "--report-path"
  }

  /** Each flag with the value that follows it; of a repeated flag the last value counts. */
  function ReadOptions(args: seq<string>): Option<map<string, string>> {
    if args == [] then Some(map[])
    else if |args| == 1 || !IsFlag(args[0]) then None
    else
      match ReadOptions(args[2..])
      case None => None
      case Some(rest) => Some(if args[0] in rest then rest else rest[args[0] := args[1]])
  }

  /** `run`, the dataset, and the options. */
  function ReadCommand(args: seq<string>): Option<Invocation> {
    if |args| < 2 || args[0] != "run" then None
    else
      match ReadOptions(args[2..])
      case None => None
      case Some(options) => Some(Invocation(args[1], options))
  }

  /** The runner is started as the spec asks: on its dataset and gateway, with its threshold or 0.3, its model if it names
      one, and the report where the Workflow will look for it. */
  predicate Starts(spec: RunSpec, call: Invocation, reportPath: string) {
    && call.dataset == spec.dataset
    && call.options.Keys == {"--url", "--threshold", "--report-path"} + (if spec.model == "" then {} else {"--model"})
    && call.options["--url"] == spec.gatewayURL
    && call.options["--threshold"] == (if spec.werThreshold == "" then "0.3" else spec.werThreshold)
    && call.options["--report-path"] == reportPath
    && (spec.model != "" ==> call.options["--model"] == spec.model)
  }

  predicate Executes(spec: RunSpec, wf: WorkflowSpec) {
    && wf.image == spec.image
    && wf.deadline == (if spec.timeoutSeconds.Some? then spec.timeoutSeconds.value else 600)
    && wf.reportParam == "eval-report"
    && ReadCommand(wf.args).Some? && Starts(spec, ReadCommand(wf.args).value, wf.reportPath)
  }

  lemma TwoMore(flag: string, value: string, rest: seq<string>)
    requires IsFlag(flag) && ReadOptions(rest).Some? && flag !in ReadOptions(rest).value
    ensures ReadOptions([flag, value] + rest) == Some(ReadOptions(rest).value[flag := value])
  {
    assert ([flag, value] + rest)[2..] == rest;
  }

  lemma FlagsDiffer()
    ensures "--url" != "--threshold" && "--url" != "--report-path" && "--url" != "--model"
    ensures "--threshold" != "--report-path" && "--threshold" != "--model" && "--report-path" != "--model"
  {
    assert |"--url"| == 5 && |"--model"| == 7 && |"--threshold"| == 11 && |"--report-path"| == 13;
  }

  lemma OptionsReadBack(url: string, threshold: string, path: string, more: seq<string>)
    requires ReadOptions(more).Some? && ReadOptions(more).value.Keys <= {"--model"}
    ensures ReadOptions(["--url", url] + (["--threshold", threshold] + (["--report-path", path] + more))) ==
            Some(ReadOptions(more).value["--report-path" := path]["--threshold" := threshold]["--url" := url])
  {
    FlagsDiffer();
    TwoMore("--report-path", path, more);
    TwoMore("--threshold", threshold, ["--report-path", path] + more);
    TwoMore("--url", url, ["--threshold", threshold] + (["--report-path", path] + more));
  }

  lemma ModelReadsBack(model: string)
    ensures ReadOptions(if model != "" then ["--model", model] else []) == Some(if model == "" then map[] else map["--model" := model])
  {
    if model != "" {
      assert ["--model", model][2..] == [];
    }
  }

  /** Whatever the spec, the command line written for it reads back as its fields. */
  lemma CommandReadsBack(spec: RunSpec)
    ensures Executes(spec, SpecFor(spec))
  {
    var args, threshold, path := SpecFor(spec).args, Threshold(spec), SpecFor(spec).reportPath;
    var more := if spec.model != "" then ["--model", spec.model] else [];
    FlagsDiffer();
    ModelReadsBack(spec.model);
    OptionsReadBack(spec.gatewayURL, threshold, path, more);
    assert args[2..] == ["--url", spec.gatewayURL] + (["--threshold", threshold] + (["--report-path", path] + more));
  }
}
