/**
 * The option rules of the command-line front end (synthetic_data_kit/cli.py):
 * which input `generate` works on, which LLM endpoint and model each command
 * uses, and the default output paths of `save-as`, `curate` and
 * `curate-seed`.
 *
 * Options arrive as Option<string>, None when not given. The config lookups
 * (get_llm_provider, get_openai_config, get_vllm_config, get_path_config) and
 * the API_ENDPOINT_KEY environment variable are inputs; whether the vLLM
 * server answered its health check is a boolean input.
 */
module Cli {
  import opened Wrappers
  import Paths
  import Generate

  /** Python truthiness of an optional string: None and "" are false. */
  predicate Truthy(o: Option<string>) {
    o.Some? && o.value != ""
  }

  /** Python's `a or b` on optional strings. */
  function Or(a: Option<string>, b: Option<string>): Option<string> {
    if Truthy(a) then a else b
  }

  /** Why a command returns exit code 1 before doing its work. */
  datatype CliError = NoInputGiven | BothInputsGiven | ServerUnavailable

  /**
   * `generate`: exactly one of --taxonomy and --seed-examples, giving the
   * generation type and the input file.
   */
  function SelectGenerationInput(taxonomy: Option<string>, seedExamples: Option<string>): (r: Result<(string, string), CliError>)
    ensures r == Failure(NoInputGiven) <==> !Truthy(taxonomy) && !Truthy(seedExamples)
    ensures r == Failure(BothInputsGiven) <==> Truthy(taxonomy) && Truthy(seedExamples)
    ensures r.Success? <==> Truthy(taxonomy) != Truthy(seedExamples)
    ensures r.Success? && Truthy(taxonomy) ==> r.value == ("taxonomy", taxonomy.value)
    ensures r.Success? && Truthy(seedExamples) ==> r.value == ("seed-examples", seedExamples.value)
  {
    if !Truthy(taxonomy) && !Truthy(seedExamples) then Failure(NoInputGiven)
    else if Truthy(taxonomy) && Truthy(seedExamples) then Failure(BothInputsGiven)
    else if Truthy(taxonomy) then Success(("taxonomy", taxonomy.value))
    else Success(("seed-examples", seedExamples.value))
  }

  /** One provider section of the config, as its get_*_config function returns it. */
  datatype EndpointConfig = EndpointConfig(apiBase: Option<string>, model: Option<string>, apiKey: Option<string>, port: Option<int>)

  /** "api-endpoint" selects the API endpoint section; any other provider the vLLM one. */
  function ProviderSection(provider: string, apiEndpoint: EndpointConfig, vllm: EndpointConfig): EndpointConfig {
    if provider == "api-endpoint" then apiEndpoint else vllm
  }

  datatype LlmSettings = LlmSettings(apiBase: Option<string>, model: Option<string>)

  /** `create`, `curate`, `generate` and `curate-seed`: --api-base and --model over the provider's config. */
  function ResolveLlmSettings(provider: string, cliApiBase: Option<string>, cliModel: Option<string>,
                              apiEndpoint: EndpointConfig, vllm: EndpointConfig): (s: LlmSettings)
    ensures Truthy(cliApiBase) ==> s.apiBase == cliApiBase
    ensures Truthy(cliModel) ==> s.model == cliModel
    ensures !Truthy(cliApiBase) ==> s.apiBase == ProviderSection(provider, apiEndpoint, vllm).apiBase
    ensures !Truthy(cliModel) ==> s.model == ProviderSection(provider, apiEndpoint, vllm).model
  {
    var section := ProviderSection(provider, apiEndpoint, vllm);
    LlmSettings(Or(cliApiBase, section.apiBase), Or(cliModel, section.model))
  }

  /** The vLLM server is checked only when the provider is not "api-endpoint". */
  predicate ServerCheckPasses(provider: string, vllmReachable: bool) {
    provider == "api-endpoint" || vllmReachable
  }

  /**
   * `generate` up to the call of process_generate_request: the request it
   * makes, or why it returns 1 first. `outputDir` falls back to the
   * configured "generated" directory only when it is None.
   */
  function GenerateCommand(taxonomy: Option<string>, seedExamples: Option<string>, outputDir: Option<string>,
                           cliApiBase: Option<string>, cliModel: Option<string>, numExamples: Option<int>,
                           examplesOnly: bool, provider: string, apiEndpoint: EndpointConfig, vllm: EndpointConfig,
                           vllmReachable: bool, generatedDir: string): (r: Result<Generate.Request, CliError>)
    ensures SelectGenerationInput(taxonomy, seedExamples).Failure? ==>
      r == Failure(SelectGenerationInput(taxonomy, seedExamples).error)
    ensures r.Success? ==>
      && SelectGenerationInput(taxonomy, seedExamples) == Success((r.value.generationType, r.value.inputFile))
      && ServerCheckPasses(provider, vllmReachable)
      && r.value.outputDir == outputDir.GetOr(generatedDir)
      && r.value.numExamples == numExamples
      && r.value.examplesOnly == examplesOnly
      && r.value.provider == Some(provider)
      && LlmSettings(r.value.apiBase, r.value.model) == ResolveLlmSettings(provider, cliApiBase, cliModel, apiEndpoint, vllm)
    ensures SelectGenerationInput(taxonomy, seedExamples).Success? && ServerCheckPasses(provider, vllmReachable) ==> r.Success?
    ensures SelectGenerationInput(taxonomy, seedExamples).Success? && !ServerCheckPasses(provider, vllmReachable) ==>
      r == Failure(ServerUnavailable)
  {
    var (generationType, inputFile) :- SelectGenerationInput(taxonomy, seedExamples);
    var settings := ResolveLlmSettings(provider, cliApiBase, cliModel, apiEndpoint, vllm);
    if !ServerCheckPasses(provider, vllmReachable) then Failure(ServerUnavailable)
    else
      var dir := if outputDir.None? then generatedDir else outputDir.value;
      Success(Generate.Request(inputFile, dir, generationType, numExamples, examplesOnly,
                               Some(provider), settings.apiBase, settings.model))
  }

  /** What `system-check` checks: the API endpoint with a key, or the vLLM server on a port. */
  datatype SystemCheckPlan =
    | ApiEndpointCheck(apiBase: Option<string>, apiKey: Option<string>, model: Option<string>)
    | VllmCheck(apiBase: Option<string>, model: Option<string>, port: int)

  /** `system-check`: --provider over the configured provider; API_ENDPOINT_KEY over the config's key. */
  function SystemCheck(cliProvider: Option<string>, configProvider: string, cliApiBase: Option<string>,
                       envApiKey: Option<string>, apiEndpoint: EndpointConfig, vllm: EndpointConfig): (p: SystemCheckPlan)
    ensures p.ApiEndpointCheck? <==> (if Truthy(cliProvider) then cliProvider.value else configProvider) == "api-endpoint"
    ensures p.ApiEndpointCheck? ==> p.apiKey == (if Truthy(envApiKey) then envApiKey else apiEndpoint.apiKey)
    ensures p.ApiEndpointCheck? ==> p.model == apiEndpoint.model
    ensures p.VllmCheck? ==> p.model == vllm.model && p.port == vllm.port.GetOr(8000)
    ensures Truthy(cliApiBase) ==> p.apiBase == cliApiBase
    ensures !Truthy(cliApiBase) ==> p.apiBase == (if p.ApiEndpointCheck? then apiEndpoint.apiBase else vllm.apiBase)
  {
    var provider := if Truthy(cliProvider) then cliProvider.value else configProvider;
    if provider == "api-endpoint" then
      ApiEndpointCheck(Or(cliApiBase, apiEndpoint.apiBase), Or(envApiKey, apiEndpoint.apiKey), apiEndpoint.model)
    else
      VllmCheck(Or(cliApiBase, vllm.apiBase), vllm.model, vllm.port.GetOr(8000))
  }

  /** `save-as`: --format, else the config's format.default, else "jsonl". */
  function SaveAsFormat(cliFormat: Option<string>, configDefault: Option<string>): (f: string)
    ensures Truthy(cliFormat) ==> f == cliFormat.value
    ensures !Truthy(cliFormat) ==> f == configDefault.GetOr("jsonl")
  {
    if Truthy(cliFormat) then cliFormat.value
    else configDefault.GetOr("jsonl")
  }

  /** The input's file name without its extension (os.path.splitext of os.path.basename). */
  function InputBase(input: string): (base: string)
    ensures '/' !in base
    ensures Paths.StartsWith(Paths.Basename(input), base)
  {
    var name := Paths.Basename(input);
    var parts := Paths.SplitExt(name);
    assert parts.0 == name[..|parts.0|];
    Paths.NotInPrefix(name, |parts.0|, '/');
    parts.0
  }

  /** What `save-as` appends to the base name when no --output is given. */
  function SaveAsTail(storage: string, format: string): string {
    if storage == "hf" then "_" + format + "_hf"
    else if format == "jsonl" then ".jsonl"
    else "_" + format + ".json"
  }

  /** `save-as`: --output when given, else a file in the configured "final" directory. */
  function SaveAsOutput(input: string, output: Option<string>, storage: string, format: string, finalDir: string): (r: string)
    ensures output.None? ==> Paths.EndsWith(r, SaveAsTail(storage, format))
  {
    if output.Some? then output.value
    else
      var name := InputBase(input) + SaveAsTail(storage, format);
      Paths.ConcatEnds(InputBase(input), SaveAsTail(storage, format));
      Paths.EndsWithTrans(Paths.Join(finalDir, name), name, SaveAsTail(storage, format));
      Paths.Join(finalDir, name)
  }

  /** `curate` and `curate-seed`: --output when given, else `<base>_cleaned.json` in the configured "cleaned" directory. */
  function CleanedOutput(input: string, output: Option<string>, cleanedDir: string): (r: string)
    ensures output.None? ==> Paths.EndsWith(r, "_cleaned.json")
  {
    if output.Some? then output.value
    else
      var name := InputBase(input) + "_cleaned.json";
      Paths.ConcatEnds(InputBase(input), "_cleaned.json");
      Paths.EndsWithTrans(Paths.Join(cleanedDir, name), name, "_cleaned.json");
      Paths.Join(cleanedDir, name)
  }

  /**
   * The base name is the input's file name with its os.path.splitext
   * extension removed: what is cut off is empty or a '.' followed by no
   * further '.', and when the name holds a dot after some other character it
   * is exactly the part from the name's last dot.
   */
  lemma InputBaseShape(input: string)
    ensures var name := Paths.Basename(input);
      var base := InputBase(input);
      && '/' !in base
      && Paths.StartsWith(name, base)
      && name[|base|..] == Paths.SplitExt(name).1
      && (var ext := name[|base|..]; ext == [] || (ext[0] == '.' && '.' !in ext[1..]))
      && ((exists j, k :: 0 <= j < k < |name| && name[j] != '.' && name[k] == '.') ==>
            name[|base|..] != [] && name[|base|..] == name[Paths.RFind(name, '.')..])
  {
    var name := Paths.Basename(input);
    var parts := Paths.SplitExt(name);
    assert parts.1 == name[|parts.0|..];
    if exists j, k :: 0 <= j < k < |name| && name[j] != '.' && name[k] == '.' {
      var j, k :| 0 <= j < k < |name| && name[j] != '.' && name[k] == '.';
      DotAfterNonDot(name, j, k);
    }
  }

  /** In a name without '/', a dot after some other character means os.path.splitext finds an extension. */
  lemma DotAfterNonDot(name: string, j: int, k: int)
    requires '/' !in name
    requires 0 <= j < k < |name| && name[j] != '.' && name[k] == '.'
    ensures Paths.HasExtension(name)
  {
    Paths.RFindAt(name, '/', -1);
    assert k <= Paths.RFind(name, '.');
  }

  /** Worked cases: the extension goes, a leading dot stays. */
  lemma InputBaseExamples()
    ensures InputBase("in/data.json") == "data"
  {
    Paths.RFindAt("in/data.json", '/', 2);
    assert Paths.Basename("in/data.json") == "data.json";
    Paths.RFindAt("data.json", '/', -1);
    Paths.RFindAt("data.json", '.', 4);
    assert "data.json"[0] != '.';
    assert "data.json"[..4] == "data";
  }

  /** A leading dot is not an extension. */
  lemma DotFileExample()
    ensures InputBase("in/.env") == ".env"
  {
    Paths.RFindAt("in/.env", '/', 2);
    assert Paths.Basename("in/.env") == ".env";
    Paths.RFindAt(".env", '/', -1);
    Paths.RFindAt(".env", '.', 0);
  }

  /** A file name made of the base name and a tail without '/' is one path component under its directory. */
  lemma BaseFileUnder(dir: string, base: string, tail: string)
    requires '/' !in base && '/' !in tail && tail != []
    ensures var r := Paths.Join(dir, base + tail);
      && Paths.StartsWith(r, dir) && Paths.Basename(r) == base + tail && Paths.EndsWith(r, tail)
      && |r| == |dir| + |base| + |tail| + (if dir != [] && dir[|dir| - 1] != '/' then 1 else 0)
  {
    Paths.NotInConcat(base, tail, '/');
    Paths.JoinBasename(dir, base + tail);
    Paths.ConcatEnds(base, tail);
    Paths.EndsWithTrans(Paths.Join(dir, base + tail), base + tail, tail);
  }

  /** Kept apart so that the literal's characters are unfolded only here. */
  lemma CleanedTail()
    ensures '/' !in "_cleaned.json"
  {
  }

  /**
   * With no --output, `curate` and `curate-seed` write `<base>_cleaned.json`
   * directly inside the configured "cleaned" directory.
   */
  lemma CleanedOutputShape(input: string, cleanedDir: string)
    ensures var r := CleanedOutput(input, None, cleanedDir);
      && Paths.StartsWith(r, cleanedDir)
      && Paths.Basename(r) == InputBase(input) + "_cleaned.json"
      && Paths.EndsWith(r, "_cleaned.json")
      && |r| == |cleanedDir| + |InputBase(input) + "_cleaned.json"| + (if cleanedDir != [] && cleanedDir[|cleanedDir| - 1] != '/' then 1 else 0)
  {
    InputBaseShape(input);
    CleanedTail();
    BaseFileUnder(cleanedDir, InputBase(input), "_cleaned.json");
  }

  /** The save-as tail is one path component whenever the format is. */
  lemma SaveAsTailNoSlash(storage: string, format: string)
    requires '/' !in format
    ensures '/' !in SaveAsTail(storage, format) && SaveAsTail(storage, format) != []
  {
    Paths.NotInConcat("_", format, '/');
    Paths.NotInConcat("_" + format, "_hf", '/');
    Paths.NotInConcat("_" + format, ".json", '/');
  }

  /**
   * With no --output, `save-as` writes inside the configured "final"
   * directory: a `<base>_<format>_hf` directory for Hugging Face storage,
   * else `<base>.jsonl` for the jsonl format and `<base>_<format>.json` for
   * any other.
   */
  lemma SaveAsOutputShape(input: string, storage: string, format: string, finalDir: string)
    requires '/' !in format
    ensures var r := SaveAsOutput(input, None, storage, format, finalDir);
      var tail := SaveAsTail(storage, format);
      && Paths.StartsWith(r, finalDir)
      && Paths.Basename(r) == InputBase(input) + tail
      && Paths.EndsWith(r, tail)
      && |r| == |finalDir| + |InputBase(input) + tail| + (if finalDir != [] && finalDir[|finalDir| - 1] != '/' then 1 else 0)
      && (storage == "hf" ==> tail == "_" + format + "_hf")
      && (storage != "hf" && format == "jsonl" ==> tail == ".jsonl")
      && (storage != "hf" && format != "jsonl" ==> tail == "_" + format + ".json")
  {
    InputBaseShape(input);
    SaveAsTailNoSlash(storage, format);
    BaseFileUnder(finalDir, InputBase(input), SaveAsTail(storage, format));
  }

  /** An output path given on the command line is used as it is. */
  lemma ExplicitOutputKept(input: string, output: string, storage: string, format: string, dir: string)
    ensures SaveAsOutput(input, Some(output), storage, format, dir) == output
    ensures CleanedOutput(input, Some(output), dir) == output
  {
  }

  /**
   * A request `generate` makes always names one of the two generation types
   * process_generate_request accepts: taxonomy exactly when --taxonomy was
   * the option given.
   */
  lemma GenerateRequestTypeAccepted(taxonomy: Option<string>, seedExamples: Option<string>, outputDir: Option<string>,
                                    cliApiBase: Option<string>, cliModel: Option<string>, numExamples: Option<int>,
                                    examplesOnly: bool, provider: string, apiEndpoint: EndpointConfig, vllm: EndpointConfig,
                                    vllmReachable: bool, generatedDir: string, inputExists: bool)
    requires GenerateCommand(taxonomy, seedExamples, outputDir, cliApiBase, cliModel, numExamples, examplesOnly,
                             provider, apiEndpoint, vllm, vllmReachable, generatedDir).Success?
    ensures var req := GenerateCommand(taxonomy, seedExamples, outputDir, cliApiBase, cliModel, numExamples, examplesOnly,
                                       provider, apiEndpoint, vllm, vllmReachable, generatedDir).value;
      && Generate.ParseGenerationType(req.generationType) == Some(if Truthy(taxonomy) then Generate.Taxonomy else Generate.SeedExamples)
      && var v := Generate.Validate(req.inputFile, req.generationType, inputExists);
         v.Failure? ==> !v.error.InvalidGenerationType?
  {
  }

  /** The provider decides which config section fills in what the command line leaves out; the other section is never read. */
  lemma OtherSectionIgnored(provider: string, cliApiBase: Option<string>, cliModel: Option<string>,
                            apiEndpoint: EndpointConfig, vllm: EndpointConfig, other: EndpointConfig)
    ensures provider == "api-endpoint" ==>
      ResolveLlmSettings(provider, cliApiBase, cliModel, apiEndpoint, other) == ResolveLlmSettings(provider, cliApiBase, cliModel, apiEndpoint, vllm)
    ensures provider != "api-endpoint" ==>
      ResolveLlmSettings(provider, cliApiBase, cliModel, other, vllm) == ResolveLlmSettings(provider, cliApiBase, cliModel, apiEndpoint, vllm)
  {
  }
}
