/**
 * process_generate_request (synthetic_data_kit/core/generate.py): the guard
 * checks on a generation request, the default example count, the output
 * suffix and the output file name.
 *
 * Whether the input file exists is a boolean input. Creating the output
 * directory, creating the LLM client, running the generator and writing the
 * JSON file are recorded as effects, in the order the function performs
 * them; the generator itself is a parameter that answers a call with a
 * document or an error message.
 */
module Generate {
  import opened Wrappers
  import opened JsonValue
  import Paths

  datatype GenerationType = Taxonomy | SeedExamples

  /** The two generation types the request accepts, by name. */
  function ParseGenerationType(name: string): (t: Option<GenerationType>)
    ensures t == Some(Taxonomy) <==> name == "taxonomy"
    ensures t == Some(SeedExamples) <==> name == "seed-examples"
    ensures t.None? <==> name !in {"taxonomy", "seed-examples"}
  {
    if name == "taxonomy" then Some(Taxonomy)
    else if name == "seed-examples" then Some(SeedExamples)
    else None
  }

  /** The arguments of process_generate_request (config_path and verbose have no bearing here). */
  datatype Request = Request(
    inputFile: string,
    outputDir: string,
    generationType: string,
    numExamples: Option<int>,
    examplesOnly: bool,
    provider: Option<string>,
    apiBase: Option<string>,
    model: Option<string>)

  /** The ValueErrors of the guard checks, and a failure of the generator run. */
  datatype GenerateError =
    | InputNotFound(path: string)
    | InvalidGenerationType(given: string)
    | BadTaxonomyExtension(suffix: string)
    | BadSeedExamplesExtension(suffix: string)
    | GeneratorFailed(message: string)

  /** A file suffix, lower-cased, is one the generation type takes. */
  predicate SuffixAccepted(kind: GenerationType, suffix: string) {
    var ext := Paths.Lower(suffix);
    match kind
    case Taxonomy => ext == ".md" || ext == ".txt"
    case SeedExamples => ext == ".json"
  }

  /** The guard checks, in the order the source makes them. */
  function Validate(inputFile: string, generationType: string, inputExists: bool): (r: Result<GenerationType, GenerateError>)
    ensures !inputExists ==> r == Failure(InputNotFound(inputFile))
    ensures inputExists && ParseGenerationType(generationType).None? ==> r == Failure(InvalidGenerationType(generationType))
    ensures r.Success? <==>
      inputExists && ParseGenerationType(generationType).Some?
      && SuffixAccepted(ParseGenerationType(generationType).value, Paths.PathSuffix(inputFile))
    ensures r.Success? ==> Some(r.value) == ParseGenerationType(generationType)
    ensures r.Failure? && inputExists && ParseGenerationType(generationType) == Some(Taxonomy) ==>
      r.error == BadTaxonomyExtension(Paths.PathSuffix(inputFile))
    ensures r.Failure? && inputExists && ParseGenerationType(generationType) == Some(SeedExamples) ==>
      r.error == BadSeedExamplesExtension(Paths.PathSuffix(inputFile))
    ensures r.Failure? && r.error.BadTaxonomyExtension? ==> generationType == "taxonomy"
    ensures r.Failure? && r.error.BadSeedExamplesExtension? ==> generationType == "seed-examples"
    ensures r.Failure? ==> !r.error.GeneratorFailed?
  {
    if !inputExists then Failure(InputNotFound(inputFile))
    else
      match ParseGenerationType(generationType)
      case None => Failure(InvalidGenerationType(generationType))
      case Some(kind) =>
        if SuffixAccepted(kind, Paths.PathSuffix(inputFile)) then Success(kind)
        else if kind == Taxonomy then Failure(BadTaxonomyExtension(Paths.PathSuffix(inputFile)))
        else Failure(BadSeedExamplesExtension(Paths.PathSuffix(inputFile)))
  }

  /** num_examples when given (whatever its value), else the configured num_pairs, else 25. */
  function EffectiveNumExamples(requested: Option<int>, configNumPairs: Option<int>): (n: int)
    ensures requested.Some? ==> n == requested.value
    ensures requested.None? && configNumPairs.Some? ==> n == configNumPairs.value
    ensures requested.None? && configNumPairs.None? ==> n == 25
  {
    match requested
    case Some(k) => k
    case None => configNumPairs.GetOr(25)
  }

  /** The generator call each mode makes. */
  datatype GeneratorCall = ProcessTaxonomyFile | GetGeneratedExamplesOnly | ProcessSeedExamplesFile

  function GeneratorCallFor(kind: GenerationType, examplesOnly: bool): GeneratorCall {
    match kind
    case Taxonomy => ProcessTaxonomyFile
    case SeedExamples => if examplesOnly then GetGeneratedExamplesOnly else ProcessSeedExamplesFile
  }

  /** The word that goes into the output file name for each mode. */
  function OutputSuffix(kind: GenerationType, examplesOnly: bool): (s: string)
    ensures s != [] && '/' !in s
  {
    match kind
    case Taxonomy => "taxonomy_generated"
    case SeedExamples => if examplesOnly then "generated_only" else "seed_generated"
  }

  /** `<stem>_<suffix>.json`, where the stem is the input's file name without its suffix. */
  function OutputFileName(inputFile: string, suffix: string): (name: string)
    ensures '/' !in suffix ==> '/' !in name
    ensures Paths.StartsWith(name, Paths.PathStem(inputFile) + "_")
    ensures Paths.EndsWith(name, "_" + suffix + ".json")
    ensures |name| == |Paths.PathStem(inputFile)| + |suffix| + 6
  {
    var stem := Paths.PathStem(inputFile);
    NameEnds(stem, suffix);
    if '/' in suffix then stem + "_" + suffix + ".json"
    else
      FileNameHasNoSlash(stem, suffix);
      stem + "_" + suffix + ".json"
  }

  /**
   * The output file, directly inside the output directory: the directory,
   * at most one '/', then the file name.
   */
  function OutputPath(inputFile: string, outputDir: string, kind: GenerationType, examplesOnly: bool): (path: string)
    ensures Paths.StartsWith(path, outputDir)
    ensures Paths.Basename(path) == OutputFileName(inputFile, OutputSuffix(kind, examplesOnly))
    ensures |path| == |outputDir| + |OutputFileName(inputFile, OutputSuffix(kind, examplesOnly))| + (if outputDir != [] && outputDir[|outputDir| - 1] != '/' then 1 else 0)
  {
    var name := OutputFileName(inputFile, OutputSuffix(kind, examplesOnly));
    assert name[0] != '/' by { assert name[0] in name; }
    Paths.JoinBasename(outputDir, name);
    Paths.Join(outputDir, name)
  }

  /** What process_generate_request does to the outside world. */
  datatype Effect =
    | MakeDirs(dir: string)
    | CreateClient(provider: Option<string>, apiBase: Option<string>, model: Option<string>)
    | RunGenerator(call: GeneratorCall, inputFile: string, numExamples: int)
    | WriteJson(path: string, document: Json)

  /** The effects performed and the returned path or raised error. */
  datatype Outcome = Outcome(effects: seq<Effect>, result: Result<string, GenerateError>)

  /** The effects of an accepted request up to and including the generator run. */
  function SetupEffects(req: Request, kind: GenerationType, n: int): seq<Effect> {
    [MakeDirs(req.outputDir), CreateClient(req.provider, req.apiBase, req.model),
     RunGenerator(GeneratorCallFor(kind, req.examplesOnly), req.inputFile, n)]
  }

  /**
   * process_generate_request. `configNumPairs` is num_pairs in the client's
   * generation config (None when absent); `generator` stands for the
   * SyntheticDataGenerator call.
   */
  function ProcessGenerateRequest(req: Request, inputExists: bool, configNumPairs: Option<int>,
                                  generator: (GeneratorCall, string, int) -> Result<Json, string>): (o: Outcome)
    ensures Validate(req.inputFile, req.generationType, inputExists).Failure? ==>
      o == Outcome([], Failure(Validate(req.inputFile, req.generationType, inputExists).error))
    ensures o.result.Failure? ==> o.effects == [] || |o.effects| == 3
  {
    match Validate(req.inputFile, req.generationType, inputExists)
    case Failure(e) => Outcome([], Failure(e))
    case Success(kind) => RunAccepted(req, kind, EffectiveNumExamples(req.numExamples, configNumPairs), generator)
  }

  /** What process_generate_request does once the guards pass, with `n` examples asked for. */
  function RunAccepted(req: Request, kind: GenerationType, n: int,
                       generator: (GeneratorCall, string, int) -> Result<Json, string>): Outcome
  {
    match generator(GeneratorCallFor(kind, req.examplesOnly), req.inputFile, n)
    case Failure(message) => Outcome(SetupEffects(req, kind, n), Failure(GeneratorFailed(message)))
    case Success(document) =>
      var path := OutputPath(req.inputFile, req.outputDir, kind, req.examplesOnly);
      Outcome(SetupEffects(req, kind, n) + [WriteJson(path, document)], Success(path))
  }

  /**
   * An accepted request creates the output directory and the client before
   * it runs the generator. The generator's answer decides the rest: the
   * request succeeds exactly when the generator does, and then writes the
   * generated document to the returned path, last; otherwise it fails with
   * the generator's message.
   */
  lemma AcceptedRequestEffects(req: Request, inputExists: bool, configNumPairs: Option<int>,
                               generator: (GeneratorCall, string, int) -> Result<Json, string>)
    requires Validate(req.inputFile, req.generationType, inputExists).Success?
    ensures var o := ProcessGenerateRequest(req, inputExists, configNumPairs, generator);
      var kind := Validate(req.inputFile, req.generationType, inputExists).value;
      var n := EffectiveNumExamples(req.numExamples, configNumPairs);
      var g := generator(GeneratorCallFor(kind, req.examplesOnly), req.inputFile, n);
      && |o.effects| >= 3
      && o.effects[..3] == SetupEffects(req, kind, n)
      && (o.result.Success? <==> g.Success?)
      && (o.result.Success? <==> |o.effects| == 4)
      && (g.Success? ==>
            && o.result.value == OutputPath(req.inputFile, req.outputDir, kind, req.examplesOnly)
            && o.effects[3] == WriteJson(o.result.value, g.value))
      && (g.Failure? ==> o.result == Failure(GeneratorFailed(g.error)))
  {
    var kind := Validate(req.inputFile, req.generationType, inputExists).value;
    var n := EffectiveNumExamples(req.numExamples, configNumPairs);
    assert ProcessGenerateRequest(req, inputExists, configNumPairs, generator) == RunAccepted(req, kind, n, generator);
    RunAcceptedEffects(req, kind, n, generator);
  }

  lemma RunAcceptedEffects(req: Request, kind: GenerationType, n: int,
                           generator: (GeneratorCall, string, int) -> Result<Json, string>)
    ensures var o := RunAccepted(req, kind, n, generator);
      var g := generator(GeneratorCallFor(kind, req.examplesOnly), req.inputFile, n);
      && |o.effects| >= 3
      && o.effects[..3] == SetupEffects(req, kind, n)
      && (o.result.Success? <==> g.Success?)
      && (o.result.Success? <==> |o.effects| == 4)
      && (g.Success? ==>
            && o.result.value == OutputPath(req.inputFile, req.outputDir, kind, req.examplesOnly)
            && o.effects[3] == WriteJson(o.result.value, g.value))
      && (g.Failure? ==> o.result == Failure(GeneratorFailed(g.error)))
  {
    var setup := SetupEffects(req, kind, n);
    match generator(GeneratorCallFor(kind, req.examplesOnly), req.inputFile, n)
    case Failure(message) =>
      assert RunAccepted(req, kind, n, generator) == Outcome(setup, Failure(GeneratorFailed(message)));
    case Success(document) =>
      var path := OutputPath(req.inputFile, req.outputDir, kind, req.examplesOnly);
      var effects := setup + [WriteJson(path, document)];
      assert RunAccepted(req, kind, n, generator) == Outcome(effects, Success(path));
      assert effects[..3] == setup && |effects| == 4 && effects[3] == WriteJson(path, document);
  }

  /** The suffix check ignores case: ".MD", ".Txt" and ".JSON" pass as well. */
  lemma ExtensionIgnoresCase(kind: GenerationType, ext: string)
    ensures SuffixAccepted(kind, ext) <==>
        match kind
        case Taxonomy => Paths.EqualsIgnoringCase(ext, ".md") || Paths.EqualsIgnoringCase(ext, ".txt")
        case SeedExamples => Paths.EqualsIgnoringCase(ext, ".json")
  {
    assert Paths.Lower(".md") == ".md";
    assert Paths.Lower(".txt") == ".txt";
    assert Paths.Lower(".json") == ".json";
    Paths.LowerEqualIff(ext, ".md");
    Paths.LowerEqualIff(ext, ".txt");
    Paths.LowerEqualIff(ext, ".json");
  }

  /** Taxonomy mode ignores examples_only; the three modes write to three different names. */
  lemma SuffixPerMode()
    ensures OutputSuffix(Taxonomy, true) == OutputSuffix(Taxonomy, false) == "taxonomy_generated"
    ensures GeneratorCallFor(Taxonomy, true) == GeneratorCallFor(Taxonomy, false) == ProcessTaxonomyFile
    ensures OutputSuffix(SeedExamples, true) == "generated_only"
    ensures OutputSuffix(SeedExamples, false) == "seed_generated"
    ensures |{OutputSuffix(Taxonomy, false), OutputSuffix(SeedExamples, true), OutputSuffix(SeedExamples, false)}| == 3
  {
  }

  /** An output file name is one path component. */
  lemma FileNameHasNoSlash(stem: string, suffix: string)
    requires '/' !in stem && '/' !in suffix
    ensures '/' !in stem + "_" + suffix + ".json"
  {
    Paths.NotInConcat(stem, "_", '/');
    Paths.NotInConcat(stem + "_", suffix, '/');
    Paths.NotInConcat(stem + "_" + suffix, ".json", '/');
  }

  /**
   * The output lies in the output directory, is named after the input's stem,
   * and always ends in ".json", whatever the input's own suffix.
   */
  lemma OutputPathShape(inputFile: string, outputDir: string, kind: GenerationType, examplesOnly: bool)
    ensures var name := OutputFileName(inputFile, OutputSuffix(kind, examplesOnly));
      var path := OutputPath(inputFile, outputDir, kind, examplesOnly);
      && Paths.StartsWith(path, outputDir)
      && Paths.Basename(path) == name
      && Paths.StartsWith(name, Paths.PathStem(inputFile) + "_")
      && Paths.EndsWith(path, "_" + OutputSuffix(kind, examplesOnly) + ".json")
      && |name| == |Paths.PathStem(inputFile)| + |OutputSuffix(kind, examplesOnly)| + 6
      && |path| == |outputDir| + |name| + (if outputDir != [] && outputDir[|outputDir| - 1] != '/' then 1 else 0)
  {
    var stem := Paths.PathStem(inputFile);
    var suffix := OutputSuffix(kind, examplesOnly);
    var name := OutputFileName(inputFile, suffix);
    Paths.EndsWithTrans(Paths.Join(outputDir, name), name, "_" + suffix + ".json");
  }

  lemma NameEnds(stem: string, suffix: string)
    ensures Paths.StartsWith(stem + "_" + suffix + ".json", stem + "_")
    ensures Paths.EndsWith(stem + "_" + suffix + ".json", "_" + suffix + ".json")
  {
    assert stem + "_" + suffix + ".json" == (stem + "_") + (suffix + ".json");
    Paths.ConcatEnds(stem + "_", suffix + ".json");
    assert stem + "_" + suffix + ".json" == stem + ("_" + suffix + ".json");
    Paths.ConcatEnds(stem, "_" + suffix + ".json");
  }

  /** For one input, --examples-only and the full seed mode write to different files. */
  lemma SeedModesDoNotCollide(inputFile: string, outputDir: string)
    ensures OutputPath(inputFile, outputDir, SeedExamples, true) != OutputPath(inputFile, outputDir, SeedExamples, false)
  {
    var stem := Paths.PathStem(inputFile);
    assert OutputFileName(inputFile, OutputSuffix(SeedExamples, true)) == stem + "_" + "generated_only" + ".json";
    assert OutputFileName(inputFile, OutputSuffix(SeedExamples, false)) == stem + "_" + "seed_generated" + ".json";
    SeedNamesDiffer(stem);
  }

  /** The two seed-mode file names for one stem differ right after the stem's "_". */
  lemma SeedNamesDiffer(stem: string)
    ensures stem + "_" + "generated_only" + ".json" != stem + "_" + "seed_generated" + ".json"
  {
    var i := |stem| + 1;
    assert (stem + "_" + "generated_only" + ".json")[i] == 'g';
    assert (stem + "_" + "seed_generated" + ".json")[i] == 's';
  }
}
