/**
 * SyntheticDataGenerator (synthetic_data_kit/generators/synthetic_data_generator.py):
 * which part of a seed file holds the seed examples, when an LLM reply is
 * accepted, and the result documents the generator hands back for saving.
 *
 * The class's fields are set once in its constructor and never change, so
 * the model is a set of functions. Reading a file, the LLM call and
 * json.loads are parameters: a file's content is an Option (None when the
 * read fails), the LLM is a function from the request it is sent to the text
 * it answers, and parsing is a function from text to an Option<Json> (None
 * when json.loads raises).
 */
module SyntheticDataGenerator {
  import opened Wrappers
  import opened JsonValue

  /** The ValueErrors the generator raises, with the text each carries. */
  datatype GeneratorError =
    | ReadTaxonomyFailed      // "Error reading taxonomy file: ..."
    | ReadSeedFileFailed      // "Error reading seed examples file: ..."
    | MissingExamplesKey      // "Could not find examples in seed file. Expected 'examples', 'data', or 'conversations' key."
    | NotListOrDict           // "Seed file must contain a list or dictionary with examples"
    | NoValidSeedExamples     // "No valid seed examples found in file"
    | ResponseNotAList        // "Response is not a list"
    | ParseFailed             // "Failed to parse JSON response: ..."

  /** What the generator asks the LLM for: the prompt template used and the values formatted into it. */
  datatype LlmRequest =
    | TaxonomyGeneration(numExamples: int, taxonomy: string)
    | SeedExamplesGeneration(numExamples: int, seedExamples: seq<Json>)

  /** The keys of a seed-file object that may hold the examples, highest priority first. */
  const SeedKeys: seq<string> := ["examples", "data", "conversations"]

  /** The first of `keys` that `m` holds, if any. */
  function FirstPresent(keys: seq<string>, m: map<string, Json>): (k: Option<string>)
    ensures k.Some? ==> k.value in m && exists i :: 0 <= i < |keys| && keys[i] == k.value && forall j :: 0 <= j < i ==> keys[j] !in m
    ensures k.None? ==> forall j :: 0 <= j < |keys| ==> keys[j] !in m
  {
    if keys == [] then None
    else if keys[0] in m then Some(keys[0])
    else
      var rest := FirstPresent(keys[1..], m);
      if rest.Some? then
        var i :| 0 <= i < |keys[1..]| && keys[1..][i] == rest.value && forall j :: 0 <= j < i ==> keys[1..][j] !in m;
        assert keys[i + 1] == rest.value;
        rest
      else
        rest
  }

  /** The value the seed file offers as its list of examples, before it is checked to be one. */
  function SeedCandidate(seedData: Json): (r: Result<Json, GeneratorError>)
    ensures seedData.Arr? ==> r == Success(seedData)
    ensures !seedData.Arr? && !seedData.Obj? ==> r == Failure(NotListOrDict)
    ensures r.Failure? ==> r.error == (if seedData.Obj? then MissingExamplesKey else NotListOrDict)
  {
    match seedData
    case Arr(_) => Success(seedData)
    case Obj(m) =>
      if "examples" in m then Success(m["examples"])
      else if "data" in m then Success(m["data"])
      else if "conversations" in m then Success(m["conversations"])
      else Failure(MissingExamplesKey)
    case _ => Failure(NotListOrDict)
  }

  /** The seed examples of a loaded seed file: its candidate, if that is a non-empty list. */
  function SelectSeedExamples(seedData: Json): (r: Result<seq<Json>, GeneratorError>)
    ensures r.Success? <==> SeedCandidate(seedData).Success? && SeedCandidate(seedData).value.Arr? && SeedCandidate(seedData).value.items != []
    ensures r.Success? ==> SeedCandidate(seedData) == Success(Arr(r.value)) && |r.value| > 0
    ensures SeedCandidate(seedData).Failure? ==> r == Failure(SeedCandidate(seedData).error)
    ensures r.Failure? && SeedCandidate(seedData).Success? ==> r.error == NoValidSeedExamples
  {
    var candidate :- SeedCandidate(seedData);
    if !candidate.Arr? || |candidate.items| == 0 then Failure(NoValidSeedExamples)
    else Success(candidate.items)
  }

  /** json.loads on the reply, then the list check. */
  function AcceptReply(parsed: Option<Json>): (r: Result<seq<Json>, GeneratorError>)
    ensures r.Success? <==> parsed.Some? && parsed.value.Arr?
    ensures r.Success? ==> Arr(r.value) == parsed.value
    ensures r.Failure? ==> (r.error == ParseFailed <==> parsed.None?)
    ensures r.Failure? ==> r.error in {ParseFailed, ResponseNotAList}
  {
    match parsed
    case None => Failure(ParseFailed)
    case Some(Arr(items)) => Success(items)
    case Some(_) => Failure(ResponseNotAList)
  }

  /** generate_from_taxonomy: the LLM is sent the taxonomy and the count, and its reply must be a JSON list. */
  function GenerateFromTaxonomy(taxonomyContent: string, numExamples: int,
                                llm: LlmRequest -> string, parse: string -> Option<Json>): (r: Result<seq<Json>, GeneratorError>)
    ensures var reply := parse(llm(TaxonomyGeneration(numExamples, taxonomyContent)));
      && (r.Success? <==> reply.Some? && reply.value.Arr?)
      && (r.Success? ==> reply == Some(Arr(r.value)))
      && (r.Failure? ==> (r.error == ParseFailed <==> reply.None?) && r.error in {ParseFailed, ResponseNotAList})
  {
    AcceptReply(parse(llm(TaxonomyGeneration(numExamples, taxonomyContent))))
  }

  /** generate_from_seed_examples: the LLM is sent the seeds and the count, and its reply must be a JSON list. */
  function GenerateFromSeedExamples(seedExamples: seq<Json>, numExamples: int,
                                    llm: LlmRequest -> string, parse: string -> Option<Json>): (r: Result<seq<Json>, GeneratorError>)
    ensures var reply := parse(llm(SeedExamplesGeneration(numExamples, seedExamples)));
      && (r.Success? <==> reply.Some? && reply.value.Arr?)
      && (r.Success? ==> reply == Some(Arr(r.value)))
      && (r.Failure? ==> (r.error == ParseFailed <==> reply.None?) && r.error in {ParseFailed, ResponseNotAList})
  {
    AcceptReply(parse(llm(SeedExamplesGeneration(numExamples, seedExamples))))
  }

  /** The document process_taxonomy_file returns for the generated examples. */
  function TaxonomyResult(taxonomyFile: string, generationConfig: Json, examples: seq<Json>): Json {
    Obj(map[
      "metadata" := Obj(map[
        "source_type" := Str("taxonomy"),
        "source_file" := Str(taxonomyFile),
        "num_examples" := Num(|examples|),
        "generation_config" := generationConfig]),
      "examples" := Arr(examples)])
  }

  /** The document process_seed_examples_file returns. */
  function SeedResult(seedFile: string, generationConfig: Json, seedExamples: seq<Json>, examples: seq<Json>): Json {
    Obj(map[
      "metadata" := Obj(map[
        "source_type" := Str("seed_examples"),
        "source_file" := Str(seedFile),
        "num_seed_examples" := Num(|seedExamples|),
        "num_generated_examples" := Num(|examples|),
        "generation_config" := generationConfig]),
      "seed_examples" := Arr(seedExamples),
      "examples" := Arr(examples)])
  }

  /** process_taxonomy_file, given the file's content (None when reading it fails). */
  function ProcessTaxonomyFile(taxonomyFile: string, content: Option<string>, numExamples: int, generationConfig: Json,
                               llm: LlmRequest -> string, parse: string -> Option<Json>): (r: Result<Json, GeneratorError>)
    ensures content.None? ==> r == Failure(ReadTaxonomyFailed)
    ensures r.Success? ==> TaxonomyCountsConsistent(r.value)
  {
    if content.None? then Failure(ReadTaxonomyFailed)
    else
      var examples :- GenerateFromTaxonomy(content.value, numExamples, llm, parse);
      Success(TaxonomyResult(taxonomyFile, generationConfig, examples))
  }

  /** process_seed_examples_file, given the loaded document (None when reading or json.load fails). */
  function ProcessSeedExamplesFile(seedFile: string, loaded: Option<Json>, numExamples: int, generationConfig: Json,
                                   llm: LlmRequest -> string, parse: string -> Option<Json>): (r: Result<Json, GeneratorError>)
    ensures loaded.None? ==> r == Failure(ReadSeedFileFailed)
    ensures r.Success? ==> SeedCountsConsistent(r.value)
  {
    if loaded.None? then Failure(ReadSeedFileFailed)
    else
      var seedExamples :- SelectSeedExamples(loaded.value);
      var examples :- GenerateFromSeedExamples(seedExamples, numExamples, llm, parse);
      Success(SeedResult(seedFile, generationConfig, seedExamples, examples))
  }

  /** A taxonomy result whose `num_examples` is the length of its `examples` list. */
  predicate TaxonomyCountsConsistent(doc: Json) {
    match (Field(doc, "examples"), Field2(doc, "metadata", "num_examples"))
    case (Some(Arr(examples)), Some(Num(n))) => n == |examples|
    case _ => false
  }

  /** A seed result whose two counts are the lengths of the two lists it carries. */
  predicate SeedCountsConsistent(doc: Json) {
    match (Field(doc, "seed_examples"), Field(doc, "examples"),
           Field2(doc, "metadata", "num_seed_examples"), Field2(doc, "metadata", "num_generated_examples"))
    case (Some(Arr(seeds)), Some(Arr(examples)), Some(Num(ns)), Some(Num(ne))) => ns == |seeds| && ne == |examples|
    case _ => false
  }

  /** A top-level list is taken as it is, and rejected only when it is empty. */
  lemma TopLevelListUsedUnchanged(items: seq<Json>)
    ensures items != [] ==> SelectSeedExamples(Arr(items)) == Success(items)
    ensures items == [] ==> SelectSeedExamples(Arr(items)) == Failure(NoValidSeedExamples)
  {
  }

  /** In an object, the first of "examples", "data", "conversations" that is present decides. */
  lemma SeedCandidateByPriority(m: map<string, Json>)
    ensures SeedCandidate(Obj(m)) ==
      match FirstPresent(SeedKeys, m)
      case Some(k) => Success(m[k])
      case None => Failure(MissingExamplesKey)
  {
    var rest1: seq<string> := ["data", "conversations"];
    var rest2: seq<string> := ["conversations"];
    assert SeedKeys[0] == "examples" && SeedKeys[1..] == rest1;
    assert rest1[0] == "data" && rest1[1..] == rest2;
    assert rest2[0] == "conversations" && rest2[1..] == [];
    if "examples" !in m {
      assert FirstPresent(SeedKeys, m) == FirstPresent(rest1, m);
      if "data" !in m {
        assert FirstPresent(rest1, m) == FirstPresent(rest2, m);
      }
    }
  }

  /** Keys other than the three recognised ones never change the selection. */
  lemma OtherKeysIgnored(m: map<string, Json>, key: string, v: Json)
    requires key !in SeedKeys
    ensures SelectSeedExamples(Obj(m[key := v])) == SelectSeedExamples(Obj(m))
  {
    assert key != "examples" && key != "data" && key != "conversations";
  }

  /** A recognised key holding no usable list is rejected; a lower-priority key is not tried instead. */
  lemma BadHigherKeyNoFallback(m: map<string, Json>)
    requires "examples" in m && !(m["examples"].Arr? && m["examples"].items != [])
    ensures SelectSeedExamples(Obj(m)) == Failure(NoValidSeedExamples)
  {
  }

  /** A document that is neither a list nor an object is rejected. */
  lemma ScalarSeedFileRejected(seedData: Json)
    requires !seedData.Arr? && !seedData.Obj?
    ensures SelectSeedExamples(seedData) == Failure(NotListOrDict)
  {
  }

  /** When no seed examples are selected the LLM is not consulted: the outcome is that error, whatever the LLM would answer. */
  lemma RejectedSeedsSkipGeneration(seedFile: string, seedData: Json, numExamples: int, generationConfig: Json,
                                    llm: LlmRequest -> string, parse: string -> Option<Json>)
    requires SelectSeedExamples(seedData).Failure?
    ensures ProcessSeedExamplesFile(seedFile, Some(seedData), numExamples, generationConfig, llm, parse)
         == Failure(SelectSeedExamples(seedData).error)
  {
  }

  /** A successful taxonomy run records its source, counts what it carries and carries exactly the generated list. */
  lemma TaxonomyResultFaithful(taxonomyFile: string, content: string, numExamples: int, generationConfig: Json,
                               llm: LlmRequest -> string, parse: string -> Option<Json>)
    ensures var r := ProcessTaxonomyFile(taxonomyFile, Some(content), numExamples, generationConfig, llm, parse);
      var g := GenerateFromTaxonomy(content, numExamples, llm, parse);
      && (r.Success? <==> g.Success?)
      && (r.Failure? ==> r.error == g.error)
      && (r.Success? ==>
            && TaxonomyCountsConsistent(r.value)
            && Field(r.value, "examples") == Some(Arr(g.value))
            && Field2(r.value, "metadata", "source_type") == Some(Str("taxonomy"))
            && Field2(r.value, "metadata", "source_file") == Some(Str(taxonomyFile)))
  {
  }

  /**
   * Once seeds are selected, the seed run succeeds exactly when generation
   * does and passes a generation error on; a successful run records its
   * source, counts both lists it carries, and carries exactly the selected
   * seeds and the generated list.
   */
  lemma SeedResultFaithful(seedFile: string, seedData: Json, numExamples: int, generationConfig: Json,
                           llm: LlmRequest -> string, parse: string -> Option<Json>)
    requires SelectSeedExamples(seedData).Success?
    ensures var r := ProcessSeedExamplesFile(seedFile, Some(seedData), numExamples, generationConfig, llm, parse);
      var seeds := SelectSeedExamples(seedData).value;
      var g := GenerateFromSeedExamples(seeds, numExamples, llm, parse);
      && (r.Success? <==> g.Success?)
      && (r.Failure? ==> r.error == g.error)
      && (r.Success? ==>
            && SeedCountsConsistent(r.value)
            && Field(r.value, "seed_examples") == Some(Arr(seeds))
            && Field(r.value, "examples") == Some(Arr(g.value))
            && Field2(r.value, "metadata", "source_type") == Some(Str("seed_examples"))
            && Field2(r.value, "metadata", "source_file") == Some(Str(seedFile)))
  {
  }

  /** A successful seed run needs a selection that succeeded: there is no run without seeds. */
  lemma SeedRunNeedsSeeds(seedFile: string, loaded: Option<Json>, numExamples: int, generationConfig: Json,
                          llm: LlmRequest -> string, parse: string -> Option<Json>)
    requires ProcessSeedExamplesFile(seedFile, loaded, numExamples, generationConfig, llm, parse).Success?
    ensures loaded.Some? && SelectSeedExamples(loaded.value).Success?
  {
  }
}
