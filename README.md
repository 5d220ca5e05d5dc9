# synthetic-data-kit: seed selection, request validation and output naming

A Dafny model of the deterministic rules of synthetic-data-kit that sit between its
I/O calls: the synthetic-data generator's choice of which part of a seed file holds
the seed examples, its acceptance of an LLM reply and the result documents it builds;
`process_generate_request`'s guard checks, example-count default and output file name;
and the command-line rules for `generate`, `system-check`, `save-as`, `curate` and
`curate-seed` (which input, which endpoint and model, which default output path).

Modules, one per source file plus two helpers:

- `Wrappers` (wrappers.dfy): `Option` and `Result`.
- `JsonValue` (json.dfy): the JSON values seed files, replies and results hold.
- `Paths` (paths.dfy): the POSIX path rules the commands rely on — `os.path.basename`,
  `os.path.splitext`, `os.path.join`, and `PurePath.name`, `.suffix`, `.stem`
  (Python 3.12 rules), with `str.lower` on ASCII letters.
- `SyntheticDataGenerator` (synthetic_data_generator.dfy): `generators/synthetic_data_generator.py`.
- `Generate` (generate.dfy): `core/generate.py`.
- `Cli` (cli.dfy): `cli.py`.

Everything is a function: the generator's fields are set once in its constructor, and
the parts of the CLI and of `process_generate_request` modelled here are guards,
fallbacks and string building. External calls are parameters: the LLM is a function
from the request it is sent (which prompt, which values) to its reply text; `json.loads`
is a function from text to `Option<Json>` (None when it raises); a file's content is an
`Option` (None when reading fails); whether the input file exists, whether the vLLM
server answered its health check, the config lookups and the `API_ENDPOINT_KEY`
environment variable are inputs. `process_generate_request` returns the list of effects
it performs (create the output directory, create the client, run the generator, write
the JSON file) together with its result, so that "a rejected request does nothing" can
be stated.

Python truthiness is modelled where the source relies on it: `a or b` and `if not a`
treat both None and `""` as missing (`Cli.Truthy`, `Cli.Or`), while `is None` tests
(`num_examples`, `--output-dir`) and `dict.get(key, default)` fall back only when the
value is absent. `if not output` on a `Path` option is an `is None` test, since a
`Path` object is always true.

The test scripts import `parse_synthetic_examples` and `clean_unicode_characters` from
the generator module (test_fixes.py:13, test_unicode_fix.py:13), but
generators/synthetic_data_generator.py defines neither name: both LLM-reply paths parse
with a single `json.loads` and accept only a list. The model follows that code.

## Model

| member | source | states |
|---|---|---|
| `Paths.RFind` | synthetic_data_kit/core/generate.py:56-57 | the index returned holds the character and no later index does; -1 exactly when the character does not occur (str.rfind, on which the suffix and stem rules rest) |
| `Paths.TrimTrailingSlashes` | synthetic_data_kit/core/generate.py:56 | the result is a prefix of the path that does not end in '/', and everything cut off is '/' |
| `Paths.PathName` | synthetic_data_kit/core/generate.py:56 | Path.name is the last component of the path once its trailing '/' are dropped: a '/'-free part that is the whole trimmed path or follows a '/' (which `Paths.BasenameUnique` shows determines it); it is empty exactly when the path is made of '/' characters only |
| `Paths.PathSuffix` | synthetic_data_kit/core/generate.py:57 | Path.suffix is empty or starts with '.'; `Paths.SuffixShape` states when it is non-empty and where it starts |
| `Paths.PathStem` | synthetic_data_kit/core/generate.py:98 | Path.stem holds no '/'; `Paths.StemSuffixName` states that stem and suffix give back the name |
| `Paths.Basename` | synthetic_data_kit/cli.py:335 | the basename is a suffix of the path, holds no '/', and is the whole path or follows a '/' |
| `Paths.BasenameUnique` | synthetic_data_kit/cli.py:335 | any suffix with those three properties is the basename, so they characterise it |
| `Paths.SplitExt` | synthetic_data_kit/cli.py:335 | root + extension gives back the path; the extension is non-empty exactly when the last '.' lies after the last '/' with a non-dot between them, and is then the part from that '.'; it holds no further '.' and no '/' |
| `Paths.Join` | synthetic_data_kit/cli.py:336 | an absolute name replaces the directory; a relative one follows the directory, with exactly one '/' inserted when the directory is non-empty and does not already end in '/', and none otherwise |
| `Paths.JoinBasename` | synthetic_data_kit/core/generate.py:100 | a non-empty name without '/' joined under any directory is the basename of the result |
| `Paths.SuffixShape` | synthetic_data_kit/core/generate.py:57 | Path.suffix is non-empty exactly when the name does not end in '.' and holds a '.' after its first character, and is then the part from the name's last '.'; it is empty or a '.' followed by at least one character, no further '.' and no '/' |
| `Paths.StemSuffixName` | synthetic_data_kit/core/generate.py:98 | Path.stem followed by Path.suffix gives back Path.name, and the stem holds no '/' |
| `Paths.SuffixExamples` | synthetic_data_kit/core/generate.py:57-60 | "docs/notes.MD" has suffix ".MD": the suffix keeps its case, as the extension error reports it |
| `Paths.LastDotExample` | synthetic_data_kit/core/generate.py:57-98 | only the last dot starts the suffix: "x/b.tar.gz" has stem "b.tar" and suffix ".gz" |
| `Paths.NoSuffixExamples` | synthetic_data_kit/core/generate.py:57-60 | a name starting with its only '.' ("x/.bashrc") or ending in '.' ("a.") has no suffix |
| `Paths.TrailingSlashExample` | synthetic_data_kit/core/generate.py:98 | a trailing '/' is not part of the name: "data.json/" has stem "data" |
| `Paths.SplitExtExamples` | synthetic_data_kit/cli.py:335 | "x/d.json" splits into "x/d" and ".json"; a '.' in a directory ("x.d/json") or only leading dots ("..md") give no extension |
| `Paths.Lower` | synthetic_data_kit/core/generate.py:57-59 | lower-cases each ASCII letter in place and keeps the length (ASCII only, see Left out) |
| `Paths.LowerEqualIff` | synthetic_data_kit/core/generate.py:57-59 | two strings are equal after lower-casing exactly when they agree letter by letter ignoring ASCII case |
| `SyntheticDataGenerator.FirstPresent` | synthetic_data_kit/generators/synthetic_data_generator.py:145-152 | the key found is present, lies in the priority list, and no key before it is present; none found exactly when no listed key is present |
| `SyntheticDataGenerator.SeedCandidate` | synthetic_data_kit/generators/synthetic_data_generator.py:140-154 | a top-level list is the candidate itself; an object without a recognised key gives the missing-key error and any other document the list-or-dictionary error; `SeedCandidateByPriority` states which key an object's candidate comes from |
| `SyntheticDataGenerator.SelectSeedExamples` | synthetic_data_kit/generators/synthetic_data_generator.py:140-157 | accepted exactly when the candidate is a non-empty list, and then that list unchanged; a candidate error is passed on; a bad candidate gives "No valid seed examples" |
| `SyntheticDataGenerator.TopLevelListUsedUnchanged` | synthetic_data_kit/generators/synthetic_data_generator.py:141-142 | a top-level list is the seed list as it is, and is rejected only when empty |
| `SyntheticDataGenerator.SeedCandidateByPriority` | synthetic_data_kit/generators/synthetic_data_generator.py:143-152 | for an object, the candidate is the value of the first of "examples", "data", "conversations" present; none present gives the missing-key error |
| `SyntheticDataGenerator.OtherKeysIgnored` | synthetic_data_kit/generators/synthetic_data_generator.py:143-152 | adding or changing any other key never changes the selection |
| `SyntheticDataGenerator.BadHigherKeyNoFallback` | synthetic_data_kit/generators/synthetic_data_generator.py:145-157 | an "examples" entry that is not a non-empty list is rejected even if "data" holds a good list |
| `SyntheticDataGenerator.ScalarSeedFileRejected` | synthetic_data_kit/generators/synthetic_data_generator.py:153-154 | a seed document that is neither list nor object is rejected with the list-or-dictionary error |
| `SyntheticDataGenerator.RejectedSeedsSkipGeneration` | synthetic_data_kit/generators/synthetic_data_generator.py:156-160 | when selection fails, processing fails with that error whatever the LLM would answer |
| `SyntheticDataGenerator.AcceptReply` | synthetic_data_kit/generators/synthetic_data_generator.py:51-64 | a reply is accepted exactly when it parses to a list, which is returned unchanged; unparseable gives the parse error, a parsed non-list "Response is not a list" (the seed path, lines 91-104, is the same code) |
| `SyntheticDataGenerator.GenerateFromTaxonomy` | synthetic_data_kit/generators/synthetic_data_generator.py:29-64 | the LLM is sent the taxonomy content and the count; generation succeeds exactly when the reply parses to a list, and returns that list; an unparseable reply fails with the parse error and a parsed non-list with "Response is not a list" |
| `SyntheticDataGenerator.GenerateFromSeedExamples` | synthetic_data_kit/generators/synthetic_data_generator.py:66-104 | the LLM is sent the seed examples and the count; generation succeeds exactly when the reply parses to a list, and returns that list; an unparseable reply fails with the parse error and a parsed non-list with "Response is not a list" |
| `SyntheticDataGenerator.ProcessTaxonomyFile` | synthetic_data_kit/generators/synthetic_data_generator.py:106-129 | an unreadable taxonomy file gives the read error; a result's num_examples is the length of its examples list (`TaxonomyResultFaithful` states the rest) |
| `SyntheticDataGenerator.ProcessSeedExamplesFile` | synthetic_data_kit/generators/synthetic_data_generator.py:131-175 | an unreadable or unparseable seed file gives the read error; a result's two counts are the lengths of its two lists (`SeedResultFaithful` states the rest) |
| `SyntheticDataGenerator.TaxonomyResultFaithful` | synthetic_data_kit/generators/synthetic_data_generator.py:106-129 | the taxonomy run succeeds exactly when generation does; its result has source_type "taxonomy", the source file, num_examples equal to the length of examples, and examples exactly the generated list |
| `SyntheticDataGenerator.SeedResultFaithful` | synthetic_data_kit/generators/synthetic_data_generator.py:131-175 | once seeds are selected, the seed run succeeds exactly when generation does and otherwise fails with the generation error; a successful result carries the source file, source_type "seed_examples", exactly the selected seeds and the generated list, and num_seed_examples and num_generated_examples their lengths |
| `SyntheticDataGenerator.SeedRunNeedsSeeds` | synthetic_data_kit/generators/synthetic_data_generator.py:133-157 | a seed run succeeds only when the file was read and its seed examples were selected |
| `Generate.ParseGenerationType` | synthetic_data_kit/core/generate.py:52-53 | exactly "taxonomy" and "seed-examples" are generation types |
| `Generate.Validate` | synthetic_data_kit/core/generate.py:47-60 | a missing input is rejected first; then an unknown type; a request passes exactly when the file exists, the type is known and its lower-cased suffix is allowed; otherwise the type's own extension error, carrying the suffix as written (not lower-cased) |
| `Generate.ExtensionIgnoresCase` | synthetic_data_kit/core/generate.py:56-60 | taxonomy accepts a suffix equal to ".md" or ".txt" ignoring case, seed-examples one equal to ".json" ignoring case |
| `Generate.EffectiveNumExamples` | synthetic_data_kit/core/generate.py:74-77 | a given num_examples is kept whatever its value; only when absent is it the configured num_pairs, else 25 |
| `Generate.OutputSuffix` | synthetic_data_kit/core/generate.py:85-95 | each mode's word for the output name is non-empty and holds no '/'; `Generate.SuffixPerMode` states the three words |
| `Generate.OutputFileName` | synthetic_data_kit/core/generate.py:97-99 | the file name is the input's stem, "_", the suffix and ".json" and nothing else: it starts with stem + "_", ends in "_" + suffix + ".json", has exactly their combined length, and holds no '/' when the suffix holds none |
| `Generate.OutputPath` | synthetic_data_kit/core/generate.py:97-100 | the output path is the output directory, one '/' only when the directory does not already end in one, then the file name: it starts with the directory, its basename is the file name, and its length is exactly theirs plus that separator |
| `Generate.ProcessGenerateRequest` | synthetic_data_kit/core/generate.py:47-104 | a rejected request performs no effect and returns the guard's error; a failure never leaves more than the three set-up effects |
| `Generate.AcceptedRequestEffects` | synthetic_data_kit/core/generate.py:62-104 | an accepted request creates the directory, then the client, then runs the mode's generator call with the effective count; it succeeds exactly when the generator does, and then writes the generator's document to the returned output path, last; a generator failure is returned as GeneratorFailed with the generator's message |
| `Generate.SuffixPerMode` | synthetic_data_kit/core/generate.py:83-95 | taxonomy gives "taxonomy_generated" whatever examples_only says; seed mode gives "generated_only" or "seed_generated"; the three differ |
| `Generate.OutputPathShape` | synthetic_data_kit/core/generate.py:98-100 | the output path lies directly in the output directory (directory, at most one '/', file name, by length), its file name is stem + "_" + suffix + ".json" by length, and it ends in "_" + suffix + ".json" |
| `Generate.SeedModesDoNotCollide` | synthetic_data_kit/core/generate.py:87-100 | for one input, the examples-only and full seed outputs are different paths |
| `Cli.SelectGenerationInput` | synthetic_data_kit/cli.py:500-517 | fails with "neither" exactly when no input option is given and with "both" exactly when both are; otherwise returns the type and path of the one given |
| `Cli.ResolveLlmSettings` | synthetic_data_kit/cli.py:523-533 | a given --api-base / --model is used; otherwise the value from the provider's section ("api-endpoint" section or else vLLM); the same rule as lines 227-237 and 305-315 |
| `Cli.OtherSectionIgnored` | synthetic_data_kit/cli.py:227-237 | the section of the provider not chosen never affects the settings |
| `Cli.GenerateCommand` | synthetic_data_kit/cli.py:500-567 | option errors come first; with valid options it returns ServerUnavailable exactly when the vLLM check fails, and otherwise the request: the selected type and input, --output-dir or the configured directory when it is None, the count, examples_only, the provider and the resolved endpoint and model |
| `Cli.GenerateRequestTypeAccepted` | synthetic_data_kit/cli.py:512-517 | every request `generate` makes names a generation type process_generate_request accepts, taxonomy exactly when --taxonomy was given |
| `Cli.SystemCheck` | synthetic_data_kit/cli.py:74-136 | --provider over the configured provider; API_ENDPOINT_KEY over the config's key; --api-base over the chosen section's api_base, which is used when --api-base is absent; vLLM port defaults to 8000 |
| `Cli.SaveAsFormat` | synthetic_data_kit/cli.py:383-385 | a given --format is used; otherwise the config's format.default when present, else "jsonl" |
| `Cli.InputBase` | synthetic_data_kit/cli.py:391 | the base name holds no '/' and is a prefix of the input's basename; `Cli.InputBaseShape` states what is cut off |
| `Cli.InputBaseExamples` | synthetic_data_kit/cli.py:391 | "in/data.json" has base "data" |
| `Cli.DotFileExample` | synthetic_data_kit/cli.py:391 | a leading dot is not an extension: "in/.env" has base ".env" |
| `Cli.SaveAsOutput` | synthetic_data_kit/cli.py:388-401 | with no --output the path ends in the tail for its storage and format; `Cli.SaveAsOutputShape` states the directory and the tails |
| `Cli.CleanedOutput` | synthetic_data_kit/cli.py:332-336 | with no --output the path ends in "_cleaned.json"; `Cli.CleanedOutputShape` states the directory and file name |
| `Cli.InputBaseShape` | synthetic_data_kit/cli.py:391 | the base name is the input's file name without its os.path.splitext extension, and holds no '/'; when the name holds a '.' after some other character, what is cut off is the non-empty part from its last '.' |
| `Cli.SaveAsOutputShape` | synthetic_data_kit/cli.py:388-401 | with no --output the path lies directly in the final directory (directory, at most one '/', then the file name, by length) and names `<base>_<format>_hf` for hf storage, `<base>.jsonl` for jsonl, else `<base>_<format>.json` |
| `Cli.CleanedOutputShape` | synthetic_data_kit/cli.py:332-336 | with no --output the path lies directly in the cleaned directory (directory, at most one '/', then the file name, by length) and names `<base>_cleaned.json` (curate-seed, lines 629-633, is the same code) |
| `Cli.ExplicitOutputKept` | synthetic_data_kit/cli.py:388 | a given --output is never replaced by a default path, for save-as and for curate / curate-seed |

## Left out

- `parse_synthetic_examples` and `clean_unicode_characters`: imported by test_fixes.py:13 and test_unicode_fix.py:13, but not defined in generators/synthetic_data_generator.py, so there is no code to model.
- The test and debug scripts (test_unicode_fix.py, test_fixes.py, test_seed_curation.py, debug_seed_curation.py): they read fixed local files and call a live LLM.
- LLM calls, prompt templates and `str.format`, config loading and the `get_*_config` helpers, `json.loads` / `json.dump`: parameters or inputs, not modelled.
- File and OS effects (`open`, `os.makedirs`, `os.path.exists`): existence and read results are inputs; in `process_generate_request` the effects are recorded, not performed. The `os.makedirs` calls in `curate`, `curate-seed` and `save-as` are not recorded.
- The vLLM health check (`requests.get`) is a boolean input of `Cli.GenerateCommand`; the OpenAI client check of `system-check`, console printing, typer wiring, `ingest`, `create`'s processing and the Flask server are not modelled.
- `Cli.SystemCheck`: models which endpoint, key, model and port are checked, not the outcome of the check.
- Floats: the generation temperature (0.7 default) and the curate threshold are not modelled.
- The generator calls made by seed-examples mode: generate.py:89 calls `get_generated_examples_only` and generate.py:94 passes `include_seed_examples=`, neither of which the modelled `SyntheticDataGenerator` class defines. The generator run is a parameter of `Generate.ProcessGenerateRequest`, so the model neither assumes those calls succeed nor claims they fail.
- `Generate.ProcessGenerateRequest`: the LLM client constructor is assumed not to raise.
- `Generate.EffectiveNumExamples`: a configured num_pairs that is not an integer is not modelled.
- JSON numbers are integers and objects are maps, so key order in written files and floating-point values are not modelled.
- `Paths.Lower`: lower-cases ASCII letters only and keeps the length; Python's `str.lower` also lower-cases other letters and can lengthen a string ('İ' becomes two characters). No other character lower-cases to a letter of ".md", ".txt" or ".json", so the suffix checks are exact.
- `Cli.GenerateCommand`, `Cli.SaveAsOutput`, `Cli.CleanedOutput`, `Cli.ExplicitOutputKept`: --output-dir and --output are typer `Path` options (cli.py:281, 367, 459, 578), so the code receives `str(Path(text))`, in which repeated '/' are collapsed and "." components and a trailing '/' are dropped ("./out/" arrives as "out"). The model passes the option text on unnormalised, so an output path it gives can differ from the real one in those characters.
- `Paths.PathName`: drops trailing '/' characters but does not apply the rest of pathlib's normalisation (collapsing "//" and removing "." components).
- `Cli.SaveAsFormat`: a config format.default that is not a string, or a config "format" entry that is not a mapping, is not modelled.
