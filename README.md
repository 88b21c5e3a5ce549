# Test-acquisition pipeline and RQ2 effect sizes, in Dafny

This project models the test-acquisition pipeline of the LLM refactoring
evaluation (`Analysis/test_generation_pipeline`), together with the effect-size
arithmetic of the RQ2 analysis. The pipeline tries to find unit tests for
every refactoring commit of a dataset, in tiers:

- **Tier 1** (`TestExtractionPipeline`) bare-clones each project once. It maps
  every changed Java file to the test files that may exercise it. It fetches
  each such file at the commit with `git show` and extracts the JUnit test
  methods it declares.
- **Tier 2** (`DoubleCheckExtraction`) takes the commits Tier 1 found no test
  for. It lists the test directory of every changed main-source file with
  `git ls-tree` and extracts the tests of every test file listed there.
- **Tier 3** (`EvoSuiteTestGenerator`, then `RandoopTestGenerator` for the
  commits EvoSuite produced nothing for) checks each commit out, builds it
  with Maven and runs a test generator on the classes the commit touches.
- **`run_pipeline.py`** chooses the tiers from `--tier` and feeds each tier
  its input. Its `_report` adds up the tests of every tier.

Every call into git, Maven, the JVM, the file system or the regex engine is an
input of the model rather than something the model computes:

- a subprocess is a `Proc`, either an exit with code and output, or `Raised`
  for a timeout or an exception;
- Tier 1 and Tier 2 see a `World` record of such answers;
- each Tier 3 commit sees a `CommitWorld` record with one field per call site;
- the matches of the two method patterns in a file's text are given as data.

Classes whose methods update their fields are Dafny classes:
`Tier1.TestExtractionPipeline`, `Tier2.DoubleCheckExtraction` and
`Tier3.Generator`. `Generator` models both Tier 3 generators: they share
everything except the generator run, so it is told apart by its `tool`.
Every loop of the source is a method with a loop, proved against a
specification function. Lemmas then state what the source promises about
those functions.

RQ2's `cliffs_delta` and its clamped reductions are in `EffectSize`.

Where the code and its comments or documentation differ, the model follows the
code. The one exception is the defect listed under Findings below. There the
model records the corrected `code` slice of each extracted method, and it
proves how that slice relates to the source's slice. Otherwise:

- `--tier 2` runs no tier at all. Tier 2 sits inside the Tier 1 branch, which
  only `--tier 1` or no option enters.
- In a full run, Tier 3 is fed the commits Tier 1 found no test for, not those
  Tier 2 still could not recover.
- Tier 3 reads those commits back from `commits_without_tests.json`, which keeps
  only the project and commit hash. Module targeting and class targeting
  therefore have no changed files to work from there.

## Model

| member | source | states |
|---|---|---|
| PathHeuristics.FindTestCandidates | Analysis/test_generation_pipeline/pipeline.py:126-157 | a path gets candidates exactly when it is under `/src/main/` and ends in `.java` |
| PathHeuristics.CandidatesAreTestFiles | Analysis/test_generation_pipeline/pipeline.py:126-171 | there are no candidates or exactly five, and every candidate is a `.java` file that `is_test_file` accepts |
| PathHeuristics.StemCandidatesAreTestFiles | Analysis/test_generation_pipeline/pipeline.py:145-157 | a stem in a test tree yields five candidates (the `TestFoo` one included), all test files ending in `.java` |
| PathHeuristics.InTestTreeIsTestFile | Analysis/test_generation_pipeline/pipeline.py:160-163 | any path containing `/src/test/` is a test file |
| PathHeuristics.TestBaseInTestTree | Analysis/test_generation_pipeline/pipeline.py:139-143 | mapping a main-tree path lands it in a test tree |
| PathHeuristics.TestPrefixSpec | Analysis/test_generation_pipeline/pipeline.py:434-449 | the Tier 2 prefix exists exactly for paths under `/src/main/`; it ends in `/`, lies in a test tree and starts the mapped path |
| PathHeuristics.CandidatesUnderTestPrefix | Analysis/test_generation_pipeline/pipeline.py:126-157 | every Tier 1 candidate of a file lies under the directory Tier 2 lists for it |
| PathHeuristics.ModuleFrom | Analysis/test_generation_pipeline/pipeline.py:729-735 | a module found for a file is a non-empty proper prefix of its path with no trailing `/` |
| PathHeuristics.ModuleFollowedByMarker | Analysis/test_generation_pipeline/pipeline.py:729-735 | the module of a file is followed in its path by one of the three source markers |
| PathHeuristics.ModulesOfFiles | Analysis/test_generation_pipeline/pipeline.py:726-735 | every file that names a module contributes it to the module set |
| PathHeuristics.ModulesFromFiles | Analysis/test_generation_pipeline/pipeline.py:726-735 | every module in the set is the module of some changed file |
| PathHeuristics.ExtractModuleFromFiles | Analysis/test_generation_pipeline/pipeline.py:723-741 | none exactly when no file names a module; otherwise a module of the set with no shorter module in it |
| PathHeuristics.TargetClassOf | Analysis/test_generation_pipeline/pipeline.py:981-987 | a file gives a class exactly when it contains `src/main/java/` and ends in `.java` |
| PathHeuristics.TargetClassesShape | Analysis/test_generation_pipeline/pipeline.py:976-988 | every qualifying file contributes its class, no more classes than files, no `/` left in a class name, and no classes exactly when no file qualifies |
| PathHeuristics.TargetClassesConcat | Analysis/test_generation_pipeline/pipeline.py:980-988 | the classes of two file lists are those of the first followed by those of the second, so they come in file order |
| PathHeuristics.TargetClassesSingle | Analysis/test_generation_pipeline/pipeline.py:983-987 | one file gives exactly its class when it qualifies, and nothing otherwise |
| PathHeuristics.TargetClassName | Analysis/test_generation_pipeline/pipeline.py:982-986 | the class of `p` + `src/main/java/` + `q` + `.java`, at the first marker, is `q` with every `/` turned into `.` |
| PathHeuristics.ExtractTargetClasses | Analysis/test_generation_pipeline/pipeline.py:976-988 | the loop computes the target classes of the files, in file order |
| PathHeuristics.CompiledClassesFiltered | Analysis/test_generation_pipeline/pipeline.py:917-924 | no collected class is an inner class, has `Test` in its name or contains `/` |
| PathHeuristics.CollectCompiledClasses | Analysis/test_generation_pipeline/pipeline.py:908-929 | the nested loop collects the kept class names directory by directory |
| Records.FileNames | Analysis/test_generation_pipeline/pipeline.py:282-283 | one name per changed file, position by position |
| Records.Fqcn | Analysis/test_generation_pipeline/pipeline.py:323 | with a non-empty package the name is `pkg.` followed by the class; with none or an empty one it is the class name |
| Records.FqcnEndsWithClass | Analysis/test_generation_pipeline/pipeline.py:323 | the qualified name ends with the class name |
| Records.ClassName | Analysis/test_generation_pipeline/pipeline.py:252-258 | without a declared class the name is the file stem, a prefix of the file's base name |
| Records.GitShow | Analysis/test_generation_pipeline/pipeline.py:92-105 | content exactly when `git show` exits 0 with non-empty output, and then it is that output |
| Records.LsTree | Analysis/test_generation_pipeline/pipeline.py:107-121 | no paths when `git ls-tree` raises or exits non-zero; otherwise exactly the non-empty lines of its stripped output, in order, none holding a newline |
| Records.Label | Analysis/test_generation_pipeline/pipeline.py:317-326 | one labelled test per extracted method |
| Records.LabelAt | Analysis/test_generation_pipeline/pipeline.py:317-326 | each labelled test is the extracted method at the same position, with project, commit, package, class and qualified name attached |
| Records.TestsOfFileShape | Analysis/test_generation_pipeline/pipeline.py:310-326 | every test recorded for a fetched file carries that file's path, the commit and the tier tag |
| Extraction.ExtractMethodBody | Analysis/test_generation_pipeline/pipeline.py:176-186 | when the brace never closes the body is empty; otherwise it is exactly the text up to the matching `}` |
| Extraction.BodyUnique | Analysis/test_generation_pipeline/pipeline.py:176-186 | a brace has at most one body |
| Extraction.BodyExists | Analysis/test_generation_pipeline/pipeline.py:176-186 | a brace whose depth ever drops below its own has a body |
| Extraction.BodyCloses | Analysis/test_generation_pipeline/pipeline.py:179-186 | the text through the closing `}` brings the depth to -1, so the brace closes |
| Extraction.ScanMatches | Analysis/test_generation_pipeline/pipeline.py:206-218 | the loop over one pattern's matches reaches the state the scan specification gives, whose recorded code is the corrected slice (see Findings) |
| Extraction.ExtractTestMethods | Analysis/test_generation_pipeline/pipeline.py:188-245 | the extracted methods are those of the JUnit 4/5 pass, followed by those of the JUnit 3 pass when `extends TestCase` is present; each records the corrected code slice (see Findings) |
| Extraction.ExtractShape | Analysis/test_generation_pipeline/pipeline.py:192-233 | no two extracted methods share a name, across both passes; no JUnit 3 method comes before a JUnit 4/5 one; without `extends TestCase` every method is a JUnit 4/5 one |
| Extraction.FirstMatchDecides | Analysis/test_generation_pipeline/pipeline.py:206-218 | the first match of a name decides it: that name is kept only for the first match, and only when its body is not empty |
| Extraction.StepShape | Analysis/test_generation_pipeline/pipeline.py:206-218 | one match only appends, marks its name taken, and keeps the names distinct |
| Extraction.ScanCodeCloses | Analysis/test_generation_pipeline/pipeline.py:211-218 | with the corrected slice, every extracted method's code ends with its closing `}` |
| Extraction.ExtractPaths | Analysis/test_generation_pipeline/pipeline.py:213-241 | every extracted method records the path of the file it came from |
| Extraction.CodeSpanAsWrittenUnbalanced | Analysis/test_generation_pipeline/pipeline.py:215 | the code slice as written stops before the closing `}`: from the opening brace on it is one `}` short of balanced |
| Extraction.EntryAsWritten | Analysis/test_generation_pipeline/pipeline.py:213-216 | the code the model records for a method is the source's slice followed by the closing `}` that slice leaves out |
| Extraction.CodeSpanAsWrittenExample | Analysis/test_generation_pipeline/pipeline.py:215 | the method text `{x}` is recorded as `{x` |
| Extraction.CodeSpanBalanced | Analysis/test_generation_pipeline/pipeline.py:215 | the corrected slice runs through the closing `}`, ends with it and is balanced from the opening brace on |
| Tier1.TryCandidates | Analysis/test_generation_pipeline/pipeline.py:297-326 | the candidate loop extends the commit's progress by the candidates: each new one counted and fetched once, the files found and tests harvested |
| Tier1.TryCandidate | Analysis/test_generation_pipeline/pipeline.py:298-326 | one candidate is skipped when already seen, otherwise marked seen, counted, fetched, and its tests harvested when it exists |
| Tier1.JavaFiles | Analysis/test_generation_pipeline/pipeline.py:282-286 | exactly the changed files ending in `.java` are checked |
| Tier1.Commits | Analysis/test_generation_pipeline/pipeline.py:340-348 | only record lines become commits, never more than there are lines |
| Tier1Facts.DedupSpec | Analysis/test_generation_pipeline/pipeline.py:280-300 | `seen_test_paths` makes each candidate fetched once: the fetched paths are the candidates, without repetition |
| Tier1Facts.TriedPathsSpec | Analysis/test_generation_pipeline/pipeline.py:288-301 | the paths tried for a commit are the candidates of its Java files, each once, and all are Java test files |
| Tier1Facts.AllCandidatesAreTestFiles | Analysis/test_generation_pipeline/pipeline.py:288-295 | every candidate, a changed test file or a derived one, is a Java test file |
| Tier1Facts.HarvestShape | Analysis/test_generation_pipeline/pipeline.py:297-326 | no more files found than paths tried, and every test comes from a tried path of this commit |
| Tier1Facts.CommitOutcomeShape | Analysis/test_generation_pipeline/pipeline.py:262-328 | the result names the commit, finds no more files than it tries, and its tests carry the commit and no tier |
| Tier1Facts.CloneFailureIsEmpty | Analysis/test_generation_pipeline/pipeline.py:276-278 | a commit whose project cannot be cloned gives the empty result and tries nothing |
| Tier1Facts.ZeroCommitsSpec | Analysis/test_generation_pipeline/pipeline.py:355-361 | a commit is listed without tests exactly when its result has none, once per such result |
| Tier1Facts.AccumulateCounts | Analysis/test_generation_pipeline/pipeline.py:348-363 | the counters add one per commit, the extracted tests and the commits without tests, and leave clone failures alone |
| Tier1.FailedCount | Analysis/test_generation_pipeline/pipeline.py:78-90 | caching a new project's outcome adds one clone failure exactly when it failed |
| Tier1.TestExtractionPipeline.constructor | Analysis/test_generation_pipeline/pipeline.py:40-57 | empty cache, lists and counters |
| Tier1.TestExtractionPipeline.CloneRepo | Analysis/test_generation_pipeline/pipeline.py:61-90 | the answer is the cached outcome or the real clone outcome; it is cached; `git clone` runs at most once per project and only when the directory is not on disk |
| Tier1.TestExtractionPipeline.ProcessCommit | Analysis/test_generation_pipeline/pipeline.py:262-328 | the result is the commit's specified outcome, the clone cache gains the project, and `test_candidates_tried`, `test_files_found` and `clone_failures` move by the commit's counts |
| Tier1.ScanCommitFiles | Analysis/test_generation_pipeline/pipeline.py:280-326 | the file loop checks the commit's Java files, tries each distinct candidate once and harvests the tests of those that exist |
| Tier1.FetchTests | Analysis/test_generation_pipeline/pipeline.py:303-326 | one candidate is fetched with `git show` and, when it exists, its methods are extracted and labelled |
| Tier1.TestExtractionPipeline.RecordCommit | Analysis/test_generation_pipeline/pipeline.py:348-363 | one commit's result is processed, its tests kept, and the commit listed when it has none |
| Tier1.TestExtractionPipeline.Tally | Analysis/test_generation_pipeline/pipeline.py:349-363 | the commit's result is kept; the commit, its files and its tests are counted; it is listed and counted as without tests exactly when it has none; the clone cache is untouched |
| Tier1.TestExtractionPipeline.ProcessLine | Analysis/test_generation_pipeline/pipeline.py:340-363 | one dataset line keeps the state in step with the commits read so far: a record is processed, any other line skipped |
| Tier1.TestExtractionPipeline.ProcessDataset | Analysis/test_generation_pipeline/pipeline.py:332-412 | over the commit records within the limit: the results are the commits' outcomes in order, all their tests are kept, the commits without tests are listed, and the counters and clone cache match |
| Tier1.MatchesSnoc | Analysis/test_generation_pipeline/pipeline.py:348-363 | recording one more commit keeps the dataset state in step with the commits processed |
| Tier2.PrefixOf | Analysis/test_generation_pipeline/pipeline.py:471-480 | a changed file has a prefix exactly when it is a non-test `.java` file under `/src/main/`; the prefix is a test directory ending in `/` |
| Tier2.DoubleCheckExtraction.constructor | Analysis/test_generation_pipeline/pipeline.py:427-431 | zero counters and no recovered tests |
| Tier2Facts.PrefixesSpec | Analysis/test_generation_pipeline/pipeline.py:470-480 | the prefix set is exactly the prefixes of the changed files, all test directories |
| Tier2.CollectPrefixes | Analysis/test_generation_pipeline/pipeline.py:470-480 | the loop builds the prefix set of the changed files |
| Tier2Facts.TestFilesSpec | Analysis/test_generation_pipeline/pipeline.py:492-497 | the fetched candidates are exactly the listed paths that are test files |
| Tier2Facts.ListingSpec | Analysis/test_generation_pipeline/pipeline.py:488-492 | a path is listed exactly when `git ls-tree` lists it under one of the prefixes |
| Tier2Facts.FetchedSpec | Analysis/test_generation_pipeline/pipeline.py:486-501 | each test file under the prefixes is fetched exactly once, and nothing else is |
| Tier2Facts.FetchedOrderFree | Analysis/test_generation_pipeline/pipeline.py:488 | the files fetched do not depend on the order in which the prefix set is iterated |
| Tier2Facts.HarvestOrderFree | Analysis/test_generation_pipeline/pipeline.py:492-519 | fetching two duplicate-free lists of the same paths yields the same tests, each as often |
| Tier2Facts.RecheckOrderFree | Analysis/test_generation_pipeline/pipeline.py:488-519 | a commit's recovered tests are the same multiset whichever order its prefix set is iterated in |
| Tier2Facts.CheckCommitsOrderFree | Analysis/test_generation_pipeline/pipeline.py:451-522 | over a run, the recovered tests (as a multiset), `methods_recovered` and `recovered` do not depend on the order each prefix set is iterated in |
| Tier2Facts.RecheckShape | Analysis/test_generation_pipeline/pipeline.py:510-519 | every recovered test names the commit and carries tier 2 |
| Tier2Facts.RecoveredCountSpec | Analysis/test_generation_pipeline/pipeline.py:485-523 | no more commits recovered than checked or than tests recovered, and none exactly when no test is recovered |
| Tier2.ScanPrefixes | Analysis/test_generation_pipeline/pipeline.py:485-520 | the listing loop visits every prefix once and recovers the tests of the distinct test files it fetches |
| Tier2.RecoverCommit | Analysis/test_generation_pipeline/pipeline.py:465-523 | nothing when the clone fails, else the tests of the commit's prefixes in the order visited |
| Tier2.ScanListing | Analysis/test_generation_pipeline/pipeline.py:492-520 | the loop over one listing fetches each new test file once and harvests its tests, skipping files seen and non-test files |
| Tier2.ScanFile | Analysis/test_generation_pipeline/pipeline.py:493-520 | one listed file is skipped when seen or not a test file; otherwise it is marked seen, fetched, and its tests are recovered with tier 2 |
| Tier2.DoubleCheckExtraction.Keep | Analysis/test_generation_pipeline/pipeline.py:519-523 | the recovered tests are kept and counted; the commit counts as recovered when there are any |
| Tier2.DoubleCheckExtraction.CheckCommit | Analysis/test_generation_pipeline/pipeline.py:460-523 | one commit is counted as checked, its project goes through Tier 1's clone cache, and its recovered tests are kept and counted |
| Tier2.DoubleCheckExtraction.CheckCommits | Analysis/test_generation_pipeline/pipeline.py:451-542 | every commit is checked in turn; the recovered tests are those of all commits and the counters match them; only Tier 1's clone cache changes in the extractor |
| Tier2.RecheckedSnoc | Analysis/test_generation_pipeline/pipeline.py:460-523 | re-checking one more commit keeps the state in step with the commits |
| Build.CheckoutSound | Analysis/test_generation_pipeline/pipeline.py:624-706 | an existing directory is reused exactly when HEAD is verified there; a fresh checkout is used verified only after clone and checkout succeed and HEAD matches, and unverified exactly when `rev-parse` exits non-zero |
| Build.FailedCloneRefused | Analysis/test_generation_pipeline/pipeline.py:657-677 | a failed clone or checkout is never used |
| Build.ReposAfter | Analysis/test_generation_pipeline/pipeline.py:624-706 | the project's directory exists afterwards exactly when the checkout is usable, and other directories are untouched |
| Build.ShallowestSpec | Analysis/test_generation_pipeline/pipeline.py:715-717 | the pom chosen has the fewest path parts, and it is the first such pom |
| Build.FindRootPom | Analysis/test_generation_pipeline/pipeline.py:708-721 | no pom exactly when there is none at all; the root pom when it exists; else one of the poms found |
| Build.NoPomNoBuild | Analysis/test_generation_pipeline/pipeline.py:772-775 | without any pom nothing is built and no classpath is answered |
| Build.GoalAndModule | Analysis/test_generation_pipeline/pipeline.py:826-837 | the main build is `install` exactly when a module is targeted, with `-pl` exactly when the module has its own pom |
| Build.RetryRule | Analysis/test_generation_pipeline/pipeline.py:848-860 | the full-project retry happens exactly when the main build left no classes directory for a targeted module; only the classpath query can follow |
| Build.RetryRepeatsMainBuild | Analysis/test_generation_pipeline/pipeline.py:829-835 | for a module without its own pom, the retry repeats the main build |
| Build.ClasspathRule | Analysis/test_generation_pipeline/pipeline.py:862-899 | a classpath needs a classes directory; it is the directories joined with `:`, followed by Maven's dependency classpath exactly when that query ran, exited 0 and printed something |
| Tier3.FirstStop | Analysis/test_generation_pipeline/pipeline.py:941-967 | the first class at which the EvoSuite loop ends, with no earlier stop |
| Tier3.EvoSuiteStops | Analysis/test_generation_pipeline/pipeline.py:941-974 | EvoSuite yields the file count of the first class that generated tests, unless a crash or the end of the classes comes first, when it yields 0 |
| Tier3.Capped | Analysis/test_generation_pipeline/pipeline.py:1451 | Randoop is given all the classes when there are no more than fifty, and exactly the first fifty otherwise |
| Tier3.GenerateEvoSuite | Analysis/test_generation_pipeline/pipeline.py:931-974 | the class loop computes the EvoSuite count (0 without the jar) |
| Tier3.GenerateRandoop | Analysis/test_generation_pipeline/pipeline.py:1440-1488 | one Randoop run counts the files left whatever its exit code; 0 on a timeout, an exception or without the jar |
| Tier3.AttemptOutcome | Analysis/test_generation_pipeline/pipeline.py:990-1039 | the result names the commit and tool; it fails exactly when the commit is not compiled or has no class to test; it succeeds exactly when tests were generated, then with the generator's count |
| Tier3.NoteConsistent | Analysis/test_generation_pipeline/pipeline.py:1001-1025 | after an attempt that fails or compiles, and compiles only after a checkout, the counters stay consistent: no more compiled than cloned, no more cloned or failures than attempts, and every attempt a failure or a compile |
| Tier3.Generator.constructor | Analysis/test_generation_pipeline/pipeline.py:552-566 | zero counters |
| Tier3.Generator.CloneAndCheckout | Analysis/test_generation_pipeline/pipeline.py:624-706 | the checkout is the one the git calls decide; the project's directory exists afterwards exactly when the checkout is usable |
| Tier3.Generator.CompileProject | Analysis/test_generation_pipeline/pipeline.py:766-906 | the target module is a shortest module of the changed files, and the classpath is the one the Maven calls answer |
| Tier3.Generator.GenerateTests | Analysis/test_generation_pipeline/pipeline.py:1030 | the tool's generator count for the classes |
| Tier3.Generator.BuildAndGenerate | Analysis/test_generation_pipeline/pipeline.py:1008-1039 | after the checkout, the attempt is the specified one for the module chosen |
| Tier3.Generator.GenerateForCommit | Analysis/test_generation_pipeline/pipeline.py:990-1039 | the result is the specified attempt's; the counters move as it says; the checkout directory follows the checkout |
| Tier3.Generator.ProcessCommits | Analysis/test_generation_pipeline/pipeline.py:1041-1070 | one attempt per commit in order, with results, counters and checkout directories as the attempts give |
| Tier3.ProgressSnoc | Analysis/test_generation_pipeline/pipeline.py:1048-1055 | one more commit extends the attempts, results, counters and directories |
| Tier3Facts.CountAllSpec | Analysis/test_generation_pipeline/pipeline.py:1001-1049 | `commits_attempted` adds one per commit; `failures` counts failed results; `tests_generated` sums their tests; at most one clone and one compile per commit |
| Tier3Facts.AttemptsMatch | Analysis/test_generation_pipeline/pipeline.py:992-999 | the i-th result is about the i-th commit and the generator's tool |
| Tier3Facts.EmptyCountSpec | Analysis/test_generation_pipeline/pipeline.py:1032-1037 | the results without tests and the successes together make up all results |
| Runner.Tier2OnlyInFullRun | Analysis/test_generation_pipeline/run_pipeline.py:75-86 | Tier 2 runs exactly in a full run; `--tier 2` runs no tier |
| Runner.SliceTo | Analysis/test_generation_pipeline/run_pipeline.py:105-106 | Python's `[:n]`: a prefix of length `n` capped at the length, and for negative `n` all but the last `-n` |
| Runner.DatasetCommitsSpec | Analysis/test_generation_pipeline/run_pipeline.py:97-104 | reading raises exactly when some line is not valid JSON; otherwise the commits are those Tier 1 reads |
| Runner.ReadDataset | Analysis/test_generation_pipeline/run_pipeline.py:97-104 | the reading loop gives the dataset's commits, or fails on the first malformed line |
| Runner.Cached | Analysis/test_generation_pipeline/pipeline.py:378-383 | the cached commits keep project and hash, in order, and lose their files |
| Runner.FirstMatch | Analysis/test_generation_pipeline/run_pipeline.py:117-121 | an input commit from the given position on with that project and hash, and none exactly when no such commit exists |
| Runner.SelectFailed | Analysis/test_generation_pipeline/run_pipeline.py:114-121 | the nested loop collects, for each result without tests, the first input commit it names |
| Runner.FailedCommitsSpec | Analysis/test_generation_pipeline/run_pipeline.py:114-121 | Randoop gets only input commits named by a result without tests, at most one per such result, and exactly one when every result names an input commit |
| Runner.EveryEmptyResultRetried | Analysis/test_generation_pipeline/run_pipeline.py:108-129 | after EvoSuite, Randoop is given exactly one commit per result without tests |
| Runner.Report | Analysis/test_generation_pipeline/run_pipeline.py:142-183 | the total adds the counts of the tiers present; there is one summary per tier present |
| Runner.Summaries | Analysis/test_generation_pipeline/run_pipeline.py:174-183 | one summary per tier that ran; Tier 1 and Tier 2 report no results |
| Runner.RunTiers12 | Analysis/test_generation_pipeline/run_pipeline.py:75-86 | Tier 1 runs for `--tier 1` or a full run, Tier 2 only in a full run over the commits Tier 1 found no test for; their counts are those of the tiers' specifications |
| Runner.Generate | Analysis/test_generation_pipeline/run_pipeline.py:109-111 | a fresh generator's report is its specified results and counters |
| Runner.GeneratedCounts | Analysis/test_generation_pipeline/pipeline.py:1041-1070 | a report has one result per commit, naming it and the tool, one attempt per commit, one failure per failed result, and the sum of its results' tests |
| Runner.RunTier3 | Analysis/test_generation_pipeline/run_pipeline.py:108-129 | EvoSuite runs exactly when there are input commits; Randoop runs exactly when some EvoSuite result names an input commit and has no tests, and then on those commits |
| Runner.RunPipeline | Analysis/test_generation_pipeline/run_pipeline.py:30-138 | the run raises only on a malformed dataset under `--tier 3`; which tiers report, with what input; and the total is Tier 1's extracted tests, Tier 2's recovered tests and the tests of every Tier 3 result |
| EffectSize.Reduction | RQ2/rq2.py:67-68 | never negative, at least the plain difference, equal to 0 or to it, and for non-negative counts never more than the count before |
| EffectSize.SmellReduction | RQ2/rq2.py:62-68 | a smell's reduction is not negative; it is the clamped difference of the two counts, and treats a smell missing afterwards as 0; for non-negative counts it is at most the count before |
| EffectSize.ComputeCliffsDelta | RQ2/rq2.py:14-29 | the nested counting loop and its division give Cliff's delta, and nothing when a sample is empty |
| EffectSize.PairsPartition | RQ2/rq2.py:20-27 | `greater + less + equal` is `nx * ny`: every pair is counted exactly once |
| EffectSize.CliffsDeltaRange | RQ2/rq2.py:14-29 | the delta exists exactly for non-empty samples and lies between -1 and 1 |
| EffectSize.GreaterIsLessSwapped | RQ2/rq2.py:20-27 | the pairs counted as greater are those counted as less with the samples swapped |
| EffectSize.CliffsDeltaAntisymmetric | RQ2/rq2.py:14-29 | swapping the samples negates the delta |
| EffectSize.CliffsDeltaDominance | RQ2/rq2.py:14-29 | when every `x` exceeds every `y` the delta is 1 |

## Left out

- Logging, the JSON files written and read back, `argparse`, and the creation of output directories are not modelled. The one file read back, `commits_without_tests.json`, is modelled by what it keeps (`Runner.Cached`).
- The network, git, Maven, the JVM and the file system are inputs, as described above. Timeouts become `Raised`.
- The regex matching of `extract_test_methods`, `extract_package` and `extract_classname` is an input: the matches, the package and the declared class are given.
- Path handling by `pathlib` (normalising `//`, `.` or a trailing `/`) is not modelled. Paths are compared as strings.
- `_ensure_evosuite`, `_ensure_randoop`, `_find_java` and `_find_maven` are left out. The jar download and environment probing become whether the jar exists, in `GenWorld.jar`.
- `_install_maven_plugins` and the tooling pre-installs are left out as separate calls. All best-effort calls before the main build are one input each (`BuildWorld.prepare`, `BuildWorld.tooling`), and only their raising matters.
- `LLMTestGenerator` (Tier 4) is a placeholder that does nothing, so it is not modelled.
- Python's iteration order over sets is not fixed, and the model leaves it open. The Tier 2 prefixes are visited in some order of the set (`Tier2.Enumerates`), and `min` over the module set picks any shortest module. Tier 2's tests and counters are stated for the order returned as the ghost `orders` of `CheckCommits`. The set of files fetched does not depend on that order (`Tier2Facts.FetchedOrderFree`). Neither do the recovered tests taken as a multiset, nor the `recovered` and `methods_recovered` counters (`Tier2Facts.CheckCommitsOrderFree`). The order of the tests in the list does depend on it.
- `cohen_d`, `mannwhitneyu`, the medians and the `pandas` grouping of RQ2 are not modelled. Only `cliffs_delta` and the clamped reductions are.
- EffectSize.CliffsDelta: the samples are integers (smell-count reductions), not floats. An empty sample gives `None` where Python raises `ZeroDivisionError`.
- Tier3.Generator.CloneAndCheckout: `git clean` and `git checkout -f` in an existing directory are folded into the `rev-parse` answer. When any of the three raises, the directory is removed.
- Tier1.TestExtractionPipeline.ProcessDataset: a line that is valid JSON but not a commit record raises `KeyError` in the source. The model treats every valid line as a commit record.
- Tier3.Generator.ProcessCommits: the output directory per commit and the generated files are not modelled. Only their count after each run is an input.

- ScanMatches: the code recorded for each method runs through its closing `}` (Extraction.CodeSpan). The source's slice at pipeline.py:215 stops one character earlier, as the Findings table shows. Extraction.EntryAsWritten states that the model's code is the source's code followed by that `}`.
- ExtractTestMethods: both passes record the corrected code slice, like ScanMatches. The JUnit 3 pass at pipeline.py:238 has the same one-character defect as line 215.

## Findings

| source | as written | input that shows it | evidently intended | confidence | as-written member | corrected member |
|---|---|---|---|---|---|---|
| Analysis/test_generation_pipeline/pipeline.py:215 | the slice `file_content[m.start():m.end() - 1 + len(body) + 1]` ends before the closing `}`, so the recorded `code` of every extracted method lacks its last brace (the JUnit 3 pass at line 238 does the same) | a method whose text from its `{` is `{x}`: the body is `x` and the code recorded is `{x` | the code runs through the closing `}` (end index `m.end() + len(body) + 1`) | not executed | Extraction.CodeSpanAsWrittenUnbalanced | Extraction.CodeSpanBalanced |
