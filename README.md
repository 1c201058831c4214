# Libero Quantum core, modelled in Dafny

Libero Quantum is an autonomous UI-testing tool. It crawls a running web
application into an application graph of route nodes, elements, forms and
navigation edges. It then generates test cases from that graph with five
generators (smoke, form, journey, CRUD, accessibility). An orchestrator runs
the generators until the plan meets its coverage goals, and a coverage engine
measures what the plan exercises. Two execution adapters (Playwright and
Selenium) run the plan with retries and selector healing. A knowledge base
records element signatures, selector attempts, failures and flakiness, and a
failure classifier groups errors by type. A JUnit reporter serialises run
results, and a single-file "universal" runner turns a page's visible
buttons, links, inputs and headings into scenarios.

This project models the deterministic logic of all of these components and
proves the properties their code promises: rule order in the classifiers,
first-occurrence de-duplication, ranking and sorting as permutations,
counters and table updates in the knowledge base, coverage arithmetic and
its monotonicity, the orchestrator's bounds, the reproducibility of the
form generator, journey path uniqueness and validity, migration defaults and
idempotence, signature order-independence, crawl bounds, the retry/status
state machine of both adapters, and the JUnit document's structure.

Layout: one module per source file, plus shared modules.
- `Wrappers`, `Text`, `Seqs` and `Sorting` hold Option, string helpers,
  sequence helpers and a stable insertion sort.
- `GraphModel`, `PlanModel`, `CoverageModel`, `RunModel` and `ConfigModel`
  transcribe the type-only files into datatypes and constants.
- The remaining modules follow the program's source files: `Crawler`,
  `StateSignature`, `GraphBuilder`, `GraphMigrations`, `CoverageEngine`,
  `Orchestrator`, the five generators, `KnowledgeStore`, `SelectorHealing`,
  `FailureAnalysis`, `SeleniumAdapter`, `PlaywrightAdapter`,
  `JUnitReporter`, `AIModePresets` and `LiberoUniversal`.

Where the code mutates state, the model is imperative. The knowledge base
and the crawler are classes whose methods update their fields. The form
generator is a class holding its LCG seed and sequence. The loops of the
orchestrator, the coverage engine, the generators, healing and the adapters,
mostly `for` loops in the program, are `while` loops here, each proved
against a specification function.

Abstractions:
- `hashString` (SHA-256) is a parameter `hash: string -> string`.
- Ids from `generateId` (clock plus randomness) are an opaque constant
  `GeneratedId(prefix)`; no property compares them.
- Clock readings are parameters (`now`, `clockMs`).
- The browser is an oracle. For the crawler, a page is what a URL yields
  (links, elements, forms, or a failure). For healing, it is a predicate
  saying whether a selector works. For the adapters, it says whether an
  attempt's steps and assertions succeed.
- `localeCompare` is ordinal character order.
- A percentage `Math.round((c / t) * 100)` is the exact rounding of
  `100*c/t` with halves up, the integer `(200*c + t) / (2*t)`; the
  double arithmetic of the program can differ (see "## Left out").

## Model

| member | source | states |
|---|---|---|
| `SelectorHealing.ShortText` | packages/learning/src/selector-healing.ts:29-31 | The text candidate uses at most 30 characters, a prefix of the trimmed text, and the whole trimmed text when it is that short |
| `SelectorHealing.PresentSpec` | packages/learning/src/selector-healing.ts:15-55 | A candidate is listed exactly when its metadata slot is present |
| `SelectorHealing.AlternativesSpec` | packages/learning/src/selector-healing.ts:15-58 | The generated list holds exactly the candidates whose metadata is present (aria-label, role+name, text for button/link, data-testid, data-test, id, placeholder, type+name), each once, in first-occurrence order |
| `SelectorHealing.GenerateAlternativeSelectors` | packages/learning/src/selector-healing.ts:15-59 | The conditional-push loop followed by de-duplication yields the list `AlternativesSpec` describes |
| `SelectorHealing.Score` | packages/learning/src/selector-healing.ts:64-71 | Scores are one of 100/90/80/70/60/40, and 100 exactly when the selector contains data-testid |
| `SelectorHealing.RankLeOrders` | packages/learning/src/selector-healing.ts:73 | The comparator (higher score first, then string order) is a total preorder |
| `SelectorHealing.RankSpec` | packages/learning/src/selector-healing.ts:63-74 | Ranking returns a permutation of its input, scores descending, equal scores in string order |
| `SelectorHealing.TestIdScore` | packages/learning/src/selector-healing.ts:65 | `[data-testid="save"]` scores 100 |
| `SelectorHealing.IdScore` | packages/learning/src/selector-healing.ts:65-66 | `#save-btn` scores below 100 |
| `SelectorHealing.TextScore` | packages/learning/src/selector-healing.ts:65-69 | `button:has-text("Save")` scores below 100 |
| `SelectorHealing.TestIdRanksFirst` | tests/step1.spec.ts:50-53 | Ranking the three example selectors puts `[data-testid="save"]` first |
| `SelectorHealing.HealedSpec` | packages/learning/src/selector-healing.ts:89-102 | Healing succeeds iff some candidate works; the returned selector is the first that works, attempts is its 1-based position, and on failure attempts equals the number of candidates |
| `SelectorHealing.AttemptRows` | packages/learning/src/selector-healing.ts:90-93 | One attempt row per tried selector |
| `SelectorHealing.AttemptRowsSpec` | packages/learning/src/selector-healing.ts:90-93 | Each tried selector is logged once, in order, with its outcome, numbered on from the existing rows |
| `SelectorHealing.HealedAt` | packages/learning/src/selector-healing.ts:95-97 | The first working candidate at position k gives success with attempts k+1 |
| `SelectorHealing.RankedCandidates` | packages/learning/src/selector-healing.ts:82-87 | The stored alternative list when a signature with the element's id exists, otherwise the generated list, ranked |
| `SelectorHealing.TryInOrder` | packages/learning/src/selector-healing.ts:89-102 | The loop's result is `Healed`; every tried candidate is appended to the attempt log; exactly one counter (success or fail) of the signature is bumped; the other tables are unchanged |
| `SelectorHealing.AttemptSelectorHealing` | packages/learning/src/selector-healing.ts:76-103 | Healing over the ranked candidates: result, attempt log, counter bump and untouched tables as above |
| `FailureAnalysis.FirstMatchSpec` | packages/learning/src/failure-analysis.ts:11-19 | The first matching rule decides; no match gives unknown |
| `FailureAnalysis.ClassifyByRules` | packages/learning/src/failure-analysis.ts:9-20 | Classification applies the ordered rule table (timeout, selector, navigation, detached, overlay, auth, network, assertion) to the lower-cased message, and is unknown iff no rule matches |
| `FailureAnalysis.ClassifyIgnoresCase` | packages/learning/src/failure-analysis.ts:10 | A message and its lower-cased form classify alike |
| `FailureAnalysis.TimeoutBeatsSelector` | packages/learning/src/failure-analysis.ts:11-12 | "Timeout waiting for selector" classifies as timeout |
| `FailureAnalysis.MoreFailuresFirstOrders` | packages/learning/src/failure-analysis.ts:68 | The cluster comparator (count descending) is a total preorder |
| `FailureAnalysis.ClusterTypesListedOnce` | packages/learning/src/failure-analysis.ts:53 | The eight clustered types are distinct |
| `FailureAnalysis.ClustersOfOk` | packages/learning/src/failure-analysis.ts:56-66 | Every cluster holds the non-empty query answer for its type, its count is that answer's length, and it carries the type's fix |
| `FailureAnalysis.ClustersOfTypes` | packages/learning/src/failure-analysis.ts:56-66 | Every cluster's type is one of the queried types |
| `FailureAnalysis.ClustersOfCovers` | packages/learning/src/failure-analysis.ts:56-66 | Every queried type with open failures has a cluster |
| `FailureAnalysis.ClustersOfDistinct` | packages/learning/src/failure-analysis.ts:56-66 | At most one cluster per type |
| `FailureAnalysis.ClusterFailures` | packages/learning/src/failure-analysis.ts:52-69 | The loop over the types followed by the sort computes `ClusterResult` of the failure table |
| `FailureAnalysis.OpenQuerySpec` | packages/learning/src/failure-analysis.ts:57 | A type's query returns at most 50 unresolved failures of that type |
| `FailureAnalysis.ClusterResultOrdered` | packages/learning/src/failure-analysis.ts:68 | The answer is a permutation of the unsorted clusters, count descending, one per type |
| `FailureAnalysis.ClusterResultOk` | packages/learning/src/failure-analysis.ts:53-66 | Every cluster is a well-formed cluster of a type other than unknown |
| `FailureAnalysis.ClusterResultCovers` | packages/learning/src/failure-analysis.ts:53-66 | Every type other than unknown with unresolved failures has a cluster |
| `KnowledgeStore.NullIfEmpty` | packages/learning/src/knowledge-base.ts:156 | An empty string is stored as NULL, any other value as is |
| `KnowledgeStore.UpsertInserts` | packages/learning/src/knowledge-base.ts:146-148 | A new id is appended with successCount = failCount = 0 |
| `KnowledgeStore.UpsertRefreshes` | packages/learning/src/knowledge-base.ts:149-155 | An existing id refreshes only text, attributes, primarySelector, alternativeSelectors, stability and lastSeen; id, elementId, role and both counters are kept; no other row changes |
| `KnowledgeStore.UpsertKeepsUnique` | packages/learning/src/knowledge-base.ts:146-157 | Signature ids stay unique (primary key) and the upserted id is present |
| `KnowledgeStore.BumpedSpec` | packages/learning/src/knowledge-base.ts:177-189 | incrementSuccess/incrementFail raise exactly one counter of the named row by one, change nothing else, and an unknown id is a no-op |
| `KnowledgeStore.NewestAttemptFirstOrders` | packages/learning/src/knowledge-base.ts:205 | The attempt order (newest first) is a total preorder |
| `KnowledgeStore.NewestFailureFirstOrders` | packages/learning/src/knowledge-base.ts:226 | The failure order (newest first) is a total preorder |
| `KnowledgeStore.SelectTop` | packages/learning/src/knowledge-base.ts:205 | A filtered, ordered, limited query returns matching rows only, each at most as often as it occurs, in order, exactly min(limit, matches) of them (all when the limit is negative), and every matching row left out ranks no higher than every row returned |
| `Sorting.LimitSortSpec` | packages/learning/src/knowledge-base.ts:205 | Keeping the first n rows of the sorted table gives min(n, size) rows (all for a negative n), a sub-multiset, in order, and no row left out ranks above a row kept |
| `KnowledgeStore.OpenFailuresOfSpec` | packages/learning/src/knowledge-base.ts:223-229 | getFailuresByType returns unresolved rows of the type, newest first, exactly min(limit, matches) of them, all of them when the limit does not cut, and no matching row left out is newer than one returned |
| `KnowledgeStore.AttemptsOfSpec` | packages/learning/src/knowledge-base.ts:202-208 | getRecentAttempts returns the signature's rows, newest first, exactly min(limit, matches) of them, all of them when the limit does not cut, and no matching row left out is newer than one returned |
| `KnowledgeStore.ResolveSpec` | packages/learning/src/knowledge-base.ts:231-236 | markFailureResolved sets resolved on exactly the row with that id; an unknown id is a no-op |
| `KnowledgeStore.ScoreIsRatio` | packages/learning/src/knowledge-base.ts:253 | A consistent row's flakiness score lies in [0, 1] |
| `KnowledgeStore.FirstRun` | packages/learning/src/knowledge-base.ts:243-248 | The first run inserts totalRuns = 1 and failures = 1 on a failure, 0 otherwise |
| `KnowledgeStore.LaterRun` | packages/learning/src/knowledge-base.ts:249-258 | A later run adds one run and one failure only on a failure; lastFailure is kept on a pass and overwritten on a failure; other rows unchanged |
| `KnowledgeStore.RunRecordedKeepsRows` | packages/learning/src/knowledge-base.ts:242-258 | Recording a run keeps 0 <= failures <= totalRuns, score = failures/totalRuns, and unique test ids |
| `KnowledgeStore.FlakyOfSpec` | packages/learning/src/knowledge-base.ts:263-269 | getFlakyTests returns rows with score >= threshold and totalRuns >= 3, highest score first, exactly min(limit, matches) of them, all of them when the limit does not cut, and no matching row left out scores above one returned |
| `KnowledgeStore.LatestSeenFirstOrders` | packages/learning/src/knowledge-base.ts:172 | The lastSeen-descending order is a total preorder |
| `KnowledgeStore.LatestOfElement` | packages/learning/src/knowledge-base.ts:169-175 | The answer is a row of the element with the greatest lastSeen, or none when the element has no row |
| `KnowledgeStore.KnowledgeBase.constructor` | packages/learning/src/knowledge-base.ts:59-65 | The tables start empty and valid |
| `KnowledgeStore.KnowledgeBase.UpsertSignature` | packages/learning/src/knowledge-base.ts:143-159 | The signature table becomes `Upserted`; the other tables are unchanged |
| `KnowledgeStore.KnowledgeBase.GetSignature` | packages/learning/src/knowledge-base.ts:161-167 | The row with that id, or none when there is none |
| `KnowledgeStore.KnowledgeBase.GetSignatureByElementId` | packages/learning/src/knowledge-base.ts:169-175 | The element's most recently seen row |
| `KnowledgeStore.KnowledgeBase.IncrementSuccess` | packages/learning/src/knowledge-base.ts:177-182 | The success counter of the named row rises by one; nothing else changes |
| `KnowledgeStore.KnowledgeBase.IncrementFail` | packages/learning/src/knowledge-base.ts:184-189 | The fail counter of the named row rises by one; nothing else changes |
| `KnowledgeStore.KnowledgeBase.RecordAttempt` | packages/learning/src/knowledge-base.ts:192-200 | Appends exactly one attempt row with the next id; existing rows and other tables unchanged |
| `KnowledgeStore.KnowledgeBase.GetRecentAttempts` | packages/learning/src/knowledge-base.ts:202-208 | The query `AttemptsOfSpec` describes |
| `KnowledgeStore.KnowledgeBase.RecordFailure` | packages/learning/src/knowledge-base.ts:211-221 | Appends exactly one failure row with the next id and returns 1; other tables unchanged |
| `KnowledgeStore.KnowledgeBase.GetFailuresByType` | packages/learning/src/knowledge-base.ts:223-229 | The query `OpenFailuresOfSpec` describes |
| `KnowledgeStore.KnowledgeBase.MarkFailureResolved` | packages/learning/src/knowledge-base.ts:231-236 | The failure table becomes `Resolve(old, id)`; other tables unchanged |
| `KnowledgeStore.KnowledgeBase.RecordTestRun` | packages/learning/src/knowledge-base.ts:239-261 | The read-then-insert-or-rewrite gives `RunRecorded`; other tables unchanged; the flaky aggregates stay consistent |
| `KnowledgeStore.KnowledgeBase.GetFlakyTests` | packages/learning/src/knowledge-base.ts:263-269 | The query `FlakyOfSpec` describes |
| `Text.RoundPercent` | packages/generator/src/coverage-engine.ts:94-104 | The percentage is 0 when the total is 0; otherwise it is the integer nearest to 100·covered/total (halves rounded up), at most 100 when covered ≤ total |
| `Text.RoundPercentMonotone` | packages/generator/src/coverage-engine.ts:94-104 | A larger covered count never gives a smaller percentage |
| `CoverageEngine.PathOf` | packages/generator/src/coverage-engine.ts:20-21 | The path (base with its trailing slash removed, then the query dropped) is never empty: nothing left reads as '/' |
| `CoverageEngine.NodeIdFromUrl` | packages/generator/src/coverage-engine.ts:19-26 | The id of the first node whose route equals the path, whose url equals the URL, or whose url prefixes it; none exactly when no node matches |
| `CoverageEngine.Compute` | packages/generator/src/coverage-engine.ts:29-111 | Totals are over route nodes only; covered counts are the sizes of the collected sets; each percentage is the rounded ratio (0 for a zero total); assertions and flows are the collected counters; nodeIds lists each covered node once, in first-coverage order |
| `CoverageEngine.CoverTests` | packages/generator/src/coverage-engine.ts:47-78 | The loop over a suite's tests extends the tally exactly as the specification tally does |
| `CoverageEngine.CoverSteps` | packages/generator/src/coverage-engine.ts:50-70 | The loop over a test's steps extends the tally exactly as the specification tally of the flow does |
| `CoverageEngine.CoverStep` | packages/generator/src/coverage-engine.ts:51-69 | One step adds the node it navigates to, the element it interacts with and, for a fill, the key of the route form owning that element, and nothing else |
| `CoverageEngine.CoverAssertions` | packages/generator/src/coverage-engine.ts:72-77 | The loop over a test's assertions counts each one and adds each element target's id |
| `CoverageEngine.CoverTest` | packages/generator/src/coverage-engine.ts:48-77 | One test: flows +1 for two or more steps; navigate steps add the matched node; click/fill/select/check/hover with a target add elementId(target), and a fill adds the form key of the first route node and form owning it; each assertion adds 1 and its element's id |
| `CoverageEngine.CoverFormsByField` | packages/generator/src/coverage-engine.ts:81-91 | The second pass adds every route form with a field whose selector is in the covered-element set |
| `CoverageEngine.DedupAddNew` | packages/generator/src/coverage-engine.ts:51-54 | Adding a node id to the covered set appends it to the iteration order exactly when it is new: the order stays the first occurrences of all ids added |
| `CoverageEngine.StepsTallyOrder` | packages/generator/src/coverage-engine.ts:50-70 | Over a test's steps, the covered-node order is the first occurrences of every node navigated to so far, and holds exactly the covered set |
| `CoverageEngine.TestsTallyOrder` | packages/generator/src/coverage-engine.ts:46-79 | Over the plan's tests, the covered-node order is the first occurrences of the navigated nodes, in test and step order, and holds exactly the covered set |
| `CoverageEngine.CoveredNodeOrder` | packages/generator/src/coverage-engine.ts:96 | `Array.from(coveredNodeIds)` lists each covered node once, in the order the tests first navigate to it |
| `CoverageEngine.MeetsTarget` | packages/generator/src/coverage-engine.ts:113-120 | True exactly when every goal present in the target is reached; absent goals are ignored |
| `CoverageEngine.StepsTallyGrows` | packages/generator/src/coverage-engine.ts:50-70 | Steps only add to the sets and leave the counters alone |
| `CoverageEngine.AssertionsTallyGrows` | packages/generator/src/coverage-engine.ts:72-77 | Assertions add their number to the assertion count and only grow the element set |
| `CoverageEngine.TestTallyGrows` | packages/generator/src/coverage-engine.ts:47-78 | One test only grows the tally |
| `CoverageEngine.TestsTallyAppendGrows` | packages/generator/src/coverage-engine.ts:46-79 | More tests only grow the tally |
| `CoverageEngine.FormsWithCoveredFieldMonotone` | packages/generator/src/coverage-engine.ts:83-90 | More covered elements never un-cover a form of a node |
| `CoverageEngine.RoutesWithCoveredFieldMonotone` | packages/generator/src/coverage-engine.ts:82-91 | More covered elements never un-cover a form |
| `CoverageEngine.AllTestsAppend` | packages/generator/src/coverage-engine.ts:46-47 | The tests of appended suites follow the tests of the earlier ones |
| `CoverageEngine.PlanTallyMonotone` | packages/generator/src/coverage-engine.ts:40-91 | Appending suites to a plan never loses a covered node, element or form, nor lowers a counter |
| `CoverageEngine.CoverageMonotone` | packages/generator/src/coverage-engine.ts:36-107 | Appending suites never lowers any percentage, the assertion count or the flow count, since totals depend only on the graph |
| `CoverageEngine.StepsTallyNodes` | packages/generator/src/coverage-engine.ts:50-55 | A node is collected exactly when it was before or some navigate step maps to it |
| `CoverageEngine.TestTallyNodes` | packages/generator/src/coverage-engine.ts:48-55 | One test adds to the covered nodes exactly the nodes its flow navigates to |
| `CoverageEngine.NavigatedNodeInGraph` | packages/generator/src/coverage-engine.ts:51-54 | A navigate step covers only a node of the graph, and only under a non-empty id |
| `CoverageEngine.TestsTallyNodes` | packages/generator/src/coverage-engine.ts:46-55 | A node is collected exactly when some test navigates to it |
| `CoverageEngine.CoveredNodeMeaning` | packages/generator/src/coverage-engine.ts:51-55 | A node is covered exactly when some test navigates to it, and covered ids are non-empty ids of graph nodes |
| `CoverageEngine.FilledFormKeySound` | packages/generator/src/coverage-engine.ts:62-67 | A fill step's form key names a form of a route node |
| `CoverageEngine.StepsTallyFormKeys` | packages/generator/src/coverage-engine.ts:62-67 | Steps add only keys of route-node forms |
| `CoverageEngine.TestsTallyFormKeys` | packages/generator/src/coverage-engine.ts:46-79 | The first pass collects only keys of route-node forms |
| `CoverageEngine.FormsWithCoveredFieldSound` | packages/generator/src/coverage-engine.ts:83-90 | The second pass over one node adds only keys of its forms |
| `CoverageEngine.RoutesWithCoveredFieldSound` | packages/generator/src/coverage-engine.ts:82-91 | The second pass adds only keys of route-node forms |
| `CoverageEngine.CoveredFormsAreRouteForms` | packages/generator/src/coverage-engine.ts:40-91 | Every covered form key, from either pass, names a form of a route node |
| `CoverageEngine.TallyCounts` | packages/generator/src/coverage-engine.ts:48-73 | flows counts the tests with at least two steps; assertions counts every assertion of every test |
| `Orchestrator.ResolveGoals` | packages/generator/src/orchestrator.ts:45-51 | Each goal comes from the option, else the configuration, else the defaults 90/70/80/2/3 |
| `Orchestrator.DefaultGoalsResolve` | packages/generator/src/orchestrator.ts:45-51 | With neither options nor configuration the goals are 90/70/80/2/3 |
| `Orchestrator.TestCountAppend` | packages/generator/src/orchestrator.ts:91 | The test count of appended suites adds up |
| `Orchestrator.TestCountOne` | packages/generator/src/orchestrator.ts:91 | One suite contributes its number of tests |
| `Orchestrator.PrefixGrows` | packages/generator/src/orchestrator.ts:101-136 | Appending suites never lowers the test count or any coverage figure |
| `Orchestrator.PushSuite` | packages/generator/src/orchestrator.ts:102-132 | A push appends exactly one suite and adds its tests to `added` and to the plan's count |
| `Orchestrator.AddSmoke` | packages/generator/src/orchestrator.ts:99-106 | The smoke suite is appended only when smoke is requested, not yet added, and routes% is below goal; the flag records it |
| `Orchestrator.AddForms` | packages/generator/src/orchestrator.ts:108-120 | A form suite is appended only while forms% is below goal and the (seed-42, hence always identical) form tests are non-empty |
| `Orchestrator.AddJourneys` | packages/generator/src/orchestrator.ts:122-134 | A journey suite is appended only while flows are below goal; then its tests are the journey generator's (`JourneysFound`): valid journeys of at most 5 nodes with distinct keys, none for a graph without edges, and, below the 25-journey cap with arrow-free route ids, every edge between route nodes walked as far as the step budget allows, so with arrow-free ids the suite is missing only when no edge joins two route nodes |
| `Orchestrator.Iterate` | packages/generator/src/orchestrator.ts:97-134 | One loop body appends the smoke, form and journey parts in that order and nothing else; the journey part holds the generator's tests as `JourneysFound` says whenever flows are below goal; `added` is the number of tests appended |
| `Orchestrator.SnapshotsExtend` | packages/generator/src/orchestrator.ts:136 | Recording the recomputed snapshot keeps every recorded snapshot the engine's snapshot of its plan |
| `Orchestrator.TraceExtend` | packages/generator/src/orchestrator.ts:85-140 | A completed iteration extends the run's history |
| `Orchestrator.RunOrchestrator` | packages/generator/src/orchestrator.ts:40-147 | The plan is the empty plan (version 6.0.0, seed option or clock, route-node count) with the loop's suites; at most 10 iterations, each starting below the goals and the test cap and appending as `StepOk` says; every iteration but the last added at least one test, and stopping early only when the goals are met, the cap is reached, or the last iteration added no test; at most one smoke suite |
| `Orchestrator.Loop` | packages/generator/src/orchestrator.ts:81-140 | The `while` loop: history as above (every iteration but the last added a test), at most 10 iterations, early exit only for one of the three reasons |
| `Orchestrator.LoopEnd` | packages/generator/src/orchestrator.ts:85-139 | The invariant (every iteration so far but the last added a test; a stop has one of the three reasons) and the exit condition give the loop's contract, including that only the last iteration may add nothing |
| `Orchestrator.LoopStart` | packages/generator/src/orchestrator.ts:81-83 | Before the first iteration the history is the empty plan and its snapshot |
| `Orchestrator.Step` | packages/generator/src/orchestrator.ts:85-140 | One pass: the two breaks (target met, test cap), leaving the suites unchanged, or a full iteration, which stops the loop exactly when it added no test and otherwise strictly raises the test count |
| `Orchestrator.Advance` | packages/generator/src/orchestrator.ts:97-137 | An iteration past the two breaks extends the history by its plan and recomputed snapshot |
| `Orchestrator.Snapshot` | packages/generator/src/orchestrator.ts:82-136 | The snapshot the loop reads is the coverage engine's snapshot of the current plan |
| `Orchestrator.RunGrows` | packages/generator/src/orchestrator.ts:101-136 | Across a run the test count and every coverage figure never decrease |
| `Orchestrator.ChainGrows` | packages/generator/src/orchestrator.ts:85-140 | Growth from each iteration to the next chains to growth between any two |
| `Orchestrator.StepGrows` | packages/generator/src/orchestrator.ts:97-136 | One iteration does not lower the test count or any coverage figure |
| `Orchestrator.AppendGrows` | packages/generator/src/orchestrator.ts:101-136 | Appending three parts to a plan does not lower its test count or its snapshot's figures |
| `Orchestrator.SmokeKept` | packages/generator/src/orchestrator.ts:83-106 | An iteration keeps at most one smoke suite; afterwards there is one iff there was one or it was wanted |
| `Orchestrator.SmokeAppend` | packages/generator/src/orchestrator.ts:99-134 | Appending the smoke suite only when there is none, then regression suites, keeps at most one smoke suite |
| `FormGenerator.JsRem` | packages/generator/src/form-generator.ts:207-208 | JavaScript `%`: the remainder takes the dividend's sign, so it lies in [0, b) for a non-negative dividend and in (-b, 0] otherwise |
| `FormGenerator.NextNumberInRange` | packages/generator/src/form-generator.ts:204-209 | For seed ≥ 0 and min ≤ max the number min + ((seed·9301 + sequence·49297) mod 233280) mod (max−min+1) lies in [min, max] |
| `FormGenerator.FillSteps` | packages/generator/src/form-generator.ts:48-57 | One fill step per field |
| `FormGenerator.DrawsAt` | packages/generator/src/form-generator.ts:48-57 | The k-th fill step is built from the k-th field at sequence position s + 5·k: fields are filled in order, each drawing its five numbers after the previous field's |
| `FormGenerator.FormsTestsSnoc` | packages/generator/src/form-generator.ts:27-38 | The tests of one more form follow the earlier forms' tests, continuing the sequence |
| `FormGenerator.ValidValueMeaning` | packages/generator/src/form-generator.ts:187-202 | Every valid value is non-empty; for seed ≥ 0 an email value is `user<10..99>@example.com` and a number value lies in 1..99 |
| `FormGenerator.PositiveTestShape` | packages/generator/src/form-generator.ts:45-78 | The positive test is a navigate, then for each field k in order the fill step of that field at position s + 5·k (a select for select fields, on the field's primary selector, with its drawn valid value), then a submit click iff the form has a submit button |
| `FormGenerator.InvalidTestsMeaning` | packages/generator/src/form-generator.ts:101-133 | An invalid-email test exists iff the form has an email field; it fills the first email field with `invalid-email-format` |
| `FormGenerator.BoundaryTestsMeaning` | packages/generator/src/form-generator.ts:135-164 | One boundary test per field with maxLength ≥ 1, filling it with 'x' repeated maxLength+1 times |
| `FormGenerator.FormGenerator.constructor` | packages/generator/src/form-generator.ts:15-17 | A new generator has seed 42 and sequence 0 |
| `FormGenerator.FormGenerator.Generate` | packages/generator/src/form-generator.ts:19-43 | The seed is reset to the option (default 42) and the sequence to 0, so the tests are `FormTests(graph, options, hash)`, a function of the inputs only: two calls with the same seed give identical ids and values |
| `FormGenerator.FormGenerator.GenerateNodeTests` | packages/generator/src/form-generator.ts:27-38 | The tests of a node's forms, in form order, and the sequence after them |
| `FormGenerator.FormGenerator.GenerateFormTests` | packages/generator/src/form-generator.ts:28-37 | Positive, empty, invalid (unless switched off) and boundary (unless switched off) tests, in that order; the sequence advances by 5 per field |
| `FormGenerator.FormGenerator.NextDeterministicNumber` | packages/generator/src/form-generator.ts:204-209 | The sequence advances by exactly 1 and the number is the LCG draw at the new position |
| `FormGenerator.FormGenerator.GenerateValidValue` | packages/generator/src/form-generator.ts:187-202 | The whole table is built eagerly, so the sequence advances by exactly 5 whatever the field type |
| `FormGenerator.FormGenerator.GenerateFillSteps` | packages/generator/src/form-generator.ts:48-57 | One fill step per field in order; the sequence advances by 5 per field |
| `FormGenerator.FormGenerator.GenerateFillStep` | packages/generator/src/form-generator.ts:49-56 | One field's step with its freshly drawn value |
| `FormGenerator.FormGenerator.GeneratePositiveTest` | packages/generator/src/form-generator.ts:45-78 | The positive test `PositiveTestShape` describes |
| `FormGenerator.FormGenerator.GenerateBoundaryTests` | packages/generator/src/form-generator.ts:135-164 | The boundary tests `BoundaryTestsMeaning` describes |
| JourneyGenerator.ById | packages/generator/src/journey-generator.ts:29-30 | the route-node map keys every node by its own id and contains every route node |
| JourneyGenerator.EdgesFrom | packages/generator/src/journey-generator.ts:31-35 | the out-edges of a node are exactly the graph edges leaving it, in graph order |
| JourneyGenerator.EdgesFromSnoc | packages/generator/src/journey-generator.ts:32-35 | appending an edge extends only the out-edge list of its source node |
| JourneyGenerator.BuildOutEdges | packages/generator/src/journey-generator.ts:31-35 | the out-edge map has an entry exactly for nodes with an outgoing edge, holding those edges in order |
| JourneyGenerator.JourneyAssertions | packages/generator/src/journey-generator.ts:131-164 | one URL-contains assertion per path node, in path order, on the node route or / |
| JourneyGenerator.JourneyStepsShape | packages/generator/src/journey-generator.ts:119-165 | a journey over n nodes starts by navigating to the first node URL, has between n and 2n-1 steps and ends on a wait |
| JourneyGenerator.JourneyTestShape | packages/generator/src/journey-generator.ts:112-176 | a path of two or more known nodes yields a test whose tags record the path, with one URL assertion per node, high priority exactly above two nodes and 2000 ms per step |
| JourneyGenerator.BuildJourneyTest | packages/generator/src/journey-generator.ts:112-177 | the loop builds exactly the journey test of the path, and none when it is shorter than two nodes or meets an unknown node |
| JourneyGenerator.JourneyParts | packages/generator/src/journey-generator.ts:115-165 | the loop stops exactly when the path has a node missing from the map; otherwise it yields the journey's steps, URL assertions and node names |
| JourneyGenerator.AppendNode | packages/generator/src/journey-generator.ts:120-164 | one pass adds the node's name, its navigate step (first node) or its optional trigger click and wait, and its URL assertion, extending the parts of the path one node further |
| JourneyGenerator.JourneyTestPath | packages/generator/src/journey-generator.ts:112-173 | a built journey records its own path in its tags and names only known nodes |
| JourneyGenerator.EmittedKnown | packages/generator/src/journey-generator.ts:79-80 | every journey emitted below a node names only known nodes up to that node |
| JourneyGenerator.EmittedLift | packages/generator/src/journey-generator.ts:94-108 | a journey emitted by the recursive walk into a neighbour is one emitted by the walk from the node itself |
| JourneyGenerator.HopEmitted | packages/generator/src/journey-generator.ts:98-106 | the two-hop journey pushed inside the edge loop extends the path along an out-edge within the length bound |
| JourneyGenerator.LeafEmitted | packages/generator/src/journey-generator.ts:83-90 | the journey pushed where the walk stops extends the path within the length bound |
| JourneyGenerator.PushLeaf | packages/generator/src/journey-generator.ts:83-91 | where the walk stops, adds at most one journey, never one whose key was already seen, ending at that stopping node; records its key, which is seen afterwards whenever the path's nodes are all known; every key it records is a collected journey's |
| JourneyGenerator.PushHop | packages/generator/src/journey-generator.ts:96-107 | adds at most one two-hop journey, records its key, and leaves the key seen whenever the path is buildable; every key it records is a collected journey's |
| JourneyGenerator.WalkEdge | packages/generator/src/journey-generator.ts:94-109 | one edge iteration only appends journeys emitted below the node, with fresh and pairwise distinct keys; when not stopped, the hop through the edge and the walk into its target have done their work |
| JourneyGenerator.Walk | packages/generator/src/journey-generator.ts:64-110 | the walk only appends journeys that extend the path along out-edges, within the step and key bounds, with keys not seen before and pairwise distinct; it adds nothing when stopped or when its key was seen; otherwise its work is done: the path's journey where it stops, else the two-hop journey and the walk through every out-edge to a known node |
| JourneyGenerator.WalkFrom | packages/generator/src/journey-generator.ts:46-57 | a walk from a fresh start keeps every collected journey valid and every key distinct, adds only journeys that start at the start node, adds nothing when the journey budget is spent, and otherwise finishes the start node's walk |
| JourneyGenerator.CollectedValid | packages/generator/src/journey-generator.ts:46-61 | every collected journey is a valid journey of the graph |
| JourneyGenerator.PathValid | packages/generator/src/journey-generator.ts:64-110 | a journey whose path follows out-edges within the bound is a valid journey: 2 to min(3, maxSteps) route nodes joined by graph edges |
| JourneyGenerator.RoutePath | packages/generator/src/journey-generator.ts:29-30 | every node of a path known to the route map is a route node of the graph |
| JourneyGenerator.LinkedEdgePath | packages/generator/src/journey-generator.ts:31-35 | a path that follows the out-edge map follows edges of the graph |
| JourneyGenerator.Generate | packages/generator/src/journey-generator.ts:23-62 | no edges gives no tests and no walks, no budget no tests; every test is a journey over 2 to 3 route nodes (at most maxSteps) joined by graph edges, no two share a path key; the walks run from the start nodes, then every route node, each begun with fewer than maxJourneys tests and adding a consecutive run of tests that start at its node; the run stops early only at the cap; ending below the cap (maxSteps >= 2, ids free of "->"), every edge s -> n between route nodes has its journey s, n when the walk stops at n, and s, n, m for every edge n -> m otherwise |
| JourneyGenerator.WalkNodes | packages/generator/src/journey-generator.ts:46-57 | either loop of generate: one walk per node, in order, each begun below the cap, stopping early only once maxJourneys tests exist |
| JourneyGenerator.WalkStep | packages/generator/src/journey-generator.ts:47-49 | one walk begun below the cap runs unstopped, adds a run of tests starting at its node, finishes that node's walk, and keeps every collected journey valid and every key distinct |
| JourneyGenerator.ScheduledSnoc | packages/generator/src/journey-generator.ts:46-57 | a walk begun below the cap whose new tests start at its node extends the schedule of walks |
| JourneyGenerator.Finished | packages/generator/src/journey-generator.ts:23-62 | the state both loops leave gives generate's promises: valid journeys, distinct keys, the schedule, and completeness below the cap |
| JourneyGenerator.InOrderExtend | packages/generator/src/journey-generator.ts:51-57 | walks that follow the start nodes also follow the start nodes and then the route nodes |
| JourneyGenerator.OrderOfWalks | packages/generator/src/journey-generator.ts:44-57 | the first loop's nodes followed by the second loop's are the order of all walks |
| JourneyGenerator.KeyHasArrow | packages/generator/src/journey-generator.ts:77 | the key of two or more nodes holds "->", so it is never an id without one |
| JourneyGenerator.TailKey | packages/generator/src/journey-generator.ts:77 | the key of a path's tail is its second node alone exactly when the path has two nodes |
| JourneyGenerator.ArrowSplit | packages/generator/src/journey-generator.ts:77 | in x + "->" + y with x free of "->", x and y are determined |
| JourneyGenerator.KeyInjective | packages/generator/src/journey-generator.ts:77-78 | two paths of two or three nodes free of "->" with the same key are the same path |
| JourneyGenerator.StartUnseen | packages/generator/src/journey-generator.ts:77-78 | an id free of "->" is never a collected journey's key, so a fresh start is never skipped as seen |
| JourneyGenerator.WalkDoneGrows | packages/generator/src/journey-generator.ts:76-110 | a walk whose work is done stays done when more keys are seen |
| JourneyGenerator.AppendedTwice | packages/generator/src/journey-generator.ts:94-109 | two successive appends below a node make one |
| JourneyGenerator.ChildAppended | packages/generator/src/journey-generator.ts:108 | what the walk into a neighbour appends is appended by the walk from the start node |
| JourneyGenerator.EdgeLoopDone | packages/generator/src/journey-generator.ts:94-109 | after each edge iteration, every edge handled so far has done its work |
| JourneyGenerator.AllEdgesDone | packages/generator/src/journey-generator.ts:83-109 | at an inner node, the work of every out-edge to a known node is the walk's whole work |
| JourneyGenerator.OutEdgeFacts | packages/generator/src/journey-generator.ts:31-35 | a graph edge is an out-edge, and a node reached second stops the walk exactly when maxSteps <= 2 or no edge leaves it |
| JourneyGenerator.CollectedIndexed | packages/generator/src/journey-generator.ts:46-61 | the collected journeys' paths have two or three known nodes, two-node journeys end where the walk stops, and each seen key is a journey's key |
| JourneyGenerator.SeenPath | packages/generator/src/journey-generator.ts:84-104 | a seen key of a path free of "->" means that path's journey was collected |
| JourneyGenerator.TwoKeyLeaf | packages/generator/src/journey-generator.ts:83-90 | a collected two-node journey ends at a node where the walk stops |
| JourneyGenerator.StartEdgeDone | packages/generator/src/journey-generator.ts:94-109 | from a start, the work through an edge is the two-node journey or the hops beyond its target |
| JourneyGenerator.LeafJourney | packages/generator/src/journey-generator.ts:83-90 | where the walk from s stops at n, the journey s, n is collected |
| JourneyGenerator.HopJourney | packages/generator/src/journey-generator.ts:98-106 | through an inner node n, the journey s, n, m is collected for an edge n -> m |
| JourneyGenerator.HopJourneys | packages/generator/src/journey-generator.ts:94-106 | through an inner node n, every journey s, n, m along an edge is collected |
| JourneyGenerator.EdgeJourneys | packages/generator/src/journey-generator.ts:83-109 | a finished walk from s collects, for an edge s -> n, s, n when the walk stops at n, else every s, n, m |
| JourneyGenerator.CompleteFromWalks | packages/generator/src/journey-generator.ts:23-62 | when every route node's walk is done, the journeys are complete |
| JourneyGenerator.AllWalked | packages/generator/src/journey-generator.ts:51-57 | after a walk from every node in order, every route node's walk is done |
| JourneyGenerator.RouteWalked | packages/generator/src/journey-generator.ts:51-57 | the second loop walks every route node, so its walk is done |
| JourneyGenerator.WalkOrderAt | packages/generator/src/journey-generator.ts:44-57 | every route node has a place among the walks' nodes |
| SmokeGenerator.FindPrimaryButton | packages/generator/src/smoke-generator.ts:185-196 | the keyword loop with early return picks exactly the button the keyword-priority specification picks |
| SmokeGenerator.PrimaryButtonAmongIsButton | packages/generator/src/smoke-generator.ts:185-196 | a primary button is found exactly when the node has a button, and it is one of the node's buttons |
| SmokeGenerator.PrimaryButtonAmongEarliest | packages/generator/src/smoke-generator.ts:188-193 | when the i-th keyword is the first any button matches, the primary button is the first button matching it, ignoring case |
| SmokeGenerator.PrimaryButtonAmongFallback | packages/generator/src/smoke-generator.ts:195 | when no keyword matches, the primary button is the first button, or none |
| SmokeGenerator.HasButtonHasPrimary | packages/generator/src/smoke-generator.ts:185-196 | every route node with a button has a primary button |
| SmokeGenerator.ButtonTests | packages/generator/src/smoke-generator.ts:20-23 | one primary-action test per route node with a button |
| SmokeGenerator.FormTests | packages/generator/src/smoke-generator.ts:25-28 | one form-visibility test per route node with a form |
| SmokeGenerator.Generate | packages/generator/src/smoke-generator.ts:10-58 | a one-suite plan holding the page-load, primary-action and form tests in that order, with the route, interactive-element and assertion targets and the given seed or else the clock |
| SmokeGenerator.PushVisibilityTests | packages/generator/src/smoke-generator.ts:15-18 | the first loop appends one page-load test per route node, in graph order |
| SmokeGenerator.PushButtonTests | packages/generator/src/smoke-generator.ts:20-23 | the second loop appends one primary-action test per route node with a button, in graph order |
| SmokeGenerator.PushFormTests | packages/generator/src/smoke-generator.ts:25-28 | the third loop appends one form-visibility test per route node with a form, in graph order |
| SmokeGenerator.VisibilityTestShape | packages/generator/src/smoke-generator.ts:60-107 | the page-load test navigates then waits, asserts on a heading exactly when the node has one, and ends with the URL-contains check on the route or / |
| SmokeGenerator.PrimaryButtonTestTargetsButton | packages/generator/src/smoke-generator.ts:109-146 | on a node with a button, the primary-action test clicks one of the node's buttons |
| A11yGenerator.PairwiseAppend | packages/generator/src/a11y-generator.ts:13-33 | the per-kind correspondence of tests survives concatenation |
| A11yGenerator.FilterNonEmpty | packages/generator/src/a11y-generator.ts:23-30 | a filter is non-empty exactly when some element satisfies its predicate |
| A11yGenerator.ImagePartShape | packages/generator/src/a11y-generator.ts:22-26 | the image test is emitted exactly when the node has an element with role img |
| A11yGenerator.InteractivePartShape | packages/generator/src/a11y-generator.ts:28-32 | the accessible-name test is emitted exactly when the node has a button or link |
| A11yGenerator.NodeTestsShape | packages/generator/src/a11y-generator.ts:13-33 | a route node's tests are heading, then form labels if it has a form, then images, then interactive names, each a single navigate step tagged with its kind |
| A11yGenerator.HeadingTestAssertions | packages/generator/src/a11y-generator.ts:39-79 | the heading test checks the URL first, and the first heading exactly when the node has one |
| A11yGenerator.FormLabelPriority | packages/generator/src/a11y-generator.ts:81-112 | the form-label test is high priority exactly when a field of the first form has neither label nor placeholder, else low |
| A11yGenerator.ImageAltPriority | packages/generator/src/a11y-generator.ts:114-136 | the image test is high priority exactly when some image's alt text is missing or blank, else low |
| A11yGenerator.InteractiveNamePriority | packages/generator/src/a11y-generator.ts:138-160 | the accessible-name test is medium priority exactly when a button or link has no name, text or aria-label, else low |
| A11yGenerator.PushNodeTests | packages/generator/src/a11y-generator.ts:14-32 | the four conditional pushes for one route node append exactly that node's tests |
| A11yGenerator.A11yTestsSnoc | packages/generator/src/a11y-generator.ts:13-33 | the tests of one more route node extend the earlier ones |
| A11yGenerator.Generate | packages/generator/src/a11y-generator.ts:9-37 | the tests of every route node, node by node in graph order |
| A11yGenerator.AtLeastOnePerRoute | packages/generator/src/a11y-generator.ts:13-15 | at least one test per route node |
| CrudGenerator.SegmentRun | packages/generator/src/crud-generator.ts:70 | the longest prefix made of word characters and hyphens: every character of it is one, and the next is not |
| CrudGenerator.FirstSegmentSpec | packages/generator/src/crud-generator.ts:70 | the entity pattern matches exactly when some slash is directly followed by a word character or hyphen, and captures the whole run after the leftmost such slash |
| CrudGenerator.HyphensToSpaces | packages/generator/src/crud-generator.ts:71 | every hyphen becomes a space and every other character is kept |
| CrudGenerator.EntityName | packages/generator/src/crud-generator.ts:69-73 | the first path segment with hyphens as spaces; otherwise the node name up to its first space; otherwise Item; never empty |
| CrudGenerator.ScreensExactly | packages/generator/src/crud-generator.ts:45-63 | a route node is a CRUD screen exactly when one of its four flags holds, and each screen carries its node's flags and entity |
| CrudGenerator.DetectScreens | packages/generator/src/crud-generator.ts:35-67 | the detection loop returns exactly the screens among the route nodes, in graph order |
| CrudGenerator.TestValueFallback | packages/generator/src/crud-generator.ts:239-249 | exactly the six known field types get a value of their own; every other type gets Test Value |
| CrudGenerator.FieldStepsInOrder | packages/generator/src/crud-generator.ts:100-110 | one step per field of the first form in field order, a select for select fields and a fill otherwise, on the field's primary selector with its test value |
| CrudGenerator.ScreenTestsShape | packages/generator/src/crud-generator.ts:16-29 | one test per true flag, in the order create, read, update, delete, each tagged crud and its operation |
| CrudGenerator.PairwiseAppend | packages/generator/src/crud-generator.ts:16-29 | the per-operation correspondence of tests survives concatenation |
| CrudGenerator.ScreenOfHasTests | packages/generator/src/crud-generator.ts:16-62 | every detected screen yields at least one test |
| CrudGenerator.FirstButtonFound | packages/generator/src/crud-generator.ts:85-87 | a button is found exactly when the node has a button whose text says one of the words, and the one found does |
| CrudGenerator.CreateTestShape | packages/generator/src/crud-generator.ts:75-131 | the create test navigates, clicks the first create button if there is one, fills each field of the first form in order, and ends on the submit click exactly when the form has a submit button |
| CrudGenerator.PushFieldSteps | packages/generator/src/crud-generator.ts:102-110 | the field loop appends exactly the field steps, in field order |
| CrudGenerator.BuildCreateTest | packages/generator/src/crud-generator.ts:75-131 | the step-pushing construction builds exactly the create test |
| CrudGenerator.PushScreenTests | packages/generator/src/crud-generator.ts:17-28 | the four conditional pushes for one screen append exactly that screen's tests |
| CrudGenerator.Generate | packages/generator/src/crud-generator.ts:9-33 | the tests of every detected screen, screen by screen in graph order |
| GraphBuilder.Build | packages/agent/src/graph/app-graph-builder.ts:9-46 | build returns exactly the graph the builder specification describes |
| GraphBuilder.SignaturesOfKeys | packages/agent/src/graph/app-graph-builder.ts:17-24 | there is a signature for exactly the node ids |
| GraphBuilder.SignaturesOfLatest | packages/agent/src/graph/app-graph-builder.ts:19-24 | of several nodes with one id, the signature of the last one is kept |
| GraphBuilder.SumByAppend | packages/agent/src/graph/app-graph-builder.ts:29-30 | element and form sums add up over concatenated node lists |
| GraphBuilder.BuildSpec | packages/agent/src/graph/app-graph-builder.ts:9-46 | a built graph carries the current format version, one signature per node id (the last node with an id wins), the node and edge counts, the element and form sums, and a missing crawl duration counts as 0 |
| GraphBuilder.MergeElements | packages/agent/src/graph/app-graph-builder.ts:90-97 | the keyed loop returns exactly the merged element list |
| GraphBuilder.MergedElementsSpec | packages/agent/src/graph/app-graph-builder.ts:90-97 | merged elements keep every key of both lists once, carried by the first element with it, in order of first occurrence |
| GraphBuilder.MergeNodesSnoc | packages/agent/src/graph/app-graph-builder.ts:61-69 | one more node either adds a node with a new id or merges its elements into the node already stored under its id |
| GraphBuilder.MergeNodesShape | packages/agent/src/graph/app-graph-builder.ts:60-83 | the merged nodes are the first node per id, apart from their elements |
| GraphBuilder.MergeNodesIds | packages/agent/src/graph/app-graph-builder.ts:60-83 | the merged node ids are exactly the ids seen, each once |
| GraphBuilder.MergeNodesFirst | packages/agent/src/graph/app-graph-builder.ts:60-83 | merged nodes come in order of first occurrence of their ids |
| GraphBuilder.ElementsWithIdAbsent | packages/agent/src/graph/app-graph-builder.ts:60-69 | an id no node carries has no elements |
| GraphBuilder.ElementsWithIdSnoc | packages/agent/src/graph/app-graph-builder.ts:60-69 | the elements gathered for an id grow only by nodes with that id |
| GraphBuilder.MergeNodesNewId | packages/agent/src/graph/app-graph-builder.ts:62-63 | a node with a new id leaves every stored node untouched |
| GraphBuilder.MergeNodesKnownId | packages/agent/src/graph/app-graph-builder.ts:64-68 | a node with a known id changes only the stored node with that id |
| GraphBuilder.MergeNodesElementKeys | packages/agent/src/graph/app-graph-builder.ts:60-97 | a merged node has exactly the element keys of all nodes with its id |
| GraphBuilder.MergeNodesElementsFrom | packages/agent/src/graph/app-graph-builder.ts:60-97 | a merged node holds only elements of nodes with its id |
| GraphBuilder.Merge | packages/agent/src/graph/app-graph-builder.ts:51-88 | no graphs is an error, one graph is returned as is, and two or more give the merged graph built from the first graph's name, base URL and framework, the merged nodes, the edges without repeated keys and the summed crawl durations |
| GraphBuilder.MergeGraphNodes | packages/agent/src/graph/app-graph-builder.ts:61-69 | the inner node loop keeps the stored nodes equal to the merge of every node seen so far and the id index pointing at them |
| GraphBuilder.MergeNode | packages/agent/src/graph/app-graph-builder.ts:62-68 | one step of the node loop: a known id merges into the stored node, a new one is stored at the end |
| GraphBuilder.IndexFindsFirst | packages/agent/src/graph/app-graph-builder.ts:56-66 | the position stored for an id is the first merged node with it |
| GraphBuilder.IndexOkUpdate | packages/agent/src/graph/app-graph-builder.ts:66-67 | replacing a stored node's elements keeps the id index valid |
| GraphBuilder.IndexOkAppend | packages/agent/src/graph/app-graph-builder.ts:62-63 | storing a node with a new id at the end keeps the id index valid |
| GraphBuilder.MergeGraphEdges | packages/agent/src/graph/app-graph-builder.ts:71-77 | the inner edge loop keeps the first edge per key and the set of keys seen |
| GraphBuilder.MergedEdgesSpec | packages/agent/src/graph/app-graph-builder.ts:57-77 | merged edges keep one edge per key, the first, in order of first occurrence, and lose no key |
| GraphBuilder.EdgeKeyCollides | packages/agent/src/graph/app-graph-builder.ts:72 | the edge key is plain text, so two different edges whose ids contain -> can share a key and only the first survives |
| GraphMigrations.NormalizeField | packages/core/src/types/app-graph-migrations.ts:7-22 | a field always ends with constraints and validation hints: stored ones are kept, missing constraints are rebuilt from the numeric and string values stored flat on the field, missing hints become empty, and nothing else changes |
| GraphMigrations.NormalizeRule | packages/core/src/types/app-graph-migrations.ts:24-29 | a rule stored as bare text becomes a pattern rule on field unknown with that text as message; a rule record is kept |
| GraphMigrations.NormalizeFormSpec | packages/core/src/types/app-graph-migrations.ts:31-39 | a missing method becomes POST and a missing action the empty string; missing fields and rules become empty lists; present values are kept field by field and rule by rule, in order |
| GraphMigrations.MigrateSpec | packages/core/src/types/app-graph-migrations.ts:41-52 | the version becomes 6.1.0; node count, order and identity are kept, a node without forms gets none, and edges, signatures and metadata are untouched |
| GraphMigrations.MigrateCompletes | packages/core/src/types/app-graph-migrations.ts:41-52 | every default a current reader expects is present after migration |
| GraphMigrations.FieldsUnchanged | packages/core/src/types/app-graph-migrations.ts:7-22 | fields that already carry both defaults are left as they are |
| GraphMigrations.FormUnchanged | packages/core/src/types/app-graph-migrations.ts:31-39 | a form that already carries every default is left as it is |
| GraphMigrations.NodeUnchanged | packages/core/src/types/app-graph-migrations.ts:45-48 | a node whose forms carry every default is left as it is |
| GraphMigrations.MigrateKeepsMigrated | packages/core/src/types/app-graph-migrations.ts:41-52 | migrating a graph that is already current gives it back unchanged |
| GraphMigrations.MigrateIdempotent | packages/core/src/types/app-graph-migrations.ts:41-52 | migration is idempotent: migrating its result again changes nothing |
| StateSignature.EntryLeOrders | packages/agent/src/crawler/state-signature.ts:11 | comparing entries by key is a total preorder, so the sort is well defined |
| StateSignature.NormalizedStateSorted | packages/agent/src/crawler/state-signature.ts:10-13 | the state is rendered in key order, every entry exactly once, each as key:value joined with a bar |
| StateSignature.InsertKeysDistinct | packages/agent/src/crawler/state-signature.ts:11 | inserting an entry whose key is new keeps the keys distinct |
| StateSignature.SortKeysDistinct | packages/agent/src/crawler/state-signature.ts:11 | sorting entries with distinct keys keeps the keys distinct |
| StateSignature.SortedHeadsEqual | packages/agent/src/crawler/state-signature.ts:11 | two key-sorted lists of the same entries, one with distinct keys, start with the same entry |
| StateSignature.SortedTail | packages/agent/src/crawler/state-signature.ts:11 | the tail of a key-sorted list is key-sorted |
| StateSignature.KeysDistinctTail | packages/agent/src/crawler/state-signature.ts:11 | the tail of a list with distinct keys has distinct keys |
| StateSignature.MultisetTail | packages/agent/src/crawler/state-signature.ts:11 | two lists of the same entries with the same head have tails of the same entries |
| StateSignature.SortedUnique | packages/agent/src/crawler/state-signature.ts:11 | two key-sorted lists of the same entries are equal when the keys are distinct |
| StateSignature.PermutationInvariant | packages/agent/src/crawler/state-signature.ts:9-16 | the order in which the state lists its keys does not change the signature |
| StateSignature.InsertMap | packages/agent/src/crawler/state-signature.ts:11-12 | inserting commutes with a change of value that keeps every key and every rendered value |
| StateSignature.SortMap | packages/agent/src/crawler/state-signature.ts:11-12 | sorting commutes with a change of value that keeps every key and every rendered value |
| StateSignature.SameTextSameSignature | packages/agent/src/crawler/state-signature.ts:12-15 | values that render alike give the same signature |
| StateSignature.NullLikeAsEmpty | packages/agent/src/crawler/state-signature.ts:12 | null, undefined and the empty string are one value to the signature |
| StateSignature.SingleEntryText | packages/agent/src/crawler/state-signature.ts:15 | the hashed text for one entry is route::dom::key:value |
| AIModePresets.ResolveAIMode | packages/core/src/utils/ai-mode.ts:3-6 | an explicit mode wins, then the configured one, then off |
| AIModePresets.ApplyAIMode | packages/core/src/utils/ai-mode.ts:8-59 | off changes nothing; any other mode records itself, turns on deep form extraction, form variants (boundary cases only under autopilot) and self-healing, and caps the heal threshold at 0.75 or 0.85 without raising it; autopilot also lifts each coverage goal to its floor without lowering it and forces parallel execution with at least two workers; nothing else changes |
| AIModePresets.ApplyAIModeIdempotent | packages/core/src/utils/ai-mode.ts:8-59 | applying a preset twice gives what applying it once gives |
| AIModePresets.DefaultPresets | tests/ai-mode.spec.ts:21-41 | on the default configuration, assist keeps boundary cases off and turns healing on; autopilot lifts one worker to two and a 60 percent route goal to 85 |
| Crawler.ElementSelectorTestId | packages/agent/src/crawler/playwright-crawler.ts:128-129 | a test-id selector is chosen exactly when the element has a test id |
| Crawler.ElementSelectorAriaLabel | packages/agent/src/crawler/playwright-crawler.ts:130-131 | an ARIA-label selector is chosen exactly when the element has a label and no test id |
| Crawler.ElementSelectorRole | packages/agent/src/crawler/playwright-crawler.ts:132-138 | the role selector is chosen exactly when there is no test id, no ARIA label and no usable heading, button or link text |
| Crawler.ElementForSpec | packages/agent/src/crawler/playwright-crawler.ts:140-155 | the recorded element takes its role as role and type, its selector is tagged test id exactly when there is a test id, and its name is never empty and missing only when text, ARIA label and name all are |
| Crawler.RoleElements | packages/agent/src/crawler/playwright-crawler.ts:116-156 | one recorded element per element the page lists for the role |
| Crawler.RoleElementsAt | packages/agent/src/crawler/playwright-crawler.ts:116-156 | the i-th recorded element is the one built from the i-th listed element, in page order, and carries the role it was looked up by |
| Crawler.AppendRole | packages/agent/src/crawler/playwright-crawler.ts:116-156 | the inner loop appends the descriptors of at most 20 elements of the role |
| Crawler.ExtractElements | packages/agent/src/crawler/playwright-crawler.ts:107-163 | role after role, the loop records exactly the page's elements the specification lists |
| Crawler.CountRoleAppend | packages/agent/src/crawler/playwright-crawler.ts:107-163 | counts of a role add up over concatenation |
| Crawler.CountRoleElements | packages/agent/src/crawler/playwright-crawler.ts:116 | the elements recorded for a role all have that role |
| Crawler.CountRolesElements | packages/agent/src/crawler/playwright-crawler.ts:110-116 | for distinct roles, each role contributes what the page lists for it, up to the cap |
| Crawler.PageElementsPerRole | packages/agent/src/crawler/playwright-crawler.ts:110-116 | each of the five roles contributes the elements the page lists for it, at most 20; other roles contribute none |
| Crawler.RolesElementsRoles | packages/agent/src/crawler/playwright-crawler.ts:110-111 | every recorded element has one of the looked-up roles |
| Crawler.ConcatRankOrdered | packages/agent/src/crawler/playwright-crawler.ts:110-111 | appending elements of a later role keeps the list grouped by role |
| Crawler.RolesElementsOrdered | packages/agent/src/crawler/playwright-crawler.ts:110-111 | the recorded elements are grouped by role in lookup order |
| Crawler.PageElementsOrdered | packages/agent/src/crawler/playwright-crawler.ts:107-163 | the page's elements come button first, then link, textbox, heading and image, and each has one of these roles |
| Crawler.MapInputTypeSpec | packages/agent/src/crawler/playwright-crawler.ts:245-259 | select tags become select and text areas text; the eight known input types are kept and anything else becomes text |
| Crawler.FieldSelectorPriority | packages/agent/src/crawler/playwright-crawler.ts:205 | a field's selector uses the test id when there is one, else the id, else the name, else the tag with its placeholder |
| Crawler.InferValidationRules | packages/agent/src/crawler/playwright-crawler.ts:261-272 | the loop returns exactly the rules the specification infers, field by field |
| Crawler.RulesForAppend | packages/agent/src/crawler/playwright-crawler.ts:263-270 | rules come in field order: the rules of two field lists are those of the first followed by those of the second |
| Crawler.RulesForComplete | packages/agent/src/crawler/playwright-crawler.ts:264-269 | every required field has a required rule and every email field an email rule |
| Crawler.RulesForSound | packages/agent/src/crawler/playwright-crawler.ts:264-269 | every rule is a required rule of a required field or an email rule of an email field, without a message |
| Crawler.BuildForm | packages/agent/src/crawler/playwright-crawler.ts:200-242 | one recorded form, exactly as the specification describes it |
| Crawler.ExtractForms | packages/agent/src/crawler/playwright-crawler.ts:165-243 | the page's forms, each recorded, in page order |
| Crawler.FormForSpec | packages/agent/src/crawler/playwright-crawler.ts:200-242 | a recorded form has one field per input in order, carries the rules inferred from its fields and a submit button exactly when the page reports one, and its selector is tagged test id exactly when the form has a test id |
| Crawler.ExtractLinksSound | packages/agent/src/crawler/playwright-crawler.ts:274-307 | every extracted link stays under the base address and comes from an anchor that is neither empty, an in-page anchor nor a mail link |
| Crawler.ExtractLinksComplete | packages/agent/src/crawler/playwright-crawler.ts:274-307 | every anchor the crawler keeps gives a link to its resolved address |
| Crawler.DroppedHrefs | packages/agent/src/crawler/playwright-crawler.ts:281-286 | in-page anchors, mail links, empty hrefs and external addresses are never followed |
| Crawler.ExtractRouteSpec | packages/agent/src/crawler/playwright-crawler.ts:315-317 | a route is never empty; an address under the base gives the rest after the base, and the base itself gives / |
| Crawler.PageNameSpec | packages/agent/src/crawler/playwright-crawler.ts:309-313 | the page name is the first heading's text, else the title, else Untitled Page, and is never empty |
| Crawler.NewLinksFilter | packages/agent/src/crawler/playwright-crawler.ts:80-81 | the followed links are exactly the links to addresses not yet visited, in order |
| Crawler.LinkItemsEdges | packages/agent/src/crawler/playwright-crawler.ts:80-92 | each new link gives one queue entry one level deeper and one navigation edge from the current node carrying the anchor, in the same order |
| Crawler.PlaywrightCrawler.constructor | packages/agent/src/crawler/playwright-crawler.ts:18-23 | a crawler starts with nothing visited, queued or recorded |
| Crawler.PlaywrightCrawler.EnqueueLinks | packages/agent/src/crawler/playwright-crawler.ts:78-93 | queues the links to unvisited addresses and records an edge for each, changing nothing else |
| Crawler.PlaywrightCrawler.AddNode | packages/agent/src/crawler/playwright-crawler.ts:60-75 | records one more node, keeping node addresses distinct |
| Crawler.PlaywrightCrawler.CrawlPage | packages/agent/src/crawler/playwright-crawler.ts:44-105 | marks the address visited, records its node when the page loads and, above the depth limit, queues its unvisited links with one edge each |
| Crawler.PlaywrightCrawler.Step | packages/agent/src/crawler/playwright-crawler.ts:31-36 | one turn of the loop takes the head of the queue off and crawls it unless it was visited or lies below the depth limit; the new state is `StepState` of the old one |
| Crawler.StepState | packages/agent/src/crawler/playwright-crawler.ts:31-36 | one turn of the loop as a function of the state: the head is dropped when visited or too deep, otherwise crawled as `crawlPage` does; each turn records one more node, or none and shortens the queue, and only adds to what was visited and recorded |
| Crawler.CrawlRun | packages/agent/src/crawler/playwright-crawler.ts:31-36 | the loop repeats turns until the queue is empty or maxPages nodes are recorded; it always ends on one of those two conditions, never passes maxPages nodes from a start within the limit, and only adds to what was visited and recorded |
| Crawler.Seeded | packages/agent/src/crawler/playwright-crawler.ts:29 | the starting state is the current one with `(baseUrl, 0)` appended to the queue |
| Crawler.BaseVisited | packages/agent/src/crawler/playwright-crawler.ts:29-36 | a fresh crawl with maxPages > 0 and maxDepth ≥ 0 always visits the base address |
| Crawler.PlaywrightCrawler.Crawl | packages/agent/src/crawler/playwright-crawler.ts:25-42 | the final crawl state is `CrawlRun` of the state seeded with `(baseUrl, 0)`: turns are taken off the front of the queue until it is empty or maxPages nodes are recorded, never more than maxPages nodes from a start within the limit, and what was recorded only grows |
| PlaywrightAdapter.StepsErrorSpec | packages/runner/src/adapters/playwright-adapter.ts:117-119 | the steps pass exactly when every step does, and a failure reports the error of the first failing step |
| PlaywrightAdapter.AssertionsErrorSpec | packages/runner/src/adapters/playwright-adapter.ts:122-124 | the assertions pass exactly when every assertion does |
| PlaywrightAdapter.AttemptErrorSpec | packages/runner/src/adapters/playwright-adapter.ts:115-129 | an attempt passes exactly when every step and every assertion does, and a failing step's error wins over the assertions |
| PlaywrightAdapter.UnknownNeverThrows | packages/runner/src/adapters/playwright-adapter.ts:210-245 | unknown step actions and assertion types only log and never fail the attempt |
| PlaywrightAdapter.AttemptSnoc | packages/runner/src/adapters/playwright-adapter.ts:126-137 | after one more attempt, the last error, the retries counter and whether the last attempt passed follow that attempt |
| PlaywrightAdapter.RetryLoop | packages/runner/src/adapters/playwright-adapter.ts:114-139 | the loop returns whether a later attempt passed, the last error and the retries counter of the attempts it makes |
| PlaywrightAdapter.ExecuteTest | packages/runner/src/adapters/playwright-adapter.ts:103-167 | executeTest returns exactly the result the retry rule gives |
| PlaywrightAdapter.TestResultSpec | packages/runner/src/adapters/playwright-adapter.ts:103-167 | a test fails exactly when each of its retries + 1 attempts fails, passes exactly when it gets no attempt or its first attempt passes, and is flaky otherwise; retries counts the failed attempts; an error is reported whenever an attempt failed, flaky results included; the failure screenshot is kept exactly for a final failure with screenshotOnFail |
| PlaywrightAdapter.FailedAttemptsBound | packages/runner/src/adapters/playwright-adapter.ts:132 | there are never more failed attempts than attempts |
| PlaywrightAdapter.ExecuteSuite | packages/runner/src/adapters/playwright-adapter.ts:83-101 | one result per test of the suite, in order, with the suite's counts |
| PlaywrightAdapter.ResultsNeverSkip | packages/runner/src/adapters/playwright-adapter.ts:86-109 | one result per test and none of them skipped |
| PlaywrightAdapter.SuiteNeverSkips | packages/runner/src/adapters/playwright-adapter.ts:91-100 | a suite has one result per test, never a skipped one, and every test counts once as passed, failed or flaky |
| PlaywrightAdapter.Execute | packages/runner/src/adapters/playwright-adapter.ts:24-81 | every suite run in order, the summary of their results, and the trace archive exactly when traces are kept |
| PlaywrightAdapter.SuitesOfCounted | packages/runner/src/adapters/playwright-adapter.ts:40-43 | one suite result per suite, each counted and none with a skipped test |
| PlaywrightAdapter.SumSkippedZero | packages/runner/src/adapters/playwright-adapter.ts:259 | suites without skipped tests sum to no skipped tests |
| PlaywrightAdapter.RunSummarySpec | packages/runner/src/adapters/playwright-adapter.ts:255-276 | a run's summary counts no skipped test, counts every test once as passed, failed or flaky, and has a pass rate of at most 100, and 0 for no tests |
| SeleniumAdapter.SelectorToBySpec | packages/runner/src/adapters/selenium-adapter.ts:394-408 | no selector text is lost in translation; XPath is chosen exactly for selectors starting // or (//, an id exactly for the rest starting #, and CSS otherwise |
| SeleniumAdapter.LineHead | packages/runner/src/adapters/selenium-adapter.ts:418 | the text up to the first line terminator: none inside it, and one right after it when it stops early |
| SeleniumAdapter.ExtractSelectorFrom | packages/runner/src/adapters/selenium-adapter.ts:416-420 | a selector found is non-empty and contains no line break |
| SeleniumAdapter.ExtractSelectorFromSpec | packages/runner/src/adapters/selenium-adapter.ts:416-420 | a selector found at or after a position is a non-empty single line that follows the marker text there |
| SeleniumAdapter.ExtractSelectorSpec | packages/runner/src/adapters/selenium-adapter.ts:416-420 | an extracted selector is a non-empty single line right after the locate-element marker, and a message without the marker yields none |
| SeleniumAdapter.GrowsTrans | packages/runner/src/adapters/selenium-adapter.ts:164-185 | the knowledge-base growth relation is transitive |
| SeleniumAdapter.HealingGrows | packages/runner/src/adapters/selenium-adapter.ts:303-315 | a healing run only logs tries and bumps counters |
| SeleniumAdapter.WithHealingGrows | packages/runner/src/adapters/selenium-adapter.ts:289-327 | executeWithHealing only logs tries and bumps counters |
| SeleniumAdapter.StepRunGrows | packages/runner/src/adapters/selenium-adapter.ts:233-287 | a step only logs tries and bumps counters |
| SeleniumAdapter.VisibleRunGrows | packages/runner/src/adapters/selenium-adapter.ts:331-358 | a visibility check only logs tries and bumps counters |
| SeleniumAdapter.AssertRunGrows | packages/runner/src/adapters/selenium-adapter.ts:329-386 | an assertion only logs tries and bumps counters |
| SeleniumAdapter.StepsFromGrows | packages/runner/src/adapters/selenium-adapter.ts:151-153 | running the steps only logs tries and bumps counters |
| SeleniumAdapter.AssertsFromGrows | packages/runner/src/adapters/selenium-adapter.ts:156-158 | running the assertions only logs tries and bumps counters |
| SeleniumAdapter.AttemptRunGrows | packages/runner/src/adapters/selenium-adapter.ts:149-158 | an attempt records no failure and no test run, keeps every logged try and keeps signature ids unique |
| SeleniumAdapter.WithHealingSpec | packages/runner/src/adapters/selenium-adapter.ts:289-327 | a working primary selector or a missing knowledge base or a non-element target means no healing and the action's own error; otherwise the step passes exactly when healing finds a non-empty selector on which the action works, and the signature's counters are bumped by the outcome |
| SeleniumAdapter.AttemptsFromStep | packages/runner/src/adapters/selenium-adapter.ts:148-192 | one more attempt unfolds the retry loop: a pass ends it and a failure moves on to the next attempt |
| SeleniumAdapter.AttemptsFromShape | packages/runner/src/adapters/selenium-adapter.ts:148-192 | at most retries + 1 attempts, every one before the last failed, and fewer only when the last passed; the knowledge base is there after them exactly when it was before |
| SeleniumAdapter.AttemptsFromLog | packages/runner/src/adapters/selenium-adapter.ts:164-185 | each failed attempt logs one open failure, in order and numbered on; a passing attempt records one passing run |
| SeleniumAdapter.ConsFailed | packages/runner/src/adapters/selenium-adapter.ts:168-185 | a failed attempt before the rest logs its row first and does not change whether the last attempt passed |
| SeleniumAdapter.TestStoreSpec | packages/runner/src/adapters/selenium-adapter.ts:139-231 | every test with at least one attempt is counted once in the flakiness table, as passed unless its status is fail, and each failed attempt logs one open failure, as many as the retries counter |
| SeleniumAdapter.FailedMessagesCount | packages/runner/src/adapters/selenium-adapter.ts:169-170 | one message per failed attempt |
| SeleniumAdapter.FailedMessagesSnoc | packages/runner/src/adapters/selenium-adapter.ts:169-170 | one more failed attempt adds its message at the end |
| SeleniumAdapter.TestResultSpec | packages/runner/src/adapters/selenium-adapter.ts:139-231 | the retry rule of the Playwright runner holds: fail exactly when every one of retries + 1 attempts fails, pass exactly when no attempt is made or the first passes, never skipped; the error is reported whenever an attempt failed, and the screenshot only with a final failure when it could be taken |
| SeleniumAdapter.ExecuteWithHealing | packages/runner/src/adapters/selenium-adapter.ts:289-327 | executeWithHealing on a knowledge base object: its error and the tables it leaves are those of the healing specification |
| SeleniumAdapter.ExecuteStep | packages/runner/src/adapters/selenium-adapter.ts:233-287 | executeStep: its error and the tables it leaves are those of the step specification |
| SeleniumAdapter.CheckVisible | packages/runner/src/adapters/selenium-adapter.ts:331-358 | the visible branch: found and displayed, else healed when there is a knowledge base and an element target |
| SeleniumAdapter.ExecuteAssertion | packages/runner/src/adapters/selenium-adapter.ts:329-386 | executeAssertion: its error and the tables it leaves are those of the assertion specification |
| SeleniumAdapter.RunAttempt | packages/runner/src/adapters/selenium-adapter.ts:149-158 | one attempt runs every step, then every assertion, up to the first error |
| SeleniumAdapter.RecordAttemptOutcome | packages/runner/src/adapters/selenium-adapter.ts:164-185 | a pass records a passing run and a failure logs an open failure with its classified type, suggested fix, route tag and extracted selector |
| SeleniumAdapter.AttemptOnce | packages/runner/src/adapters/selenium-adapter.ts:148-192 | one attempt with its bookkeeping keeps the retry loop's state |
| SeleniumAdapter.RetryLoop | packages/runner/src/adapters/selenium-adapter.ts:148-192 | the loop makes exactly the specified attempts and returns whether a later one passed, the last error and the retries counter |
| SeleniumAdapter.AttemptSnoc | packages/runner/src/adapters/selenium-adapter.ts:160-170 | after one more attempt, the last error, the retries counter and whether the last attempt passed follow that attempt |
| SeleniumAdapter.ExecuteTest | packages/runner/src/adapters/selenium-adapter.ts:139-231 | executeTest returns the specified result and leaves the specified tables, a final failure recording a failing run |
| SeleniumAdapter.ResultsOfSnoc | packages/runner/src/adapters/selenium-adapter.ts:122-125 | the results of one more test extend the earlier ones |
| SeleniumAdapter.ExecuteSuite | packages/runner/src/adapters/selenium-adapter.ts:119-137 | one result per test in order, with the suite's counts, and the tables the tests leave |
| SeleniumAdapter.ResultsNeverSkip | packages/runner/src/adapters/selenium-adapter.ts:122-143 | one result per test and none of them skipped |
| SeleniumAdapter.SuiteNeverSkips | packages/runner/src/adapters/selenium-adapter.ts:127-136 | a suite has one result per test, never a skipped one, and every test counts once as passed, failed or flaky |
| SeleniumAdapter.SuitesOfSnoc | packages/runner/src/adapters/selenium-adapter.ts:48-51 | the results of one more suite extend the earlier ones |
| SeleniumAdapter.Execute | packages/runner/src/adapters/selenium-adapter.ts:31-88 | every suite in order with the tables they leave, and the summary of their results |
| SeleniumAdapter.SuitesOfCounted | packages/runner/src/adapters/selenium-adapter.ts:48-51 | one suite result per suite, each counted and none with a skipped test |
| SeleniumAdapter.SumSkippedZero | packages/runner/src/adapters/selenium-adapter.ts:426 | suites without skipped tests sum to no skipped tests |
| SeleniumAdapter.RunSummarySpec | packages/runner/src/adapters/selenium-adapter.ts:422-443 | a run's summary counts no skipped test, counts every test once as passed, failed or flaky, and has a pass rate of at most 100, and 0 for no tests |
| RunModel.ResolveSelector | packages/runner/src/adapters/playwright-adapter.ts:249-253 | a string target as it is, an element's non-empty primary selector, and otherwise the Invalid selector target error |
| RunModel.UrlCheckSpec | packages/runner/src/adapters/playwright-adapter.ts:222-234 | the URL check passes exactly when the address contains the expected text under contains, and equals it under any other operator |
| RunModel.TextCheckSpec | packages/runner/src/adapters/playwright-adapter.ts:236-242 | the text check only applies under contains, and then passes exactly when there is text and it contains the expected text |
| RunModel.AllFailedCounts | packages/runner/src/adapters/playwright-adapter.ts:130-133 | when every attempt failed, each counts as a failure and the error is the last attempt's |
| RunModel.RetriesCountFailures | packages/runner/src/adapters/playwright-adapter.ts:109-139 | the retries counter is the number of failed attempts, and the error is the last failure's, kept even when a later attempt passed |
| RunModel.RetryRule | packages/runner/src/adapters/playwright-adapter.ts:114-149 | at most retries + 1 attempts; fail exactly when some attempt was made and all failed, pass exactly when none was made or the first passed, flaky exactly when a later one passed; never skipped |
| RunModel.AttemptsShape | packages/runner/src/adapters/playwright-adapter.ts:114-139 | the loop's attempts are the oracle's in order, every one but the last failed, and fewer than the cap only after a pass |
| RunModel.AttemptsFromStart | packages/runner/src/adapters/playwright-adapter.ts:114-139 | the attempts from the first have the retry loop's shape |
| RunModel.AttemptsStep | packages/runner/src/adapters/playwright-adapter.ts:114-139 | an attempt is followed by the next only when it failed |
| RunModel.StatusCountsPartition | packages/runner/src/adapters/playwright-adapter.ts:96-99 | each test is counted under exactly one status |
| RunModel.CountAbsentStatus | packages/runner/src/adapters/playwright-adapter.ts:96-99 | a status no test has counts zero |
| RunModel.SummaryPartition | packages/runner/src/adapters/playwright-adapter.ts:255-261 | over suites counted from their tests, the status totals add up to the test total |
| RunModel.SummarySpec | packages/runner/src/adapters/playwright-adapter.ts:255-276 | the summary counts every test under exactly one status, and the pass rate is a percentage, 0 when there are no tests |
| RunModel.AllPassedRate | packages/runner/src/adapters/playwright-adapter.ts:268 | when every test passed the pass rate is 100 |
| JUnitReporter.EscapeIsReplaceChain | packages/reporting/src/junit-reporter.ts:74-81 | the chain of five global replacements, `&` first, escapes each character on its own, so no entity is escaped twice |
| JUnitReporter.EscapeSafe | packages/reporting/src/junit-reporter.ts:74-81 | escaped text holds no raw `<`, `>`, `"` or `'`, and every `&` in it starts one of the five entities |
| JUnitReporter.UnescapeEscape | packages/reporting/src/junit-reporter.ts:74-81 | escaping loses nothing: reading the five entities back gives the original text |
| JUnitReporter.NatToStringValue | packages/reporting/src/junit-reporter.ts:39 | a count is written as decimal digits denoting that count |
| JUnitReporter.SecondsOfSpec | packages/reporting/src/junit-reporter.ts:24-50 | a non-negative duration is written as whole seconds, a point and three digits that together denote the milliseconds |
| JUnitReporter.SecondsSpec | packages/reporting/src/junit-reporter.ts:24-50 | the time attribute is the milliseconds divided by 1000 with three decimals, signed as the duration is |
| JUnitReporter.NoTagInSeconds | packages/reporting/src/junit-reporter.ts:24-50 | a time attribute holds no `<` |
| JUnitReporter.ClassNameSpec | packages/reporting/src/junit-reporter.ts:51 | the class name is never empty: the part of the test name before the first " - ", the whole name when there is none, and "Test" for an empty part |
| JUnitReporter.BuildTestXml | packages/reporting/src/junit-reporter.ts:49-72 | buildTestXml builds the testcase element: start tag with escaped class name and name, a failure element, a skipped element and a retries comment, and the end tag |
| JUnitReporter.BuildSuiteXml | packages/reporting/src/junit-reporter.ts:37-47 | buildSuiteXml builds the testsuite element: start tag with the escaped suite name and counts, then each test's element in order |
| JUnitReporter.BuildXml | packages/reporting/src/junit-reporter.ts:20-35 | buildXml builds the declaration, the testsuites start tag with the run totals, each suite's element in order, and the end tag |
| JUnitReporter.TestXmlElements | packages/reporting/src/junit-reporter.ts:49-72 | a test's element reads back as a testcase tag, its optional failure, skipped and comment tags, and the testcase end tag, with no stray tag from the escaped text |
| JUnitReporter.FailurePartElements | packages/reporting/src/junit-reporter.ts:56-60 | a failure element appears exactly when the test failed with an error |
| JUnitReporter.SkippedPartElements | packages/reporting/src/junit-reporter.ts:62-64 | a skipped element appears exactly when the test was skipped |
| JUnitReporter.RetriesPartElements | packages/reporting/src/junit-reporter.ts:66-68 | a retries comment appears exactly when the test was retried |
| JUnitReporter.TestElementsSpec | packages/reporting/src/junit-reporter.ts:49-72 | a test's element holds a failure exactly when it failed with an error, a skipped element exactly when skipped, a comment exactly when retried, and no testsuite element |
| JUnitReporter.TestElementsCount | packages/reporting/src/junit-reporter.ts:54-70 | a test's element is exactly one testcase element |
| JUnitReporter.TestsFromElements | packages/reporting/src/junit-reporter.ts:41-43 | appending the tests' elements appends their tag names in order and keeps the text well delimited |
| JUnitReporter.TestsElementsCount | packages/reporting/src/junit-reporter.ts:41-43 | one testcase element per test and no testsuite element |
| JUnitReporter.SuiteXmlElements | packages/reporting/src/junit-reporter.ts:37-47 | a suite's element is one testsuite element holding its tests' elements in order |
| JUnitReporter.SuiteElementsCount | packages/reporting/src/junit-reporter.ts:37-47 | one testsuite element per suite and one testcase element per test in it |
| JUnitReporter.SuitesFromElements | packages/reporting/src/junit-reporter.ts:29-31 | appending the suites' elements appends their tag names in order |
| JUnitReporter.SuitesElementsCount | packages/reporting/src/junit-reporter.ts:29-31 | one testsuite element per suite and one testcase element per test across the suites |
| JUnitReporter.RunXmlElements | packages/reporting/src/junit-reporter.ts:20-35 | when the runner name and timestamp, which go in unescaped, hold no `<`, the document is the declaration and one testsuites element holding the suites' elements in order |
| JUnitReporter.RunElementsCount | packages/reporting/src/junit-reporter.ts:20-35 | the document holds one testsuites element, one testsuite element per suite and one testcase element per test, which is the root's tests attribute when the summary is computed from the suites |
| JUnitReporter.SuitesNoRoot | packages/reporting/src/junit-reporter.ts:29-31 | no suite's element holds a testsuites tag |
| LiberoUniversal.DetectTechnology | libero-universal.ts:57-71 | the page script's verdict, vanilla when it threw; network idle exactly for React, load exactly for jQuery, DOM content loaded for Angular and vanilla |
| LiberoUniversal.Prefix | libero-universal.ts:221-235 | `slice(0, cap)`: at most cap entries, the front of the list |
| LiberoUniversal.LinkLabels | libero-universal.ts:215-216 | a label for each of the first five links at most |
| LiberoUniversal.ButtonLoop | libero-universal.ts:207-213 | the buttons loop makes one click scenario per new key, for the first button with that key |
| LiberoUniversal.LinkLoop | libero-universal.ts:214-220 | the links loop makes one click scenario per new label among the first five links |
| LiberoUniversal.NonEmptyLoop | libero-universal.ts:221-228 | the input and heading loops make one scenario per non-empty entry among the first few |
| LiberoUniversal.GenerateScenariosFromContext | libero-universal.ts:205-230 | generateScenariosFromContext returns the button, link, input and heading scenarios in that order |
| LiberoUniversal.ButtonScenariosSpec | libero-universal.ts:207-213 | one click scenario per distinct button key, for the first button with that key, in order of first appearance, every key covered, each with a non-empty target |
| LiberoUniversal.LinkScenariosSpec | libero-universal.ts:214-220 | at most five link scenarios, with distinct labels in order of first appearance among the first five links, none lost |
| LiberoUniversal.DedupLength | libero-universal.ts:214-220 | dropping repeated labels never lengthens the list |
| LiberoUniversal.FillAndHeadingSpec | libero-universal.ts:221-228 | at most three fill scenarios and two heading scenarios, each for a non-empty entry among the first three placeholders or first two headings |
| LiberoUniversal.ScenarioOrder | libero-universal.ts:205-230 | the scenarios come as buttons, then links, then inputs, then headings |
| LiberoUniversal.UnlabelledButtonClicksFirst | libero-universal.ts:238 | a button scenario with an empty target or the target "button" clicks the first button; any other looks the button up by its text |
| LiberoUniversal.RunGeneratedScenarios | libero-universal.ts:232-265 | runGeneratedScenarios returns the specified results, one per scenario run |
| LiberoUniversal.RunResultsSpec | libero-universal.ts:232-265 | at most 15 scenarios run, in order, one result each, named with the "[AI] " prefix and marked generated; a result passes exactly when nothing was thrown, and otherwise carries the first 80 characters at most of what was |
| LiberoUniversal.TallyOf | libero-universal.ts:310-313 | base and generated tests add up to all tests; generated passes are at most the generated tests and at most the passes |
| LiberoUniversal.TallyGenerated | libero-universal.ts:232-313 | a run of generated scenarios has no base tests, every result counts as generated, and its generated passes are its passes |
| LiberoUniversal.AllGenerated | libero-universal.ts:311-313 | results all marked generated tally no base tests and as many generated passes as passes |
| LiberoUniversal.W | libero-universal.ts:290 | `padEnd(n).slice(0, n)`: a cell exactly n wide, the text cut or padded with spaces |
| LiberoUniversal.FitName | libero-universal.ts:305 | a test name fits the 42-wide column; a longer one keeps its first 39 characters and ends in "..." |
| LiberoUniversal.WithScheme | libero-universal.ts:332-338 | the URL starts with "http"; one that already did is kept, any other gets "http://" in front |
| LiberoUniversal.WithSchemeIdempotent | libero-universal.ts:332-338 | adding the scheme twice is adding it once |
| LiberoUniversal.HayirTurnsChaosOn | libero-universal.ts:333-340 | the chaos test as written takes the answer "Hayır" (no) as yes, which the intended reading does not |
| LiberoUniversal.ChaosOnSpec | libero-universal.ts:339-340 | the intended chaos reading: the default and answers starting with h or n are no, answers starting with e, y, t or 1 are yes |
| LiberoUniversal.Settings | libero-universal.ts:330-341 | the URL always starts with "http"; the environment's URL and chaos answer are used when the URL variable is set, otherwise the typed answers, with the default URL for an empty answer; chaos mode is the test as written (`ChaosAsWritten`), off for an empty answer |
| LiberoUniversal.DefaultIsNo | libero-universal.ts:339-340 | the empty chaos answer, which stands for "H", is no under both the written and the intended reading |
| LiberoUniversal.SettingsTakesHayirAsYes | libero-universal.ts:339-341 | typing "Hayır" (no) at the chaos prompt turns chaos mode on in the settings `main` uses, where the intended reading says no |

A consequence of the journey walk worth knowing: the child call re-checks
the path key its parent has just recorded, so an emitted journey never has
more than three nodes, whatever `maxSteps` is (`JourneyGenerator.Bound`).

## Left out

- Browser automation: Playwright and Selenium calls, waits, sleeps, delays, screenshots and traces are not modelled. Pages are oracles (what a URL yields, whether a selector works, whether an attempt's steps and assertions throw), and artifacts are paths only.
- PlaywrightAdapter.FailScreenshotPath: the failure screenshot path is `dir + "/" + id + "-fail.png"`, also in `SeleniumAdapter`; `path.join` normalises, so a directory with a trailing slash ("out/" gives "out/t-fail.png", here "out//t-fail.png") or an empty directory ("t-fail.png", here "/t-fail.png") differ.
- StateSignature.Value: state values hold integer numbers only; fractional numbers and their `String` rendering are not modelled.
- FormGenerator.NextNumber: computes `seed·9301 + sequence·49297` exactly, as does `FormGenerator.FormGenerator.NextDeterministicNumber`; the program computes it in doubles, which round once the sum passes 2^53, that is for seeds above about 9.7·10^11, which includes `Date.now()` seeds. Seed 1760000000000 at sequence 1 in 1000..9999 draws 5496 in the program and 5497 here ("user-5496" against "user-5497"). For smaller seeds the two agree.
- Descriptions: the `description` fields of tests, steps and assertions are not modelled; they are free text that no operation of the core reads.
- Crawler extraction: the `page.evaluate` DOM scripts are the page oracle. `new URL(href, base)` and `normalizeUrl` are the parameters `resolve` and `nodeIdOf`.
- Persistence: sql.js, the SQL text and `save()` in the knowledge base, the file helpers and the `.libero` paths. The tables are sequences in insertion order, and `ORDER BY ... DESC` is a stable sort that keeps insertion order among ties.
- Hashing, ids and clocks: SHA-256 `hashString` is a parameter; `generateId` is the constant `Ids.GeneratedId(prefix)`; `Date.now()` and `new Date()` readings are parameters, and durations measured with them are not modelled.
- Floats: the flakiness score and the heal threshold are `real` ratios; `toFixed(3)` is modelled for whole milliseconds only.
- Text.RoundPercent: rounds the exact ratio, halves up; the program rounds the double `(c / t) * 100`, which can fall just below a half, so some ratios round down there (23 of 40 gives 57 in the program and 58 here, also 29 of 200 and 57 of 200). This reaches `CoverageEngine.Compute`'s percentages and the adapters' pass rate.
- Text.ToLower: lowers the ASCII letters only, where `toLowerCase` lowers all of Unicode (the Kelvin sign to k, for instance); `FailureAnalysis.ClassifyError`, the smoke generator's keyword match, the CRUD generator's screen detection and the chaos answer use it.
- SelectorHealing.AttemptSelectorHealing: one clock reading stamps every attempt row, where the program reads the clock once per attempt.
- JourneyGenerator.Generate: completeness is proved only when no route node id contains "->"; with such ids two different paths can share a key, and the walk then skips a journey as seen.
- `localeCompare` is ordinal character order; locale collation is not modelled.
- The parallel runner, the analytics beacon and server, the CLI and scaffolding scripts, the auth strategies, and the HTML, JSON, analytics and coverage reporters are not part of this model.
- `JUnitReporter.generate` (directory creation and the file write) is not modelled; the model stops at the document text.
- JUnitReporter.FailurePartElements: the failure element's body is the escaped error message; the stack trace the source prefers when present is not modelled, because the modelled error record carries no stack.
- GraphBuilder.Merge: returns new node values; it does not model that the source writes the merged element lists into the first graph's node objects, which the caller's input graph then shares.
- LiberoUniversal: `scanUniversalElements`, `runHumanCentricTests`, `getPageContext`, the report's printing and the prompts are browser or terminal I/O; the page context, what each scenario throws, and the typed answers are inputs.
- LiberoUniversal.RunResultsSpec: a thrown value is the string the page oracle returns; `String(e)` formatting is not modelled.
- Logging (`console.log`, the warnings for unknown step actions and assertion types) is not modelled; those steps and assertions do nothing in the model.

## Findings

| source | as written | input that shows it | evidently intended | confidence | as-written member | corrected member |
|---|---|---|---|---|---|---|
| libero-universal.ts:333,340 | the chaos answer is tested with `/^e` or `y` or `t` or `1$/i`, whose alternation binds looser than the anchors, so any answer containing y or t anywhere, or ending in 1, turns chaos mode on | the answer "Hayır" (no), which the prompt's "H" stands for, turns chaos mode on | yes only for answers starting with e, y, t or 1 | not executed | LiberoUniversal.HayirTurnsChaosOn | LiberoUniversal.ChaosOnSpec |
