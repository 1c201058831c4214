/** The orchestrator: a bounded loop that calls the smoke, form and journey
 *  generators until the plan's coverage meets its goals, the plan is
 *  large enough, or an iteration adds nothing. */
module Orchestrator {
  import opened Wrappers
  import opened Text
  import opened Ids
  import opened Seqs
  import opened GraphModel
  import opened PlanModel
  import opened CoverageModel
  import opened ConfigModel
  import CoverageEngine
  import SmokeGenerator
  import FormGenerator
  import JourneyGenerator

  const MaxIterations: nat := 10

  datatype ScenarioType = SmokeScenario | FormScenario | JourneyScenario

  /** Caller options. An absent `coverageTarget` object reads as a goal
   *  set with every goal absent. */
  datatype OrchestratorOptions = OrchestratorOptions(
    seed: Option<int>,
    scenarioTypes: Option<seq<ScenarioType>>,
    coverageTarget: PartialGoals,
    maxTests: Option<int>)

  /** A goal taken from the option, else from the configuration, else the
   *  default. */
  predicate Resolved(r: int, option: Option<int>, configured: Option<int>, default: int) {
    && (option.Some? ==> r == option.value)
    && (option.None? && configured.Some? ==> r == configured.value)
    && (option.None? && configured.None? ==> r == default)
  }

  function ConfiguredGoals(config: Option<LiberoConfig>): PartialGoals {
    if config.Some? then AsPartial(config.value.generation.coverageTargets) else NoGoals()
  }

  /** The goals the loop generates towards. */
  function ResolveGoals(options: PartialGoals, config: Option<LiberoConfig>): (r: CoverageGoals)
    ensures var c := ConfiguredGoals(config);
      && Resolved(r.routes, options.routes, c.routes, 90)
      && Resolved(r.elements, options.elements, c.elements, 70)
      && Resolved(r.forms, options.forms, c.forms, 80)
      && Resolved(r.assertions, options.assertions, c.assertions, 2)
      && Resolved(r.flows, options.flows, c.flows, 3)
  {
    var c := ConfiguredGoals(config);
    CoverageGoals(
      options.routes.GetOr(c.routes.GetOr(90)),
      options.elements.GetOr(c.elements.GetOr(70)),
      options.forms.GetOr(c.forms.GetOr(80)),
      options.assertions.GetOr(c.assertions.GetOr(2)),
      options.flows.GetOr(c.flows.GetOr(3)))
  }

  /** Without options or configuration the goals are 90/70/80/2/3. */
  lemma DefaultGoalsResolve()
    ensures ResolveGoals(NoGoals(), None) == DefaultGoals()
  {
  }

  /** The form generator is called without options, so its seed is 42. */
  function FormOptionsUsed(): FormGenerator.FormOptions {
    FormGenerator.FormOptions(None, None, None)
  }

  function FormTestsOf(graph: AppGraph, hash: string -> string): seq<TestCase> {
    FormGenerator.FormTests(graph, FormOptionsUsed(), hash)
  }

  function JourneyOptionsUsed(seed: int): JourneyGenerator.JourneyOptions {
    JourneyGenerator.JourneyOptions(Some(5), Some(25), Some(seed))
  }

  function FormSuite(iteration: nat, tests: seq<TestCase>): TestSuite {
    TestSuite(GeneratedId("suite"), "Form Tests (iter " + NatToString(iteration) + ")",
      RegressionSuite, tests, ["form", "validation"])
  }

  function JourneySuite(iteration: nat, tests: seq<TestCase>): TestSuite {
    TestSuite(GeneratedId("suite"), "Journey Tests (iter " + NatToString(iteration) + ")",
      RegressionSuite, tests, ["journey", "navigation"])
  }

  /** The plan before any generator ran. */
  function EmptyPlan(graph: AppGraph, seed: int, now: string): TestPlan {
    TestPlan("6.0.0", graph.appName, now, [],
      TestPlanConfig(Some(seed), CoverageTarget(|Filter(graph.nodes, IsRoute)|, 0, 0), 2, true, false, true))
  }

  /** What stays fixed during a run: the graph, the smoke suite and the
   *  form tests it yields, the goals, the scenario types and the test cap. */
  datatype Run = Run(graph: AppGraph, smoke: TestSuite, forms: seq<TestCase>, goals: CoverageGoals,
                     types: seq<ScenarioType>, maxTests: int)

  function RunOf(graph: AppGraph, goals: CoverageGoals, types: seq<ScenarioType>, maxTests: int,
                 hash: string -> string): Run {
    Run(graph, SmokeGenerator.SmokeSuiteOf(graph), FormTestsOf(graph, hash), goals, types, maxTests)
  }

  /** `snap` is the engine's snapshot of a plan made of `suites`: the
   *  figures the loop's decisions read. */
  predicate SnapshotOf(snap: CoverageSnapshot, graph: AppGraph, suites: seq<TestSuite>) {
    var p := CoverageEngine.Percentages(graph, suites);
    var t := CoverageEngine.PlanTally(graph, suites);
    && snap.routes.percentage == p.0 && snap.elements.percentage == p.1 && snap.forms.percentage == p.2
    && snap.assertions == t.assertions && snap.flows == t.flows
  }

  /** No suite of the plan is a smoke suite yet. */
  predicate NoSmoke(suites: seq<TestSuite>) {
    forall i :: 0 <= i < |suites| ==> suites[i].category != SmokeSuite
  }

  predicate WantsSmoke(r: Run, snap: CoverageSnapshot, before: seq<TestSuite>) {
    SmokeScenario in r.types && NoSmoke(before) && snap.routes.percentage < r.goals.routes
  }

  predicate WantsForms(r: Run, snap: CoverageSnapshot) {
    FormScenario in r.types && snap.forms.percentage < r.goals.forms
  }

  predicate WantsJourneys(r: Run, snap: CoverageSnapshot) {
    JourneyScenario in r.types && snap.flows < r.goals.flows
  }

  function SmokePart(r: Run, snap: CoverageSnapshot, before: seq<TestSuite>): seq<TestSuite> {
    if WantsSmoke(r, snap, before) then [r.smoke] else []
  }

  function FormPart(r: Run, iteration: nat, snap: CoverageSnapshot): seq<TestSuite> {
    if WantsForms(r, snap) && r.forms != [] then [FormSuite(iteration, r.forms)] else []
  }

  function JourneyPart(iteration: nat, journeys: seq<TestCase>): seq<TestSuite> {
    if journeys == [] then [] else [JourneySuite(iteration, journeys)]
  }

  /** Every test of a journey suite is a valid journey of the graph. */
  predicate ValidJourneys(graph: AppGraph, tests: seq<TestCase>, maxSteps: int) {
    forall t :: t in tests ==> JourneyGenerator.ValidJourney(t, graph, maxSteps)
  }

  /** What the journey generator promises of the tests it returns for
   *  `graph` with at most 5 steps and 25 journeys: each is a valid journey,
   *  no two share a key, none come from a graph without edges, and, when
   *  the cap was not reached and the route ids hold no arrow, every edge
   *  between route nodes is walked as far as the step budget allows. */
  ghost predicate JourneysFound(graph: AppGraph, tests: seq<TestCase>) {
    && ValidJourneys(graph, tests, 5)
    && JourneyGenerator.DistinctKeys(tests, 0)
    && (|graph.edges| == 0 ==> tests == [])
    && (JourneyGenerator.ArrowFreeIds(graph) && |tests| < 25 ==> JourneyGenerator.Complete(tests, graph, 5))
  }

  /** Iteration `iteration`, deciding on snapshot `snap` of `before`, turns
   *  `before` into `after`: the smoke suite (while there is none and routes
   *  are below goal), the form suite (while forms are below goal and there
   *  are form tests) and the journey suite (the journey generator's tests,
   *  as `JourneysFound` says, when flows are below goal and it found any)
   *  are appended in that order, and nothing else changes. */
  ghost predicate StepOk(r: Run, iteration: nat, snap: CoverageSnapshot, before: seq<TestSuite>,
                   journeys: seq<TestCase>, after: seq<TestSuite>)
  {
    && Appends(r, iteration, snap, before, journeys, after)
    && (journeys != [] ==> WantsJourneys(r, snap))
    && (WantsJourneys(r, snap) ==> JourneysFound(r.graph, journeys))
  }

  /** The suites an iteration appends: the smoke, form and journey parts. */
  predicate Appends(r: Run, iteration: nat, snap: CoverageSnapshot, before: seq<TestSuite>,
                    journeys: seq<TestCase>, after: seq<TestSuite>)
  {
    after == before + SmokePart(r, snap, before) + FormPart(r, iteration, snap) + JourneyPart(iteration, journeys)
  }

  /** The plan holds at most one smoke suite, and it is `smoke`. */
  predicate SmokeAtMostOnce(smoke: TestSuite, suites: seq<TestSuite>) {
    && (forall i, j :: 0 <= i < j < |suites| && suites[i].category == SmokeSuite ==> suites[j].category != SmokeSuite)
    && (forall s :: s in suites && s.category == SmokeSuite ==> s == smoke)
  }

  lemma TestCountAppend(a: seq<TestSuite>, b: seq<TestSuite>)
    ensures TestCount(a + b) == TestCount(a) + TestCount(b)
  {
    CoverageEngine.AllTestsAppend(a, b);
  }

  lemma TestCountOne(s: TestSuite)
    ensures TestCount([s]) == |s.tests|
  {
    assert [s][..0] == [];
    assert AllTests([s]) == AllTests([s][..0]) + [s][0].tests;
  }

  /** Suites are only appended, so from one iteration to the next the test
   *  count and every coverage figure never decrease. */
  lemma PrefixGrows(graph: AppGraph, before: seq<TestSuite>, more: seq<TestSuite>)
    ensures TestCount(before) <= TestCount(before + more)
    ensures CoverageEngine.Percentages(graph, before).0 <= CoverageEngine.Percentages(graph, before + more).0
    ensures CoverageEngine.Percentages(graph, before).1 <= CoverageEngine.Percentages(graph, before + more).1
    ensures CoverageEngine.Percentages(graph, before).2 <= CoverageEngine.Percentages(graph, before + more).2
    ensures CoverageEngine.PlanTally(graph, before).flows <= CoverageEngine.PlanTally(graph, before + more).flows
    ensures CoverageEngine.PlanTally(graph, before).assertions
      <= CoverageEngine.PlanTally(graph, before + more).assertions
  {
    TestCountAppend(before, more);
    CoverageEngine.CoverageMonotone(graph, before, more);
  }

  /** `plan.suites.push(suite)`, with the running count of tests. */
  method PushSuite(suites: seq<TestSuite>, added: nat, suite: TestSuite) returns (r: seq<TestSuite>, addedAfter: nat)
    ensures r == suites + [suite] && addedAfter == added + |suite.tests|
    ensures TestCount(r) == TestCount(suites) + |suite.tests|
  {
    TestCountAppend(suites, [suite]);
    TestCountOne(suite);
    r := suites + [suite];
    addedAfter := added + |suite.tests|;
  }

  /** The smoke part of an iteration. */
  method AddSmoke(r: Run, seed: int, snap: CoverageSnapshot, suites: seq<TestSuite>, smokeAdded: bool,
                  clockMs: int, now: string)
    returns (after: seq<TestSuite>, added: nat, smokeAddedAfter: bool)
    requires r.smoke == SmokeGenerator.SmokeSuiteOf(r.graph)
    requires smokeAdded <==> !NoSmoke(suites)
    ensures after == suites + SmokePart(r, snap, suites)
    ensures TestCount(after) == TestCount(suites) + added
    ensures smokeAddedAfter == (smokeAdded || WantsSmoke(r, snap, suites))
  {
    after := suites;
    added := 0;
    smokeAddedAfter := smokeAdded;
    if SmokeScenario in r.types && !smokeAdded && snap.routes.percentage < r.goals.routes {
      var smokePlan := SmokeGenerator.Generate(r.graph, Some(seed), clockMs, now);
      after, added := PushSuite(after, added, smokePlan.suites[0]);
      smokeAddedAfter := true;
    }
  }

  /** The form part of an iteration: the generator is reset on each call,
   *  so every call yields the same tests. */
  method AddForms(r: Run, hash: string -> string, iteration: nat, snap: CoverageSnapshot, suites: seq<TestSuite>,
                  added: nat, formGen: FormGenerator.FormGenerator)
    returns (after: seq<TestSuite>, addedAfter: nat)
    requires r.forms == FormTestsOf(r.graph, hash)
    modifies formGen
    ensures after == suites + FormPart(r, iteration, snap)
    ensures TestCount(after) == TestCount(suites) + (addedAfter - added) && addedAfter >= added
  {
    after := suites;
    addedAfter := added;
    if FormScenario in r.types && snap.forms.percentage < r.goals.forms {
      var formTests := formGen.Generate(r.graph, FormOptionsUsed(), hash);
      if |formTests| > 0 {
        after, addedAfter := PushSuite(after, added, FormSuite(iteration, formTests));
      }
    }
  }

  /** The journey part of an iteration. */
  method AddJourneys(r: Run, seed: int, iteration: nat, snap: CoverageSnapshot, suites: seq<TestSuite>, added: nat)
    returns (after: seq<TestSuite>, addedAfter: nat, ghost journeys: seq<TestCase>)
    ensures after == suites + JourneyPart(iteration, journeys)
    ensures journeys != [] ==> WantsJourneys(r, snap)
    ensures WantsJourneys(r, snap) ==> JourneysFound(r.graph, journeys)
    ensures TestCount(after) == TestCount(suites) + (addedAfter - added) && addedAfter >= added
  {
    after := suites;
    addedAfter := added;
    journeys := [];
    if JourneyScenario in r.types && snap.flows < r.goals.flows {
      var journeyTests, _ := JourneyGenerator.Generate(r.graph, JourneyOptionsUsed(seed));
      if |journeyTests| > 0 {
        after, addedAfter := PushSuite(after, added, JourneySuite(iteration, journeyTests));
        journeys := journeyTests;
      }
    }
  }

  /** One pass of the loop body, after its two stop checks. */
  method Iterate(r: Run, seed: int, hash: string -> string, iteration: nat, snap: CoverageSnapshot,
                 suites: seq<TestSuite>, smokeAdded: bool, formGen: FormGenerator.FormGenerator,
                 clockMs: int, now: string)
    returns (after: seq<TestSuite>, added: nat, smokeAddedAfter: bool, ghost journeys: seq<TestCase>)
    requires r.smoke == SmokeGenerator.SmokeSuiteOf(r.graph) && r.forms == FormTestsOf(r.graph, hash)
    requires smokeAdded <==> !NoSmoke(suites)
    modifies formGen
    ensures StepOk(r, iteration, snap, suites, journeys, after)
    ensures TestCount(after) == TestCount(suites) + added
    ensures smokeAddedAfter == (smokeAdded || WantsSmoke(r, snap, suites))
  {
    var withSmoke, smokeCount, smokeFlag := AddSmoke(r, seed, snap, suites, smokeAdded, clockMs, now);
    var withForms, formCount := AddForms(r, hash, iteration, snap, withSmoke, smokeCount, formGen);
    after, added, journeys := AddJourneys(r, seed, iteration, snap, withForms, formCount);
    smokeAddedAfter := smokeFlag;
  }

  /** A run's history: `trace[i]` is the plan's suites before iteration
   *  `i` (and, last, at the end), `snaps[i]` the engine's snapshot of it,
   *  `journeys[i]` what the journey generator contributed in iteration
   *  `i`. The run starts from no suites, every iteration began below the
   *  goals and the test cap and appended as `StepOk` says, and every
   *  iteration but the last added at least one test. */
  ghost predicate TraceOk(r: Run, trace: seq<seq<TestSuite>>, snaps: seq<CoverageSnapshot>, journeys: seq<seq<TestCase>>) {
    && 1 <= |trace| && |snaps| == |trace| && |journeys| == |trace| - 1 && trace[0] == []
    && (forall i {:trigger journeys[i]} :: 0 <= i < |journeys| ==>
          IterationOk(r, i, snaps[i], trace[i], journeys[i], trace[i + 1]))
    && (forall i {:trigger AddedTests(trace, i)} :: 0 <= i < |journeys| - 1 ==> AddedTests(trace, i))
  }

  /** Iteration `i` of the history added at least one test. */
  ghost predicate AddedTests(trace: seq<seq<TestSuite>>, i: nat) {
    i + 1 < |trace| && TestCount(trace[i]) < TestCount(trace[i + 1])
  }

  /** Each recorded snapshot is the engine's snapshot of the recorded plan. */
  predicate SnapshotsOk(graph: AppGraph, trace: seq<seq<TestSuite>>, snaps: seq<CoverageSnapshot>)
    requires |snaps| == |trace|
  {
    forall i {:trigger snaps[i]} :: 0 <= i < |trace| ==> SnapshotOf(snaps[i], graph, trace[i])
  }

  lemma SnapshotsExtend(graph: AppGraph, trace: seq<seq<TestSuite>>, snaps: seq<CoverageSnapshot>,
                        after: seq<TestSuite>, snap: CoverageSnapshot)
    requires |snaps| == |trace| && SnapshotsOk(graph, trace, snaps)
    requires SnapshotOf(snap, graph, after)
    ensures SnapshotsOk(graph, trace + [after], snaps + [snap])
  {
    var t, z := trace + [after], snaps + [snap];
    forall i {:trigger z[i]} | 0 <= i < |t|
      ensures SnapshotOf(z[i], graph, t[i])
    {
      if i < |trace| {
        assert z[i] == snaps[i] && t[i] == trace[i];
      }
    }
  }

  /** Iteration `i` of a run began below the goals and the test cap and
   *  appended as `StepOk` says. */
  ghost predicate IterationOk(r: Run, i: nat, snap: CoverageSnapshot, before: seq<TestSuite>,
                        journeys: seq<TestCase>, after: seq<TestSuite>)
  {
    && !CoverageEngine.MeetsTarget(snap, AsPartial(r.goals)) && TestCount(before) < r.maxTests
    && StepOk(r, i, snap, before, journeys, after)
  }

  lemma TraceExtend(r: Run, trace: seq<seq<TestSuite>>, snaps: seq<CoverageSnapshot>, journeys: seq<seq<TestCase>>,
                    step: seq<TestCase>, after: seq<TestSuite>, snap: CoverageSnapshot)
    requires TraceOk(r, trace, snaps, journeys)
    requires IterationOk(r, |trace| - 1, snaps[|trace| - 1], trace[|trace| - 1], step, after)
    requires |trace| >= 2 ==> TestCount(trace[|trace| - 2]) < TestCount(trace[|trace| - 1])
    ensures TraceOk(r, trace + [after], snaps + [snap], journeys + [step])
  {
    var t, z, j := trace + [after], snaps + [snap], journeys + [step];
    forall i | 0 <= i < |j| - 1
      ensures AddedTests(t, i)
    {
      assert t[i] == trace[i] && t[i + 1] == trace[i + 1];
      if i < |journeys| - 1 {
        assert AddedTests(trace, i);
      }
    }
    forall i {:trigger j[i]} | 0 <= i < |j|
      ensures IterationOk(r, i, z[i], t[i], j[i], t[i + 1])
    {
      assert z[i] == snaps[i] && t[i] == trace[i];
      if i < |journeys| {
        assert j[i] == journeys[i] && t[i + 1] == trace[i + 1];
      }
    }
  }

  /** `runOrchestrator`. The ghost `trace`, `snaps` and `journeys` record
   *  the run. */
  method RunOrchestrator(graph: AppGraph, config: Option<LiberoConfig>, options: OrchestratorOptions,
                         hash: string -> string, clockMs: int, now: string)
    returns (plan: TestPlan, ghost trace: seq<seq<TestSuite>>, ghost snaps: seq<CoverageSnapshot>,
             ghost journeys: seq<seq<TestCase>>)
    ensures plan == EmptyPlan(graph, options.seed.GetOr(clockMs), now).(suites := plan.suites)
    // at most ten iterations, each as TraceOk says, ending with the plan's suites
    ensures var r := RunOf(graph, ResolveGoals(options.coverageTarget, config),
                           options.scenarioTypes.GetOr([SmokeScenario, FormScenario, JourneyScenario]),
                           options.maxTests.GetOr(500), hash);
      && TraceOk(r, trace, snaps, journeys) && SnapshotsOk(graph, trace, snaps)
      && |trace| <= MaxIterations + 1 && trace[|trace| - 1] == plan.suites
      // the loop stopped early only because the goals were met, the cap
      // was reached, or the last iteration added no test
      && (|trace| - 1 < MaxIterations ==>
            || CoverageEngine.MeetsTarget(snaps[|trace| - 1], AsPartial(r.goals))
            || TestCount(plan.suites) >= r.maxTests
            || (|trace| >= 2 && TestCount(trace[|trace| - 2]) == TestCount(plan.suites)))
      && SmokeAtMostOnce(r.smoke, plan.suites)
  {
    var goals := ResolveGoals(options.coverageTarget, config);
    var types := options.scenarioTypes.GetOr([SmokeScenario, FormScenario, JourneyScenario]);
    var seed := options.seed.GetOr(clockMs);
    var maxTests := options.maxTests.GetOr(500);
    plan := EmptyPlan(graph, seed, now);
    var r := RunOf(graph, goals, types, maxTests, hash);
    var suites;
    suites, trace, snaps, journeys := Loop(r, graph, goals, types, seed, maxTests, hash, plan, clockMs, now);
    plan := plan.(suites := suites);
  }

  /** The loop's invariant after `iteration` iterations: the history so
   *  far, ending in the current suites and snapshot; the smoke flag says
   *  whether the smoke suite is in, and it is in at most once. */
  ghost predicate LoopState(r: Run, trace: seq<seq<TestSuite>>, snaps: seq<CoverageSnapshot>, journeys: seq<seq<TestCase>>,
                      iteration: nat, suites: seq<TestSuite>, snapshot: CoverageSnapshot, smokeAdded: bool)
  {
    && TraceOk(r, trace, snaps, journeys) && SnapshotsOk(r.graph, trace, snaps)
    && |trace| == iteration + 1 && trace[iteration] == suites && snaps[iteration] == snapshot
    && (smokeAdded <==> !NoSmoke(suites))
    && SmokeAtMostOnce(r.smoke, suites)
  }

  /** The loop's invariant together with its stop flag: a stop has one of
   *  the reasons `StoppedEarly` gives, and until then the last iteration
   *  added a test. */
  ghost predicate Looping(r: Run, trace: seq<seq<TestSuite>>, snaps: seq<CoverageSnapshot>,
                          journeys: seq<seq<TestCase>>, iteration: nat, suites: seq<TestSuite>,
                          snapshot: CoverageSnapshot, smokeAdded: bool, stop: bool)
  {
    && LoopState(r, trace, snaps, journeys, iteration, suites, snapshot, smokeAdded)
    && (stop ==> StoppedEarly(trace, snaps, r.goals, r.maxTests, suites))
    && (!stop && iteration >= 1 ==> TestCount(trace[iteration - 1]) < TestCount(suites))
  }

  /** Why a run ended before its last iteration: the goals were met, the
   *  test cap was reached, or the last iteration added no test. */
  predicate StoppedEarly(trace: seq<seq<TestSuite>>, snaps: seq<CoverageSnapshot>, goals: CoverageGoals,
                         maxTests: int, suites: seq<TestSuite>)
    requires |snaps| == |trace| >= 1
  {
    || CoverageEngine.MeetsTarget(snaps[|trace| - 1], AsPartial(goals))
    || TestCount(suites) >= maxTests
    || (|trace| >= 2 && TestCount(trace[|trace| - 2]) == TestCount(suites))
  }

  /** A finished run: at most ten iterations, each as `TraceOk` says,
   *  ending with `suites`; it stopped early only as `StoppedEarly` says,
   *  and the smoke suite is in at most once. */
  ghost predicate RunEnded(r: Run, trace: seq<seq<TestSuite>>, snaps: seq<CoverageSnapshot>, journeys: seq<seq<TestCase>>,
                     suites: seq<TestSuite>)
  {
    && TraceOk(r, trace, snaps, journeys) && SnapshotsOk(r.graph, trace, snaps)
    && |trace| <= MaxIterations + 1 && trace[|trace| - 1] == suites
    && (|trace| - 1 < MaxIterations ==> StoppedEarly(trace, snaps, r.goals, r.maxTests, suites))
    && SmokeAtMostOnce(r.smoke, suites)
  }

  /** The `while` loop of `runOrchestrator`, from the empty plan `start`. */
  method Loop(r: Run, graph: AppGraph, goals: CoverageGoals, types: seq<ScenarioType>, seed: int,
              maxTests: int, hash: string -> string, start: TestPlan, clockMs: int, now: string)
    returns (suites: seq<TestSuite>, ghost trace: seq<seq<TestSuite>>, ghost snaps: seq<CoverageSnapshot>,
             ghost journeys: seq<seq<TestCase>>)
    requires r.graph == graph && r.goals == goals && r.maxTests == maxTests
    requires r.smoke == SmokeGenerator.SmokeSuiteOf(r.graph) && r.forms == FormTestsOf(r.graph, hash)
    requires r.smoke.category == SmokeSuite && start.suites == []
    ensures RunEnded(r, trace, snaps, journeys, suites)
  {
    var formGen := new FormGenerator.FormGenerator();
    var iteration: nat, snapshot, smokeAdded, stop;
    iteration, suites, snapshot, smokeAdded, stop, trace, snaps, journeys := LoopInit(r, start, now);
    while iteration < MaxIterations && !stop
      invariant iteration <= MaxIterations
      invariant Looping(r, trace, snaps, journeys, iteration, suites, snapshot, smokeAdded, stop)
      decreases MaxIterations - iteration + (if stop then 0 else 1)
    {
      stop, iteration, suites, smokeAdded, snapshot, trace, snaps, journeys :=
        Step(r, seed, hash, iteration, snapshot, suites, smokeAdded, formGen, start, clockMs, now,
             trace, snaps, journeys);
    }
    LoopEnd(r, trace, snaps, journeys, iteration, suites, snapshot, smokeAdded, stop);
  }

  /** The state before the first iteration: the empty plan and its
   *  snapshot, with no smoke suite. */
  method LoopInit(r: Run, start: TestPlan, now: string)
    returns (iteration: nat, suites: seq<TestSuite>, snapshot: CoverageSnapshot, smokeAdded: bool, stop: bool,
             ghost trace: seq<seq<TestSuite>>, ghost snaps: seq<CoverageSnapshot>, ghost journeys: seq<seq<TestCase>>)
    requires start.suites == []
    ensures Looping(r, trace, snaps, journeys, iteration, suites, snapshot, smokeAdded, stop)
    ensures iteration == 0 && !stop
  {
    suites := [];
    iteration := 0;
    snapshot := Snapshot(r.graph, start, now);
    smokeAdded := false;
    stop := false;
    trace, snaps, journeys := [[]], [snapshot], [];
    LoopStart(r, snapshot);
  }

  /** What the loop's invariant and its exit give. */
  lemma LoopEnd(r: Run, trace: seq<seq<TestSuite>>, snaps: seq<CoverageSnapshot>, journeys: seq<seq<TestCase>>,
                iteration: nat, suites: seq<TestSuite>, snapshot: CoverageSnapshot, smokeAdded: bool, stop: bool)
    requires Looping(r, trace, snaps, journeys, iteration, suites, snapshot, smokeAdded, stop)
    requires iteration <= MaxIterations && (iteration < MaxIterations ==> stop)
    ensures RunEnded(r, trace, snaps, journeys, suites)
  {
  }

  /** Before the first iteration the history is the empty plan and its
   *  snapshot, with no smoke suite. */
  lemma LoopStart(r: Run, snapshot: CoverageSnapshot)
    requires SnapshotOf(snapshot, r.graph, [])
    ensures LoopState(r, [[]], [snapshot], [], 0, [], snapshot, false)
  {
    assert SnapshotsOk(r.graph, [[]], [snapshot]);
  }

  /** One pass of the loop's body: `stop` says it left by one of the
   *  `break`s; otherwise it ran one iteration. */
  method Step(r: Run, seed: int, hash: string -> string, iteration: nat, snapshot: CoverageSnapshot,
              suites: seq<TestSuite>, smokeAdded: bool, formGen: FormGenerator.FormGenerator, start: TestPlan,
              clockMs: int, now: string, ghost trace: seq<seq<TestSuite>>, ghost snaps: seq<CoverageSnapshot>,
              ghost journeys: seq<seq<TestCase>>)
    returns (stop: bool, iteration': nat, suites': seq<TestSuite>, smokeAdded': bool, snapshot': CoverageSnapshot,
             ghost trace': seq<seq<TestSuite>>, ghost snaps': seq<CoverageSnapshot>,
             ghost journeys': seq<seq<TestCase>>)
    requires r.smoke == SmokeGenerator.SmokeSuiteOf(r.graph) && r.forms == FormTestsOf(r.graph, hash)
    requires r.smoke.category == SmokeSuite && iteration < MaxIterations
    requires Looping(r, trace, snaps, journeys, iteration, suites, snapshot, smokeAdded, false)
    modifies formGen
    ensures Looping(r, trace', snaps', journeys', iteration', suites', snapshot', smokeAdded', stop)
    ensures stop ==> iteration <= iteration' <= iteration + 1 && StoppedEarly(trace', snaps', r.goals, r.maxTests, suites')
    ensures stop && iteration' == iteration ==> suites' == suites
    // an iteration that ran stops the loop exactly when it added no test
    ensures stop && iteration' == iteration + 1 ==> TestCount(suites') == TestCount(suites)
    ensures !stop ==> iteration' == iteration + 1 && TestCount(suites) < TestCount(suites')
    ensures !stop ==> trace'[iteration] == suites
  {
    stop, iteration', suites', smokeAdded', snapshot', trace', snaps', journeys' :=
      true, iteration, suites, smokeAdded, snapshot, trace, snaps, journeys;
    if CoverageEngine.MeetsTarget(snapshot, AsPartial(r.goals)) {
      return;
    }
    var totalTests := TestCount(suites);
    if totalTests >= r.maxTests {
      return;
    }
    var added;
    suites', smokeAdded', snapshot', added, trace', snaps', journeys' :=
      Advance(r, seed, hash, iteration, snapshot, suites, smokeAdded, formGen, start, clockMs, now,
              trace, snaps, journeys);
    iteration' := iteration + 1;
    stop := added == 0;
  }

  /** One pass of the loop's body past its two exits: the iteration, the
   *  new snapshot, and the run's history extended by one step. */
  method Advance(r: Run, seed: int, hash: string -> string, iteration: nat, snapshot: CoverageSnapshot,
                 suites: seq<TestSuite>, smokeAdded: bool, formGen: FormGenerator.FormGenerator, start: TestPlan,
                 clockMs: int, now: string, ghost trace: seq<seq<TestSuite>>, ghost snaps: seq<CoverageSnapshot>,
                 ghost journeys: seq<seq<TestCase>>)
    returns (suites': seq<TestSuite>, smokeAdded': bool, snapshot': CoverageSnapshot, added: nat,
             ghost trace': seq<seq<TestSuite>>, ghost snaps': seq<CoverageSnapshot>,
             ghost journeys': seq<seq<TestCase>>)
    requires r.smoke == SmokeGenerator.SmokeSuiteOf(r.graph) && r.forms == FormTestsOf(r.graph, hash)
    requires r.smoke.category == SmokeSuite
    requires LoopState(r, trace, snaps, journeys, iteration, suites, snapshot, smokeAdded)
    requires !CoverageEngine.MeetsTarget(snapshot, AsPartial(r.goals)) && TestCount(suites) < r.maxTests
    requires iteration >= 1 ==> TestCount(trace[iteration - 1]) < TestCount(suites)
    modifies formGen
    ensures LoopState(r, trace', snaps', journeys', iteration + 1, suites', snapshot', smokeAdded')
    ensures trace'[iteration] == suites
    ensures TestCount(suites') == TestCount(suites) + added
  {
    ghost var step;
    suites', added, smokeAdded', step := Iterate(r, seed, hash, iteration, snapshot, suites, smokeAdded,
                                                 formGen, clockMs, now);
    SmokeKept(r, iteration, snapshot, suites, step, suites');
    snapshot' := Snapshot(r.graph, start.(suites := suites'), now);
    TraceExtend(r, trace, snaps, journeys, step, suites', snapshot');
    SnapshotsExtend(r.graph, trace, snaps, suites', snapshot');
    trace', snaps', journeys' := trace + [suites'], snaps + [snapshot'], journeys + [step];
  }

  /** The engine's snapshot of a plan, as the loop reads it. */
  method Snapshot(graph: AppGraph, plan: TestPlan, now: string) returns (snap: CoverageSnapshot)
    ensures SnapshotOf(snap, graph, plan.suites)
  {
    snap := CoverageEngine.Compute(graph, plan, now);
  }

  /** Across a run the test count and the coverage figures never decrease. */
  lemma RunGrows(r: Run, trace: seq<seq<TestSuite>>, snaps: seq<CoverageSnapshot>,
                 journeys: seq<seq<TestCase>>, i: nat, j: nat)
    requires TraceOk(r, trace, snaps, journeys) && SnapshotsOk(r.graph, trace, snaps)
    requires i <= j < |trace|
    ensures TestCount(trace[i]) <= TestCount(trace[j])
    ensures snaps[i].routes.percentage <= snaps[j].routes.percentage
    ensures snaps[i].elements.percentage <= snaps[j].elements.percentage
    ensures snaps[i].forms.percentage <= snaps[j].forms.percentage
    ensures snaps[i].assertions <= snaps[j].assertions && snaps[i].flows <= snaps[j].flows
  {
    forall k | 0 <= k < |trace| - 1
      ensures Grows(trace[k], snaps[k], trace[k + 1], snaps[k + 1])
    {
      StepGrows(r, trace, snaps, journeys, k);
    }
    ChainGrows(trace, snaps, i, j);
  }

  /** The test count and every coverage figure of `(a, sa)` are at most those of `(b, sb)`. */
  predicate Grows(a: seq<TestSuite>, sa: CoverageSnapshot, b: seq<TestSuite>, sb: CoverageSnapshot) {
    && TestCount(a) <= TestCount(b)
    && sa.routes.percentage <= sb.routes.percentage
    && sa.elements.percentage <= sb.elements.percentage
    && sa.forms.percentage <= sb.forms.percentage
    && sa.assertions <= sb.assertions && sa.flows <= sb.flows
  }

  /** Growth from each entry to the next chains to growth between any two. */
  lemma {:induction false} ChainGrows(trace: seq<seq<TestSuite>>, snaps: seq<CoverageSnapshot>, i: nat, j: nat)
    requires |snaps| == |trace| && i <= j < |trace|
    requires forall k :: 0 <= k < |trace| - 1 ==> Grows(trace[k], snaps[k], trace[k + 1], snaps[k + 1])
    ensures Grows(trace[i], snaps[i], trace[j], snaps[j])
    decreases j - i
  {
    if i < j {
      ChainGrows(trace, snaps, i + 1, j);
      assert Grows(trace[i], snaps[i], trace[i + 1], snaps[i + 1]);
    }
  }

  /** One iteration of a run does not lower the test count or the
   *  coverage figures. */
  lemma StepGrows(r: Run, trace: seq<seq<TestSuite>>, snaps: seq<CoverageSnapshot>,
                  journeys: seq<seq<TestCase>>, i: nat)
    requires i + 1 < |trace| && |snaps| == |trace| && i < |journeys|
    requires Appends(r, i, snaps[i], trace[i], journeys[i], trace[i + 1])
    requires SnapshotOf(snaps[i], r.graph, trace[i]) && SnapshotOf(snaps[i + 1], r.graph, trace[i + 1])
    ensures TestCount(trace[i]) <= TestCount(trace[i + 1])
    ensures snaps[i].routes.percentage <= snaps[i + 1].routes.percentage
    ensures snaps[i].elements.percentage <= snaps[i + 1].elements.percentage
    ensures snaps[i].forms.percentage <= snaps[i + 1].forms.percentage
    ensures snaps[i].assertions <= snaps[i + 1].assertions && snaps[i].flows <= snaps[i + 1].flows
  {
    AppendGrows(r.graph, trace[i], snaps[i], SmokePart(r, snaps[i], trace[i]), FormPart(r, i, snaps[i]),
                JourneyPart(i, journeys[i]), trace[i + 1], snaps[i + 1]);
  }

  /** Appending suites to a plan does not lower its test count or its
   *  snapshot's figures. */
  lemma AppendGrows(graph: AppGraph, before: seq<TestSuite>, sa: CoverageSnapshot,
                    a: seq<TestSuite>, b: seq<TestSuite>, c: seq<TestSuite>, after: seq<TestSuite>, sb: CoverageSnapshot)
    requires after == before + a + b + c
    requires SnapshotOf(sa, graph, before) && SnapshotOf(sb, graph, after)
    ensures Grows(before, sa, after, sb)
  {
    AppendAssoc(before + a, b, c);
    AppendAssoc(before, a, b + c);
    AppendAssoc(a, b, c);
    PrefixGrows(graph, before, a + b + c);
  }

  /** An iteration adds the smoke suite only when there is none yet, so
   *  there is at most one; afterwards there is one exactly when there was
   *  one before or it was wanted. */
  lemma {:induction false} SmokeKept(r: Run, iteration: nat, snap: CoverageSnapshot, before: seq<TestSuite>,
                                     journeys: seq<TestCase>, after: seq<TestSuite>)
    requires Appends(r, iteration, snap, before, journeys, after)
    requires SmokeAtMostOnce(r.smoke, before)
    requires r.smoke.category == SmokeSuite
    ensures SmokeAtMostOnce(r.smoke, after)
    ensures !NoSmoke(after) <==> !NoSmoke(before) || WantsSmoke(r, snap, before)
  {
    var rest := FormPart(r, iteration, snap) + JourneyPart(iteration, journeys);
    assert after == before + SmokePart(r, snap, before) + rest;
    assert forall k :: 0 <= k < |rest| ==> rest[k].category == RegressionSuite;
    SmokeAppend(before, SmokePart(r, snap, before), rest, r.smoke, WantsSmoke(r, snap, before));
  }

  /** Appending at most one smoke suite, only when there is none, and then
   *  only regression suites keeps at most one smoke suite. */
  lemma SmokeAppend(before: seq<TestSuite>, smoke: seq<TestSuite>, rest: seq<TestSuite>, s: TestSuite, wants: bool)
    requires smoke == (if wants then [s] else [])
    requires s.category == SmokeSuite
    requires forall k :: 0 <= k < |rest| ==> rest[k].category == RegressionSuite
    requires SmokeAtMostOnce(s, before)
    requires wants ==> NoSmoke(before)
    ensures SmokeAtMostOnce(s, before + smoke + rest)
    ensures !NoSmoke(before + smoke + rest) <==> !NoSmoke(before) || wants
  {
    var n := |before|;
    var after := before + smoke + rest;
    // the only smoke suites are those of `before` and `smoke`
    assert forall k :: n <= k < |after| && after[k].category == SmokeSuite ==> k == n && wants && after[k] == s;
    forall i, j | 0 <= i < j < |after| && after[i].category == SmokeSuite
      ensures after[j].category != SmokeSuite
    {
      if j < n {
        assert after[i] == before[i] && after[j] == before[j];
      } else if i < n {
        assert after[i] == before[i];
      }
    }
    forall x | x in after && x.category == SmokeSuite
      ensures x == s
    {
      var k :| 0 <= k < |after| && after[k] == x;
      if k < n {
        assert before[k] == x;
      }
    }
    if !NoSmoke(after) && NoSmoke(before) {
      var k :| 0 <= k < |after| && after[k].category == SmokeSuite;
      assert k >= n;
    }
    if wants {
      assert after[n].category == SmokeSuite;
    }
    if !NoSmoke(before) {
      var k :| 0 <= k < n && before[k].category == SmokeSuite;
      assert after[k] == before[k];
    }
  }
}
