/** The tool's configuration: crawl limits, generation goals, execution
 *  and learning settings, and the optional AI mode. */
module ConfigModel {
  import opened Wrappers
  import opened CoverageModel

  datatype AIMode = AIOff | AIAssist | AIAutopilot

  datatype MappingMethod = StaticMapping | DynamicMapping | HybridMapping

  datatype MappingConfig = MappingConfig(
    mapping: MappingMethod,
    maxDepth: int,
    maxPages: int,
    timeout: int,
    followExternalLinks: bool,
    captureScreenshots: bool,
    deepFormExtraction: Option<bool>)

  datatype FormVariants = FormVariants(enabled: bool, includeInvalidCases: bool, includeBoundaryCases: bool)

  datatype GenerationConfig = GenerationConfig(
    categories: seq<string>,
    coverageTargets: CoverageGoals,
    edgeCases: bool,
    visualRegression: bool,
    accessibility: bool,
    formVariants: Option<FormVariants>)

  datatype Runner = PlaywrightRunner | SeleniumRunner | BothRunners

  datatype ExecutionConfig = ExecutionConfig(
    runner: Runner,
    browsers: seq<string>,
    headless: bool,
    parallel: bool,
    workers: int,
    retries: int,
    timeout: int,
    screenshotOnFail: bool,
    videoOnFail: bool,
    traceOnFail: bool)

  datatype LearningConfig = LearningConfig(
    enabled: bool,
    kbPath: string,
    autoHeal: bool,
    autoHealConfidenceThreshold: real,
    trackFlaky: bool,
    adaptiveExploration: bool)

  datatype LiberoConfig = LiberoConfig(
    version: string,
    appName: string,
    baseUrl: string,
    framework: Option<string>,
    mapping: MappingConfig,
    generation: GenerationConfig,
    execution: ExecutionConfig,
    learning: LearningConfig,
    ai: Option<AIMode>)

  /** The goals a configuration file starts from. */
  function DefaultGoals(): CoverageGoals {
    CoverageGoals(90, 70, 80, 2, 3)
  }

  /** The defaults, completed with an application name and base URL. */
  function DefaultConfig(appName: string, baseUrl: string): LiberoConfig {
    LiberoConfig("6.0.0", appName, baseUrl, None,
      MappingConfig(HybridMapping, 3, 50, 30000, false, true, None),
      GenerationConfig(["smoke", "regression"], DefaultGoals(), true, false, false, None),
      ExecutionConfig(PlaywrightRunner, ["chromium"], true, true, 4, 2, 30000, true, false, true),
      LearningConfig(true, ".libero/knowledge-base.db", false, 0.85, true, true),
      None)
  }
}
