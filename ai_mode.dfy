/** The AI-mode presets: `assist` turns on form variants and self-healing,
 *  `autopilot` additionally raises the coverage goals and forces parallel
 *  execution. */
module AIModePresets {
  import opened Wrappers
  import opened CoverageModel
  import opened ConfigModel

  function Min(a: real, b: real): real { if a <= b then a else b }
  function Max(a: int, b: int): int { if a >= b then a else b }

  /** An explicit mode wins, then the configured one, then off. */
  function ResolveAIMode(mode: Option<AIMode>, config: Option<LiberoConfig>): (r: AIMode)
    ensures mode.Some? ==> r == mode.value
    ensures mode.None? && config.Some? && config.value.ai.Some? ==> r == config.value.ai.value
    ensures mode.None? && (config.None? || config.value.ai.None?) ==> r == AIOff
  {
    if mode.Some? then mode.value
    else if config.Some? then config.value.ai.GetOr(AIOff)
    else AIOff
  }

  /** Autopilot's floors under the coverage goals. */
  function RaiseGoals(g: CoverageGoals): CoverageGoals {
    CoverageGoals(Max(g.routes, 85), Max(g.elements, 75), Max(g.forms, 85), Max(g.assertions, 3), Max(g.flows, 5))
  }

  /** The configuration with a mode's preset applied. */
  function ApplyAIMode(config: LiberoConfig, mode: AIMode): (r: LiberoConfig)
    // off changes nothing
    ensures mode == AIOff ==> r == config
    // every other mode records itself and switches the learning features on
    ensures mode != AIOff ==>
      && r.ai == Some(mode)
      && r.mapping == config.mapping.(deepFormExtraction := Some(true))
      && r.generation.formVariants == Some(FormVariants(true, true, mode == AIAutopilot))
      && r.learning == config.learning.(autoHeal := true, adaptiveExploration := true,
           autoHealConfidenceThreshold := r.learning.autoHealConfidenceThreshold)
    // the heal threshold never rises, and is capped by 0.75 or 0.85
    ensures r.learning.autoHealConfidenceThreshold <= config.learning.autoHealConfidenceThreshold
    ensures mode == AIAutopilot ==>
      r.learning.autoHealConfidenceThreshold == Min(config.learning.autoHealConfidenceThreshold, 0.75)
    ensures mode == AIAssist ==>
      r.learning.autoHealConfidenceThreshold == Min(config.learning.autoHealConfidenceThreshold, 0.85)
    // autopilot never lowers a goal and lifts each to its floor
    ensures mode == AIAutopilot ==>
      var before, after := config.generation.coverageTargets, r.generation.coverageTargets;
      && after.routes >= before.routes && after.routes >= 85
      && after.elements >= before.elements && after.elements >= 75
      && after.forms >= before.forms && after.forms >= 85
      && after.assertions >= before.assertions && after.assertions >= 3
      && after.flows >= before.flows && after.flows >= 5
      && (before.routes >= 85 ==> after.routes == before.routes)
    ensures mode == AIAutopilot ==>
      r.execution == config.execution.(parallel := true, workers := r.execution.workers)
      && r.execution.workers >= 2 && r.execution.workers >= config.execution.workers
      && (config.execution.workers >= 2 ==> r.execution.workers == config.execution.workers)
    // assist leaves execution and the goals alone
    ensures mode == AIAssist ==>
      r.execution == config.execution && r.generation.coverageTargets == config.generation.coverageTargets
    // nothing outside the preset changes
    ensures r.version == config.version && r.appName == config.appName && r.baseUrl == config.baseUrl
      && r.framework == config.framework
    ensures r.generation.categories == config.generation.categories
      && r.generation.edgeCases == config.generation.edgeCases
  {
    if mode == AIOff then config
    else
      var threshold := if mode == AIAutopilot then Min(config.learning.autoHealConfidenceThreshold, 0.75)
                       else Min(config.learning.autoHealConfidenceThreshold, 0.85);
      var merged := config.(
        ai := Some(mode),
        mapping := config.mapping.(deepFormExtraction := Some(true)),
        generation := config.generation.(formVariants := Some(FormVariants(true, true, mode == AIAutopilot))),
        learning := config.learning.(autoHeal := true, adaptiveExploration := true,
                                     autoHealConfidenceThreshold := threshold));
      if mode == AIAutopilot then
        merged.(
          generation := merged.generation.(coverageTargets := RaiseGoals(merged.generation.coverageTargets)),
          execution := merged.execution.(parallel := true, workers := Max(merged.execution.workers, 2)))
      else merged
  }

  /** Applying a preset twice gives what applying it once gives. */
  lemma ApplyAIModeIdempotent(config: LiberoConfig, mode: AIMode)
    ensures ApplyAIMode(ApplyAIMode(config, mode), mode) == ApplyAIMode(config, mode)
  {
  }

  /** The default configuration under each preset: assist keeps boundary
   *  cases off, autopilot lifts one worker to two and a 60% route goal to
   *  85%. */
  lemma DefaultPresets(appName: string, baseUrl: string)
    ensures var c := DefaultConfig(appName, baseUrl);
      var a := ApplyAIMode(c, AIAssist);
      && a.mapping.deepFormExtraction == Some(true)
      && a.generation.formVariants == Some(FormVariants(true, true, false))
      && a.learning.autoHeal
    ensures var c := DefaultConfig(appName, baseUrl);
      var c1 := c.(execution := c.execution.(workers := 1),
                   generation := c.generation.(coverageTargets := c.generation.coverageTargets.(routes := 60)));
      var p := ApplyAIMode(c1, AIAutopilot);
      && p.execution.parallel && p.execution.workers == 2 && p.generation.coverageTargets.routes == 85
  {
  }
}
