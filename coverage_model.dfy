/** Coverage measured over a plan against a graph, and the goals the
 *  orchestrator generates towards. */
module CoverageModel {
  import opened Wrappers

  datatype Measure = Measure(total: nat, covered: nat, percentage: nat)

  datatype CoverageSnapshot = CoverageSnapshot(
    routes: Measure,
    nodeIds: seq<string>,
    elements: Measure,
    forms: Measure,
    assertions: nat,
    flows: nat,
    timestamp: string)

  datatype CoverageGoals = CoverageGoals(routes: int, elements: int, forms: int, assertions: int, flows: int)

  /** `Partial<CoverageGoals>`: each goal may be absent. */
  datatype PartialGoals = PartialGoals(
    routes: Option<int>,
    elements: Option<int>,
    forms: Option<int>,
    assertions: Option<int>,
    flows: Option<int>)

  function NoGoals(): PartialGoals {
    PartialGoals(None, None, None, None, None)
  }

  function AsPartial(g: CoverageGoals): PartialGoals {
    PartialGoals(Some(g.routes), Some(g.elements), Some(g.forms), Some(g.assertions), Some(g.flows))
  }
}
