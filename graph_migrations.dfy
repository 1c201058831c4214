/** The one-way migration of a stored application graph to the current
 *  format: every default a newer reader expects is filled in where it is
 *  missing, and everything present is kept. */
module GraphMigrations {
  import opened Wrappers
  import opened Seqs
  import opened GraphModel

  const CurrentGraphVersion: string := "6.1.0"

  /** Older files may hold a validation rule as a bare message string. */
  datatype LegacyRule = RuleText(text: string) | RuleRecord(rule: ValidationRule)

  /** A form as an older file may hold it: fields, rules, method and action
   *  may be missing. */
  datatype LegacyForm = LegacyForm(
    id: string,
    selector: SelectorStrategy,
    fields: Option<seq<FormField>>,
    submitButton: Option<ElementDescriptor>,
    validationRules: Option<seq<LegacyRule>>,
    httpMethod: Option<string>,
    action: Option<string>)

  datatype LegacyNode = LegacyNode(
    id: string,
    ntype: NodeType,
    url: Option<string>,
    route: Option<string>,
    name: string,
    elements: seq<ElementDescriptor>,
    forms: Option<seq<LegacyForm>>,
    metadata: NodeMetadata)

  datatype LegacyGraph = LegacyGraph(
    version: Option<string>,
    appName: string,
    baseUrl: string,
    timestamp: string,
    framework: Option<string>,
    nodes: seq<LegacyNode>,
    edges: seq<AppEdge>,
    signatures: map<string, Signature>,
    metadata: GraphMetadata)

  /** `typeof field[key] === 'number' ? field[key] : undefined`. */
  function FlatNumber(flat: map<string, Scalar>, key: string): Option<int> {
    if key in flat && flat[key].Num? then Some(flat[key].n) else None
  }

  /** `typeof field[key] === 'string' ? field[key] : undefined`. */
  function FlatString(flat: map<string, Scalar>, key: string): Option<string> {
    if key in flat && flat[key].Str? then Some(flat[key].s) else None
  }

  /** The constraints an older file stored flat on the field. */
  function ConstraintsFromFlat(flat: map<string, Scalar>): FieldConstraints {
    FieldConstraints(FlatNumber(flat, "minLength"), FlatNumber(flat, "maxLength"),
      FlatNumber(flat, "min"), FlatNumber(flat, "max"),
      FlatString(flat, "pattern"), FlatString(flat, "step"))
  }

  function NormalizeField(field: FormField): (r: FormField)
    ensures r.constraints.Some? && r.validationHints.Some?
    ensures field.constraints.Some? ==> r.constraints == field.constraints
    ensures field.constraints.None? ==> r.constraints == Some(ConstraintsFromFlat(field.flat))
    ensures field.validationHints.Some? ==> r.validationHints == field.validationHints
    ensures field.validationHints.None? ==> r.validationHints == Some([])
    ensures r.(constraints := field.constraints, validationHints := field.validationHints) == field
  {
    field.(constraints := Some(field.constraints.GetOr(ConstraintsFromFlat(field.flat))),
           validationHints := Some(field.validationHints.GetOr([])))
  }

  function NormalizeRule(rule: LegacyRule): (r: ValidationRule)
    ensures rule.RuleText? ==> r == ValidationRule("unknown", PatternRule, Some(rule.text))
    ensures rule.RuleRecord? ==> r == rule.rule
  {
    match rule
    case RuleText(text) => ValidationRule("unknown", PatternRule, Some(text))
    case RuleRecord(v) => v
  }

  function NormalizeForm(form: LegacyForm): FormDescriptor {
    FormDescriptor(
      form.id,
      form.selector,
      Map(form.fields.GetOr([]), NormalizeField),
      form.submitButton,
      Some(Map(form.validationRules.GetOr([]), NormalizeRule)),
      Some(form.httpMethod.GetOr("POST")),
      Some(form.action.GetOr("")))
  }

  function MigrateNode(node: LegacyNode): AppNode {
    AppNode(node.id, node.ntype, node.url, node.route, node.name, node.elements,
      Map(node.forms.GetOr([]), NormalizeForm), node.metadata)
  }

  function MigrateAppGraph(graph: LegacyGraph): AppGraph {
    AppGraph(CurrentGraphVersion, graph.appName, graph.baseUrl, graph.timestamp, graph.framework,
      Map(graph.nodes, MigrateNode), graph.edges, graph.signatures, graph.metadata)
  }

  /** A missing method becomes POST and a missing action the empty string;
   *  missing fields and rules become empty lists; present values are kept,
   *  field by field and rule by rule in order. */
  lemma NormalizeFormSpec(form: LegacyForm)
    ensures var r := NormalizeForm(form);
      && r.id == form.id && r.selector == form.selector && r.submitButton == form.submitButton
      && r.httpMethod == (if form.httpMethod.Some? then form.httpMethod else Some("POST"))
      && r.action == (if form.action.Some? then form.action else Some(""))
      && (form.fields.None? ==> r.fields == [])
      && (form.fields.Some? ==> r.fields == Map(form.fields.value, NormalizeField))
      && r.validationRules.Some?
      && (form.validationRules.None? ==> r.validationRules.value == [])
      && (form.validationRules.Some? ==> r.validationRules.value == Map(form.validationRules.value, NormalizeRule))
  {
  }

  /** The version becomes current; node count, order and identity are kept,
   *  a node without forms gets none, and edges, signatures and metadata are
   *  untouched. */
  lemma MigrateSpec(graph: LegacyGraph)
    ensures var m := MigrateAppGraph(graph);
      && m.version == "6.1.0"
      && |m.nodes| == |graph.nodes|
      && (forall i :: 0 <= i < |m.nodes| ==>
            && m.nodes[i].id == graph.nodes[i].id && m.nodes[i].ntype == graph.nodes[i].ntype
            && m.nodes[i].url == graph.nodes[i].url && m.nodes[i].route == graph.nodes[i].route
            && m.nodes[i].name == graph.nodes[i].name && m.nodes[i].elements == graph.nodes[i].elements
            && m.nodes[i].metadata == graph.nodes[i].metadata
            && (graph.nodes[i].forms.None? ==> m.nodes[i].forms == [])
            && (graph.nodes[i].forms.Some? ==> m.nodes[i].forms == Map(graph.nodes[i].forms.value, NormalizeForm)))
      && m.appName == graph.appName && m.baseUrl == graph.baseUrl && m.timestamp == graph.timestamp
      && m.framework == graph.framework && m.edges == graph.edges
      && m.signatures == graph.signatures && m.metadata == graph.metadata
  {
  }

  /** Every default a current reader expects is present. */
  predicate FieldMigrated(f: FormField) {
    f.constraints.Some? && f.validationHints.Some?
  }

  predicate FormMigrated(f: FormDescriptor) {
    f.validationRules.Some? && f.httpMethod.Some? && f.action.Some?
    && forall i :: 0 <= i < |f.fields| ==> FieldMigrated(f.fields[i])
  }

  predicate Migrated(g: AppGraph) {
    g.version == CurrentGraphVersion
    && forall i, j :: 0 <= i < |g.nodes| && 0 <= j < |g.nodes[i].forms| ==> FormMigrated(g.nodes[i].forms[j])
  }

  /** A current graph read back as a stored file. */
  function AsLegacyForm(f: FormDescriptor): LegacyForm {
    LegacyForm(f.id, f.selector, Some(f.fields), f.submitButton,
      if f.validationRules.Some? then Some(Map(f.validationRules.value, (v: ValidationRule) => RuleRecord(v))) else None,
      f.httpMethod, f.action)
  }

  function AsLegacyNode(n: AppNode): LegacyNode {
    LegacyNode(n.id, n.ntype, n.url, n.route, n.name, n.elements, Some(Map(n.forms, AsLegacyForm)), n.metadata)
  }

  function AsLegacy(g: AppGraph): LegacyGraph {
    LegacyGraph(Some(g.version), g.appName, g.baseUrl, g.timestamp, g.framework,
      Map(g.nodes, AsLegacyNode), g.edges, g.signatures, g.metadata)
  }

  /** Migration fills in every default. */
  lemma MigrateCompletes(graph: LegacyGraph)
    ensures Migrated(MigrateAppGraph(graph))
  {
    var m := MigrateAppGraph(graph);
    forall i, j | 0 <= i < |m.nodes| && 0 <= j < |m.nodes[i].forms| ensures FormMigrated(m.nodes[i].forms[j]) {
      var legacy := graph.nodes[i].forms.GetOr([]);
      assert m.nodes[i].forms[j] == NormalizeForm(legacy[j]);
    }
  }

  lemma FieldsUnchanged(fields: seq<FormField>)
    requires forall i :: 0 <= i < |fields| ==> FieldMigrated(fields[i])
    ensures Map(fields, NormalizeField) == fields
  {
    forall i | 0 <= i < |fields| ensures NormalizeField(fields[i]) == fields[i] {
      var f := fields[i];
      assert NormalizeField(f) == f.(constraints := Some(f.constraints.value), validationHints := Some(f.validationHints.value));
    }
  }

  lemma FormUnchanged(f: FormDescriptor)
    requires FormMigrated(f)
    ensures NormalizeForm(AsLegacyForm(f)) == f
  {
    FieldsUnchanged(f.fields);
    var rules := f.validationRules.value;
    var lifted := Map(rules, (v: ValidationRule) => RuleRecord(v));
    assert Map(lifted, NormalizeRule) == rules;
  }

  lemma NodeUnchanged(n: AppNode)
    requires forall j :: 0 <= j < |n.forms| ==> FormMigrated(n.forms[j])
    ensures MigrateNode(AsLegacyNode(n)) == n
  {
    forall j | 0 <= j < |n.forms| ensures NormalizeForm(AsLegacyForm(n.forms[j])) == n.forms[j] {
      FormUnchanged(n.forms[j]);
    }
    assert Map(Map(n.forms, AsLegacyForm), NormalizeForm) == n.forms;
  }

  /** Migrating a graph that is already current gives it back unchanged. */
  lemma MigrateKeepsMigrated(g: AppGraph)
    requires Migrated(g)
    ensures MigrateAppGraph(AsLegacy(g)) == g
  {
    forall i | 0 <= i < |g.nodes| ensures MigrateNode(AsLegacyNode(g.nodes[i])) == g.nodes[i] {
      NodeUnchanged(g.nodes[i]);
    }
    assert Map(Map(g.nodes, AsLegacyNode), MigrateNode) == g.nodes;
  }

  /** Migration is idempotent: migrating its result again changes
   *  nothing. */
  lemma MigrateIdempotent(graph: LegacyGraph)
    ensures MigrateAppGraph(AsLegacy(MigrateAppGraph(graph))) == MigrateAppGraph(graph)
  {
    MigrateCompletes(graph);
    MigrateKeepsMigrated(MigrateAppGraph(graph));
  }
}
