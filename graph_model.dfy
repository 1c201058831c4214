/** The application graph the crawler discovers and the generators read:
 *  routes (nodes), their interactive elements and forms, and the
 *  navigation edges between them. */
module GraphModel {
  import opened Wrappers
  import opened Text

  datatype SelectorType = DataTestId | RoleSelector | LabelSelector | CssSelector | XPathSelector

  /** How an element is found: a primary selector and its fallbacks. */
  datatype SelectorStrategy = SelectorStrategy(
    primary: string,
    fallbacks: seq<string>,
    stability: real,
    stype: SelectorType)

  /** One interactive or structural element of a page. `etype` is a string
   *  because the crawler stores the ARIA role there (`textbox`, `img`). */
  datatype ElementDescriptor = ElementDescriptor(
    id: string,
    role: string,
    name: Option<string>,
    selector: SelectorStrategy,
    etype: string,
    attributes: map<string, string>,
    text: Option<string>,
    placeholder: Option<string>,
    confidence: real)

  /** JavaScript truthiness of an attribute lookup: present and not
   *  empty. */
  predicate AttrTruthy(attrs: map<string, string>, key: string) {
    key in attrs && attrs[key] != ""
  }

  datatype FieldConstraints = FieldConstraints(
    minLength: Option<int>,
    maxLength: Option<int>,
    min: Option<int>,
    max: Option<int>,
    pattern: Option<string>,
    step: Option<string>)

  /** A scalar JSON value, for the flat constraint properties older graph
   *  files stored directly on a field. */
  datatype Scalar = Num(n: int) | Str(s: string) | Bool(b: bool)

  datatype FormField = FormField(
    name: string,
    ftype: string,
    selector: SelectorStrategy,
    required: bool,
    placeholder: Option<string>,
    labelText: Option<string>,
    constraints: Option<FieldConstraints>,
    validationHints: Option<seq<string>>,
    flat: map<string, Scalar>)

  datatype RuleKind = RequiredRule | EmailRule | MinRule | MaxRule | PatternRule

  datatype ValidationRule = ValidationRule(field: string, rule: RuleKind, message: Option<string>)

  datatype FormDescriptor = FormDescriptor(
    id: string,
    selector: SelectorStrategy,
    fields: seq<FormField>,
    submitButton: Option<ElementDescriptor>,
    validationRules: Option<seq<ValidationRule>>,
    httpMethod: Option<string>,
    action: Option<string>)

  datatype NodeType = RouteNode | ComponentNode | ModalNode | FlowNode

  datatype NodeMetadata = NodeMetadata(firstSeen: string, lastSeen: string, visitCount: int)

  datatype AppNode = AppNode(
    id: string,
    ntype: NodeType,
    url: Option<string>,
    route: Option<string>,
    name: string,
    elements: seq<ElementDescriptor>,
    forms: seq<FormDescriptor>,
    metadata: NodeMetadata)

  function NodeId(n: AppNode): string {
    n.id
  }

  datatype EdgeType = NavigateEdge | SubmitEdge | ModalEdge | TabEdge

  /** `trigger` is optional: the journey generator checks for it. */
  datatype AppEdge = AppEdge(from: string, to: string, etype: EdgeType, trigger: Option<ElementDescriptor>)

  datatype Signature = Signature(domHash: string, timestamp: string)

  datatype CrawlMethod = StaticCrawl | DynamicCrawl | HybridCrawl

  datatype GraphMetadata = GraphMetadata(
    totalNodes: int,
    totalEdges: int,
    totalElements: int,
    totalForms: int,
    crawlDuration: int,
    crawlMethod: CrawlMethod)

  datatype AppGraph = AppGraph(
    version: string,
    appName: string,
    baseUrl: string,
    timestamp: string,
    framework: Option<string>,
    nodes: seq<AppNode>,
    edges: seq<AppEdge>,
    signatures: map<string, Signature>,
    metadata: GraphMetadata)

  predicate IsRoute(n: AppNode) {
    n.ntype == RouteNode
  }

  /** The address a generated test opens for a node:
   *  `node.url || baseUrl + (node.route || '/')`. */
  function PageUrl(node: AppNode, baseUrl: string): string {
    OrElse(node.url, baseUrl + OrElse(node.route, "/"))
  }
}
