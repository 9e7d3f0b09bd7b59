/** Workflow definitions: nodes with decoded configs, edges with branch labels,
    and the condition language evaluated against the execution input.

    A `string` stands for a Go string, one char per byte. */
module Workflow {
  import opened Common
  import opened Graphs

  datatype Json =
    | Null
    | Boolean(b: bool)
    | Number(n: real)
    | Text(s: string)
    | List(items: seq<Json>)
    | Object(fields: map<string, Json>)

  datatype NodeKind = Trigger | Task | Webhook | Condition | Delay | Unsupported

  /** A node's config after decoding into the record its node type calls for. */
  datatype Config =
    | Absent                       // no config object at all
    | Undecodable                  // an object the node type's record rejects
    | Opaque                       // an object of a node type that is not decoded
    | TaskConfig(queue: string, priority: int, maxRetries: int, timeoutSeconds: int)
    | WebhookConfig(endpoint: string, endpointIsUuid: bool)
    | DelayConfig(durationSeconds: int)
    | ConditionConfig(field: string, operator: string, operand: Option<Json>)

  /** The raw condition of an edge, sorted by what the two parsers make of it. */
  datatype EdgeCondition =
    | Unlabelled                   // empty or null
    | Branch(on: bool)             // exactly {"branch": true|false}
    | OtherObject                  // some other JSON object
    | NotAnObject                  // anything else

  datatype Node = Node(id: string, kind: NodeKind, config: Config)
  datatype Edge = Edge(id: string, source: string, target: string, condition: EdgeCondition)
  datatype Definition = Definition(nodes: seq<Node>, edges: seq<Edge>)

  const MAX_QUEUE_LENGTH := 64
  const MAX_DELAY_SECONDS := 7 * 24 * 60 * 60
  const FIELD_PREFIX := "input."

  predicate Decoded(kind: NodeKind, config: Config) {
    match kind
    case Task =>
      && config.TaskConfig?
      && 1 <= |config.queue| <= MAX_QUEUE_LENGTH
      && 0 <= config.priority <= 9
      && 0 <= config.maxRetries <= 99
      && 0 <= config.timeoutSeconds <= 86400
    case Webhook => config.WebhookConfig? && config.endpoint != "" && config.endpointIsUuid
    case Delay => config.DelayConfig? && 0 <= config.durationSeconds <= MAX_DELAY_SECONDS
    case Condition =>
      && config.ConditionConfig?
      && FIELD_PREFIX < config.field
      && (config.operator == "exists"
          || (config.operator in ["equals", "not_equals"] && config.operand.Some?))
    case Trigger => true
    case Unsupported => true
  }

  predicate Action(kind: NodeKind) {
    kind.Task? || kind.Webhook? || kind.Delay? || kind.Condition?
  }

  predicate BranchParses(c: EdgeCondition) {
    c.Unlabelled? || c.Branch?
  }

  /** The dot-separated parts of a field path. */
  function Parts(path: string): (parts: seq<string>)
    ensures parts != []
  {
    if path == "" then [""]
    else
      var rest := Parts(path[1..]);
      if path[0] == '.' then [""] + rest else [[path[0]] + rest[0]] + rest[1..]
  }

  function Lookup(root: Json, parts: seq<string>): Option<Json> {
    if parts == [] then Some(root)
    else if root.Object? && parts[0] in root.fields then Lookup(root.fields[parts[0]], parts[1..])
    else None
  }

  /** The boolean a condition node records; an absent input reads as an empty object. */
  function Evaluate(config: Config, input: Option<Json>): bool
    requires Decoded(Condition, config)
  {
    var root := if input.Some? then input.value else Object(map[]);
    var found := Lookup(root, Parts(config.field[|FIELD_PREFIX|..]));
    var operand := if config.operand.Some? then config.operand.value else Null;
    if config.operator == "exists" then found.Some?
    else if config.operator == "equals" then found == Some(operand)
    else found != Some(operand)
  }

  predicate HasNode(d: Definition, id: string) {
    exists i | 0 <= i < |d.nodes| :: d.nodes[i].id == id
  }

  /** Position of the first node carrying an id. */
  function FirstIndex(nodes: seq<Node>, id: string): (k: nat)
    requires exists i | 0 <= i < |nodes| :: nodes[i].id == id
    ensures k < |nodes| && nodes[k].id == id
    ensures forall i | 0 <= i < k :: nodes[i].id != id
  {
    if nodes[0].id == id then 0
    else
      assert exists i | 0 <= i < |nodes[1..]| :: nodes[1..][i].id == id by {
        var i :| 0 <= i < |nodes| && nodes[i].id == id;
        assert nodes[1..][i - 1].id == id;
      }
      1 + FirstIndex(nodes[1..], id)
  }

  function NodeOf(d: Definition, id: string): (n: Node)
    requires HasNode(d, id)
    ensures n in d.nodes && n.id == id
  {
    d.nodes[FirstIndex(d.nodes, id)]
  }

  function Ids(d: Definition): set<string> {
    set n | n in d.nodes :: n.id
  }

  lemma IdsHasNode(d: Definition, id: string)
    ensures id in Ids(d) <==> HasNode(d, id)
  {
    if id in Ids(d) {
      var n :| n in d.nodes && n.id == id;
      var i :| 0 <= i < |d.nodes| && d.nodes[i] == n;
      assert d.nodes[i].id == id;
    }
    if HasNode(d, id) {
      var i :| 0 <= i < |d.nodes| && d.nodes[i].id == id;
      assert d.nodes[i] in d.nodes;
    }
  }

  /** The nodes with an id, and the edges whose ends both exist. */
  ghost function GraphOf(d: Definition): (g: Graph<string>)
    ensures Closed(g)
  {
    Graph(
      set n | n in d.nodes && n.id != "" :: n.id,
      set e | e in d.edges && e.source != "" && e.target != "" && e.source in Ids(d) && e.target in Ids(d)
        :: (e.source, e.target))
  }
}
