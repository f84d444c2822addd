/** Building a workflow from its configured plan (`datus/agent/plan.py`, and the node
    constructors it calls). */
module Plan {
  import opened Wrappers
  import opened Sequences
  import opened Workflows

  /** A configuration value, as far as the plan looks at it. */
  datatype Value = Text(text: string) | List(data: Data) | Other

  datatype Entry = Entry(key: string, value: Value)

  datatype Item = Name(text: string) | Mapping(entries: seq<Entry>) | Ignored

  const GEN_JOB := "gen_job"
  const FEEDBACK := "feedback"

  /** The action types, the types `Node.new_instance` can build, and `agentic_nodes` of the
      agent configuration with the node type each of them configures, if any. */
  datatype Registry = Registry(actions: set<string>, buildable: set<string>, agentic: map<string, Option<string>>)

  const ACTION_TYPES: set<string> := {
    "schema_linking", "execute_sql", "output", "reasoning", "doc_search", "fix", "search_metrics", "compare",
    "date_parser", "chat", "gen_sql", "semantic", "sql_summary", "ask_metrics", "gen_report", "gen_visual_report",
    "gen_visual_dashboard", "explore", "gen_table", GEN_JOB, "gen_skill", "gen_dashboard", "scheduler", FEEDBACK}

  const BUILDABLE: set<string> :=
    ACTION_TYPES - {"semantic", "sql_summary", "gen_visual_report", "gen_visual_dashboard"}
    + {"start", "hitl", "reflect", "parallel", "selection", "subworkflow"}

  predicate BuildsControlNodes(r: Registry) {
    "start" in r.buildable && "parallel" in r.buildable && "selection" in r.buildable
  }

  lemma ShippedRegistry(agentic: map<string, Option<string>>)
    ensures BuildsControlNodes(Registry(ACTION_TYPES, BUILDABLE, agentic))
  {
  }

  function NormalizedType(name: string, registry: Registry): string {
    if name in {"reason_sql", "reasoning_sql", "reason"} then "reasoning"
    else if name in {"reflection", "reflect"} then "reflect"
    else if name == "execute" then "execute_sql"
    else if name == "chat" then "chat"
    else if name in registry.agentic then
      match registry.agentic[name]
      case Some(configured) => if configured in registry.actions then configured else "gen_sql"
      case None => "gen_sql"
    else name
  }

  /** A node to build: its type, its initial input, and the configured name it keeps. */
  datatype Planned = Planned(kind: string, input: Input, held: Option<Data>)

  function PlannedName(name: string, registry: Registry, task: Data): Planned {
    var kind := NormalizedType(name, registry);
    var named := kind == "ask_metrics" || (kind == "gen_sql" && name != "gen_sql");
    Planned(kind, if kind in {"schema_linking", "ask_metrics"} then Typed(task) else NoInput,
            if named then Some(Data(name)) else None)
  }

  function PlannedEntry(e: Entry): Option<Planned> {
    if e.key == "parallel" && e.value.List? then Some(Planned("parallel", Typed(e.value.data), None))
    else if e.key == "selection" then
      Some(Planned("selection", Typed(Data(if e.value.Text? then e.value.text else "best_quality")), None))
    else None
  }

  function PlannedEntries(entries: seq<Entry>): seq<Planned> {
    if entries == [] then []
    else
      var before, last := PlannedEntries(entries[..|entries| - 1]), PlannedEntry(entries[|entries| - 1]);
      if last.Some? then before + [last.value] else before
  }

  function PlannedItem(item: Item, registry: Registry, task: Data): seq<Planned> {
    match item
    case Name(text) => [PlannedName(text, registry, task)]
    case Mapping(entries) => PlannedEntries(entries)
    case Ignored => []
  }

  /** The nodes a configuration asks for, in configuration order. */
  function PlannedItems(config: seq<Item>, registry: Registry, task: Data): seq<Planned> {
    if config == [] then []
    else PlannedItems(config[..|config| - 1], registry, task) + PlannedItem(config[|config| - 1], registry, task)
  }

  function Digits(n: nat): (s: string)
    ensures |s| > 0
  {
    if n < 10 then ["0123456789"[n]] else Digits(n / 10) + ["0123456789"[n % 10]]
  }

  function Numbered(n: nat): NodeId {
    NodeId("node_" + Digits(n))
  }

  /** Two constructors take no id and name their node themselves. */
  function IdOf(kind: string, n: nat): NodeId {
    if kind == GEN_JOB then NodeId("gen_job_node") else if kind == FEEDBACK then NodeId("feedback_node") else Numbered(n)
  }

  function Built(p: Planned, n: nat): Node {
    Node(IdOf(p.kind, n), p.kind, p.kind, p.input, p.held, NodePending, None, [])
  }

  function AllBuilt(planned: seq<Planned>, from: nat): seq<Node> {
    seq(|planned|, i requires 0 <= i < |planned| => Built(planned[i], from + i))
  }

  predicate Buildable(planned: seq<Planned>, registry: Registry) {
    forall p <- planned :: p.kind in registry.buildable
  }

  /** The start node and then the configured ones; `None` is the `ValueError` of the first
      type that cannot be built. */
  function Nodes(config: seq<Item>, registry: Registry, task: Data): Option<seq<Node>> {
    var planned := PlannedItems(config, registry, task);
    if Buildable(planned, registry) then Some(AllBuilt([Planned("start", Typed(task), None)] + planned, 0)) else None
  }

  // ---------------------------------------------------------------- what is planned

  lemma PlannedOneMore(config: seq<Item>, item: Item, registry: Registry, task: Data)
    ensures PlannedItems(config + [item], registry, task) == PlannedItems(config, registry, task) + PlannedItem(item, registry, task)
  {
    assert (config + [item])[..|config|] == config;
  }

  /** What a name in a plan becomes: an alias of a built-in type that type; a node of the agent
      configuration the type configured for it, if that is an action, and else an SQL generation;
      any other name itself. */
  lemma NameIsPlanned(config: seq<Item>, text: string, registry: Registry, task: Data)
    ensures var before := PlannedItems(config, registry, task);
            var all := PlannedItems(config + [Name(text)], registry, task);
            && |all| == |before| + 1 && all[..|before|] == before
            && var kind := all[|before|].kind;
               && (text == "reason" || text == "reason_sql" || text == "reasoning_sql" ==> kind == "reasoning")
               && (text == "reflect" || text == "reflection" ==> kind == "reflect")
               && (text == "execute" ==> kind == "execute_sql")
               && (text == "chat" ==> kind == "chat")
               && (text !in ["reason", "reason_sql", "reasoning_sql", "reflect", "reflection", "execute", "chat"] ==>
                     && (text !in registry.agentic ==> kind == text)
                     && (text in registry.agentic ==>
                           kind == match registry.agentic[text]
                                   case None => "gen_sql"
                                   case Some(k) => if k in registry.actions then k else "gen_sql"))
  {
    PlannedOneMore(config, Name(text), registry, task);
    KindOfName(text, registry);
  }

  lemma KindOfName(text: string, registry: Registry)
    ensures var kind := NormalizedType(text, registry);
            && (text == "reason" || text == "reason_sql" || text == "reasoning_sql" ==> kind == "reasoning")
            && (text == "reflect" || text == "reflection" ==> kind == "reflect")
            && (text == "execute" ==> kind == "execute_sql")
            && (text == "chat" ==> kind == "chat")
            && (text !in ["reason", "reason_sql", "reasoning_sql", "reflect", "reflection", "execute", "chat"] ==>
                  && (text !in registry.agentic ==> kind == text)
                  && (text in registry.agentic ==>
                        kind == match registry.agentic[text]
                                case None => "gen_sql"
                                case Some(k) => if k in registry.actions then k else "gen_sql"))
  {
    var builtin := ["reason", "reason_sql", "reasoning_sql", "reflect", "reflection", "execute", "chat"];
    assert builtin[0] in builtin && builtin[1] in builtin && builtin[2] in builtin && builtin[3] in builtin;
    assert builtin[4] in builtin && builtin[5] in builtin && builtin[6] in builtin;
  }

  /** Schema linking and metric questions start with the SQL task, and SQL generations and metric
      questions remember the name they came under. */
  lemma NameIsKept(config: seq<Item>, text: string, registry: Registry, task: Data)
    ensures var before := PlannedItems(config, registry, task);
            var all := PlannedItems(config + [Name(text)], registry, task);
            && |all| == |before| + 1
            && var p := all[|before|];
               && (p.input == Typed(task) <==> p.kind == "schema_linking" || p.kind == "ask_metrics")
               && (p.input == NoInput <==> p.kind != "schema_linking" && p.kind != "ask_metrics")
               && (p.held == Some(Data(text)) <==> p.kind == "ask_metrics" || (p.kind == "gen_sql" && text != "gen_sql"))
               && (p.held == None <==> p.kind != "ask_metrics" && (p.kind != "gen_sql" || text == "gen_sql"))
  {
    PlannedOneMore(config, Name(text), registry, task);
  }

  /** What a key of a mapping in a plan becomes: a list of parallel children a parallel node with
      them, a selection a selection with its criteria, anything else nothing. */
  lemma EntryIsPlanned(config: seq<Item>, entries: seq<Entry>, e: Entry, registry: Registry, task: Data)
    ensures var before := PlannedItems(config + [Item.Mapping(entries)], registry, task);
            var all := PlannedItems(config + [Item.Mapping(entries + [e])], registry, task);
            && (e.key == "parallel" && e.value.List? ==> all == before + [Planned("parallel", Typed(e.value.data), None)])
            && (e.key == "selection" ==>
                  all == before + [Planned("selection", Typed(Data(if e.value.Text? then e.value.text else "best_quality")), None)])
            && (e.key != "selection" && (e.key != "parallel" || !e.value.List?) ==> all == before)
  {
    EntryBecomes(e);
    MappingOneMore(config, entries, e, registry, task);
  }

  lemma EntryBecomes(e: Entry)
    ensures e.key == "parallel" && e.value.List? ==> PlannedEntry(e) == Some(Planned("parallel", Typed(e.value.data), None))
    ensures e.key == "selection" ==>
              PlannedEntry(e) == Some(Planned("selection", Typed(Data(if e.value.Text? then e.value.text else "best_quality")), None))
    ensures e.key != "selection" && (e.key != "parallel" || !e.value.List?) ==> PlannedEntry(e) == None
  {
    assert "parallel"[0] != "selection"[0];
  }

  lemma MappingOneMore(config: seq<Item>, entries: seq<Entry>, e: Entry, registry: Registry, task: Data)
    ensures PlannedItems(config + [Item.Mapping(entries + [e])], registry, task)
            == PlannedItems(config + [Item.Mapping(entries)], registry, task)
               + if PlannedEntry(e).Some? then [PlannedEntry(e).value] else []
  {
    MappingIsPlanned(config, entries, registry, task);
    MappingIsPlanned(config, entries + [e], registry, task);
    EntryOneMore(entries, e);
    Associates(PlannedItems(config, registry, task), PlannedEntries(entries),
               if PlannedEntry(e).Some? then [PlannedEntry(e).value] else []);
  }

  lemma MappingIsPlanned(config: seq<Item>, entries: seq<Entry>, registry: Registry, task: Data)
    ensures PlannedItems(config + [Item.Mapping(entries)], registry, task)
            == PlannedItems(config, registry, task) + PlannedEntries(entries)
  {
    PlannedOneMore(config, Item.Mapping(entries), registry, task);
  }

  lemma Associates(a: seq<Planned>, b: seq<Planned>, c: seq<Planned>)
    ensures a + (b + c) == a + b + c
  {
  }

  lemma EntryOneMore(entries: seq<Entry>, e: Entry)
    ensures PlannedEntries(entries + [e])
            == PlannedEntries(entries) + if PlannedEntry(e).Some? then [PlannedEntry(e).value] else []
  {
    assert (entries + [e])[..|entries|] == entries;
  }

  /** Nothing else in a plan becomes a node. */
  lemma NothingIsPlanned(config: seq<Item>, registry: Registry, task: Data)
    ensures PlannedItems([], registry, task) == []
    ensures PlannedItems(config + [Ignored], registry, task) == PlannedItems(config + [Item.Mapping([])], registry, task)
            == PlannedItems(config, registry, task)
  {
    PlannedOneMore(config, Ignored, registry, task);
    PlannedOneMore(config, Item.Mapping([]), registry, task);
  }

  // ---------------------------------------------------------------- the loops

  method BuildNode(kind: string, input: Input, held: Option<Data>, index: nat, registry: Registry) returns (node: Option<Node>)
    ensures node == if kind in registry.buildable then Some(Built(Planned(kind, input, held), index)) else None
  {
    if kind !in registry.buildable {
      return None;
    }
    var id := if kind == GEN_JOB then NodeId("gen_job_node")
              else if kind == FEEDBACK then NodeId("feedback_node") else Numbered(index);
    node := Some(Node(id, kind, kind, input, held, NodePending, None, []));
  }

  method CreateNodes(config: seq<Item>, registry: Registry, task: Data) returns (r: Option<seq<Node>>)
    requires BuildsControlNodes(registry)
    ensures r == Nodes(config, registry, task)
  {
    var start := Node(Numbered(0), "start", "start", Typed(task), None, NodePending, None, []);
    var nodes := ProcessConfig(config, registry, task);
    if nodes.None? {
      return None;
    }
    BuiltTogether([Planned("start", Typed(task), None)], PlannedItems(config, registry, task), 0);
    assert AllBuilt([Planned("start", Typed(task), None)], 0) == [start];
    r := Some([start] + nodes.value);
  }

  method ProcessConfig(config: seq<Item>, registry: Registry, task: Data) returns (r: Option<seq<Node>>)
    requires BuildsControlNodes(registry)
    ensures var planned := PlannedItems(config, registry, task);
            r == if Buildable(planned, registry) then Some(AllBuilt(planned, 1)) else None
  {
    var nodes, index := [], 1;
    for i := 0 to |config|
      invariant Buildable(PlannedItems(config[..i], registry, task), registry)
      invariant nodes == AllBuilt(PlannedItems(config[..i], registry, task), 1) && index == |nodes| + 1
    {
      var more := ProcessItem(config[i], registry, task, index);
      PlannedPrefix(config, i, registry, task);
      if more.None? {
        return None;
      }
      BuiltTogether(PlannedItems(config[..i], registry, task), PlannedItem(config[i], registry, task), 1);
      nodes := nodes + more.value;
      index := index + |more.value|;
    }
    assert config[..|config|] == config;
    r := Some(nodes);
  }

  lemma BuiltTogether(a: seq<Planned>, b: seq<Planned>, from: nat)
    ensures AllBuilt(a + b, from) == AllBuilt(a, from) + AllBuilt(b, from + |a|)
  {
  }

  method ProcessItem(item: Item, registry: Registry, task: Data, start: nat) returns (r: Option<seq<Node>>)
    requires BuildsControlNodes(registry)
    ensures var planned := PlannedItem(item, registry, task);
            r == if Buildable(planned, registry) then Some(AllBuilt(planned, start)) else None
  {
    match item
    case Name(text) =>
      r := ProcessName(text, registry, task, start);
    case Mapping(entries) =>
      var nodes := ProcessEntries(entries, registry, start);
      r := Some(nodes);
    case Ignored =>
      assert AllBuilt([], start) == [];
      r := Some([]);
  }

  method ProcessName(text: string, registry: Registry, task: Data, start: nat) returns (r: Option<seq<Node>>)
    ensures var planned := [PlannedName(text, registry, task)];
            r == if Buildable(planned, registry) then Some(AllBuilt(planned, start)) else None
  {
    var p := PlannedName(text, registry, task);
    var node := BuildNode(p.kind, p.input, p.held, start, registry);
    assert [p][0] == p;
    if node.None? {
      return None;
    }
    assert AllBuilt([p], start) == [node.value];
    r := Some([node.value]);
  }

  method ProcessEntries(entries: seq<Entry>, registry: Registry, start: nat) returns (nodes: seq<Node>)
    requires BuildsControlNodes(registry)
    ensures nodes == AllBuilt(PlannedEntries(entries), start) && Buildable(PlannedEntries(entries), registry)
  {
    nodes := [];
    for i := 0 to |entries|
      invariant nodes == AllBuilt(PlannedEntries(entries[..i]), start)
    {
      assert entries[..i + 1][..i] == entries[..i];
      var node := ProcessEntry(entries[i], registry, start + |nodes|);
      if node.Some? {
        BuiltOneMore(PlannedEntries(entries[..i]), PlannedEntry(entries[i]).value, start);
        nodes := nodes + [node.value];
      }
    }
    assert entries[..|entries|] == entries;
    EntriesAreBuildable(entries, registry);
  }

  method ProcessEntry(e: Entry, registry: Registry, index: nat) returns (node: Option<Node>)
    requires BuildsControlNodes(registry)
    ensures node == if PlannedEntry(e).Some? then Some(Built(PlannedEntry(e).value, index)) else None
  {
    if e.key == "parallel" && e.value.List? {
      node := BuildNode("parallel", Typed(e.value.data), None, index, registry);
    } else if e.key == "selection" {
      var criteria := if e.value.Text? then e.value.text else "best_quality";
      node := BuildNode("selection", Typed(Data(criteria)), None, index, registry);
    } else {
      node := None;
    }
  }

  lemma BuiltOneMore(planned: seq<Planned>, p: Planned, from: nat)
    ensures AllBuilt(planned + [p], from) == AllBuilt(planned, from) + [Built(p, from + |planned|)]
  {
  }

  lemma {:induction false} EntriesAreBuildable(entries: seq<Entry>, registry: Registry)
    requires BuildsControlNodes(registry)
    ensures Buildable(PlannedEntries(entries), registry)
  {
    if entries != [] {
      EntriesAreBuildable(entries[..|entries| - 1], registry);
    }
  }

  lemma PlannedPrefix(config: seq<Item>, i: nat, registry: Registry, task: Data)
    requires i < |config|
    ensures PlannedItems(config[..i + 1], registry, task)
            == PlannedItems(config[..i], registry, task) + PlannedItem(config[i], registry, task)
    ensures !Buildable(PlannedItem(config[i], registry, task), registry) ==> !Buildable(PlannedItems(config, registry, task), registry)
  {
    assert config[..i + 1][..i] == config[..i];
    PrefixIsPlanned(config, i + 1, registry, task);
  }

  lemma {:induction false} PrefixIsPlanned(config: seq<Item>, i: nat, registry: Registry, task: Data)
    requires i <= |config|
    ensures PlannedItems(config[..i], registry, task) <= PlannedItems(config, registry, task)
    decreases |config|
  {
    if i == |config| {
      assert config[..i] == config;
    } else {
      assert config[..|config| - 1][..i] == config[..i];
      PrefixIsPlanned(config[..|config| - 1], i, registry, task);
    }
  }

  // ---------------------------------------------------------------- the workflow

  function AddAll(w: State, nodes: seq<Node>): State {
    if nodes == [] then w else AddNode(AddAll(w, nodes[..|nodes| - 1]), nodes[|nodes| - 1], None)
  }

  function Empty(context: Context): State {
    State(map[], [], 0, Pending, context, 0)
  }

  function Generated(config: seq<Item>, registry: Registry, task: Data, context: Context): Option<State> {
    match Nodes(config, registry, task)
    case None => None
    case Some(nodes) => Some(AddAll(Empty(context), nodes))
  }

  /** `generate_workflow` from the selected steps on. */
  method GenerateWorkflow(config: seq<Item>, registry: Registry, task: Data, context: Context) returns (r: Option<Workflow>)
    requires BuildsControlNodes(registry)
    ensures r.Some? <==> Generated(config, registry, task, context).Some?
    ensures r.Some? ==> fresh(r.value) && Generated(config, registry, task, context) == Some(r.value.View())
  {
    var workflow := new Workflow(Empty(context));
    var nodes := CreateNodes(config, registry, task);
    if nodes.None? {
      return None;
    }
    for i := 0 to |nodes.value|
      invariant workflow.View() == AddAll(Empty(context), nodes.value[..i])
    {
      assert nodes.value[..i + 1][..i] == nodes.value[..i];
      workflow.AddNode(nodes.value[i], None);
    }
    assert nodes.value[..|nodes.value|] == nodes.value;
    r := Some(workflow);
  }

  function Ids(nodes: seq<Node>): seq<NodeId> {
    seq(|nodes|, i requires 0 <= i < |nodes| => nodes[i].id)
  }

  lemma {:induction false} AddAllOrder(w: State, nodes: seq<Node>)
    ensures var r := AddAll(w, nodes); r.order == w.order + Ids(nodes) && r.index == w.index && r.status == w.status
  {
    if nodes == [] {
      assert w.order + Ids(nodes) == w.order;
    } else {
      var n := |nodes| - 1;
      AddAllOrder(w, nodes[..n]);
      assert Ids(nodes) == Ids(nodes[..n]) + [nodes[n].id];
    }
  }

  /** The node map and the node list name the same nodes, under their own ids. */
  ghost predicate InStep(w: State) {
    (forall id :: id in w.order <==> id in w.nodes) && (forall id <- w.nodes :: w.nodes[id].id == id)
  }

  lemma AddNodeInStep(w: State, node: Node)
    requires InStep(w)
    ensures InStep(AddNode(w, node, None))
  {
    forall id ensures id in w.order + [node.id] <==> id in w.order || id == node.id {
    }
  }

  lemma {:induction false} AddAllInStep(w: State, nodes: seq<Node>)
    requires InStep(w)
    ensures InStep(AddAll(w, nodes))
  {
    if nodes != [] {
      AddAllInStep(w, nodes[..|nodes| - 1]);
      AddNodeInStep(AddAll(w, nodes[..|nodes| - 1]), nodes[|nodes| - 1]);
    }
  }

  /** Adding the nodes one by one to a new workflow keeps their order, and gives a consistent
      workflow exactly when no id occurs twice. */
  lemma AddAllIsConsistentIffDistinct(nodes: seq<Node>, context: Context)
    ensures var w := AddAll(Empty(context), nodes);
            w.order == Ids(nodes) && w.index == 0 && w.status == Pending && (Consistent(w) <==> Distinct(Ids(nodes)))
  {
    AddAllOrder(Empty(context), nodes);
    AddAllInStep(Empty(context), nodes);
    NothingBefore(Ids(nodes));
  }

  lemma NothingBefore(ids: seq<NodeId>)
    ensures [] + ids == ids
  {
  }

  // ---------------------------------------------------------------- the ids

  lemma {:induction false} DigitsAreInjective(m: nat, n: nat)
    requires Digits(m) == Digits(n)
    ensures m == n
  {
    LastDigit(m);
    LastDigit(n);
    if m >= 10 && n >= 10 {
      assert Digits(m)[..|Digits(m)| - 1] == Digits(m / 10);
      assert Digits(n)[..|Digits(n)| - 1] == Digits(n / 10);
      DigitsAreInjective(m / 10, n / 10);
    }
  }

  /** The number that digits stand for. */
  function Read(digits: string): int {
    if digits == "" then 0 else 10 * Read(digits[..|digits| - 1]) + (digits[|digits| - 1] as int - '0' as int)
  }

  /** The numbers in ids are decimal. */
  lemma {:induction false} DigitsReadBack(n: nat)
    ensures Read(Digits(n)) == n && forall i | 0 <= i < |Digits(n)| :: '0' <= Digits(n)[i] <= '9'
    ensures n > 0 ==> Digits(n)[0] != '0'
  {
    LastDigit(n);
    if n >= 10 {
      DigitsReadBack(n / 10);
      assert Digits(n)[..|Digits(n)| - 1] == Digits(n / 10);
    } else {
      assert Digits(n)[..0] == "";
    }
  }

  lemma LastDigit(n: nat)
    ensures Digits(n)[|Digits(n)| - 1] == "0123456789"[n % 10]
    ensures |Digits(n)| == 1 <==> n < 10
  {
  }

  lemma IdsClashIff(kind: string, m: nat, kind': string, n: nat)
    requires m != n
    ensures IdOf(kind, m) == IdOf(kind', n) <==> kind == kind' && kind in {GEN_JOB, FEEDBACK}
  {
    NumberedIsInjective(m, n);
    NumberedIsNoName(m);
    NumberedIsNoName(n);
    assert "gen_job_node"[0] != "feedback_node"[0];
    assert "gen_job"[0] != "feedback"[0];
  }

  lemma NumberedIsInjective(m: nat, n: nat)
    requires m != n
    ensures Numbered(m) != Numbered(n)
  {
    if Digits(m) == Digits(n) {
      DigitsAreInjective(m, n);
    }
    assert Numbered(m).name[5..] == Digits(m) && Numbered(n).name[5..] == Digits(n);
  }

  lemma NumberedIsNoName(n: nat)
    ensures Numbered(n) != NodeId("gen_job_node") && Numbered(n) != NodeId("feedback_node")
  {
    assert Numbered(n).name[0] == 'n';
    assert "gen_job_node"[0] == 'g' && "feedback_node"[0] == 'f';
  }

  lemma NumberedIff(kind: string, n: nat)
    ensures IdOf(kind, n) == Numbered(n) <==> kind !in {GEN_JOB, FEEDBACK}
  {
    NumberedIsNoName(n);
  }

  /** The nodes are those of the plan behind the start node, and they are numbered `node_0`,
      `node_1`, ... in configuration order exactly when none is a `gen_job` or a `feedback` node. */
  lemma NumberedInOrderIff(config: seq<Item>, registry: Registry, task: Data)
    ensures Nodes(config, registry, task).Some? <==>
              forall p <- PlannedItems(config, registry, task) :: p.kind in registry.buildable
    ensures Nodes(config, registry, task).Some? ==>
            var nodes, planned := Nodes(config, registry, task).value, PlannedItems(config, registry, task);
            && |nodes| == 1 + |planned|
            && nodes[0] == Node(NodeId("node_" + Digits(0)), "start", "start", Typed(task), None, NodePending, None, [])
            && (forall i | 0 <= i < |planned| ::
                  var node, p := nodes[i + 1], planned[i];
                  && node == Node(node.id, p.kind, p.kind, p.input, p.held, NodePending, None, [])
                  && (node.id == NodeId("node_" + Digits(i + 1)) <==> p.kind != "gen_job" && p.kind != "feedback")
                  && (p.kind == "gen_job" ==> node.id == NodeId("gen_job_node"))
                  && (p.kind == "feedback" ==> node.id == NodeId("feedback_node")))
  {
    if Nodes(config, registry, task).None? {
      return;
    }
    var nodes, planned := Nodes(config, registry, task).value, PlannedItems(config, registry, task);
    BuiltTogether([Planned("start", Typed(task), None)], planned, 0);
    forall i | 0 <= i < |planned|
      ensures nodes[i + 1] == Built(planned[i], i + 1)
      ensures IdOf(planned[i].kind, i + 1) == Numbered(i + 1) <==> planned[i].kind !in {GEN_JOB, FEEDBACK}
    {
      NumberedIff(planned[i].kind, i + 1);
    }
  }

  /** No two nodes name themselves alike. */
  predicate NamedOnce(planned: seq<Planned>) {
    forall i, j | 0 <= i < j < |planned| :: planned[i].kind == planned[j].kind ==> planned[i].kind !in {GEN_JOB, FEEDBACK}
  }

  lemma DistinctIffNamedOnce(planned: seq<Planned>)
    ensures Distinct(Ids(AllBuilt(planned, 0))) <==> NamedOnce(planned)
  {
    var ids := Ids(AllBuilt(planned, 0));
    forall i, j | 0 <= i < j < |planned|
      ensures ids[i] == ids[j] <==> planned[i].kind == planned[j].kind && planned[i].kind in {GEN_JOB, FEEDBACK}
    {
      IdsClashIff(planned[i].kind, i, planned[j].kind, j);
    }
  }

  lemma StartNamesNothing(planned: seq<Planned>, input: Input)
    ensures NamedOnce([Planned("start", input, None)] + planned) <==> NamedOnce(planned)
  {
    var all := [Planned("start", input, None)] + planned;
    assert forall i | 0 <= i < |planned| :: all[i + 1] == planned[i];
    assert all[0].kind !in {GEN_JOB, FEEDBACK};
  }

  /** A generated workflow is consistent exactly when its plan has at most one `gen_job` and at
      most one `feedback` node; otherwise one id stands for several positions. */
  lemma GeneratedIsConsistentIff(config: seq<Item>, registry: Registry, task: Data, context: Context)
    requires Generated(config, registry, task, context).Some?
    ensures var w := Generated(config, registry, task, context).value;
            && w.order == Ids(Nodes(config, registry, task).value) && w.index == 0 && w.status == Pending
            && (Consistent(w) <==> NamedOnce(PlannedItems(config, registry, task)))
  {
    var planned := PlannedItems(config, registry, task);
    AddAllIsConsistentIffDistinct(Nodes(config, registry, task).value, context);
    DistinctIffNamedOnce([Planned("start", Typed(task), None)] + planned);
    StartNamesNothing(planned, Typed(task));
  }

  /** From such a plan on, every sequence of fresh adds, of removes and of moves keeps the node
      list duplicate-free and equal to the keys of the node map. */
  lemma EditedPlanIsConsistent(config: seq<Item>, registry: Registry, task: Data, context: Context, edits: seq<Edit>)
    requires Generated(config, registry, task, context).Some? && NamedOnce(PlannedItems(config, registry, task))
    requires AllFresh(Generated(config, registry, task, context).value, edits)
    ensures Consistent(ApplyAll(Generated(config, registry, task, context).value, edits))
  {
    GeneratedIsConsistentIff(config, registry, task, context);
    FreshEditsStayConsistent(Generated(config, registry, task, context).value, edits);
  }
}
