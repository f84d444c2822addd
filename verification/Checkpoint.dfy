/** Saving, loading and resuming a workflow (`Workflow.save`, `Workflow.load`, `Node.from_dict`,
    `WorkflowRunner.resume_workflow`). */
module Checkpoint {
  import opened Wrappers
  import opened Sequences
  import opened Workflows
  import opened Loops
  import opened WorkflowRunner

  /** The node types whose input is rebuilt as a typed object when a node is read back. */
  const RETYPED: set<string> := {
    "schema_linking", "execute_sql", "output", "fix", "date_parser", "chat", "gen_sql", "ask_metrics",
    "gen_report", "explore", "gen_dashboard", "scheduler", "gen_table", "feedback"}

  /** An agent configuration, as far as loading depends on it: whether its default datasource can
      be connected, of which types nodes can be built, and what the classes make of the dumped
      fields of a context, of an input and of a result; `None` where they reject them. A result of
      a type without a class of its own is read as a base result, which admits no other fields. */
  datatype Config = Config(
    connects: bool,
    builds: string -> bool,
    contextReads: Data -> Option<Data>,
    inputReads: (string, Data) -> Option<Data>,
    resultReads: (string, NodeResult) -> Option<NodeResult>)

  function RereadInput(kind: string, input: Input, c: Config): Input {
    if input.NoInput? then NoInput
    else if kind !in RETYPED then Plain(input.data)
    else
      match c.inputReads(kind, input.data)
      case Some(d) => Typed(d)
      case None => NoInput
  }

  /** What a saved node is read back as: a new node of its type with the saved fields. */
  function Reread(n: Node, c: Config): Node {
    n.(made := n.kind, input := RereadInput(n.kind, n.input, c), held := None,
       result := if n.result.Some? then c.resultReads(n.kind, n.result.value) else None)
  }

  /** What a saved context is read back as: whatever has no declared type is a mapping now. */
  function RereadContext(x: Context, c: Config): Context
    requires c.contextReads(x.fields).Some?
  {
    Context(c.contextReads(x.fields).value, map k | k in x.loose :: Mapping(x.loose[k].data))
  }

  /** The file can be loaded with this configuration: the database tools can be set up, every
      node can be built, and the context is accepted. Rejected inputs and results are dropped. */
  predicate Loads(w: State, c: Config) {
    c.connects && (forall id <- w.nodes :: c.builds(w.nodes[id].kind)) && c.contextReads(w.context.fields).Some?
  }

  /** What the file of a saved workflow is read back as; the reflection round is not in it. */
  function Restored(w: State, c: Config): State
    requires Loads(w, c)
  {
    w.(nodes := map id | id in w.nodes :: Reread(w.nodes[id], c), context := RereadContext(w.context, c), reflectionRound := 0)
  }

  /** `Workflow.load`; `None` is an exception, a `ValueError` of the tools among them. */
  function Loaded(w: State, config: Option<Config>): Option<State> {
    if config.Some? && Loads(w, config.value) then Some(Restored(w, config.value)) else None
  }

  /** `resume_workflow`, which loads the file without a configuration. */
  function ResumedFrom(w: State): Option<State> {
    match Loaded(w, None)
    case None => None
    case Some(v) => Some(v.(status := Running))
  }

  /** What `resume_workflow` is meant to come to, were the configuration passed on. */
  function Continued(w: State, c: Config): State
    requires Loads(w, c)
  {
    Restored(w, c).(status := Running)
  }

  /** Loading needs a configuration; so `resume_workflow` raises for every checkpoint. */
  lemma LoadsIff(w: State, config: Option<Config>)
    ensures Loaded(w, config).Some? <==>
              && config.Some? && config.value.connects && config.value.contextReads(w.context.fields).Some?
              && forall id <- w.nodes :: config.value.builds(w.nodes[id].kind)
    ensures ResumedFrom(w).None?
    ensures Loaded(w, config).Some? ==> Loaded(w, config).value.(status := Running) == Continued(w, config.value)
  {
  }

  predicate NothingTyped(x: Context) {
    forall k <- x.loose :: x.loose[k].Mapping?
  }

  /** Nothing the rest of the run depends on is lost by saving and loading: the file loads, the
      context has nothing typed outside its declared fields and these are read as they were, no
      reflection round was counted, every node still to run is read back as it was, and so are
      the results of the reasoning nodes that ran. */
  predicate Survives(w: State, c: Config)
    requires w.index <= |w.order|
  {
    && Loads(w, c) && NothingTyped(w.context) && c.contextReads(w.context.fields) == Some(w.context.fields)
    && w.reflectionRound == 0
    && forall id <- w.nodes ::
        var n := w.nodes[id];
        if id in w.order[..w.index] then n.kind == REASONING ==> Reread(n, c).result == n.result else Reread(n, c) == n
  }

  /** What the file loses of a node, in terms of its fields: nothing exactly if it holds nothing
      else, is an object of the class of its type, its input has the form its type is read in,
      and its input and result come through their classes unchanged. */
  lemma RereadIff(n: Node, c: Config)
    ensures Reread(n, c).result == n.result <==> n.result.None? || c.resultReads(n.kind, n.result.value) == n.result
    ensures Reread(n, c).input == n.input <==>
              || n.input.NoInput?
              || (if n.kind in ["schema_linking", "execute_sql", "output", "fix", "date_parser", "chat", "gen_sql", "ask_metrics",
                                "gen_report", "explore", "gen_dashboard", "scheduler", "gen_table", "feedback"]
                  then n.input.Typed? && c.inputReads(n.kind, n.input.data) == Some(n.input.data) else n.input.Plain?)
    ensures Reread(n, c) == n <==>
              n.held.None? && n.made == n.kind && Reread(n, c).input == n.input && Reread(n, c).result == n.result
  {
    var retyped := ["schema_linking", "execute_sql", "output", "fix", "date_parser", "chat", "gen_sql", "ask_metrics",
                    "gen_report", "explore", "gen_dashboard", "scheduler", "gen_table", "feedback"];
    assert retyped == retyped[..7] + retyped[7..];
    assert n.kind in retyped <==> n.kind in RETYPED;
  }

  /** Whatever is lost, the loaded workflow has the list, position and status it was saved with,
      and its nodes have theirs; `resume` makes it running. */
  lemma RestoredKeeps(w: State, c: Config)
    requires Loads(w, c)
    ensures var v := Restored(w, c);
            && v.order == w.order && v.index == w.index && v.status == w.status && v.reflectionRound == 0
            && v.nodes.Keys == w.nodes.Keys && Continued(w, c) == v.(status := Running)
            && (forall id <- w.nodes ::
                  var n, m := w.nodes[id], v.nodes[id];
                  m == n.(made := m.made, input := m.input, held := None, result := m.result))
            && v.context.loose.Keys == w.context.loose.Keys
            && (forall k <- v.context.loose :: v.context.loose[k] == Mapping(w.context.loose[k].data))
  {
  }

  lemma ContextSurvivesIff(x: Context, c: Config)
    requires c.contextReads(x.fields).Some?
    ensures RereadContext(x, c) == x <==> NothingTyped(x) && c.contextReads(x.fields) == Some(x.fields)
  {
    if RereadContext(x, c) == x {
      forall k | k in x.loose ensures x.loose[k].Mapping? {
        assert RereadContext(x, c).loose[k] == x.loose[k];
      }
    } else if NothingTyped(x) {
      assert RereadContext(x, c).loose == x.loose;
    }
  }

  // ---------------------------------------------------------------- the resumed run follows the original

  /** The same but for what a node that ran can have lost in the file. */
  predicate SameButLost(a: Node, b: Node) {
    b == a.(made := b.made, input := b.input, held := b.held, result := b.result) && (a.kind == REASONING ==> a.result == b.result)
  }

  /** `v` is `w` up to what the first `start` nodes lost and the name of the unfinished status. */
  ghost predicate Alike(w: State, v: State, start: nat) {
    && w.order == v.order && start <= w.index == v.index < |w.order| && w.context == v.context
    && w.reflectionRound == v.reflectionRound && (w.status == Completed <==> v.status == Completed)
    && w.nodes.Keys == v.nodes.Keys
    && (forall id <- w.nodes :: if id in w.order[..start] then SameButLost(w.nodes[id], v.nodes[id]) else v.nodes[id] == w.nodes[id])
  }

  lemma StartKept(w: State, w': State, start: nat)
    requires SamePast(w, w') && start <= w.index
    ensures w'.order[..start] == w.order[..start]
  {
    assert w'.order[..start] == w'.order[..w.index + 1][..start];
    assert w.order[..start] == w.order[..w.index + 1][..start];
  }

  lemma AddAlike(w: State, v: State, start: nat, node: Node, position: Option<int>)
    requires Alike(w, v, start) && SamePast(w, AddNode(w, node, position))
    ensures Alike(AddNode(w, node, position), AddNode(v, node, position), start)
  {
    StartKept(w, AddNode(w, node, position), start);
  }

  lemma RemoveAlike(w: State, v: State, start: nat, id: NodeId)
    requires Alike(w, v, start) && SamePast(w, RemoveNode(w, id))
    ensures Alike(RemoveNode(w, id), RemoveNode(v, id), start)
  {
    StartKept(w, RemoveNode(w, id), start);
    assert RemoveNode(w, id).nodes.Keys == RemoveNode(v, id).nodes.Keys;
  }

  lemma MoveAlike(w: State, v: State, start: nat, id: NodeId, position: int)
    requires Alike(w, v, start) && SamePast(w, MoveNode(w, id, position))
    ensures Alike(MoveNode(w, id, position), MoveNode(v, id, position), start)
  {
    StartKept(w, MoveNode(w, id, position), start);
  }

  lemma ModifyAlike(w: State, v: State, start: nat, id: NodeId, c: Changes)
    requires Alike(w, v, start) && id !in w.order[..w.index + 1]
    ensures Alike(ModifyNode(w, id, c), ModifyNode(v, id, c), start)
  {
    assert forall i | 0 <= i < start :: w.order[..start][i] == w.order[..w.index + 1][i];
  }

  lemma ApplyAlike(w: State, v: State, start: nat, e: Edit)
    requires Alike(w, v, start) && Consistent(w) && Behind(w, e)
    ensures Alike(Apply(w, e), Apply(v, e), start) && Behind(v, e) && Consistent(Apply(w, e))
  {
    EditKeepsPast(w, e);
    match e
    case Add(node, position) => AddAlike(w, v, start, node, position);
    case Remove(id) => RemoveAlike(w, v, start, id);
    case Move(id, target) => MoveAlike(w, v, start, id, target);
    case Modify(id, changes) => ModifyAlike(w, v, start, id, changes);
  }

  lemma {:induction false} ApplyAllAlike(w: State, v: State, start: nat, edits: seq<Edit>)
    requires Alike(w, v, start) && Consistent(w) && AllBehind(w, edits)
    ensures Alike(ApplyAll(w, edits), ApplyAll(v, edits), start) && AllBehind(v, edits)
    decreases |edits|
  {
    if edits != [] {
      ApplyAlike(w, v, start, edits[0]);
      ApplyAllAlike(Apply(w, edits[0]), Apply(v, edits[0]), start, edits[1..]);
    }
  }

  /** Nodes see the same of both workflows. */
  lemma AlikeSees(w: State, v: State, start: nat)
    requires Alike(w, v, start)
    ensures Seen(w) == Seen(v)
  {
    forall i | 0 <= i < |w.order| ensures Reasoned(w, w.order[i]) == Reasoned(v, w.order[i]) {
    }
    assert Seen(w).reasoned == Seen(v).reasoned;
  }

  lemma PutAlike(w: State, v: State, start: nat, n: Node)
    requires Alike(w, v, start)
    ensures Alike(Put(w, n), Put(v, n), start)
  {
  }

  lemma AdvanceAlike(w: State, v: State, start: nat)
    requires Alike(w, v, start)
    ensures Alike(Advance(w), Advance(v), start)
  {
  }

  lemma FailCurrentAlike(w: State, v: State, start: nat, id: NodeId)
    requires Alike(w, v, start)
    ensures Alike(FailCurrent(w, id), FailCurrent(v, id), start)
  {
  }

  lemma NotBefore(w: State, start: nat, i: nat)
    requires Consistent(w) && start <= i < |w.order|
    ensures w.order[i] in w.nodes && w.order[i] !in w.order[..start]
  {
    assert w.order[i] in w.order;
    assert forall k | 0 <= k < start :: w.order[..start][k] == w.order[k];
  }

  lemma UpdatedAlike(w: State, v: State, start: nat, n: Node, b: Behaviour, mode: Mode)
    requires Alike(w, v, start) && Consistent(w) && EditsBehind(w, n, b, mode)
    ensures Alike(Updated(w, n, b, mode), Updated(v, n, b, mode), start) && Consistent(Updated(w, n, b, mode))
  {
    AlikeSees(w, v, start);
    var u := b.update(n, Seen(w), mode);
    ApplyAllAlike(w.(context := u.context, reflectionRound := u.reflectionRound),
                  v.(context := u.context, reflectionRound := u.reflectionRound), start, u.edits);
    UpdatedKeepsPast(w, n, b, mode);
  }

  lemma UpcomingAlike(w: State, v: State, start: nat)
    requires Alike(w, v, start) && Consistent(w)
    ensures Upcoming(w) == Upcoming(v)
  {
    if w.index + 1 < |w.order| {
      NotBefore(w, start, w.index + 1);
    }
  }

  lemma UpcomingReadyAlike(w: State, v: State, start: nat, b: Behaviour)
    requires Alike(w, v, start) && Consistent(w)
    ensures Alike(UpcomingReady(w, b).0, UpcomingReady(v, b).0, start) && UpcomingReady(w, b).1 == UpcomingReady(v, b).1
  {
    AlikeSees(w, v, start);
    UpcomingAlike(w, v, start);
    if Upcoming(w).Some? {
      var next := Upcoming(w).value;
      PutAlike(w, v, start, Equipped(next, b.setup(next, Seen(w))));
    }
  }

  lemma EvaluateAlike(w: State, v: State, start: nat, n: Node, b: Behaviour, mode: Mode)
    requires Alike(w, v, start) && Consistent(w) && EditsBehind(w, n, b, mode)
    ensures Alike(Evaluate(w, n, b, mode).0, Evaluate(v, n, b, mode).0, start)
    ensures Evaluate(w, n, b, mode).1 == Evaluate(v, n, b, mode).1
  {
    AlikeSees(w, v, start);
    UpdatedAlike(w, v, start, n, b, mode);
    UpcomingReadyAlike(Updated(w, n, b, mode), Updated(v, n, b, mode), start, b);
  }

  lemma ConcludedAlike(w: State, v: State, start: nat, n: Node, b: Behaviour, mode: Mode)
    requires Alike(w, v, start) && Consistent(w) && EditsBehind(w, n, b, mode)
    ensures Alike(Concluded(w, n, b, mode).0, Concluded(v, n, b, mode).0, start)
    ensures Concluded(w, n, b, mode).1 == Concluded(v, n, b, mode).1
  {
    EvaluateAlike(w, v, start, n, b, mode);
    var m, m' := Evaluate(w, n, b, mode).0, Evaluate(v, n, b, mode).0;
    match Evaluate(w, n, b, mode).1
    case Success => AdvanceAlike(m, m', start);
    case Failure => FailCurrentAlike(m, m', start, n.id);
    case NoReport =>
  }

  lemma ConcludedIsConsistent(w: State, n: Node, b: Behaviour, mode: Mode)
    requires Consistent(w) && EditsBehind(w, n, b, mode)
    ensures Consistent(Concluded(w, n, b, mode).0)
  {
    EvaluateKeepsPast(w, n, b, mode);
    var m := Evaluate(w, n, b, mode).0;
    if n.id in m.nodes {
      PutIsConsistent(m, m.nodes[n.id].(id := n.id, status := NodeFailed));
    }
  }

  /** A run `y` of the resumed workflow follows a run `x` that went on after executing `done`. */
  ghost predicate Follows(x: Exec, y: Exec, start: nat, done: seq<NodeId>, checked: seq<Node>) {
    && Alike(x.w, y.w, start) && Consistent(x.w) && x.stopped == y.stopped && x.escaped == y.escaped
    && x.executed == done + y.executed && x.evaluated == checked + y.evaluated
  }

  lemma EvaluatedFollows(x: Exec, y: Exec, start: nat, ran: Node, b: Behaviour, mode: Mode, done: seq<NodeId>, checked: seq<Node>)
    requires Follows(x, y, start, done, checked) && EditsBehind(x.w, ran, b, mode)
    ensures Follows(Evaluated(x, ran, b, mode), Evaluated(y, ran, b, mode), start, done, checked)
  {
    ConcludedAlike(x.w, y.w, start, ran, b, mode);
    ConcludedIsConsistent(x.w, ran, b, mode);
    assert checked + (y.evaluated + [ran]) == (checked + y.evaluated) + [ran];
  }

  lemma PassFollows(x: Exec, y: Exec, start: nat, n: Node, b: Behaviour, mode: Mode, done: seq<NodeId>, checked: seq<Node>)
    requires Follows(x, y, start, done, checked) && Current(x.w) == Some(n) && DisciplinedPass(x, b, mode)
    ensures Follows(Pass(x, n, b, mode), Pass(y, n, b, mode), start, done, checked)
  {
    AlikeSees(x.w, y.w, start);
    var ran := RanIn(x, n, b, mode);
    assert ran.id == n.id == x.w.order[x.w.index];
    var context := b.execute(n, Seen(x.w), mode).context;
    PutAlike(x.w.(context := context), y.w.(context := context), start, ran);
    PutIsConsistent(x.w.(context := context), ran);
    assert done + (y.executed + [n.id]) == (done + y.executed) + [n.id];
    if !Breaks(ran, mode) {
      EvaluatedFollows(x.(executed := x.executed + [n.id], w := Left(x, n, b, mode)),
                       y.(executed := y.executed + [n.id], w := Left(y, n, b, mode)), start, ran, b, mode, done, checked);
    }
  }

  lemma StepFollows(x: Exec, y: Exec, start: nat, b: Behaviour, mode: Mode, done: seq<NodeId>, checked: seq<Node>)
    requires Follows(x, y, start, done, checked) && DisciplinedPass(x, b, mode)
    ensures Follows(Step(x, b, mode), Step(y, b, mode), start, done, checked)
  {
    NotBefore(x.w, start, x.w.index);
    PassFollows(x, y, start, Current(x.w).value, b, mode, done, checked);
  }

  /** Two runs of which one has lost something of the first `start` nodes stay that close. */
  lemma RunFollows(x: Exec, y: Exec, start: nat, b: Behaviour, mode: Mode, budget: nat, done: seq<NodeId>, checked: seq<Node>)
    requires Follows(x, y, start, done, checked) && Disciplined(x, b, mode, budget)
    ensures Follows(Go(x, b, mode, budget), Go(y, b, mode, budget), start, done, checked)
  {
    forall x', y' | Follows(x', y', start, done, checked) && DisciplinedPass(x', b, mode)
      ensures Follows(Body(b, mode)(x'), Body(b, mode)(y'), start, done, checked)
    {
      StepFollows(x', y', start, b, mode, done, checked);
    }
    LoopsRelate(x, Body(b, mode), y, Body(b, mode), Done, budget,
                z => DisciplinedPass(z, b, mode), (x', y') => Follows(x', y', start, done, checked));
  }

  lemma ContinuedIsAlike(w: State, c: Config)
    requires Consistent(w) && w.index < |w.order| && w.status != Completed && Survives(w, c)
    ensures Alike(w, Continued(w, c), w.index) && Consistent(Continued(w, c))
  {
    ContextSurvivesIff(w.context, c);
  }

  /** The two runs cannot be told apart by what they did since position `start` and what they
      left: the nodes before it keep their status, the others their status and result. */
  ghost predicate SameOutcome(x: Exec, y: Exec, start: nat, done: seq<NodeId>) {
    && x.executed == done + y.executed && x.stopped == y.stopped && x.escaped == y.escaped
    && x.w.order == y.w.order && x.w.index == y.w.index && x.w.context == y.w.context && start <= |x.w.order|
    && (x.w.status == Completed <==> y.w.status == Completed)
    && x.w.nodes.Keys == y.w.nodes.Keys
    && (forall id <- x.w.nodes :: x.w.nodes[id].status == y.w.nodes[id].status
          && (id !in x.w.order[..start] ==> x.w.nodes[id].result == y.w.nodes[id].result))
  }

  lemma FollowingLooksTheSame(x: Exec, y: Exec, start: nat, done: seq<NodeId>, checked: seq<Node>)
    requires Follows(x, y, start, done, checked)
    ensures SameOutcome(x, y, start, done)
  {
  }

  /** From a run that can go on, going on from the file of its workflow comes to the same. */
  lemma FileGoesOn(y: Exec, from: nat, c: Config, b: Behaviour, mode: Mode, budget: nat)
    requires Tracks(y, from) && !Done(y) && Survives(y.w, c) && Disciplined(y, b, mode, budget)
    ensures SameOutcome(Go(y, b, mode, budget), Go(Start(Continued(y.w, c)), b, mode, budget), y.w.index, y.executed)
  {
    var z := Start(Continued(y.w, c));
    ContinuedIsAlike(y.w, c);
    assert y.executed + [] == y.executed && y.evaluated + [] == y.evaluated;
    RunFollows(y, z, y.w.index, b, mode, budget, y.executed, y.evaluated);
    FollowingLooksTheSame(Go(y, b, mode, budget), Go(z, b, mode, budget), y.w.index, y.executed, y.evaluated);
  }

  lemma LoopContinues(x: Exec, from: nat, c: Config, b: Behaviour, mode: Mode, first: nat, second: nat)
    requires Tracks(x, from) && Disciplined(x, b, mode, first + second)
    requires var y := Go(x, b, mode, first); !Done(y) && Survives(y.w, c)
    ensures var y := Go(x, b, mode, first);
            && y.w.index >= from
            && SameOutcome(Go(x, b, mode, first + second), Go(Start(Continued(y.w, c)), b, mode, second), y.w.index, y.executed)
  {
    var y := Go(x, b, mode, first);
    VisitsSplit(x, Body(b, mode), Done, first, second, z => DisciplinedPass(z, b, mode));
    RunTracks(x, from, b, mode, first);
    IterateAdds(x, Body(b, mode), Done, first, second);
    FileGoesOn(y, from, c, b, mode, second);
  }

  /** Run with a budget until it stops the loop, save, load with a configuration and run on with
      another budget: the nodes executed, the node list, the position, the results since then and
      the context are those of one run with both budgets, if the checkpoint survives. */
  lemma LoadContinues(w: State, c: Config, b: Behaviour, mode: Mode, first: int, second: int)
    requires Consistent(w) && w.index == 0 && w.status == Pending && Prepared(w, b).Some? && first > 0 && second > 0
    requires Disciplined(Start(Prepared(w, b).value), b, mode, first + second)
    requires var y := Run(w, b, mode, first).value; !Done(y) && Survives(y.w, c)
    ensures var y := Run(w, b, mode, first).value;
            && Run(Continued(y.w, c), b, mode, second).Some?
            && SameOutcome(Run(w, b, mode, first + second).value, Run(Continued(y.w, c), b, mode, second).value, y.w.index, y.executed)
  {
    RunIsGo(w, b, mode, first);
    RunIsGo(w, b, mode, first + second);
    PreparedTracks(w, b);
    LoopContinues(Start(Prepared(w, b).value), 1, c, b, mode, first, second);
    RunIsGo(Continued(Run(w, b, mode, first).value.w, c), b, mode, second);
  }

  // ---------------------------------------------------------------- and only if the checkpoint survives

  /** The file loads, and going on from it is faithful to going on without it, whatever the nodes do and
      however long the run is. */
  ghost predicate Faithful(w: State, c: Config) {
    Loads(w, c) && forall b, mode, budget | Disciplined(Start(w), b, mode, budget) ::
      SameOutcome(Go(Start(w), b, mode, budget), Go(Start(Continued(w, c)), b, mode, budget), w.index, [])
  }

  lemma SurvivorIsFaithful(w: State, c: Config, b: Behaviour, mode: Mode, budget: nat)
    requires Consistent(w) && w.index < |w.order| && w.status != Completed && Survives(w, c)
    requires Disciplined(Start(w), b, mode, budget)
    ensures SameOutcome(Go(Start(w), b, mode, budget), Go(Start(Continued(w, c)), b, mode, budget), w.index, [])
  {
    ContinuedIsAlike(w, c);
    RunFollows(Start(w), Start(Continued(w, c)), w.index, b, mode, budget, [], []);
    FollowingLooksTheSame(Go(Start(w), b, mode, budget), Go(Start(Continued(w, c)), b, mode, budget), w.index, [], []);
  }

  /** Nodes that succeed, edit nothing and leave the inputs of others alone. */
  ghost predicate Undemanding(b: Behaviour) {
    && (forall n, s, m :: b.update(n, s, m) == Update(false, s.context, s.reflectionRound, []))
    && (forall n, s :: b.setup(n, s) == Ready(n.input, n.held))
    && (forall n, s, m :: b.execute(n, s, m).Returned? && b.execute(n, s, m).result.Some?
                          && b.execute(n, s, m).result.value.success && b.execute(n, s, m).context == s.context)
  }

  /** What one pass with such nodes comes to. */
  function NextWith(x: Exec, b: Behaviour): Exec
    requires x.w.index < |x.w.order| && x.w.order[x.w.index] in x.w.nodes
  {
    var id := x.w.order[x.w.index];
    var ran := RanIn(x, x.w.nodes[id], b, Direct);
    Exec(Advance(x.w.(nodes := x.w.nodes[id := ran])), x.executed + [id], x.evaluated + [ran], false, false)
  }

  lemma UndemandingStep(x: Exec, b: Behaviour)
    requires Undemanding(b) && Consistent(x.w) && !Done(x)
    ensures x.w.order[x.w.index] in x.w.nodes
    ensures DisciplinedPass(x, b, Direct) && Step(x, b, Direct) == NextWith(x, b)
  {
    var id := x.w.order[x.w.index];
    assert id in x.w.order;
    var ran := RanIn(x, x.w.nodes[id], b, Direct);
    var w := Left(x, x.w.nodes[id], b, Direct);
    PutIsConsistent(x.w, ran);
    assert Updated(w, ran, b, Direct) == w;
    assert UpcomingReady(w, b) == (w, Success) by {
      if Upcoming(w).Some? {
        var next := Upcoming(w).value;
        assert w.nodes[next.id := next.(input := next.input, held := next.held)] == w.nodes;
      }
    }
  }

  /** What a node tells of itself: whether it is as it was in `base`. */
  function Mark(base: State, n: Node): NodeResult {
    NodeResult(true, Data(if n.id in base.nodes && base.nodes[n.id] == n then "as before" else "changed"), false)
  }

  /** Nodes that tell so as their result and do nothing else. */
  function Probe(base: State): Behaviour {
    Behaviour(
      (n: Node, s: Sight, m: Mode) => Returned(Some(Mark(base, n)), s.context),
      (n: Node, s: Sight, m: Mode) => Update(false, s.context, s.reflectionRound, []),
      (n: Node, s: Sight) => Ready(n.input, n.held))
  }

  lemma ProbeIsUndemanding(base: State)
    ensures Undemanding(Probe(base))
  {
  }

  /** Nodes yet to run are as they were, and each executed node tells what it was like. */
  ghost predicate Probed(x: Exec, w: State, base: State) {
    && Consistent(x.w) && !x.stopped && x.w.order == w.order && x.w.nodes.Keys == w.nodes.Keys
    && (forall id <- w.nodes | id !in x.executed :: x.w.nodes[id] == w.nodes[id])
    && (forall id <- x.executed :: id in w.nodes && x.w.nodes[id].result == Some(Mark(base, w.nodes[id])))
  }

  lemma ProbedNextKeeps(x: Exec, w: State, base: State)
    requires Probed(x, w, base) && !Done(x) && x.w.order[x.w.index] in x.w.nodes && x.w.order[x.w.index] !in x.executed
    ensures Probed(NextWith(x, Probe(base)), w, base)
  {
    var id := x.w.order[x.w.index];
    assert RanIn(x, x.w.nodes[id], Probe(base), Direct).result == Some(Mark(base, w.nodes[id]));
    assert Consistent(NextWith(x, Probe(base)).w);
  }

  lemma NextIsNew(x: Exec, from: nat)
    requires Tracks(x, from) && !Done(x)
    ensures x.w.order[x.w.index] in x.w.nodes && x.w.order[x.w.index] !in x.executed
  {
    assert x.w.order[x.w.index] in x.w.order;
  }

  /** Probing leaves on every node it executes what that node was like. */
  lemma ProbeRun(x: Exec, w: State, base: State, budget: nat)
    requires Probed(x, w, base) && Tracks(x, w.index)
    ensures Disciplined(x, Probe(base), Direct, budget)
    ensures Probed(Go(x, Probe(base), Direct, budget), w, base) && Tracks(Go(x, Probe(base), Direct, budget), w.index)
  {
    var b := Probe(base);
    ProbeIsUndemanding(base);
    forall y | (Probed(y, w, base) && Tracks(y, w.index)) && !Done(y)
      ensures DisciplinedPass(y, b, Direct) && Probed(Body(b, Direct)(y), w, base) && Tracks(Body(b, Direct)(y), w.index)
    {
      UndemandingStep(y, b);
      NextIsNew(y, w.index);
      ProbedNextKeeps(y, w, base);
      StepTracks(y, w.index, b, Direct);
    }
    LoopKeeps(x, Body(b, Direct), Done, budget, y => DisciplinedPass(y, b, Direct),
              y => Probed(y, w, base) && Tracks(y, w.index));
  }

  lemma RestOfTracked(w: State, x: Exec, id: NodeId)
    requires Consistent(w) && w.index < |w.order| && id in w.nodes && id !in w.order[..w.index]
    requires Tracks(x, w.index) && x.w.order == w.order && !x.stopped
    requires Done(x) || |x.executed| == |w.order| - w.index
    ensures id in x.executed
  {
    assert id in w.order;
    var p := IndexOf(w.order, id);
    assert p >= w.index by {
      assert forall i | 0 <= i < w.index :: w.order[..w.index][i] == w.order[i];
    }
    assert x.executed[p - w.index] == x.w.order[w.index + (p - w.index)];
  }

  lemma StartIsProbed(w: State, base: State)
    requires Consistent(w) && w.index < |w.order| && w.status != Completed
    ensures Probed(Start(w), w, base) && Tracks(Start(w), w.index)
  {
  }

  lemma ProbedTells(w: State, base: State, x: Exec, id: NodeId)
    requires Consistent(w) && w.index < |w.order| && id in w.nodes && id !in w.order[..w.index]
    requires Probed(x, w, base) && Tracks(x, w.index) && (Done(x) || |x.executed| == |w.order| - w.index)
    ensures x.w.order == w.order && id in x.w.nodes && x.w.nodes[id].result == Some(Mark(base, w.nodes[id]))
  {
    RestOfTracked(w, x, id);
  }

  /** Probing to the end shows every node still to run. */
  lemma ProbeTells(w: State, base: State, id: NodeId, budget: nat)
    requires Consistent(w) && w.index < |w.order| && w.status != Completed && id in w.nodes && id !in w.order[..w.index]
    requires budget == |w.order| - w.index
    ensures Disciplined(Start(w), Probe(base), Direct, budget)
    ensures var x := Go(Start(w), Probe(base), Direct, budget);
            x.w.order == w.order && id in x.w.nodes && x.w.nodes[id].result == Some(Mark(base, w.nodes[id]))
  {
    StartIsProbed(w, base);
    ProbeRun(Start(w), w, base, budget);
    RunLength(Start(w), Probe(base), Direct, budget);
    ProbedTells(w, base, Go(Start(w), Probe(base), Direct, budget), id);
  }

  lemma ContinuedIsConsistent(w: State, c: Config)
    requires Consistent(w) && Loads(w, c)
    ensures Consistent(Continued(w, c))
  {
  }

  lemma DifferenceIsVisible(w: State, c: Config, b: Behaviour, budget: nat, id: NodeId)
    requires Loads(w, c) && Disciplined(Start(w), b, Direct, budget)
    requires var x, y := Go(Start(w), b, Direct, budget), Go(Start(Continued(w, c)), b, Direct, budget);
             && w.index <= |w.order| && x.w.order == w.order && id !in w.order[..w.index]
             && id in x.w.nodes && id in y.w.nodes && x.w.nodes[id].result != y.w.nodes[id].result
    ensures !Faithful(w, c)
  {
    assert !SameOutcome(Go(Start(w), b, Direct, budget), Go(Start(Continued(w, c)), b, Direct, budget), w.index, []);
  }

  lemma NodeLossIsVisible(w: State, c: Config, id: NodeId)
    requires Consistent(w) && w.index < |w.order| && w.status != Completed && Loads(w, c)
    requires id in w.nodes && id !in w.order[..w.index] && Reread(w.nodes[id], c) != w.nodes[id]
    ensures !Faithful(w, c)
  {
    ContinuedIsConsistent(w, c);
    var budget := |w.order| - w.index;
    ProbeTells(w, w, id, budget);
    ProbeTells(Continued(w, c), w, id, budget);
    assert "as before"[0] != "changed"[0];
    DifferenceIsVisible(w, c, Probe(w), budget, id);
  }

  function Seer(s: Sight): Behaviour {
    Behaviour(
      (n: Node, t: Sight, m: Mode) => 
        Returned(Some(NodeResult(true, Data(if t == s then "as before" else "changed"), false)), t.context),
      (n: Node, t: Sight, m: Mode) => Update(false, t.context, t.reflectionRound, []),
      (n: Node, t: Sight) => Ready(n.input, n.held))
  }

  lemma OnePass(x: Exec, b: Behaviour, mode: Mode)
    requires !Done(x)
    ensures Go(x, b, mode, 1) == Step(x, b, mode)
    ensures DisciplinedPass(x, b, mode) ==> Disciplined(x, b, mode, 1)
  {
    GoOn(x, b, mode, 0);
    GoNowhere(Step(x, b, mode), b, mode);
    assert Visits(Step(x, b, mode), Body(b, mode), Done, 0, z => DisciplinedPass(z, b, mode));
  }

  lemma SeerTells(w: State, s: Sight)
    requires Consistent(w) && w.index < |w.order| && w.status != Completed
    ensures Disciplined(Start(w), Seer(s), Direct, 1)
    ensures var x, id := Go(Start(w), Seer(s), Direct, 1), w.order[w.index];
            && x.w.order == w.order && id in x.w.nodes
            && x.w.nodes[id].result == Some(NodeResult(true, Data(if Seen(w) == s then "as before" else "changed"), false))
  {
    var b := Seer(s);
    assert Undemanding(b);
    UndemandingStep(Start(w), b);
    OnePass(Start(w), b, Direct);
  }

  lemma SightLossIsVisible(w: State, c: Config)
    requires Consistent(w) && w.index < |w.order| && w.status != Completed && Loads(w, c) && Seen(Continued(w, c)) != Seen(w)
    ensures !Faithful(w, c)
  {
    ContinuedIsConsistent(w, c);
    SeerTells(w, Seen(w));
    SeerTells(Continued(w, c), Seen(w));
    NotBefore(w, w.index, w.index);
    assert "as before"[0] != "changed"[0];
    DifferenceIsVisible(w, c, Seer(Seen(w)), 1, w.order[w.index]);
  }

  lemma LostReasoningIsSeen(w: State, c: Config, id: NodeId)
    requires Loads(w, c) && id in w.nodes && id in w.order && w.nodes[id].kind == REASONING && Reread(w.nodes[id], c).result != w.nodes[id].result
    ensures Seen(Continued(w, c)) != Seen(w)
  {
    var i := IndexOf(w.order, id);
    assert Seen(w).reasoned[i] == Reasoned(w, id);
    assert Seen(Continued(w, c)).reasoned[i] == Reasoned(Continued(w, c), id);
  }

  lemma LossIsVisible(w: State, c: Config)
    requires Consistent(w) && w.index < |w.order| && w.status != Completed && !Survives(w, c)
    ensures !Faithful(w, c)
  {
    if Loads(w, c) {
      ContextSurvivesIff(w.context, c);
    }
    if !Loads(w, c) {
      return;
    } else if w.reflectionRound != 0 || RereadContext(w.context, c) != w.context {
      SightLossIsVisible(w, c);
    } else if id :| id in w.nodes && id !in w.order[..w.index] && Reread(w.nodes[id], c) != w.nodes[id] {
      NodeLossIsVisible(w, c, id);
    } else {
      var id :| id in w.nodes && id in w.order[..w.index] && w.nodes[id].kind == REASONING
                && Reread(w.nodes[id], c).result != w.nodes[id].result;
      LostReasoningIsSeen(w, c, id);
      SightLossIsVisible(w, c);
    }
  }

  /** Saving a workflow that is still to run and going on from the file, loaded with a
      configuration, is faithful exactly when the checkpoint survives. */
  lemma FaithfulIffSurvives(w: State, c: Config)
    requires Consistent(w) && w.index < |w.order| && w.status != Completed
    ensures Faithful(w, c) <==> Survives(w, c)
  {
    if Survives(w, c) {
      forall b, mode, budget | Disciplined(Start(w), b, mode, budget)
        ensures SameOutcome(Go(Start(w), b, mode, budget), Go(Start(Continued(w, c)), b, mode, budget), w.index, [])
      {
        SurvivorIsFaithful(w, c, b, mode, budget);
      }
    } else {
      LossIsVisible(w, c);
    }
  }

  const SELECTION := "selection"
  const EXECUTE := "execute_sql"

  predicate SomeObject(x: Context) {
    exists k <- x.loose :: x.loose[k].Object?
  }

  /** Nodes that use the results of parallel children as the shipped ones do: the setup of a
      selection takes them from the context, it finds the SQL of the selected one only if that is
      an object, and an SQL execution cannot be set up without SQL. */
  const SELECTING := Behaviour(
    (n: Node, s: Sight, m: Mode) => Returned(Some(NodeResult(true, Data("done"), false)), s.context),
    (n: Node, s: Sight, m: Mode) =>
      Update(false, if n.kind == SELECTION && n.input == Typed(Data("objects")) then s.context.(fields := Data("sql")) else s.context,
             s.reflectionRound, []),
    (n: Node, s: Sight) =>
      if n.kind == SELECTION then Ready(Typed(Data(if SomeObject(s.context) then "objects" else "mappings")), n.held)
      else if n.kind == EXECUTE && s.context.fields != Data("sql") then SetupRaised(n.input, n.held)
      else Ready(n.input, n.held))

  /** Whether the run is in front of a node of another type, a selection and an SQL execution. */
  ghost predicate BeforeSelection(x: Exec) {
    && Consistent(x.w) && !Done(x) && x.w.index + 2 < |x.w.order|
    && x.w.nodes[x.w.order[x.w.index]].kind != SELECTION
    && x.w.nodes[x.w.order[x.w.index + 1]].kind == SELECTION
    && x.w.nodes[x.w.order[x.w.index + 2]].kind == EXECUTE
    && x.w.context.fields != Data("sql")
  }

  /** Whether it is at the selection, set up with objects or without. */
  ghost predicate AtSelection(x: Exec, objects: bool) {
    && Consistent(x.w) && !Done(x) && x.w.index + 1 < |x.w.order|
    && x.w.nodes[x.w.order[x.w.index]].kind == SELECTION
    && x.w.nodes[x.w.order[x.w.index]].input == Typed(Data(if objects then "objects" else "mappings"))
    && x.w.nodes[x.w.order[x.w.index + 1]].kind == EXECUTE
    && x.w.context.fields != Data("sql")
  }

  /** A pass whose node succeeds and changes nothing else and whose follower can be set up. */
  lemma ReadyPass(x: Exec, n: Node, next: Node, b: Behaviour, mode: Mode)
    requires Consistent(x.w) && Current(x.w) == Some(n) && Upcoming(x.w) == Some(next)
    requires var ran := RanIn(x, n, b, mode);
             && !Breaks(ran, mode)
             && b.update(ran, Seen(Left(x, n, b, mode)), mode) == Update(false, Left(x, n, b, mode).context, x.w.reflectionRound, [])
             && b.setup(next, Seen(Left(x, n, b, mode))).Ready?
    ensures var ran := RanIn(x, n, b, mode);
            var y, next' := Step(x, b, mode), Equipped(next, b.setup(next, Seen(Left(x, n, b, mode))));
            && !y.stopped && y.executed == x.executed + [n.id]
            && y.w == Advance(Put(Left(x, n, b, mode), next'))
  {
    UneditedPass(x, n, next, b, mode);
  }

  lemma MovedOn(w: State, n: Node, next: Node)
    requires Consistent(w) && w.index + 1 < |w.order| && n.id == w.order[w.index] && next.id == w.order[w.index + 1]
    ensures var m := Advance(Put(Put(w, n), next));
            && Consistent(m) && m == w.(nodes := w.nodes[n.id := n][next.id := next], index := w.index + 1)
            && m.nodes[next.id] == next
            && forall i | w.index + 1 < i < |w.order| :: m.nodes[w.order[i]] == w.nodes[w.order[i]]
  {
    assert n.id in w.order && next.id in w.order;
    PutIsConsistent(w, n);
    PutIsConsistent(Put(w, n), next);
    forall i | w.index + 1 < i < |w.order| ensures w.order[i] in w.nodes && w.order[i] != n.id && w.order[i] != next.id {
      assert w.order[i] in w.order;
    }
  }

  lemma SelectionSetup(next: Node, s: Sight)
    requires next.kind == SELECTION
    ensures SELECTING.setup(next, s) == Ready(Typed(Data(if SomeObject(s.context) then "objects" else "mappings")), next.held)
  {
  }

  lemma OthersChangeNothing(x: Exec, n: Node, mode: Mode)
    requires n.kind != SELECTION
    ensures var ran := RanIn(x, n, SELECTING, mode);
            && !Breaks(ran, mode) && ran.id == n.id && Left(x, n, SELECTING, mode) == Put(x.w, ran)
            && SELECTING.update(ran, Seen(Put(x.w, ran)), mode) == Update(false, x.w.context, x.w.reflectionRound, [])
  {
  }

  lemma SelectionIsSetUp(x: Exec, mode: Mode)
    requires BeforeSelection(x)
    ensures var y := Step(x, SELECTING, mode);
            AtSelection(y, SomeObject(x.w.context)) && y.executed == x.executed + [x.w.order[x.w.index]]
  {
    var n, next := x.w.nodes[x.w.order[x.w.index]], x.w.nodes[x.w.order[x.w.index + 1]];
    var ran := RanIn(x, n, SELECTING, mode);
    OthersChangeNothing(x, n, mode);
    SelectionSetup(next, Seen(Put(x.w, ran)));
    ReadyPass(x, n, next, SELECTING, mode);
    MovedOn(x.w, ran, Equipped(next, SELECTING.setup(next, Seen(Put(x.w, ran)))));
  }

  lemma SelectionRuns(x: Exec, objects: bool, mode: Mode)
    requires AtSelection(x, objects)
    ensures var y := Step(x, SELECTING, mode);
            (y.stopped <==> !objects) && y.executed == x.executed + [x.w.order[x.w.index]]
  {
    var n, next := x.w.nodes[x.w.order[x.w.index]], x.w.nodes[x.w.order[x.w.index + 1]];
    UneditedPass(x, n, next, SELECTING, mode);
    assert "objects"[0] != "mappings"[0];
  }

  lemma TwoPasses(x: Exec, b: Behaviour, mode: Mode)
    requires !Done(x) && !Done(Step(x, b, mode))
    ensures Go(x, b, mode, 2) == Step(Step(x, b, mode), b, mode)
  {
    GoOn(x, b, mode, 1);
    GoOn(Step(x, b, mode), b, mode, 0);
    GoNowhere(Step(Step(x, b, mode), b, mode), b, mode);
  }

  lemma SelectingRun(x: Exec, mode: Mode)
    requires BeforeSelection(x)
    ensures var y := Go(x, SELECTING, mode, 2);
            (y.stopped <==> !SomeObject(x.w.context)) && |y.executed| == |x.executed| + 2
  {
    SelectionIsSetUp(x, mode);
    SelectionRuns(Step(x, SELECTING, mode), SomeObject(x.w.context), mode);
    TwoPasses(x, SELECTING, mode);
  }

  /** A workflow with results of parallel children in its context, in front of a date parser, a
      selection and an SQL execution, whose file keeps everything but that these results are
      objects: the run goes on to the SQL execution, the loaded one stops at the selection. */
  lemma LoadedSelectionFindsNoSql(w: State, c: Config, mode: Mode)
    requires BeforeSelection(Start(w)) && SomeObject(w.context)
    requires Loads(w, c) && Survives(w.(context := RereadContext(w.context, c)), c)
    requires c.contextReads(w.context.fields) == Some(w.context.fields)
    ensures !Survives(w, c) && !Faithful(w, c)
    ensures !Go(Start(w), SELECTING, mode, 2).stopped && Go(Start(Continued(w, c)), SELECTING, mode, 2).stopped
  {
    ContinuedIsConsistent(w, c);
    FaithfulIffSurvives(w, c);
    var v := Continued(w, c);
    assert !SomeObject(v.context);
    SelectingRun(Start(w), mode);
    SelectingRun(Start(v), mode);
  }

  /** Going on from the checkpoint of a completed workflow is not a no-op: the status is reset, so
      the next run executes the last node again. */
  lemma CompletedRunsAgain(w: State, c: Config, b: Behaviour, mode: Mode, maxSteps: int)
    requires Consistent(w) && w.status == Completed && 0 < w.index == |w.order| - 1 && Loads(w, c) && maxSteps > 0
    ensures Run(w, b, mode, maxSteps) == Some(Start(w))
    ensures var y := Run(Continued(w, c), b, mode, maxSteps);
            y.Some? && |y.value.executed| >= 1 && y.value.executed[0] == w.order[w.index]
  {
    IterateDone(Start(w), Body(b, mode), Done, maxSteps);
    var x := Start(Continued(w, c));
    FirstStepExecutes(w, c, b, mode);
    RunIsGo(Continued(w, c), b, mode, maxSteps);
    GoOn(x, b, mode, maxSteps - 1);
    ExecutedExtends(Step(x, b, mode), b, mode, maxSteps - 1);
  }

  lemma FirstStepExecutes(w: State, c: Config, b: Behaviour, mode: Mode)
    requires Consistent(w) && 0 < w.index < |w.order| && Loads(w, c)
    ensures var x := Start(Continued(w, c));
            !Done(x) && Step(x, b, mode).executed == [w.order[w.index]]
  {
    assert w.order[w.index] in w.order;
  }

  lemma {:induction false} ExecutedExtends(x: Exec, b: Behaviour, mode: Mode, budget: nat)
    ensures x.executed <= Go(x, b, mode, budget).executed
    decreases budget
  {
    if !Done(x) && budget != 0 {
      ExecutedExtends(Step(x, b, mode), b, mode, budget - 1);
    }
  }
}
