/** The execution loops of `datus/agent/workflow_runner.py`, with node bodies as arbitrary
    functions of the node and the shared context (`datus/agent/node/node.py`,
    `datus/agent/evaluate.py`). */
module WorkflowRunner {
  import opened Wrappers
  import opened Sequences
  import opened Workflows
  import opened Loops

  const REFLECT := "reflect"
  const REASONING := "reasoning"

  /** `run` calls `execute`, `run_stream` calls `execute_stream`. */
  datatype Mode = Direct | Streaming

  /** How `execute` or `execute_stream` ends: the result the node then holds, or an exception,
      which leaves whatever result the node held by then; one without a message is `silent`.
      `context` is what the shared context has become, to which a subworkflow may append. */
  datatype Execution =
    | Returned(result: Option<NodeResult>, context: Context)
    | Raised(silent: bool, left: Option<NodeResult>, context: Context)

  /** What `update_context` does to the workflow; it may raise after doing it, or return nothing
      that can be asked for success, which comes to the same. A reported failure is only logged. */
  datatype Update = Update(raised: bool, context: Context, reflectionRound: nat, edits: seq<Edit>)

  /** What `setup_input` puts into the node, and whether it reports success, reports a failure,
      raises, or returns nothing that can be asked for success, as `HitlNode` does. */
  datatype Setup =
    | Ready(input: Input, held: Option<Data>)
    | Refused(input: Input, held: Option<Data>)
    | SetupRaised(input: Input, held: Option<Data>)
    | Mute(input: Input, held: Option<Data>)

  /** What `evaluate_result` returns: a success, a failure, or nothing that can be asked. */
  datatype Report = Success | Failure | NoReport

  /** What nodes read of their workflow: its context, round and position, and how the reasoning
      nodes of the list ended. */
  datatype Sight = Sight(
    context: Context,
    reflectionRound: nat,
    index: nat,
    reasoned: seq<Option<(NodeStatus, Option<NodeResult>)>>)

  function Reasoned(w: State, id: NodeId): Option<(NodeStatus, Option<NodeResult>)> {
    if id in w.nodes && w.nodes[id].kind == REASONING then Some((w.nodes[id].status, w.nodes[id].result)) else None
  }

  function Seen(w: State): Sight {
    Sight(w.context, w.reflectionRound, w.index, seq(|w.order|, i requires 0 <= i < |w.order| => Reasoned(w, w.order[i])))
  }

  datatype Behaviour = Behaviour(
    execute: (Node, Sight, Mode) -> Execution,
    update: (Node, Sight, Mode) -> Update,
    setup: (Node, Sight) -> Setup)

  const FAILURE: NodeResult := NodeResult(false, Data("failed"), false)

  /** The node after `Node.run` or `Node.run_stream`. `fail` replaces the result unless the message is empty. */
  function Ran(n: Node, e: Execution): Node {
    match e
    case Returned(Some(r), _) =>
      if r.success then n.(status := NodeCompleted, result := Some(r))
      else if n.kind == REFLECT then n.(status := NodeFailed, result := Some(r))
      else n.(status := NodeFailed, result := Some(FAILURE))
    case Returned(None, _) => n.(status := NodeFailed, result := Some(FAILURE))
    case Raised(silent, left, _) => n.(status := NodeFailed, result := if silent then left else Some(FAILURE))
  }

  predicate PartialFailure(n: Node) {
    n.status == NodeFailed && n.kind == PARALLEL && n.result.Some? && n.result.value.childSucceeded
  }

  function Put(w: State, n: Node): State {
    w.(nodes := w.nodes[n.id := n])
  }

  /** The workflow right after `update_context`. */
  function Updated(w: State, n: Node, b: Behaviour, mode: Mode): State {
    var u := b.update(n, Seen(w), mode);
    ApplyAll(w.(context := u.context, reflectionRound := u.reflectionRound), u.edits)
  }

  function Equipped(n: Node, s: Setup): Node {
    n.(input := s.input, held := s.held)
  }

  function ReportOf(s: Setup): Report {
    if s.Ready? then Success else if s.Mute? then NoReport else Failure
  }

  /** Set up the next node of the list, if there is one. */
  function UpcomingReady(w: State, b: Behaviour): (State, Report) {
    match Upcoming(w)
    case None => (w, Success)
    case Some(next) =>
      var s := b.setup(next, Seen(w));
      (Put(w, Equipped(next, s)), ReportOf(s))
  }

  /** `evaluate_result`: update the context, then prepare the next node's input. Exceptions of
      both are failures. */
  function Evaluate(w: State, n: Node, b: Behaviour, mode: Mode): (State, Report) {
    var updated := Updated(w, n, b, mode);
    if b.update(n, Seen(w), mode).raised then (updated, Failure) else UpcomingReady(updated, b)
  }

  function FailCurrent(w: State, id: NodeId): State {
    if id in w.nodes then Put(w, w.nodes[id].(id := id, status := NodeFailed)) else w
  }

  /** What an evaluation of the node with this report comes to: advance, fail the node, or
      leave everything as it is. */
  function Settled(m: State, report: Report, id: NodeId): State {
    match report
    case Success => Advance(m)
    case Failure => FailCurrent(m, id)
    case NoReport => m
  }

  /** The rest of the pass once the node ran. */
  function Concluded(w: State, ran: Node, b: Behaviour, mode: Mode): (State, Report) {
    var (m, report) := Evaluate(w, ran, b, mode);
    (Settled(m, report, ran.id), report)
  }

  /** A run in progress: the workflow, the ids executed, the nodes evaluated as their execution
      left them, whether the loop was left by a break or an exception, and whether it was an
      exception, which escapes to the caller. */
  datatype Exec = Exec(w: State, executed: seq<NodeId>, evaluated: seq<Node>, stopped: bool, escaped: bool)

  predicate Done(x: Exec) {
    x.stopped || IsComplete(x.w)
  }

  /** The node after it ran in a pass of the loop. */
  function RanIn(x: Exec, n: Node, b: Behaviour, mode: Mode): Node {
    Ran(n.(status := NodeRunning), b.execute(n, Seen(x.w), mode))
  }

  /** The workflow after the node ran. */
  function Left(x: Exec, n: Node, b: Behaviour, mode: Mode): State {
    Put(x.w.(context := b.execute(n, Seen(x.w), mode).context), RanIn(x, n, b, mode))
  }

  /** Whether the loop breaks without evaluating the node. */
  predicate Breaks(ran: Node, mode: Mode) {
    ran.status == NodeFailed && !(mode.Direct? && PartialFailure(ran))
  }

  /** One pass of the loop body for the current node `n`. */
  function Pass(x: Exec, n: Node, b: Behaviour, mode: Mode): Exec {
    var ran := RanIn(x, n, b, mode);
    var seen := x.(executed := x.executed + [n.id], w := Left(x, n, b, mode));
    if Breaks(ran, mode) then seen.(stopped := true) else Evaluated(seen, ran, b, mode)
  }

  /** Asking a missing report for success raises; `run_stream` catches that and breaks, `run`
      does not. */
  function Evaluated(x: Exec, ran: Node, b: Behaviour, mode: Mode): Exec {
    var (w, report) := Concluded(x.w, ran, b, mode);
    x.(w := w, evaluated := x.evaluated + [ran], stopped := report != Success,
       escaped := report == NoReport && mode.Direct?)
  }

  function Step(x: Exec, b: Behaviour, mode: Mode): Exec {
    match Current(x.w)
    case None => x.(stopped := true)
    case Some(n) => Pass(x, n, b, mode)
  }

  function Body(b: Behaviour, mode: Mode): Exec -> Exec {
    x => Step(x, b, mode)
  }

  function Go(x: Exec, b: Behaviour, mode: Mode, budget: nat): Exec {
    Iterate(x, Body(b, mode), Done, budget)
  }

  function Start(w: State): Exec {
    Exec(w, [], [], false, false)
  }

  /** `_prepare_first_node`; `None` is the exception it lets escape. */
  function Prepared(w: State, b: Behaviour): Option<State> {
    if w.index != 0 then Some(w)
    else
      match Current(w)
      case None => None
      case Some(begin) =>
        var begun := Put(w, begin.(status := NodeCompleted, result := Some(NodeResult(true, Data(""), false))));
        var next := Current(Advance(begun));
        if begun.index + 1 >= |begun.order| || next.None? then None
        else
          var s := b.setup(next.value, Seen(Advance(begun)));
          if s.SetupRaised? then None else Some(Put(Advance(begun), Equipped(next.value, s)))
  }

  /** `max_steps or 20` in one loop, `max_steps` in the other. */
  function Budget(maxSteps: int, mode: Mode): nat {
    if mode.Direct? && maxSteps == 0 then 20 else if maxSteps < 0 then 0 else maxSteps
  }

  function Run(w: State, b: Behaviour, mode: Mode, maxSteps: int): Option<Exec> {
    match Prepared(w, b)
    case None => None
    case Some(first) => Some(Go(Start(first), b, mode, Budget(maxSteps, mode)))
  }

  // ---------------------------------------------------------------- the loop as a method

  class Runner {
    const workflow: Workflow

    constructor (workflow: Workflow)
      ensures this.workflow == workflow
    {
      this.workflow := workflow;
    }

    /** The loop of `run`, or of `run_stream` without its progress events, and what leads to it:
        `ok` is false when the preparation of the first node raises, `escaped` says that the
        loop raises. */
    method Execute(b: Behaviour, mode: Mode, maxSteps: int)
      returns (ok: bool, executed: seq<NodeId>, evaluated: seq<Node>, stopped: bool, escaped: bool)
      modifies workflow
      ensures ok <==> Run(old(workflow.View()), b, mode, maxSteps).Some?
      ensures ok ==> Run(old(workflow.View()), b, mode, maxSteps)
                     == Some(Exec(workflow.View(), executed, evaluated, stopped, escaped))
    {
      executed, evaluated, stopped, escaped := [], [], false, false;
      ok := PrepareFirstNode(b);
      if !ok {
        return;
      }
      executed, evaluated, stopped, escaped := RunLoop(b, mode, maxSteps);
    }

    method RunLoop(b: Behaviour, mode: Mode, maxSteps: int)
      returns (executed: seq<NodeId>, evaluated: seq<Node>, stopped: bool, escaped: bool)
      modifies workflow
      ensures Exec(workflow.View(), executed, evaluated, stopped, escaped)
              == Go(Start(old(workflow.View())), b, mode, Budget(maxSteps, mode))
    {
      executed, evaluated, stopped, escaped := [], [], false, false;
      ghost var final := Go(Start(workflow.View()), b, mode, Budget(maxSteps, mode));
      var limit := if mode.Direct? && maxSteps == 0 then 20 else maxSteps;
      var stepCount := 0;
      ghost var left: nat := Budget(maxSteps, mode);
      while !stopped && !(workflow.status == Completed || workflow.index >= |workflow.order|) && stepCount < limit
        invariant !stopped ==> left == if limit < 0 then 0 else limit - stepCount
        invariant !stopped ==> !escaped
        invariant final == Go(Exec(workflow.View(), executed, evaluated, stopped, escaped), b, mode, left)
        decreases left
      {
        GoOn(Exec(workflow.View(), executed, evaluated, stopped, escaped), b, mode, left - 1);
        executed, evaluated, stopped, escaped := RunCurrentNode(b, mode, executed, evaluated);
        stepCount := stepCount + 1;
        left := left - 1;
      }
    }

    /** The loop body; `stopped` is its break, or the exception it lets escape. */
    method RunCurrentNode(b: Behaviour, mode: Mode, executed: seq<NodeId>, evaluated: seq<Node>)
      returns (executed': seq<NodeId>, evaluated': seq<Node>, stopped: bool, escaped: bool)
      requires !IsComplete(workflow.View())
      modifies workflow
      ensures Exec(workflow.View(), executed', evaluated', stopped, escaped)
              == Step(Exec(old(workflow.View()), executed, evaluated, false, false), b, mode)
      ensures escaped ==> stopped
    {
      executed', evaluated', stopped, escaped := executed, evaluated, true, false;
      if workflow.order[workflow.index] !in workflow.nodes {
        return;
      }
      var node := workflow.nodes[workflow.order[workflow.index]];
      var execution := b.execute(node, Seen(workflow.View()), mode);
      var ran := Ran(node.(status := NodeRunning), execution);
      workflow.nodes, workflow.context := workflow.nodes[ran.id := ran], execution.context;
      executed' := executed + [node.id];
      if ran.status == NodeFailed && !(mode.Direct? && PartialFailure(ran)) {
        return;
      }
      var report := EvaluateResult(ran, b, mode);
      evaluated' := evaluated + [ran];
      if report == NoReport {
        escaped := mode.Direct?;
        return;
      }
      if report == Failure {
        if node.id in workflow.nodes {
          workflow.nodes := workflow.nodes[node.id := workflow.nodes[node.id].(id := node.id, status := NodeFailed)];
        }
        return;
      }
      var _ := workflow.AdvanceToNextNode();
      stopped := false;
    }

    method PrepareFirstNode(b: Behaviour) returns (ok: bool)
      modifies workflow
      ensures ok <==> Prepared(old(workflow.View()), b).Some?
      ensures ok ==> Prepared(old(workflow.View()), b) == Some(workflow.View())
    {
      if workflow.index != 0 {
        return true;
      }
      if workflow.index >= |workflow.order| || workflow.order[0] !in workflow.nodes {
        return false;
      }
      var begin := workflow.nodes[workflow.order[0]];
      begin := begin.(status := NodeCompleted, result := Some(NodeResult(true, Data(""), false)));
      workflow.nodes := workflow.nodes[begin.id := begin];
      var next := workflow.AdvanceToNextNode();
      if next.None? {
        return false;
      }
      var s := b.setup(next.value, Seen(workflow.View()));
      workflow.nodes := workflow.nodes[next.value.id := next.value.(input := s.input, held := s.held)];
      ok := !s.SetupRaised?;
    }

    method EvaluateResult(node: Node, b: Behaviour, mode: Mode) returns (report: Report)
      modifies workflow
      ensures (workflow.View(), report) == Evaluate(old(workflow.View()), node, b, mode)
    {
      var u := b.update(node, Seen(workflow.View()), mode);
      workflow.context, workflow.reflectionRound := u.context, u.reflectionRound;
      workflow.ApplyEdits(u.edits);
      if u.raised {
        return Failure;
      }
      report := SetUpUpcoming(b);
    }

    method SetUpUpcoming(b: Behaviour) returns (report: Report)
      modifies workflow
      ensures (workflow.View(), report) == UpcomingReady(old(workflow.View()), b)
    {
      if workflow.index + 1 < |workflow.order| && workflow.order[workflow.index + 1] in workflow.nodes {
        var next := workflow.nodes[workflow.order[workflow.index + 1]];
        var s := b.setup(next, Seen(workflow.View()));
        workflow.nodes := workflow.nodes[next.id := next.(input := s.input, held := s.held)];
        return if s.Ready? then Success else if s.Mute? then NoReport else Failure;
      }
      report := Success;
    }
  }

  // ---------------------------------------------------------------- what every run keeps

  /** The edits that `update_context` of the node makes are behind the current position. */
  predicate EditsBehind(w: State, n: Node, b: Behaviour, mode: Mode) {
    var u := b.update(n, Seen(w), mode);
    AllBehind(w.(context := u.context, reflectionRound := u.reflectionRound), u.edits)
  }

  /** Whatever the node did, the edits of this pass are behind it. */
  predicate DisciplinedPass(x: Exec, b: Behaviour, mode: Mode) {
    match Current(x.w)
    case None => true
    case Some(n) =>
      var ran := RanIn(x, n, b, mode);
      Breaks(ran, mode) || EditsBehind(Left(x, n, b, mode), ran, b, mode)
  }

  ghost predicate Disciplined(x: Exec, b: Behaviour, mode: Mode, budget: nat) {
    Visits(x, Body(b, mode), Done, budget, y => DisciplinedPass(y, b, mode))
  }

  /** The executed ids are the stretch of the node list from `from` on; the index is at its
      end, or still on its last node when that one stopped the run or was the last of all. */
  ghost predicate Tracks(x: Exec, from: nat) {
    var end := from + |x.executed|;
    && Consistent(x.w) && (x.escaped ==> x.stopped)
    && end <= |x.w.order| && (forall i | 0 <= i < |x.executed| :: x.executed[i] == x.w.order[from + i])
    && (if x.stopped then x.executed != [] && x.w.index == end - 1 && x.w.status != Completed
        else if x.w.status == Completed then x.executed != [] && end == |x.w.order| && x.w.index == end - 1
        else x.w.index == end < |x.w.order|)
  }

  lemma PutIsConsistent(w: State, n: Node)
    requires Consistent(w) && n.id in w.nodes
    ensures Consistent(Put(w, n))
  {
  }

  lemma UpdatedKeepsPast(w: State, n: Node, b: Behaviour, mode: Mode)
    requires Consistent(w) && EditsBehind(w, n, b, mode)
    ensures Consistent(Updated(w, n, b, mode))
    ensures var m := Updated(w, n, b, mode);
            && m.index == w.index < |m.order| && m.status == w.status
            && w.index < |w.order| && m.order[..w.index + 1] == w.order[..w.index + 1]
  {
    var u := b.update(n, Seen(w), mode);
    EditsKeepPast(w.(context := u.context, reflectionRound := u.reflectionRound), u.edits);
  }

  lemma EvaluateKeepsPast(w: State, n: Node, b: Behaviour, mode: Mode)
    requires Consistent(w) && EditsBehind(w, n, b, mode)
    ensures var (m, _) := Evaluate(w, n, b, mode);
            && Consistent(m) && m.index == w.index < |m.order| && m.status == w.status
            && w.index < |w.order| && m.order[..w.index + 1] == w.order[..w.index + 1]
  {
    UpdatedKeepsPast(w, n, b, mode);
    var updated := Updated(w, n, b, mode);
    if Upcoming(updated).Some? {
      var next := Upcoming(updated).value;
      PutIsConsistent(updated, Equipped(next, b.setup(next, Seen(updated))));
    }
  }

  /** A run one node further on. */
  lemma TracksOneMore(x: Exec, from: nat, y: Exec)
    requires Tracks(x, from) && !Done(x) && Consistent(y.w) && (y.escaped ==> y.stopped)
    requires y.executed == x.executed + [x.w.order[x.w.index]]
    requires x.w.index < |y.w.order| && y.w.order[..x.w.index + 1] == x.w.order[..x.w.index + 1]
    requires if y.stopped then y.w.index == x.w.index && y.w.status != Completed
             else if y.w.status == Completed then y.w.index == x.w.index == |y.w.order| - 1
             else y.w.index == x.w.index + 1 < |y.w.order|
    ensures Tracks(y, from)
  {
    forall i | 0 <= i < |y.executed| ensures y.executed[i] == y.w.order[from + i] {
      assert y.w.order[from + i] == y.w.order[..x.w.index + 1][from + i] == x.w.order[from + i];
    }
  }

  lemma TracksAfterEvaluation(x: Exec, from: nat, m: State, report: Report, evaluated: seq<Node>, escaped: bool)
    requires Tracks(x, from) && !Done(x) && (escaped ==> report != Success)
    requires Consistent(m) && m.index == x.w.index < |m.order| && m.status == x.w.status
    requires m.order[..x.w.index + 1] == x.w.order[..x.w.index + 1]
    ensures var id := x.w.order[x.w.index];
            Tracks(Exec(Settled(m, report, id), x.executed + [id], evaluated, report != Success, escaped), from)
  {
    var id := x.w.order[x.w.index];
    TracksOneMore(x, from, Exec(Settled(m, report, id), x.executed + [id], evaluated, report != Success, escaped));
  }

  lemma PassTracks(x: Exec, from: nat, n: Node, b: Behaviour, mode: Mode)
    requires Tracks(x, from) && !Done(x) && Current(x.w) == Some(n) && DisciplinedPass(x, b, mode)
    ensures Tracks(Pass(x, n, b, mode), from)
  {
    var ran := RanIn(x, n, b, mode);
    var w := Left(x, n, b, mode);
    assert ran.id == n.id == x.w.order[x.w.index];
    PutIsConsistent(x.w.(context := w.context), ran);
    if Breaks(ran, mode) {
      TracksOneMore(x, from, Pass(x, n, b, mode));
    } else {
      EvaluateKeepsPast(w, ran, b, mode);
      var (m, report) := Evaluate(w, ran, b, mode);
      var escaped := report == NoReport && mode.Direct?;
      TracksAfterEvaluation(x, from, m, report, x.evaluated + [ran], escaped);
      assert Pass(x, n, b, mode) == Exec(Settled(m, report, n.id), x.executed + [n.id],
                                         x.evaluated + [ran], report != Success, escaped);
    }
  }

  lemma StepTracks(x: Exec, from: nat, b: Behaviour, mode: Mode)
    requires Tracks(x, from) && !Done(x) && DisciplinedPass(x, b, mode)
    ensures Tracks(Step(x, b, mode), from)
  {
    assert x.w.order[x.w.index] in x.w.order;
    PassTracks(x, from, Current(x.w).value, b, mode);
  }

  /** A disciplined run executes a stretch of the node list, as the list is in the end, from
      where it started: in order and each node once. */
  lemma RunTracks(x: Exec, from: nat, b: Behaviour, mode: Mode, budget: nat)
    requires Tracks(x, from) && Disciplined(x, b, mode, budget)
    ensures Tracks(Go(x, b, mode, budget), from)
  {
    forall y | Tracks(y, from) && !Done(y) && DisciplinedPass(y, b, mode) ensures Tracks(Body(b, mode)(y), from) {
      StepTracks(y, from, b, mode);
    }
    LoopInvariant(x, Body(b, mode), Done, budget, y => DisciplinedPass(y, b, mode), y => Tracks(y, from));
  }

  lemma StepLength(x: Exec, b: Behaviour, mode: Mode)
    ensures var y := Step(x, b, mode);
            |y.executed| <= |x.executed| + 1 && (y.stopped || |y.executed| == |x.executed| + 1)
  {
  }

  /** A run executes at most `budget` nodes, and exactly that many unless it ended by itself. */
  lemma {:induction false} RunLength(x: Exec, b: Behaviour, mode: Mode, budget: nat)
    ensures var y := Go(x, b, mode, budget);
            |y.executed| <= |x.executed| + budget && (Done(y) || |y.executed| == |x.executed| + budget)
    decreases budget
  {
    if !Done(x) && budget != 0 {
      StepLength(x, b, mode);
      RunLength(Step(x, b, mode), b, mode, budget - 1);
    }
  }

  /** The workflow when the begin node is completed and the index is on the first real node. */
  function Begun(w: State): State
    requires 0 < |w.order| && w.order[0] in w.nodes
  {
    var begin := w.nodes[w.order[0]];
    Advance(Put(w, begin.(status := NodeCompleted, result := Some(NodeResult(true, Data(""), false)))))
  }

  /** A fresh run can start exactly when there is a node behind the begin node and its input
      can be prepared without an exception. The plan without steps cannot. */
  lemma PreparesIff(w: State, b: Behaviour)
    requires Consistent(w) && w.index == 0
    ensures Prepared(w, b).Some? <==>
            |w.order| >= 2 && w.order[1] in w.nodes && !b.setup(w.nodes[w.order[1]], Seen(Begun(w))).SetupRaised?
  {
    if |w.order| >= 2 {
      assert w.order[0] in w.order && w.order[1] in w.order && w.order[0] != w.order[1];
      assert w.nodes[w.order[0]].id == w.order[0];
    }
  }

  lemma PreparedTracks(w: State, b: Behaviour)
    requires Consistent(w) && w.index == 0 && w.status == Pending && Prepared(w, b).Some?
    ensures Tracks(Start(Prepared(w, b).value), 1)
  {
    PreparesIff(w, b);
    var begin := Current(w).value;
    assert begin.id == w.order[0];
    PutIsConsistent(w, begin.(status := NodeCompleted, result := Some(NodeResult(true, Data(""), false))));
  }

  /** A fresh disciplined run executes the final node list from position 1 on, without gap or
      repetition and within the budget; it is completed exactly when the last node of the list
      was executed and the run did not break on it. */
  lemma FreshRun(w: State, b: Behaviour, mode: Mode, maxSteps: int)
    requires Consistent(w) && w.index == 0 && w.status == Pending && Prepared(w, b).Some?
    requires Disciplined(Start(Prepared(w, b).value), b, mode, Budget(maxSteps, mode))
    ensures var y := Run(w, b, mode, maxSteps).value;
            var limit := if maxSteps == 0 && mode.Direct? then 20 else if maxSteps > 0 then maxSteps else 0;
            && |y.executed| <= limit && (Done(y) || |y.executed| == limit) && 1 + |y.executed| <= |y.w.order|
            && y.executed == y.w.order[1..1 + |y.executed|]
            && Consistent(y.w) && Distinct(y.executed)
            && (y.w.status == Completed <==> !y.stopped && 1 + |y.executed| == |y.w.order|)
  {
    var first := Start(Prepared(w, b).value);
    PreparedTracks(w, b);
    RunTracks(first, 1, b, mode, Budget(maxSteps, mode));
    RunLength(first, b, mode, Budget(maxSteps, mode));
    var y := Run(w, b, mode, maxSteps).value;
    assert |y.w.order| >= 2;
    forall i, j | 0 <= i < j < |y.executed| ensures y.executed[i] != y.executed[j] {
      assert y.w.order[1 + i] != y.w.order[1 + j];
    }
  }

  /** What nodes get to see. */
  lemma SightShows(w: State, i: nat)
    requires Consistent(w) && i < |w.order|
    ensures var s := Seen(w);
            && s.context == w.context && s.reflectionRound == w.reflectionRound && s.index == w.index && |s.reasoned| == |w.order|
            && w.order[i] in w.nodes
            && var n := w.nodes[w.order[i]];
               && (n.kind == "reasoning" ==> s.reasoned[i] == Some((n.status, n.result)))
               && (n.kind != "reasoning" ==> s.reasoned[i] == None)
  {
    assert w.order[i] in w.order;
  }

  // ---------------------------------------------------------------- what an execution decides

  /** A node whose execution raises, leaves no result or leaves an unsuccessful one is failed and
      ends the run, without being evaluated. The exception is a parallel node that raises
      without a message when a child of it had succeeded, in `run`. */
  lemma FailedExecutionEndsTheRun(x: Exec, n: Node, b: Behaviour, mode: Mode)
    requires Current(x.w) == Some(n) && n.id == x.w.order[x.w.index]
    requires var e := b.execute(n, Seen(x.w), mode);
             && (e.Raised? || e.result.None? || !e.result.value.success)
             && !(mode.Direct? && n.kind == "parallel" && e.Raised? && e.silent && e.left.Some? && e.left.value.childSucceeded)
    ensures var e := b.execute(n, Seen(x.w), mode);
            var y := Step(x, b, mode);
            && y.stopped && y.escaped == x.escaped && y.evaluated == x.evaluated && y.executed == x.executed + [n.id]
            && y.w == x.w.(nodes := y.w.nodes, context := e.context) && y.w.nodes.Keys == x.w.nodes.Keys
            && (forall id <- x.w.nodes | id != n.id :: y.w.nodes[id] == x.w.nodes[id])
            && y.w.nodes[n.id] == n.(status := NodeFailed, result := y.w.nodes[n.id].result)
            && (e.Returned? && e.result.Some? && n.kind == "reflect" ==> y.w.nodes[n.id].result == e.result)
            && (e.Raised? && e.silent ==> y.w.nodes[n.id].result == e.left)
  {
  }

  /** A node whose execution leaves a successful result is completed with that result and
      evaluated, whatever the evaluation comes to. */
  lemma SuccessfulExecutionIsEvaluated(x: Exec, n: Node, b: Behaviour, mode: Mode)
    requires Current(x.w) == Some(n) && n.id == x.w.order[x.w.index]
    requires var e := b.execute(n, Seen(x.w), mode); e.Returned? && e.result.Some? && e.result.value.success
    ensures var e := b.execute(n, Seen(x.w), mode);
            var y := Step(x, b, mode);
            && y.executed == x.executed + [n.id]
            && y.evaluated == x.evaluated + [n.(status := NodeCompleted, result := e.result)]
  {
  }

  /** The exception: the failed parallel node is evaluated with the result it has. */
  lemma PartialFailureIsEvaluated(x: Exec, n: Node, b: Behaviour)
    requires Current(x.w) == Some(n) && n.id == x.w.order[x.w.index] && n.kind == "parallel"
    requires var e := b.execute(n, Seen(x.w), Direct); e.Raised? && e.silent && e.left.Some? && e.left.value.childSucceeded
    ensures var e := b.execute(n, Seen(x.w), Direct);
            var y := Step(x, b, Direct);
            && y.executed == x.executed + [n.id]
            && y.evaluated == x.evaluated + [n.(status := NodeFailed, result := e.left)]
  {
  }

  /** An evaluation without edits, with the node as its execution left it: the context and the
      round become what `update_context` makes of them, the node behind gets what its setup
      prepares, and the run goes on to it exactly when that setup reports success. */
  lemma EvaluationPrepares(x: Exec, n: Node, next: Node, b: Behaviour, mode: Mode)
    requires Consistent(x.w) && Current(x.w) == Some(n) && Upcoming(x.w) == Some(next)
    requires var e := b.execute(n, Seen(x.w), mode);
             && e.Returned? && e.result.Some? && e.result.value.success
             && var ran := n.(status := NodeCompleted, result := e.result);
                var u := b.update(ran, Seen(x.w.(nodes := x.w.nodes[n.id := ran], context := e.context)), mode);
                u.edits == [] && !u.raised
    ensures var e := b.execute(n, Seen(x.w), mode);
            var ran := n.(status := NodeCompleted, result := e.result);
            var u := b.update(ran, Seen(x.w.(nodes := x.w.nodes[n.id := ran], context := e.context)), mode);
            var w := x.w.(nodes := x.w.nodes[n.id := ran], context := u.context, reflectionRound := u.reflectionRound);
            var s := b.setup(next, Seen(w));
            var readied := w.nodes[next.id := next.(input := s.input, held := s.held)];
            var y := Step(x, b, mode);
            && (s.Ready? <==> !y.stopped)
            && (s.Ready? ==> y.w == w.(nodes := readied, index := x.w.index + 1) && !y.escaped)
            && (s.Refused? || s.SetupRaised? ==> y.w == w.(nodes := readied[n.id := ran.(status := NodeFailed)]) && !y.escaped)
            && (s.Mute? ==> y.w == w.(nodes := readied) && (y.escaped <==> mode.Direct?))
  {
    UneditedPass(x, n, next, b, mode);
    assert n.id == x.w.order[x.w.index] != x.w.order[x.w.index + 1] == next.id;
  }

  /** An `update_context` that raises fails the node and ends the run, with its edits made. */
  lemma RaisingUpdateEndsTheRun(x: Exec, n: Node, b: Behaviour, mode: Mode)
    requires Consistent(x.w) && Current(x.w) == Some(n)
    requires var e := b.execute(n, Seen(x.w), mode);
             && e.Returned? && e.result.Some? && e.result.value.success
             && var ran := n.(status := NodeCompleted, result := e.result);
                b.update(ran, Seen(x.w.(nodes := x.w.nodes[n.id := ran], context := e.context)), mode).raised
    ensures var e := b.execute(n, Seen(x.w), mode);
            var ran := n.(status := NodeCompleted, result := e.result);
            var w := x.w.(nodes := x.w.nodes[n.id := ran], context := e.context);
            var u := b.update(ran, Seen(w), mode);
            var m := ApplyAll(w.(context := u.context, reflectionRound := u.reflectionRound), u.edits);
            var y := Step(x, b, mode);
            && y.stopped && !y.escaped && y.w.order == m.order && y.w.index == m.index && y.w.context == m.context
            && (n.id in m.nodes ==> n.id in y.w.nodes && y.w.nodes[n.id].status == NodeFailed)
  {
  }

  /** The last node of the list ends the run as completed. */
  lemma LastNodeCompletes(x: Exec, n: Node, b: Behaviour, mode: Mode)
    requires Consistent(x.w) && Current(x.w) == Some(n) && x.w.index == |x.w.order| - 1
    requires var e := b.execute(n, Seen(x.w), mode);
             && e.Returned? && e.result.Some? && e.result.value.success
             && var ran := n.(status := NodeCompleted, result := e.result);
                var u := b.update(ran, Seen(x.w.(nodes := x.w.nodes[n.id := ran], context := e.context)), mode);
                u.edits == [] && !u.raised
    ensures var y := Step(x, b, mode); !y.stopped && y.w.status == Completed && y.w.index == x.w.index
  {
  }

  /** The execution of the pass left a successful result, or a parallel node failed in part. */
  predicate WentWell(x: Exec, b: Behaviour, mode: Mode) {
    Current(x.w).Some? &&
    var n := Current(x.w).value;
    match b.execute(n, Seen(x.w), mode)
    case Returned(result, _) => result.Some? && result.value.success
    case Raised(silent, left, _) => mode.Direct? && n.kind == PARALLEL && silent && left.Some? && left.value.childSucceeded
  }

  lemma StoppedUnlessWell(x: Exec, b: Behaviour, mode: Mode)
    ensures Step(x, b, mode).stopped || WentWell(x, b, mode)
  {
  }

  /** In a run that was not stopped, a completed one in particular, every execution went well. */
  lemma {:induction false} UnstoppedRunWentWell(x: Exec, b: Behaviour, mode: Mode, budget: nat)
    requires !Go(x, b, mode, budget).stopped
    ensures Visits(x, Body(b, mode), Done, budget, y => WentWell(y, b, mode))
    decreases budget
  {
    if !Done(x) && budget != 0 {
      var y := Step(x, b, mode);
      StoppedUnlessWell(x, b, mode);
      if y.stopped {
        IterateDone(y, Body(b, mode), Done, budget - 1);
      }
      UnstoppedRunWentWell(y, b, mode, budget - 1);
    }
  }

  /** A fresh run that completes the workflow had nothing but executions that went well. */
  lemma CompletedRunWentWell(w: State, b: Behaviour, mode: Mode, maxSteps: int)
    requires Consistent(w) && w.index == 0 && w.status == Pending && Prepared(w, b).Some?
    requires Disciplined(Start(Prepared(w, b).value), b, mode, Budget(maxSteps, mode))
    requires Run(w, b, mode, maxSteps).value.w.status == Completed
    ensures Visits(Start(Prepared(w, b).value), Body(b, mode), Done, Budget(maxSteps, mode), y => WentWell(y, b, mode))
  {
    FreshRun(w, b, mode, maxSteps);
    UnstoppedRunWentWell(Start(Prepared(w, b).value), b, mode, Budget(maxSteps, mode));
  }

  /** What a fresh run starts from: the begin node completed, the next one set up and current. */
  lemma FreshStart(w: State, b: Behaviour)
    requires Consistent(w) && w.index == 0 && |w.order| >= 2 && Prepared(w, b).Some?
    requires w.order[0] in w.nodes && w.order[1] in w.nodes
    ensures var begin, next := w.nodes[w.order[0]], w.nodes[w.order[1]];
            var begun := w.(nodes := w.nodes[w.order[0] :=
                              begin.(status := NodeCompleted, result := Some(NodeResult(true, Data(""), false)))], index := 1);
            var s := b.setup(next, Seen(begun));
            Prepared(w, b) == Some(begun.(nodes := begun.nodes[w.order[1] := next.(input := s.input, held := s.held)]))
  {
    assert w.order[0] != w.order[1];
  }

  // ---------------------------------------------------------------- the two loops

  /** What a pass needs for both loops to do the same: the two executions leave the node alike,
      it is not a parallel node that failed while holding a successful child, and if it failed,
      the workflow is left alike; if it goes on, both evaluations succeed or neither does, they
      leave the workflow alike, and the direct one gives a report. */
  predicate PassAgrees(x: Exec, b: Behaviour) {
    match Current(x.w)
    case None => true
    case Some(n) =>
      var ran := RanIn(x, n, b, Direct);
      && ran == RanIn(x, n, b, Streaming) && !PartialFailure(ran)
      && if ran.status == NodeFailed then Left(x, n, b, Direct) == Left(x, n, b, Streaming)
         else
           var (w, report) := Concluded(Left(x, n, b, Direct), ran, b, Direct);
           var (w', report') := Concluded(Left(x, n, b, Streaming), ran, b, Streaming);
           w == w' && (report == Success <==> report' == Success) && report != NoReport
  }

  lemma LeftTells(x: Exec, n: Node, b: Behaviour)
    ensures Left(x, n, b, Direct) == Left(x, n, b, Streaming) ==> RanIn(x, n, b, Direct) == RanIn(x, n, b, Streaming)
  {
    assert forall mode :: Left(x, n, b, mode).nodes[n.id] == RanIn(x, n, b, mode);
  }

  lemma StepsAgreeIff(x: Exec, b: Behaviour)
    ensures Step(x, b, Direct) == Step(x, b, Streaming) <==> PassAgrees(x, b)
  {
    if Current(x.w).Some? {
      var n := Current(x.w).value;
      var d, s := RanIn(x, n, b, Direct), RanIn(x, n, b, Streaming);
      LeftTells(x, n, b);
      if !Breaks(d, Direct) && !Breaks(s, Streaming) {
        assert (x.evaluated + [d])[|x.evaluated|] == d && (x.evaluated + [s])[|x.evaluated|] == s;
      } else if !Breaks(d, Direct) || !Breaks(s, Streaming) {
        assert |Pass(x, n, b, Direct).evaluated| != |Pass(x, n, b, Streaming).evaluated|;
      }
    }
  }

  /** Both loops are in the same state after every number of passes up to the budget. */
  ghost predicate AlikeThroughout(x: Exec, b: Behaviour, budget: nat) {
    forall k: nat | k <= budget :: Go(x, b, Direct, k) == Go(x, b, Streaming, k)
  }

  lemma GoOn(x: Exec, b: Behaviour, mode: Mode, k: nat)
    requires !Done(x)
    ensures Go(x, b, mode, k + 1) == Go(Step(x, b, mode), b, mode, k)
  {
  }

  lemma GoNowhere(x: Exec, b: Behaviour, mode: Mode)
    ensures Go(x, b, mode, 0) == x
  {
  }

  lemma AlikeOneMore(x: Exec, b: Behaviour, budget: nat)
    requires !Done(x) && Step(x, b, Direct) == Step(x, b, Streaming)
    ensures AlikeThroughout(x, b, budget + 1) <==> AlikeThroughout(Step(x, b, Streaming), b, budget)
  {
    var y := Step(x, b, Streaming);
    forall k: nat ensures Go(x, b, Direct, k + 1) == Go(y, b, Direct, k) && Go(x, b, Streaming, k + 1) == Go(y, b, Streaming, k) {
      GoOn(x, b, Direct, k);
      GoOn(x, b, Streaming, k);
    }
    if AlikeThroughout(y, b, budget) {
      forall k: nat | k <= budget + 1 ensures Go(x, b, Direct, k) == Go(x, b, Streaming, k) {
        if k > 0 {
          assert Go(y, b, Direct, k - 1) == Go(y, b, Streaming, k - 1);
          assert k == (k - 1) + 1;
        }
      }
    }
    if AlikeThroughout(x, b, budget + 1) {
      forall k: nat | k <= budget ensures Go(y, b, Direct, k) == Go(y, b, Streaming, k) {
        assert Go(x, b, Direct, k + 1) == Go(x, b, Streaming, k + 1);
      }
    }
  }

  lemma StepsPart(x: Exec, b: Behaviour, budget: nat)
    requires !Done(x) && budget > 0 && Step(x, b, Direct) != Step(x, b, Streaming)
    ensures !AlikeThroughout(x, b, budget)
  {
    GoOn(x, b, Direct, 0);
    GoOn(x, b, Streaming, 0);
    GoNowhere(Step(x, b, Direct), b, Direct);
    GoNowhere(Step(x, b, Streaming), b, Streaming);
    assert Go(x, b, Direct, 1) != Go(x, b, Streaming, 1);
  }

  /** Every pass that the streaming loop comes to agrees. */
  ghost predicate PassesAgree(x: Exec, b: Behaviour, budget: nat) {
    Visits(x, Body(b, Streaming), Done, budget, y => PassAgrees(y, b))
  }

  /** The two loops stay alike pass by pass exactly when on every pass the two executions leave
      the node alike, no partial failure of a parallel node is met, and evaluations do the same,
      with a report in the direct loop. */
  lemma {:induction false} ModesAgreeIff(x: Exec, b: Behaviour, budget: nat)
    ensures AlikeThroughout(x, b, budget) <==> PassesAgree(x, b, budget)
    decreases budget
  {
    if !Done(x) && budget != 0 {
      StepsAgreeIff(x, b);
      if PassAgrees(x, b) {
        AlikeOneMore(x, b, budget - 1);
        ModesAgreeIff(Step(x, b, Streaming), b, budget - 1);
      } else {
        StepsPart(x, b, budget);
      }
    }
  }

  /** `run` and `run_stream` do the same for every non-zero `max_steps` exactly when every pass
      that `run_stream` comes to agrees. */
  lemma RunsAgreeIff(w: State, b: Behaviour)
    requires Prepared(w, b).Some?
    ensures (forall maxSteps: int | maxSteps != 0 :: Run(w, b, Direct, maxSteps) == Run(w, b, Streaming, maxSteps)) <==>
            (forall budget: nat :: PassesAgree(Start(Prepared(w, b).value), b, budget))
  {
    var x := Start(Prepared(w, b).value);
    forall budget: nat
      ensures AlikeThroughout(x, b, budget) <==> PassesAgree(x, b, budget)
    {
      ModesAgreeIff(x, b, budget);
    }
    if forall budget: nat :: AlikeThroughout(x, b, budget) {
      forall maxSteps: int | maxSteps != 0 ensures Run(w, b, Direct, maxSteps) == Run(w, b, Streaming, maxSteps) {
        assert AlikeThroughout(x, b, Budget(maxSteps, Direct));
      }
    }
    if forall maxSteps: int | maxSteps != 0 :: Run(w, b, Direct, maxSteps) == Run(w, b, Streaming, maxSteps) {
      forall k: nat ensures Go(x, b, Direct, k) == Go(x, b, Streaming, k) {
        if k == 0 {
          GoNowhere(x, b, Direct);
          GoNowhere(x, b, Streaming);
        } else {
          assert Run(w, b, Direct, k) == Run(w, b, Streaming, k);
          RunIsGo(w, b, Direct, k);
          RunIsGo(w, b, Streaming, k);
        }
      }
      forall budget: nat ensures AlikeThroughout(x, b, budget) {
      }
    }
  }

  lemma RunIsGo(w: State, b: Behaviour, mode: Mode, k: nat)
    requires Prepared(w, b).Some? && k != 0
    ensures Run(w, b, mode, k) == Some(Go(Start(Prepared(w, b).value), b, mode, k))
  {
  }

  /** With `max_steps` 0, which is 20 in one loop and 0 in the other, they do the same only if
      there is nothing to run. */
  lemma ZeroStepsAgreeIff(w: State, b: Behaviour)
    ensures Run(w, b, Direct, 0) == Run(w, b, Streaming, 0) <==>
            (Prepared(w, b).Some? ==> Done(Start(Prepared(w, b).value)))
  {
    if Prepared(w, b).Some? {
      var x := Start(Prepared(w, b).value);
      GoNowhere(x, b, Streaming);
      if Done(x) {
        IterateDone(x, Body(b, Direct), Done, 20);
      } else {
        RunLength(x, b, Direct, 20);
      }
    }
  }

  ghost predicate SameBothWays(b: Behaviour) {
    forall n, s :: b.execute(n, s, Direct) == b.execute(n, s, Streaming) && b.update(n, s, Direct) == b.update(n, s, Streaming)
  }

  ghost predicate NeverSilent(b: Behaviour) {
    forall n, s, m :: !(b.execute(n, s, m).Raised? && b.execute(n, s, m).silent)
  }

  ghost predicate AlwaysReports(b: Behaviour) {
    forall n, s :: !b.setup(n, s).Mute?
  }

  /** A failed node has lost its child results, so unless some node raises an exception
      without a message the partial-failure branch is never taken. */
  lemma NoPartialFailure(x: Exec, n: Node, b: Behaviour, mode: Mode)
    requires NeverSilent(b)
    ensures !PartialFailure(RanIn(x, n, b, mode))
  {
  }

  lemma SamePassesAgree(x: Exec, b: Behaviour)
    requires NeverSilent(b) && SameBothWays(b) && AlwaysReports(b)
    ensures PassAgrees(x, b)
  {
    if Current(x.w).Some? {
      NoPartialFailure(x, Current(x.w).value, b, Direct);
    }
  }

  lemma AlwaysAgrees(x: Exec, b: Behaviour, budget: nat)
    requires NeverSilent(b) && SameBothWays(b) && AlwaysReports(b)
    ensures PassesAgree(x, b, budget)
  {
    forall y: Exec ensures PassAgrees(y, b) {
      SamePassesAgree(y, b);
    }
    LoopKeeps(x, Body(b, Streaming), Done, budget, y => PassAgrees(y, b), _ => true);
  }

  /** In particular nodes whose two executions are the same, which never raise an exception
      without a message and whose setups always report run alike both ways, whatever fails. */
  lemma RunAndStreamAgree(w: State, b: Behaviour, maxSteps: int)
    requires SameBothWays(b) && NeverSilent(b) && AlwaysReports(b) && maxSteps != 0
    ensures Run(w, b, Direct, maxSteps) == Run(w, b, Streaming, maxSteps)
  {
    if Prepared(w, b).Some? {
      forall budget: nat
        ensures PassesAgree(Start(Prepared(w, b).value), b, budget)
      {
        AlwaysAgrees(Start(Prepared(w, b).value), b, budget);
      }
      RunsAgreeIff(w, b);
    }
  }

  /** What a caller gets: an exception, with the run it ended if one was begun, or the end of a
      run and whether its workflow was saved. */
  datatype Outcome = Escaping(run: Option<Exec>) | Finalized(x: Exec, saved: bool)

  /** The run and `_finalize_workflow`, where `writes` says of which workflows a file can be
      written. An error while writing escapes from `run`; `run_stream` reports it. */
  function OutcomeOf(w: State, b: Behaviour, mode: Mode, maxSteps: int, writes: State -> bool): Outcome {
    match Run(w, b, mode, maxSteps)
    case None => Escaping(None)
    case Some(x) =>
      if x.escaped || (mode.Direct? && !writes(x.w)) then Escaping(Some(x)) else Finalized(x, writes(x.w))
  }

  lemma {:induction false} StreamsDoNotEscape(x: Exec, b: Behaviour, budget: nat)
    requires !x.escaped
    ensures !Go(x, b, Streaming, budget).escaped
    decreases budget
  {
    if !Done(x) && budget != 0 {
      StreamsDoNotEscape(Step(x, b, Streaming), b, budget - 1);
    }
  }

  /** A caller gets the same from both exactly when the runs are the same and the workflow they
      leave can be saved. */
  lemma OutcomesAgreeIff(w: State, b: Behaviour, maxSteps: int, writes: State -> bool)
    ensures OutcomeOf(w, b, Direct, maxSteps, writes) == OutcomeOf(w, b, Streaming, maxSteps, writes) <==>
            && Run(w, b, Direct, maxSteps) == Run(w, b, Streaming, maxSteps)
            && (Prepared(w, b).Some? ==> writes(Run(w, b, Direct, maxSteps).value.w))
  {
    if Prepared(w, b).Some? {
      StreamsDoNotEscape(Start(Prepared(w, b).value), b, Budget(maxSteps, Streaming));
    }
  }

  /** A node whose stream leaves no result fails and breaks `run_stream`, where `run` goes on
      with the result of `execute`. */
  lemma StreamWithoutResult(x: Exec, n: Node, r: NodeResult, b: Behaviour)
    requires Current(x.w) == Some(n) && r.success
    requires b.execute(n, Seen(x.w), Direct) == Returned(Some(r), x.w.context)
    requires b.execute(n, Seen(x.w), Streaming) == Returned(None, x.w.context)
    ensures !PassAgrees(x, b)
    ensures Step(x, b, Streaming).stopped && Step(x, b, Streaming).evaluated == x.evaluated
    ensures |Step(x, b, Direct).evaluated| == |x.evaluated| + 1
  {
  }

  /** Nodes that set their result in `execute` only, as the date parser does. */
  const STREAMLESS := Behaviour(
    (n: Node, s: Sight, m: Mode) =>
      Returned(if m.Direct? then Some(NodeResult(true, Data("dates"), false)) else None, s.context),
    (n: Node, s: Sight, m: Mode) => Update(false, s.context, s.reflectionRound, []),
    (n: Node, s: Sight) => Ready(n.input, n.held))

  lemma StreamlessPass(x: Exec, n: Node)
    requires Current(x.w) == Some(n) && n.id == x.w.order[x.w.index] && x.w.index == |x.w.order| - 1 && x.w.status != Completed
    ensures Step(x, STREAMLESS, Direct).w.status == Completed && !Step(x, STREAMLESS, Direct).stopped
    ensures Step(x, STREAMLESS, Streaming).stopped && Step(x, STREAMLESS, Streaming).w.status != Completed
  {
    var ran := RanIn(x, n, STREAMLESS, Direct);
    var w := Left(x, n, STREAMLESS, Direct);
    assert Updated(w, ran, STREAMLESS, Direct) == w;
    assert Upcoming(w).None?;
  }

  /** A plan with one such node: `run` completes the workflow, `run_stream` breaks on the node. */
  lemma DateParserBreaksTheStream(w: State, maxSteps: int)
    requires Consistent(w) && w.index == 0 && w.status == Pending && |w.order| == 2 && maxSteps > 0
    ensures var d, s := Run(w, STREAMLESS, Direct, maxSteps), Run(w, STREAMLESS, Streaming, maxSteps);
            && d.Some? && d.value.w.status == Completed && !d.value.stopped
            && s.Some? && s.value.w.status != Completed && s.value.stopped
  {
    PreparesIff(w, STREAMLESS);
    assert w.order[1] in w.order;
    var x := Start(Prepared(w, STREAMLESS).value);
    PreparedTracks(w, STREAMLESS);
    assert x.w.order[1] in x.w.order;
    StreamlessPass(x, Current(x.w).value);
    GoOn(x, STREAMLESS, Direct, maxSteps - 1);
    GoOn(x, STREAMLESS, Streaming, maxSteps - 1);
    IterateDone(Step(x, STREAMLESS, Direct), Body(STREAMLESS, Direct), Done, maxSteps - 1);
    IterateDone(Step(x, STREAMLESS, Streaming), Body(STREAMLESS, Streaming), Done, maxSteps - 1);
  }

  /** A pass whose node succeeds and edits nothing, with another node behind it. */
  lemma UneditedPass(x: Exec, n: Node, next: Node, b: Behaviour, mode: Mode)
    requires Consistent(x.w) && Current(x.w) == Some(n) && Upcoming(x.w) == Some(next)
    requires var ran := RanIn(x, n, b, mode);
             && !Breaks(ran, mode)
             && var u := b.update(ran, Seen(Left(x, n, b, mode)), mode); u.edits == [] && !u.raised
    ensures var ran := RanIn(x, n, b, mode);
            var u := b.update(ran, Seen(Left(x, n, b, mode)), mode);
            var w := Left(x, n, b, mode).(context := u.context, reflectionRound := u.reflectionRound);
            var s := b.setup(next, Seen(w));
            Step(x, b, mode) == Exec(Settled(Put(w, Equipped(next, s)), ReportOf(s), n.id), x.executed + [n.id],
                                     x.evaluated + [ran], !s.Ready?, s.Mute? && mode.Direct?)
  {
    var ran := RanIn(x, n, b, mode);
    assert x.w.order[x.w.index] != x.w.order[x.w.index + 1];
    assert n.id == x.w.order[x.w.index];
    assert Upcoming(Updated(Left(x, n, b, mode), ran, b, mode)) == Some(next);
  }

  const HITL := "hitl"

  /** Nodes that succeed both ways and prepare what they need, but for the human in the loop,
      whose setup returns nothing. */
  const ASKING := Behaviour(
    (n: Node, s: Sight, m: Mode) => Returned(Some(NodeResult(true, Data("done"), false)), s.context),
    (n: Node, s: Sight, m: Mode) => Update(false, s.context, s.reflectionRound, []),
    (n: Node, s: Sight) => if n.kind == HITL then Mute(n.input, n.held) else Ready(n.input, n.held))

  /** Such a pass with a setup that prepares and returns nothing. */
  lemma MutePass(x: Exec, n: Node, next: Node, b: Behaviour, mode: Mode)
    requires Consistent(x.w) && Current(x.w) == Some(n) && Upcoming(x.w) == Some(next)
    requires !Breaks(RanIn(x, n, b, mode), mode) && b.execute(n, Seen(x.w), mode).context == x.w.context
    requires var ran := RanIn(x, n, b, mode);
             && b.update(ran, Seen(Put(x.w, ran)), mode) == Update(false, x.w.context, x.w.reflectionRound, [])
             && b.setup(next, Seen(Put(x.w, ran))) == Mute(next.input, next.held)
    ensures var ran := RanIn(x, n, b, mode);
            Step(x, b, mode) == Exec(Put(x.w, ran), x.executed + [n.id], x.evaluated + [ran], true, mode.Direct?)
  {
    UneditedPass(x, n, next, b, mode);
    var w := Put(x.w, RanIn(x, n, b, mode));
    assert next.id == x.w.order[x.w.index + 1] != n.id == x.w.order[x.w.index];
    assert w.nodes[next.id := next] == w.nodes;
  }

  lemma AskingPass(x: Exec, n: Node, next: Node, mode: Mode)
    requires Consistent(x.w) && Current(x.w) == Some(n) && Upcoming(x.w) == Some(next) && next.kind == HITL
    ensures var ran := RanIn(x, n, ASKING, mode);
            && ran.status == NodeCompleted
            && Step(x, ASKING, mode) == Exec(Put(x.w, ran), x.executed + [n.id], x.evaluated + [ran], true, mode.Direct?)
  {
    MutePass(x, n, next, ASKING, mode);
  }

  /** A plan of one node and a human in the loop behind it: both executions leave the node alike
      and nothing fails, but `run` raises after the node and `run_stream` ends. */
  lemma HumanInTheLoopEscapes(w: State, maxSteps: int)
    requires Consistent(w) && w.index == 0 && w.status == Pending && |w.order| == 3 && maxSteps > 0
    requires w.order[2] in w.nodes && w.nodes[w.order[2]].kind == HITL
    ensures var d, s := Run(w, ASKING, Direct, maxSteps), Run(w, ASKING, Streaming, maxSteps);
            && d.Some? && d.value.escaped && d.value.executed == [w.order[1]]
            && s.Some? && s.value.stopped && s.value == d.value.(escaped := false)
            && Current(d.value.w).Some? && Current(d.value.w).value.status == NodeCompleted
    ensures forall writes :: OutcomeOf(w, ASKING, Direct, maxSteps, writes).Escaping?
                             && OutcomeOf(w, ASKING, Streaming, maxSteps, writes).Finalized?
  {
    PreparesIff(w, ASKING);
    assert w.order[1] in w.order && w.order[2] in w.order;
    var x := Start(Prepared(w, ASKING).value);
    PreparedTracks(w, ASKING);
    assert x.w.order[1] in x.w.order && x.w.order[2] in x.w.order;
    assert x.w.nodes[x.w.order[2]] == w.nodes[w.order[2]];
    var n := Current(x.w).value;
    var next := Upcoming(x.w).value;
    AskingPass(x, n, next, Direct);
    AskingPass(x, n, next, Streaming);
    GoOn(x, ASKING, Direct, maxSteps - 1);
    GoOn(x, ASKING, Streaming, maxSteps - 1);
    IterateDone(Step(x, ASKING, Direct), Body(ASKING, Direct), Done, maxSteps - 1);
    IterateDone(Step(x, ASKING, Streaming), Body(ASKING, Streaming), Done, maxSteps - 1);
  }

  /** A reflect node fails when its result does, and keeps that result. */
  lemma ReflectFailsWithItsResult(n: Node, r: NodeResult, x: Context)
    requires n.kind == REFLECT
    ensures var ran := Ran(n, Returned(Some(r), x));
            ran.result == Some(r) && (ran.status == NodeCompleted <==> r.success)
  {
  }
}
