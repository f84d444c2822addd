/** Workflows and the edits of their node list (`datus/agent/workflow.py`). */
module Workflows {
  import opened Wrappers
  import opened Sequences

  datatype NodeId = NodeId(name: string)

  /** Serialised text of an input, a result or a part of the shared context; never looked into. */
  datatype Data = Data(text: string)

  datatype NodeStatus = NodePending | NodeRunning | NodeCompleted | NodeFailed

  datatype WorkflowStatus = Pending | Running | Completed | Failed | Paused

  /** The typed input object a node works with, or the plain mapping read back for it. */
  datatype Input = NoInput | Typed(data: Data) | Plain(data: Data)

  /** A value kept where no type is declared: a typed object, or a mapping with nothing typed in it. */
  datatype Loose = Object(data: Data) | Mapping(data: Data)

  /** What the nodes of a workflow share: the fields with a declared type, the SQL task and the
      metadata among them, and the entries without one: the results of parallel children by
      their ids, the selected result and its metadata. */
  datatype Context = Context(fields: Data, loose: map<string, Loose>)

  /** The node types that read the link to their workflow while they run. */
  const PARALLEL := "parallel"
  const SUBWORKFLOW := "subworkflow"

  /** `childSucceeded` is whether some entry of `child_results`, if there is one, succeeded. */
  datatype NodeResult = NodeResult(success: bool, data: Data, childSucceeded: bool)

  /** `held` is what a node of its type keeps and reads beside the fields that are saved, if it is
      not as in a newly built node: the schemas put aside for a `schema_linking` node, the link to
      the workflow of a parallel or subworkflow node, the tools or the configured name of others.
      `made` is the type whose class the node is an object of, whatever type it is given later. */
  datatype Node = Node(
    id: NodeId,
    kind: string,
    made: string,
    input: Input,
    held: Option<Data>,
    status: NodeStatus,
    result: Option<NodeResult>,
    dependencies: seq<NodeId>)

  datatype State = State(
    nodes: map<NodeId, Node>,
    order: seq<NodeId>,
    index: nat,
    status: WorkflowStatus,
    context: Context,
    reflectionRound: nat)

  // ---------------------------------------------------------------- the operations

  const LINK: Data := Data("workflow")

  /** The node as `add_node` leaves it, knowing its workflow. */
  function Linked(node: Node): Node {
    if node.kind == PARALLEL || node.kind == SUBWORKFLOW then node.(held := Some(LINK)) else node
  }

  function AddNode(w: State, node: Node, position: Option<int>): State {
    w.(nodes := w.nodes[node.id := Linked(node)],
       order := if position.Some? && 0 <= position.value <= |w.order|
                then InsertAt(w.order, position.value, node.id)
                else w.order + [node.id])
  }

  function WithoutDependency(node: Node, id: NodeId): Node {
    node.(dependencies := RemoveFirst(node.dependencies, id))
  }

  function RemoveNode(w: State, id: NodeId): State {
    if id !in w.nodes then w
    else w.(nodes := map k | k in w.nodes && k != id :: WithoutDependency(w.nodes[k], id),
            order := RemoveFirst(w.order, id))
  }

  predicate CanMove(w: State, id: NodeId, position: int) {
    id in w.order && 0 <= position < |w.order|
  }

  function MoveNode(w: State, id: NodeId, position: int): State {
    if !CanMove(w, id, position) then w
    else
      assert |RemoveFirst(w.order, id)| == |w.order| - 1;
      w.(order := InsertAt(RemoveFirst(w.order, id), position, id))
  }

  /** The fields a modification names. A new type leaves the class as it is. */
  datatype Changes = Changes(kind: Option<string>, input: Option<Input>, dependencies: Option<seq<NodeId>>)

  function Modified(node: Node, c: Changes): Node {
    node.(kind := if c.kind.Some? then c.kind.value else node.kind,
          input := if c.input.Some? then c.input.value else node.input,
          dependencies := if c.dependencies.Some? then c.dependencies.value else node.dependencies)
  }

  function ModifyNode(w: State, id: NodeId, c: Changes): State {
    if id in w.nodes then w.(nodes := w.nodes[id := Modified(w.nodes[id], c)]) else w
  }

  function Current(w: State): Option<Node> {
    if w.index < |w.order| && w.order[w.index] in w.nodes then Some(w.nodes[w.order[w.index]]) else None
  }

  function Upcoming(w: State): Option<Node> {
    if w.index + 1 < |w.order| && w.order[w.index + 1] in w.nodes then Some(w.nodes[w.order[w.index + 1]]) else None
  }

  function Advance(w: State): State {
    if w.index + 1 >= |w.order| then w.(status := Completed) else w.(index := w.index + 1)
  }

  predicate IsComplete(w: State) {
    w.status == Completed || w.index >= |w.order|
  }

  /** The node list and the node map name the same nodes, each once. */
  ghost predicate Consistent(w: State) {
    && Distinct(w.order)
    && (forall id :: id in w.order <==> id in w.nodes)
    && (forall id <- w.nodes :: w.nodes[id].id == id)
  }

  // ---------------------------------------------------------------- what the edits keep

  /** Adding keeps the workflow consistent exactly when the id is new. */
  lemma AddIsConsistentIffFresh(w: State, node: Node, position: Option<int>)
    requires Consistent(w)
    ensures Consistent(AddNode(w, node, position)) <==> node.id !in w.nodes
  {
    var at := if position.Some? && 0 <= position.value <= |w.order| then position.value else |w.order|;
    assert w.order + [node.id] == InsertAt(w.order, |w.order|, node.id);
    assert AddNode(w, node, position).order == InsertAt(w.order, at, node.id);
    InsertDistinct(w.order, at, node.id);
    forall id ensures id in AddNode(w, node, position).order <==> id in AddNode(w, node, position).nodes {
      InsertMember(w.order, at, node.id, id);
    }
  }

  lemma RemoveIsConsistent(w: State, id: NodeId)
    requires Consistent(w)
    ensures var n := RemoveNode(w, id);
            Consistent(n) && n.nodes.Keys == w.nodes.Keys - {id} && multiset(n.order) == multiset(w.order) - multiset{id}
  {
    RemoveFirstMultiset(w.order, id);
    RemovedMembers(w.order, id);
    assert id !in w.nodes ==> id !in w.order && RemoveFirst(w.order, id) == w.order;
  }

  lemma RemovedMembers(order: seq<NodeId>, id: NodeId)
    requires Distinct(order)
    ensures Distinct(RemoveFirst(order, id)) && forall k :: k in RemoveFirst(order, id) <==> k in order && k != id
  {
    RemoveFirstDistinct(order, id);
    forall k | k != id ensures k in RemoveFirst(order, id) <==> k in order {
      RemoveFirstMember(order, id, k);
    }
  }

  /** After a removal nobody depends on the removed node exactly when no list named it twice;
      all other dependencies survive. */
  lemma RemoveClearsDependencies(w: State, id: NodeId)
    requires id in w.nodes
    ensures var n := RemoveNode(w, id);
            && (forall k <- n.nodes :: multiset(n.nodes[k].dependencies) == multiset(w.nodes[k].dependencies) - multiset{id})
            && ((forall k <- n.nodes :: id !in n.nodes[k].dependencies) <==>
                (forall k <- w.nodes | k != id :: multiset(w.nodes[k].dependencies)[id] <= 1))
  {
    var n := RemoveNode(w, id);
    forall k | k in n.nodes
      ensures multiset(n.nodes[k].dependencies) == multiset(w.nodes[k].dependencies) - multiset{id}
      ensures id in n.nodes[k].dependencies <==> multiset(w.nodes[k].dependencies)[id] > 1
    {
      RemoveFirstMultiset(w.nodes[k].dependencies, id);
      assert id in n.nodes[k].dependencies <==> multiset(n.nodes[k].dependencies)[id] > 0;
    }
  }

  /** A move that is accepted puts the node where it was asked, permutes the list and keeps
      the relative order of the others. */
  lemma MovePermutes(w: State, id: NodeId, position: int)
    requires Consistent(w) && CanMove(w, id, position)
    ensures var n := MoveNode(w, id, position);
            && Consistent(n) && n.nodes == w.nodes
            && multiset(n.order) == multiset(w.order)
            && n.order[position] == id
            && RemoveFirst(n.order, id) == RemoveFirst(w.order, id)
  {
    MoveWithin(w.order, position, id);
    var moved := InsertAt(RemoveFirst(w.order, id), position, id);
    forall k ensures k in moved <==> k in w.order {
      SameMembers(moved, w.order, k);
    }
  }

  /** An added node comes to stand where it was asked, or last if the list has no such place. */
  lemma AddPlaces(w: State, node: Node, position: Option<int>)
    ensures var n := Apply(w, Add(node, position));
            var at := if position.Some? && 0 <= position.value <= |w.order| then position.value else |w.order|;
            && |n.order| == |w.order| + 1 && n.order[at] == node.id
            && (forall i | 0 <= i < at :: n.order[i] == w.order[i])
            && (forall i | at <= i < |w.order| :: n.order[i + 1] == w.order[i])
            && n == w.(order := n.order, nodes := w.nodes[node.id := n.nodes[node.id]])
            && (node.kind == "parallel" || node.kind == "subworkflow" ==>
                  n.nodes[node.id] == node.(held := Some(Data("workflow"))))
            && (node.kind != "parallel" && node.kind != "subworkflow" ==> n.nodes[node.id] == node)
  {
  }

  /** A removed node leaves its place to those behind it. */
  lemma RemoveCloses(w: State, id: NodeId, p: nat)
    requires Consistent(w) && p < |w.order| && w.order[p] == id
    ensures var n := Apply(w, Remove(id));
            && |n.order| == |w.order| - 1
            && (forall i | 0 <= i < p :: n.order[i] == w.order[i])
            && (forall i | p <= i < |n.order| :: n.order[i] == w.order[i + 1])
            && n == w.(order := n.order, nodes := n.nodes) && n.nodes.Keys == w.nodes.Keys - {id}
            && (forall k <- n.nodes :: n.nodes[k] == w.nodes[k].(dependencies := n.nodes[k].dependencies))
    ensures forall other | other !in w.nodes :: Apply(w, Remove(other)) == w
  {
    assert id in w.order;
    var i := IndexOf(w.order, id);
    assert i == p;
  }

  /** A move that asks for a node of the list and a place in it changes the list only; any other
      changes nothing. */
  lemma MoveChangesTheList(w: State, id: NodeId, position: int)
    requires Consistent(w)
    ensures var n := Apply(w, Move(id, position));
            && n == w.(order := n.order)
            && (id !in w.order || position < 0 || position >= |w.order| ==> n == w)
            && (id in w.order && 0 <= position < |w.order| ==> |n.order| == |w.order| && n.order[position] == id)
  {
    if CanMove(w, id, position) {
      MovePermutes(w, id, position);
      MoveWithin(w.order, position, id);
    }
  }

  /** A modification replaces what it names and leaves everything else as it is. */
  lemma ModifyReplaces(w: State, id: NodeId, c: Changes)
    ensures var n := Apply(w, Modify(id, c));
            && (id !in w.nodes ==> n == w)
            && (id in w.nodes ==>
                  && id in n.nodes && n == w.(nodes := w.nodes[id := n.nodes[id]])
                  && var old', new' := w.nodes[id], n.nodes[id];
                     && new' == old'.(kind := new'.kind, input := new'.input, dependencies := new'.dependencies)
                     && new'.kind == (match c.kind case Some(kind) => kind case None => old'.kind)
                     && new'.input == (match c.input case Some(input) => input case None => old'.input)
                     && new'.dependencies == (match c.dependencies case Some(ids) => ids case None => old'.dependencies))
  {
  }

  /** Advancing goes on by one place, or completes the workflow on the last. */
  lemma AdvanceGoesOn(w: State)
    ensures w.index + 1 < |w.order| ==> Advance(w) == w.(index := w.index + 1)
    ensures w.index + 1 >= |w.order| ==> Advance(w) == w.(status := Completed)
  {
  }

  // ---------------------------------------------------------------- edits while running

  datatype Edit =
    | Add(node: Node, position: Option<int>)
    | Remove(id: NodeId)
    | Move(id: NodeId, target: int)
    | Modify(id: NodeId, changes: Changes)

  function Apply(w: State, e: Edit): State {
    match e
    case Add(node, position) => AddNode(w, node, position)
    case Remove(id) => RemoveNode(w, id)
    case Move(id, position) => MoveNode(w, id, position)
    case Modify(id, changes) => ModifyNode(w, id, changes)
  }

  function ApplyAll(w: State, edits: seq<Edit>): State
    decreases |edits|
  {
    if edits == [] then w else ApplyAll(Apply(w, edits[0]), edits[1..])
  }

  /** The edit adds a new node, or touches a node, behind the current position only. */
  predicate Behind(w: State, e: Edit)
    requires w.index < |w.order|
  {
    match e
    case Add(node, position) => node.id !in w.nodes && (position.Some? ==> !(0 <= position.value <= w.index))
    case Remove(id) => id !in w.order[..w.index + 1]
    case Move(id, position) => CanMove(w, id, position) ==> id !in w.order[..w.index + 1] && position > w.index
    case Modify(id, _) => id !in w.order[..w.index + 1]
  }

  predicate AllBehind(w: State, edits: seq<Edit>)
    decreases |edits|
  {
    w.index < |w.order| && (edits == [] || (Behind(w, edits[0]) && AllBehind(Apply(w, edits[0]), edits[1..])))
  }

  /** What such an edit leaves alone. */
  ghost predicate SamePast(w: State, n: State) {
    && n.index == w.index < |w.order| && w.index < |n.order|
    && n.order[..w.index + 1] == w.order[..w.index + 1]
    && n.status == w.status && n.context == w.context && n.reflectionRound == w.reflectionRound
  }

  lemma AddKeepsPast(w: State, node: Node, position: Option<int>)
    requires Consistent(w) && w.index < |w.order| && Behind(w, Add(node, position))
    ensures Consistent(AddNode(w, node, position)) && SamePast(w, AddNode(w, node, position))
  {
    AddIsConsistentIffFresh(w, node, position);
    if position.Some? && 0 <= position.value <= |w.order| {
      PrefixKept(w.order, w.index + 1, node.id, position.value);
    }
  }

  lemma RemoveKeepsPast(w: State, id: NodeId)
    requires Distinct(w.order) && (id in w.nodes ==> id in w.order)
    requires w.index < |w.order| && Behind(w, Remove(id))
    ensures SamePast(w, RemoveNode(w, id))
  {
    if id in w.nodes {
      RemovedPrefix(w.order, w.index + 1, id);
    }
  }

  lemma RemovedPrefix(order: seq<NodeId>, keep: nat, id: NodeId)
    requires Distinct(order) && keep <= |order| && id in order && id !in order[..keep]
    ensures keep <= |RemoveFirst(order, id)| && RemoveFirst(order, id)[..keep] == order[..keep]
  {
    PrefixKept(order, keep, id, 0);
  }

  lemma MovedPrefix(order: seq<NodeId>, keep: nat, id: NodeId, position: nat)
    requires Distinct(order) && keep <= position < |order| && id in order && id !in order[..keep]
    ensures |RemoveFirst(order, id)| == |order| - 1
    ensures InsertAt(RemoveFirst(order, id), position, id)[..keep] == order[..keep]
  {
    RemoveFirstDistinct(order, id);
    PrefixKept(order, keep, id, 0);
    PrefixKept(RemoveFirst(order, id), keep, id, position);
  }

  lemma MoveKeepsPast(w: State, id: NodeId, position: int)
    requires Consistent(w) && w.index < |w.order| && Behind(w, Move(id, position))
    ensures Consistent(MoveNode(w, id, position)) && SamePast(w, MoveNode(w, id, position))
  {
    if CanMove(w, id, position) {
      MovePermutes(w, id, position);
      MovedPrefix(w.order, w.index + 1, id, position);
    }
  }

  lemma EditKeepsPast(w: State, e: Edit)
    requires Consistent(w) && w.index < |w.order| && Behind(w, e)
    ensures Consistent(Apply(w, e)) && SamePast(w, Apply(w, e))
  {
    match e
    case Add(node, position) => AddKeepsPast(w, node, position);
    case Remove(id) =>
      RemoveIsConsistent(w, id);
      RemoveKeepsPast(w, id);
    case Move(id, target) => MoveKeepsPast(w, id, target);
    case Modify(id, changes) =>
  }

  lemma {:induction false} EditsKeepPast(w: State, edits: seq<Edit>)
    requires Consistent(w) && AllBehind(w, edits)
    ensures Consistent(ApplyAll(w, edits)) && SamePast(w, ApplyAll(w, edits))
    decreases |edits|
  {
    if edits != [] {
      EditKeepsPast(w, edits[0]);
      EditsKeepPast(Apply(w, edits[0]), edits[1..]);
    }
  }

  /** Adds bring new ids; removes, moves and modifications are unrestricted. */
  predicate AllFresh(w: State, edits: seq<Edit>)
    decreases |edits|
  {
    edits == [] || ((edits[0].Add? ==> edits[0].node.id !in w.nodes) && AllFresh(Apply(w, edits[0]), edits[1..]))
  }

  /** Any sequence of fresh adds, of removes, moves and modifications, wherever they point, keeps
      the node list duplicate-free and equal to the keys of the node map. */
  lemma {:induction false} FreshEditsStayConsistent(w: State, edits: seq<Edit>)
    requires Consistent(w) && AllFresh(w, edits)
    ensures Consistent(ApplyAll(w, edits))
    decreases |edits|
  {
    if edits != [] {
      match edits[0] {
        case Add(node, position) => AddIsConsistentIffFresh(w, node, position);
        case Remove(id) => RemoveIsConsistent(w, id);
        case Move(id, target) =>
          if CanMove(w, id, target) {
            MovePermutes(w, id, target);
          }
        case Modify(id, changes) =>
      }
      FreshEditsStayConsistent(Apply(w, edits[0]), edits[1..]);
    }
  }

  // ---------------------------------------------------------------- the object

  class Workflow {
    var nodes: map<NodeId, Node>
    var order: seq<NodeId>
    var index: nat
    var status: WorkflowStatus
    var context: Context
    var reflectionRound: nat

    function View(): State
      reads this
    {
      State(nodes, order, index, status, context, reflectionRound)
    }

    constructor (w: State)
      ensures View() == w
    {
      nodes, order, index, status := w.nodes, w.order, w.index, w.status;
      context, reflectionRound := w.context, w.reflectionRound;
    }

    method AddNode(node: Node, position: Option<int>)
      modifies this
      ensures View() == Apply(old(View()), Add(node, position))
    {
      var linked := if node.kind == PARALLEL || node.kind == SUBWORKFLOW then node.(held := Some(LINK)) else node;
      nodes := nodes[node.id := linked];
      if position.Some? && 0 <= position.value <= |order| {
        order := InsertAt(order, position.value, node.id);
      } else {
        order := order + [node.id];
      }
    }

    method RemoveNode(id: NodeId) returns (removed: bool)
      modifies this
      ensures View() == Apply(old(View()), Remove(id))
      ensures removed <==> id in old(nodes)
    {
      if id !in nodes {
        return false;
      }
      nodes := nodes - {id};
      order := RemoveFirst(order, id);
      ghost var before := nodes;
      var todo := nodes.Keys;
      while todo != {}
        modifies `nodes
        invariant todo <= nodes.Keys == before.Keys
        invariant forall k <- before :: nodes[k] == if k in todo then before[k] else WithoutDependency(before[k], id)
      {
        var k :| k in todo;
        if id in nodes[k].dependencies {
          nodes := nodes[k := nodes[k].(dependencies := RemoveFirst(nodes[k].dependencies, id))];
        }
        todo := todo - {k};
      }
      assert nodes == Apply(old(View()), Remove(id)).nodes;
      removed := true;
    }

    method MoveNode(id: NodeId, position: int) returns (moved: bool)
      modifies this
      ensures View() == Apply(old(View()), Move(id, position))
      ensures moved <==> CanMove(old(View()), id, position)
    {
      if id in order && 0 <= position < |order| {
        ghost var before := order;
        RemoveFirstMultiset(order, id);
        order := RemoveFirst(order, id);
        assert |order| == |before| - 1;
        order := InsertAt(order, position, id);
        return true;
      }
      moved := false;
    }

    method ModifyNode(id: NodeId, changes: Changes)
      modifies this
      ensures View() == Apply(old(View()), Modify(id, changes))
    {
      if id !in nodes {
        return;
      }
      var node := nodes[id];
      if changes.kind.Some? {
        node := node.(kind := changes.kind.value);
      }
      if changes.input.Some? {
        node := node.(input := changes.input.value);
      }
      if changes.dependencies.Some? {
        node := node.(dependencies := changes.dependencies.value);
      }
      nodes := nodes[id := node];
    }

    method ApplyEdits(edits: seq<Edit>)
      modifies this
      ensures View() == ApplyAll(old(View()), edits)
    {
      for i := 0 to |edits|
        invariant ApplyAll(old(View()), edits) == ApplyAll(View(), edits[i..])
      {
        assert edits[i..][1..] == edits[i + 1..];
        match edits[i] {
          case Add(node, position) => AddNode(node, position);
          case Remove(id) => var _ := RemoveNode(id);
          case Move(id, target) => var _ := MoveNode(id, target);
          case Modify(id, changes) => ModifyNode(id, changes);
        }
      }
    }

    method AdvanceToNextNode() returns (next: Option<Node>)
      modifies this
      ensures View() == Advance(old(View()))
      ensures next == if Advance(old(View())).status.Completed? && old(index) + 1 >= |old(order)|
                      then None else Current(View())
    {
      if index + 1 >= |order| {
        status := Completed;
        return None;
      }
      index := index + 1;
      next := if order[index] in nodes then Some(nodes[order[index]]) else None;
    }
  }
}
