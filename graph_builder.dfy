/** The graph builder the workflow modules drive (LangGraph's StateGraph): stages are registered with
    add_node, unconditional edges with add_edge and decision points with add_conditional_edges.
    The successor of a stage is then read off the recorded table. */
module Graph {

  /** The stage identities of both workflows, with the two virtual endpoints START and END. */
  datatype Stage = Start | MemoryRetrieve | Router | Planner | Executor | Reflect | DirectAnswer | MemorySave | End

  /** The name each stage is registered (and streamed) under. */
  function StageName(st: Stage): string {
    match st
    case Start => "__start__"
    case MemoryRetrieve => "memory_retrieve"
    case Router => "router"
    case Planner => "planner"
    case Executor => "executor"
    case Reflect => "reflect"
    case DirectAnswer => "direct_answer"
    case MemorySave => "memory_save"
    case End => "__end__"
  }

  /** Distinct stages are registered under distinct names. */
  lemma StageNameInjective(a: Stage, b: Stage)
    ensures StageName(a) == StageName(b) ==> a == b
  {
  }

  /** The decision function attached to a conditional edge. */
  datatype PathFn = RouteByIntentFn | ShouldEndFn

  /** A key of a conditional edge's path map: route_by_intent returns a string, should_end a bool. */
  datatype Label = RouteLabel(route: string) | BoolLabel(b: bool)

  datatype Branch = Branch(path: PathFn, pathMap: map<Label, Stage>)

  class StateGraph {
    var nodes: set<Stage>
    var edges: set<(Stage, Stage)>
    var branches: map<Stage, Branch>

    constructor ()
      ensures nodes == {} && edges == {} && branches == map[]
    {
      nodes, edges, branches := {}, {}, map[];
    }

    method AddNode(n: Stage)
      modifies this
      ensures nodes == old(nodes) + {n}
      ensures edges == old(edges) && branches == old(branches)
    {
      nodes := nodes + {n};
    }

    /** Edges form a set: adding an edge that is already present changes nothing. */
    method AddEdge(from: Stage, to: Stage)
      modifies this
      ensures edges == old(edges) + {(from, to)}
      ensures nodes == old(nodes) && branches == old(branches)
      ensures (from, to) in old(edges) ==> edges == old(edges)
    {
      edges := edges + {(from, to)};
    }

    method AddConditionalEdges(source: Stage, path: PathFn, pathMap: map<Label, Stage>)
      modifies this
      ensures branches == old(branches)[source := Branch(path, pathMap)]
      ensures nodes == old(nodes) && edges == old(edges)
    {
      branches := branches[source := Branch(path, pathMap)];
    }
  }

  /** The targets of the unconditional edges out of a stage. */
  function Targets(edges: set<(Stage, Stage)>, from: Stage): set<Stage> {
    set e | e in edges && e.0 == from :: e.1
  }

  /** Where control may go after `stage`, given the label (choice) its decision function returned (ignored
      when the stage has no conditional edge). */
  function Successors(edges: set<(Stage, Stage)>, branches: map<Stage, Branch>, stage: Stage, choice: Label): set<Stage> {
    if stage in branches then
      (if choice in branches[stage].pathMap then {branches[stage].pathMap[choice]} else {})
    else Targets(edges, stage)
  }
}
