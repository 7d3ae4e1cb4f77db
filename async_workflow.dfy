/** graph/async_workflow.py: the asynchronous workflow, which wraps the plan-execute loop between a
    memory_retrieve entry stage and a memory_save exit stage. */
module AsyncWorkflow {
  import opened PlanState
  import opened Graph
  import opened AsyncFunction

  /** The label the decision function of a conditional edge returns. */
  function Decide(path: PathFn, s: State): Label {
    match path
    case RouteByIntentFn => RouteLabel(AsyncRouteByIntent(s))
    case ShouldEndFn => BoolLabel(AsyncShouldEnd(s))
  }

  const Registered: set<Stage> := {Router, Planner, Executor, Reflect, DirectAnswer, MemoryRetrieve, MemorySave}
  const Edges: set<(Stage, Stage)> :=
    {(Start, MemoryRetrieve), (MemoryRetrieve, Router), (DirectAnswer, MemorySave), (MemorySave, End),
     (Planner, Executor), (Executor, Reflect)}
  const RouterPaths: map<Label, Stage> := map[RouteLabel(PlannerRoute) := Planner, RouteLabel(DirectAnswerRoute) := DirectAnswer]
  const ReflectPaths: map<Label, Stage> := map[BoolLabel(true) := MemorySave, BoolLabel(false) := Executor]
  const Branches: map<Stage, Branch> := map[Router := Branch(RouteByIntentFn, RouterPaths), Reflect := Branch(ShouldEndFn, ReflectPaths)]

  /** The module-level construction, call for call; memory_save -> END is added twice and the
      second call changes nothing. */
  method BuildAsyncWorkflow() returns (g: StateGraph)
    ensures fresh(g)
    ensures g.nodes == Registered && g.edges == Edges && g.branches == Branches
  {
    g := new StateGraph();
    g.AddNode(Router);
    g.AddNode(Planner);
    g.AddNode(Executor);
    g.AddNode(Reflect);
    g.AddNode(DirectAnswer);
    g.AddNode(MemoryRetrieve);
    g.AddNode(MemorySave);
    assert g.nodes == Registered;
    g.AddEdge(Start, MemoryRetrieve);
    g.AddEdge(MemoryRetrieve, Router);
    g.AddConditionalEdges(Router, RouteByIntentFn, RouterPaths);
    g.AddEdge(DirectAnswer, MemorySave);
    g.AddEdge(MemorySave, End);
    g.AddEdge(Planner, Executor);
    g.AddEdge(Executor, Reflect);
    EdgesInCallOrder();
    g.AddConditionalEdges(Reflect, ShouldEndFn, ReflectPaths);
    assert g.branches == Branches;
    g.AddEdge(MemorySave, End);
  }

  /** The static edges, in the order the module adds them. */
  lemma EdgesInCallOrder()
    ensures {} + {(Start, MemoryRetrieve)} + {(MemoryRetrieve, Router)} + {(DirectAnswer, MemorySave)}
            + {(MemorySave, End)} + {(Planner, Executor)} + {(Executor, Reflect)} == Edges
  {
  }

  /** The transition function the table denotes. The executor -> reflect edge is unconditional, so
      reflect runs after a failed search too. Stages outside this workflow lead to END. */
  function Next(stage: Stage, s: State): Stage {
    match stage
    case Start => MemoryRetrieve
    case MemoryRetrieve => Router
    case Router => if AsyncRouteByIntent(s) == PlannerRoute then Planner else DirectAnswer
    case DirectAnswer => MemorySave
    case Planner => Executor
    case Executor => Reflect
    case Reflect => if AsyncShouldEnd(s) then MemorySave else Executor
    case MemorySave => End
    case _ => End
  }

  function ChoiceAt(stage: Stage, s: State): Label {
    if stage in Branches then Decide(Branches[stage].path, s) else RouteLabel("")
  }

  /** START and every registered stage have exactly one successor in the built table, the one Next
      names; in particular the router's choice equals a stored route that is already valid. */
  lemma NextFollowsTable(stage: Stage, s: State)
    requires stage in Registered || stage == Start
    ensures Successors(Edges, Branches, stage, ChoiceAt(stage, s)) == {Next(stage, s)}
    ensures stage == Router && IsRoute(s.route) ==> StageName(Next(stage, s)) == s.route
  {
    match stage
    case Start => assert Targets(Edges, Start) == {MemoryRetrieve} by { assert (Start, MemoryRetrieve) in Edges; }
    case MemoryRetrieve => assert Targets(Edges, MemoryRetrieve) == {Router} by { assert (MemoryRetrieve, Router) in Edges; }
    case DirectAnswer => assert Targets(Edges, DirectAnswer) == {MemorySave} by { assert (DirectAnswer, MemorySave) in Edges; }
    case MemorySave => assert Targets(Edges, MemorySave) == {End} by { assert (MemorySave, End) in Edges; }
    case Planner => assert Targets(Edges, Planner) == {Executor} by { assert (Planner, Executor) in Edges; }
    case Executor => assert Targets(Edges, Executor) == {Reflect} by { assert (Executor, Reflect) in Edges; }
    case Router =>
    case Reflect =>
  }
}
