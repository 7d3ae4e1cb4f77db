/** main_graph.py: the first, synchronous revision of the workflow. Its own stage bodies differ from
    graph/nodes.py: the router falls back to planner, direct_answer and reflect do not record the
    exchange, and the executor keeps the raw search result. Its state has no messages, user_id or
    memories; the shared State record is used and those fields are never written here. */
module MainGraph {
  import opened Wrappers
  import opened Text
  import opened PlanState
  import Nodes
  import opened Graph

  /** router_node: the route is always a branch label and falls back to planner. */
  function RouterNode(s: State, reply: Nodes.RouterReply): (u: Update)
    ensures u == NoUpdate.(route := u.route) && u.route.Some?
    ensures IsRoute(Merge(s, u).route)
    ensures reply.Unparsable? ==> Merge(s, u) == s.(route := PlannerRoute)
  {
    NoUpdate.(route := Some(Nodes.ClassifyRoute(reply, PlannerRoute)))
  }

  /** direct_answer_node: only the response is set. */
  function DirectAnswerNode(s: State, answer: string): (u: Update)
    ensures Merge(s, u) == s.(response := answer)
  {
    NoUpdate.(response := Some(answer))
  }

  const PastContextHeader: string := "\n\n已知历史信息（不用重复查询）：\n"

  /** One line of the planner's history context: the step and the first 50 characters of its result. */
  function PastInfoLine(step: Step): string {
    "步骤：" + step.task + "，结果摘要：" + Prefix(step.result, 50) + "..."
  }

  /** "\n".join(lines). */
  function JoinLines(lines: seq<string>): string {
    if lines == [] then ""
    else if |lines| == 1 then lines[0]
    else lines[0] + "\n" + JoinLines(lines[1..])
  }

  function PastInfoLines(steps: seq<Step>): (r: seq<string>)
    ensures |r| == |steps|
    ensures forall i :: 0 <= i < |steps| ==> r[i] == PastInfoLine(steps[i])
  {
    if steps == [] then [] else [PastInfoLine(steps[0])] + PastInfoLines(steps[1..])
  }

  /** The context the planner adds to its prompt: nothing on a first plan, and the header followed by
      one line per earlier step when past_steps is not empty. */
  function PastStepsContext(steps: seq<Step>): (r: string)
    ensures r == "" <==> steps == []
    ensures steps != [] ==> PastContextHeader <= r
  {
    if steps == [] then "" else PastContextHeader + JoinLines(PastInfoLines(steps))
  }

  /** Each line of the context quotes at most 50 characters of its step's result, and exactly the
      first min(50, |result|) of them. */
  lemma PastInfoLineTruncates(step: Step)
    ensures var line := PastInfoLine(step);
            var head := "步骤：" + step.task + "，结果摘要：";
            |line| == |head| + (if |step.result| < 50 then |step.result| else 50) + 3
            && line[|head|..|line| - 3] <= step.result
  {
  }

  /** planner_node: the same state change as the planner of graph/nodes.py (a parse failure gives an
      empty plan); only the prompt differs. */
  function PlannerNode(s: State, reply: Option<Plan>): (u: Update)
    ensures reply.None? ==> Merge(s, u) == s.(plan := [])
    ensures reply.Some? ==> Merge(s, u) == s.(plan := reply.value.steps)
  {
    Nodes.PlannerNode(s, reply)
  }

  /** executor_node: on success the step records the serialised raw search result (there is no
      summarisation in this revision); on failure only the failure response is returned. */
  function ExecutorNode(s: State, search: Result<string, string>): (u: Update)
    ensures s.plan == [] ==> Merge(s, u) == s.(response := "")
    ensures s.plan != [] && search.Err? ==> Merge(s, u) == s.(response := Nodes.SearchFailurePrefix + search.error)
    ensures s.plan != [] && search.Ok? ==>
              Merge(s, u) == s.(pastSteps := s.pastSteps + [Step(s.plan[0], search.value)], plan := s.plan[1..])
  {
    if s.plan == [] then NoUpdate.(pastSteps := Some([]), response := Some(""))
    else if search.Err? then NoUpdate.(response := Some(Nodes.SearchFailurePrefix + search.error))
    else NoUpdate.(pastSteps := Some([Step(s.plan[0], search.value)]), plan := Some(s.plan[1..]))
  }

  /** reflect_node: "done" sets the response and empties the plan; "continue" only replaces the plan. */
  function ReflectNode(s: State, reply: Option<Response>): (u: Update)
    ensures var d := Nodes.ReflectDecision(reply);
            !IsBlank(d.response) ==> Merge(s, u) == s.(response := d.response, plan := [])
    ensures var d := Nodes.ReflectDecision(reply);
            IsBlank(d.response) ==> Merge(s, u) == s.(plan := d.nextPlan)
  {
    var d := Nodes.ReflectDecision(reply);
    if Nodes.Answers(d) then NoUpdate.(response := Some(d.response), plan := Some([]))
    else NoUpdate.(plan := Some(d.nextPlan))
  }

  /** route_by_intent: the stored route when it is a branch label, planner otherwise. */
  function RouteByIntent(s: State): (r: string)
    ensures IsRoute(r)
    ensures IsRoute(s.route) ==> r == s.route
    ensures !IsRoute(s.route) ==> r == PlannerRoute
  {
    if IsRoute(s.route) then s.route else PlannerRoute
  }

  /** should_end: true exactly when the response is a non-empty string. */
  function ShouldEnd(s: State): (b: bool)
    ensures b <==> |s.response| > 0
  {
    s.response != ""
  }

  /** The label the decision function of a conditional edge returns. */
  function Decide(path: PathFn, s: State): Label {
    match path
    case RouteByIntentFn => RouteLabel(RouteByIntent(s))
    case ShouldEndFn => BoolLabel(ShouldEnd(s))
  }

  const Registered: set<Stage> := {Router, Planner, Executor, Reflect, DirectAnswer}
  const Edges: set<(Stage, Stage)> := {(Start, Router), (DirectAnswer, End), (Planner, Executor), (Executor, Reflect)}
  const RouterPaths: map<Label, Stage> := map[RouteLabel(PlannerRoute) := Planner, RouteLabel(DirectAnswerRoute) := DirectAnswer]
  const ReflectPaths: map<Label, Stage> := map[BoolLabel(true) := End, BoolLabel(false) := Executor]
  const Branches: map<Stage, Branch> := map[Router := Branch(RouteByIntentFn, RouterPaths), Reflect := Branch(ShouldEndFn, ReflectPaths)]

  /** The module-level construction of the workflow. */
  method BuildWorkflow() returns (g: StateGraph)
    ensures fresh(g)
    ensures g.nodes == Registered && g.edges == Edges && g.branches == Branches
  {
    g := new StateGraph();
    g.AddNode(Router);
    g.AddNode(Planner);
    g.AddNode(Executor);
    g.AddNode(Reflect);
    g.AddNode(DirectAnswer);
    assert g.nodes == Registered;
    g.AddEdge(Start, Router);
    g.AddConditionalEdges(Router, RouteByIntentFn, RouterPaths);
    g.AddEdge(DirectAnswer, End);
    g.AddEdge(Planner, Executor);
    g.AddEdge(Executor, Reflect);
    assert g.edges == Edges;
    g.AddConditionalEdges(Reflect, ShouldEndFn, ReflectPaths);
    assert g.branches == Branches;
  }

  /** The transition function the table denotes: START->router; router->planner|direct_answer;
      direct_answer->END; planner->executor->reflect; reflect->END|executor. Stages that are not
      part of this workflow lead to END. */
  function Next(stage: Stage, s: State): Stage {
    match stage
    case Start => Router
    case Router => if RouteByIntent(s) == PlannerRoute then Planner else DirectAnswer
    case DirectAnswer => End
    case Planner => Executor
    case Executor => Reflect
    case Reflect => if ShouldEnd(s) then End else Executor
    case _ => End
  }

  /** The label a stage's decision function returns (a placeholder for stages without one). */
  function ChoiceAt(stage: Stage, s: State): Label {
    if stage in Branches then Decide(Branches[stage].path, s) else RouteLabel("")
  }

  /** The table built by BuildWorkflow has exactly one successor for START and every registered
      stage, whatever the state, and it is the one Next names: both conditional edges are total. */
  lemma NextFollowsTable(stage: Stage, s: State)
    requires stage in Registered || stage == Start
    ensures Successors(Edges, Branches, stage, ChoiceAt(stage, s)) == {Next(stage, s)}
  {
    match stage
    case Start => assert Targets(Edges, Start) == {Router} by { assert (Start, Router) in Edges; }
    case DirectAnswer => assert Targets(Edges, DirectAnswer) == {End} by { assert (DirectAnswer, End) in Edges; }
    case Planner => assert Targets(Edges, Planner) == {Executor} by { assert (Planner, Executor) in Edges; }
    case Executor => assert Targets(Edges, Executor) == {Reflect} by { assert (Executor, Reflect) in Edges; }
    case Router =>
    case Reflect =>
  }
}
