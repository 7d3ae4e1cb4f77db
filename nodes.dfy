/** The stage bodies of graph/nodes.py. Each stage reads the state and returns a partial update; the
    language-model and search calls it makes are replaced by their outcomes, passed in as values. */
module Nodes {
  import opened Wrappers
  import opened Text
  import opened PlanState

  /** What the router gets back from the model: a reply that could not be parsed into a dictionary,
      or a dictionary whose "route" key is present (Some, already turned into a string) or absent. */
  datatype RouterReply = Unparsable | Parsed(route: Option<string>)

  /** The literal prefix of the message the executor returns when the search raises. */
  const SearchFailurePrefix: string := "搜索失败："

  /** The router's decision: the stripped "route" value when it is one of the two branch labels,
      and the configured fallback for a parse failure or any other value. */
  function ClassifyRoute(reply: RouterReply, fallback: string): (r: string)
    requires IsRoute(fallback)
    ensures IsRoute(r)
    ensures reply.Parsed? && IsRoute(Strip(reply.route.GetOr(""))) ==> r == Strip(reply.route.GetOr(""))
    ensures reply.Unparsable? || !IsRoute(Strip(reply.route.GetOr(""))) ==> r == fallback
  {
    var route := if reply.Unparsable? then "" else Strip(reply.route.GetOr(""));
    if IsRoute(route) then route else fallback
  }

  /** router_node: sets only `route`, which is always a branch label; the fallback is direct_answer. */
  function RouterNode(s: State, reply: RouterReply): (u: Update)
    ensures u == NoUpdate.(route := u.route) && u.route.Some?
    ensures IsRoute(Merge(s, u).route)
    ensures reply.Unparsable? ==> Merge(s, u) == s.(route := DirectAnswerRoute)
  {
    NoUpdate.(route := Some(ClassifyRoute(reply, DirectAnswerRoute)))
  }

  /** direct_answer_node: the model's answer becomes the response and the exchange is appended to
      the dialogue history; no tool runs and the plan is left alone. */
  function DirectAnswerNode(s: State, answer: string): (u: Update)
    ensures Merge(s, u) == s.(response := answer,
                              messages := s.messages + [Message("user", s.question), Message("assistant", answer)])
  {
    NoUpdate.(response := Some(answer),
              messages := Some([Message("user", s.question), Message("assistant", answer)]))
  }

  /** planner_node: the parsed steps become the plan; a parse or validation failure yields an empty
      plan instead of an error. Nothing else changes. */
  function PlannerNode(s: State, reply: Option<Plan>): (u: Update)
    ensures reply.None? ==> Merge(s, u) == s.(plan := [])
    ensures reply.Some? ==> Merge(s, u) == s.(plan := reply.value.steps)
  {
    NoUpdate.(plan := Some(if reply.Some? then reply.value.steps else []))
  }

  /** executor_node: pops the head of the plan. With an empty plan it returns an empty step list and
      an empty response; when the search raises it returns only the failure response; otherwise it
      appends (head task, summary) and drops the head. */
  function ExecutorNode(s: State, search: Result<string, string>, summary: string): (u: Update)
    ensures s.plan == [] ==> Merge(s, u) == s.(response := "")
    ensures s.plan != [] && search.Err? ==> Merge(s, u) == s.(response := SearchFailurePrefix + search.error)
    ensures s.plan != [] && search.Ok? ==>
              Merge(s, u) == s.(pastSteps := s.pastSteps + [Step(s.plan[0], summary)], plan := s.plan[1..])
  {
    if s.plan == [] then NoUpdate.(pastSteps := Some([]), response := Some(""))
    else if search.Err? then NoUpdate.(response := Some(SearchFailurePrefix + search.error))
    else NoUpdate.(pastSteps := Some([Step(s.plan[0], summary)]), plan := Some(s.plan[1..]))
  }

  /** The reply reflect acts on: the parsed Response, or Response("", []) when parsing failed. */
  function ReflectDecision(reply: Option<Response>): Response {
    reply.GetOr(Response("", []))
  }

  /** The test reflect applies: `result.response and result.response.strip() != ""`, which holds
      exactly when the response is not blank. */
  predicate Answers(d: Response)
    ensures Answers(d) <==> !IsBlank(d.response)
  {
    StripEmptyIffBlank(d.response);
    d.response != "" && Strip(d.response) != ""
  }

  /** reflect_node: a response that is not blank after strip() finishes the turn (it becomes the
      response, the plan is emptied and the exchange appended to the history); otherwise the plan is
      replaced wholesale by next_plan and nothing else changes. */
  function ReflectNode(s: State, reply: Option<Response>): (u: Update)
    ensures var d := ReflectDecision(reply);
            !IsBlank(d.response) ==>
              Merge(s, u) == s.(response := d.response, plan := [],
                                messages := s.messages + [Message("user", s.question), Message("assistant", d.response)])
    ensures var d := ReflectDecision(reply);
            IsBlank(d.response) ==> Merge(s, u) == s.(plan := d.nextPlan)
  {
    var d := ReflectDecision(reply);
    if Answers(d) then
      NoUpdate.(response := Some(d.response), plan := Some([]),
                messages := Some([Message("user", s.question), Message("assistant", d.response)]))
    else
      NoUpdate.(plan := Some(d.nextPlan))
  }

  /** One line of the reflect prompt's history block. */
  function PastStepLine(step: Step): string {
    "已完成步骤：" + step.task + "\n执行结果：" + step.result + "\n"
  }

  /** The history block of the reflect prompt: the lines of the steps, in order. */
  function PastStepsText(steps: seq<Step>): string {
    if steps == [] then "" else PastStepsText(steps[..|steps| - 1]) + PastStepLine(steps[|steps| - 1])
  }

  /** The history text of a concatenation is the concatenation of the history texts. */
  lemma {:induction false} PastStepsTextAppend(a: seq<Step>, b: seq<Step>)
    ensures PastStepsText(a + b) == PastStepsText(a) + PastStepsText(b)
    decreases |b|
  {
    if b == [] {
      assert a + b == a;
    } else {
      var b' := b[..|b| - 1];
      assert (a + b)[..|a + b| - 1] == a + b';
      PastStepsTextAppend(a, b');
      ConcatAssoc(PastStepsText(a), PastStepsText(b'), PastStepLine(b[|b| - 1]));
    }
  }

  /** The loop at the top of reflect_node that accumulates the history block. */
  method FormatPastSteps(steps: seq<Step>) returns (text: string)
    ensures text == PastStepsText(steps)
  {
    text := "";
    for i := 0 to |steps|
      invariant text == PastStepsText(steps[..i])
    {
      assert steps[..i + 1][..i] == steps[..i];
      text := text + PastStepLine(steps[i]);
    }
    assert steps[..|steps|] == steps;
  }

  /** The messages list grows by two on a stage that ends the turn (direct_answer, and reflect when it
      answers) and by zero on router, planner, executor and a reflect that continues. */
  lemma MessagesGrowth(s: State, reply: RouterReply, answer: string, plan: Option<Plan>,
                       search: Result<string, string>, summary: string, decision: Option<Response>)
    ensures |Merge(s, DirectAnswerNode(s, answer)).messages| == |s.messages| + 2
    ensures Merge(s, RouterNode(s, reply)).messages == s.messages
    ensures Merge(s, PlannerNode(s, plan)).messages == s.messages
    ensures Merge(s, ExecutorNode(s, search, summary)).messages == s.messages
    ensures |Merge(s, ReflectNode(s, decision)).messages|
         == |s.messages| + (if IsBlank(ReflectDecision(decision).response) then 0 else 2)
  {
  }
}
