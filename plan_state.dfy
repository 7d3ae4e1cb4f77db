/** The state threaded through every stage of the plan-execute workflow (PlanExecuteState), the
    per-field merge rule the graph applies to a stage's partial update, and the two structured
    outputs the language model is asked for (Plan and Response). */
module PlanState {
  import opened Wrappers

  /** One completed step: the task text and its (summarised) result. */
  datatype Step = Step(task: string, result: string)

  /** One dialogue entry: a role ("user" or "assistant") and its content. */
  datatype Message = Message(role: string, content: string)

  datatype State = State(
    question: string,
    plan: seq<string>,
    pastSteps: seq<Step>,   // reducer: list concatenation
    response: string,
    route: string,
    messages: seq<Message>, // reducer: list concatenation
    userId: int,
    memories: seq<string>)

  /** A stage's return value: the dictionary of the keys it mentions. None means the key is absent. */
  datatype Update = Update(
    question: Option<string>,
    plan: Option<seq<string>>,
    pastSteps: Option<seq<Step>>,
    response: Option<string>,
    route: Option<string>,
    messages: Option<seq<Message>>,
    userId: Option<int>,
    memories: Option<seq<string>>)

  /** The empty dictionary. */
  const NoUpdate: Update := Update(None, None, None, None, None, None, None, None)

  /** Structured output of the planner: exactly a list of step strings. */
  datatype Plan = Plan(steps: seq<string>)

  /** Structured output of reflect: a final answer (empty while work remains) and the remaining plan. */
  datatype Response = Response(response: string, nextPlan: seq<string>)

  const PlannerRoute: string := "planner"
  const DirectAnswerRoute: string := "direct_answer"

  /** The two branch labels of the router. */
  predicate IsRoute(r: string) {
    r == PlannerRoute || r == DirectAnswerRoute
  }

  /** A field without a reducer: the update's value wins when present. */
  function Overwrite<T>(current: T, given: Option<T>): T {
    given.GetOr(current)
  }

  /** A field annotated with operator.add: the update's list is appended. */
  function Append<T>(current: seq<T>, given: Option<seq<T>>): seq<T> {
    current + given.GetOr([])
  }

  /** The value of the state after a stage returns u. */
  function Merge(s: State, u: Update): State {
    State(
      Overwrite(s.question, u.question),
      Overwrite(s.plan, u.plan),
      Append(s.pastSteps, u.pastSteps),
      Overwrite(s.response, u.response),
      Overwrite(s.route, u.route),
      Append(s.messages, u.messages),
      Overwrite(s.userId, u.userId),
      Overwrite(s.memories, u.memories))
  }

  /** Two updates applied one after the other, as one update. */
  function Combine(u1: Update, u2: Update): Update {
    Update(
      if u2.question.Some? then u2.question else u1.question,
      if u2.plan.Some? then u2.plan else u1.plan,
      if u1.pastSteps.None? && u2.pastSteps.None? then None else Some(u1.pastSteps.GetOr([]) + u2.pastSteps.GetOr([])),
      if u2.response.Some? then u2.response else u1.response,
      if u2.route.Some? then u2.route else u1.route,
      if u1.messages.None? && u2.messages.None? then None else Some(u1.messages.GetOr([]) + u2.messages.GetOr([])),
      if u2.userId.Some? then u2.userId else u1.userId,
      if u2.memories.Some? then u2.memories else u1.memories)
  }

  /** A whole state written as a dictionary that mentions every key. */
  function AsDict(s: State): Update {
    Update(Some(s.question), Some(s.plan), Some(s.pastSteps), Some(s.response), Some(s.route),
           Some(s.messages), Some(s.userId), Some(s.memories))
  }

  /** The two append-only fields keep what they held: the old lists are prefixes of the new ones,
      extended by exactly what the update lists. */
  lemma MergeAppendsHistory(s: State, u: Update)
    ensures Merge(s, u).pastSteps == s.pastSteps + u.pastSteps.GetOr([])
    ensures Merge(s, u).messages == s.messages + u.messages.GetOr([])
    ensures s.pastSteps <= Merge(s, u).pastSteps && s.messages <= Merge(s, u).messages
    ensures |Merge(s, u).messages| == |s.messages| + |u.messages.GetOr([])|
  {
  }

  /** Every other field is overwritten when the update mentions it and unchanged otherwise. */
  lemma MergeOverwrites(s: State, u: Update)
    ensures Merge(s, u).question == (if u.question.Some? then u.question.value else s.question)
    ensures Merge(s, u).plan == (if u.plan.Some? then u.plan.value else s.plan)
    ensures Merge(s, u).response == (if u.response.Some? then u.response.value else s.response)
    ensures Merge(s, u).route == (if u.route.Some? then u.route.value else s.route)
    ensures Merge(s, u).userId == (if u.userId.Some? then u.userId.value else s.userId)
    ensures Merge(s, u).memories == (if u.memories.Some? then u.memories.value else s.memories)
  {
  }

  /** The empty update leaves the state as it is. */
  lemma MergeNothing(s: State)
    ensures Merge(s, NoUpdate) == s
  {
  }

  /** Merging is an action of the monoid of updates: two merges in a row are one merge of the
      combined update. */
  lemma MergeCombine(s: State, u1: Update, u2: Update)
    ensures Merge(Merge(s, u1), u2) == Merge(s, Combine(u1, u2))
  {
    assert (s.pastSteps + u1.pastSteps.GetOr([])) + u2.pastSteps.GetOr([])
        == s.pastSteps + (u1.pastSteps.GetOr([]) + u2.pastSteps.GetOr([]));
    assert (s.messages + u1.messages.GetOr([])) + u2.messages.GetOr([])
        == s.messages + (u1.messages.GetOr([]) + u2.messages.GetOr([]));
  }

  /** Writing a full state over a state replaces every overwritten field and appends both lists. */
  lemma MergeFullDict(s: State, t: State)
    ensures Merge(s, AsDict(t)) == t.(pastSteps := s.pastSteps + t.pastSteps, messages := s.messages + t.messages)
  {
  }
}
