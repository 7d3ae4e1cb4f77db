/** graph/async_function.py: the two decision functions of the asynchronous workflow and the
    default taken when the summary object has no "summary" key. */
module AsyncFunction {
  import opened PlanState
  import Text
  import Nodes

  /** async_route_by_intent: the stored route when it is a branch label, planner otherwise, so the
      router's path map (which has exactly the two labels) is total. */
  function AsyncRouteByIntent(s: State): (r: string)
    ensures IsRoute(r)
    ensures IsRoute(s.route) ==> r == s.route
    ensures !IsRoute(s.route) ==> r == PlannerRoute
  {
    if IsRoute(s.route) then s.route else PlannerRoute
  }

  /** async_should_end: true exactly when the response is a non-empty string. */
  function AsyncShouldEnd(s: State): (b: bool)
    ensures b <==> |s.response| > 0
  {
    s.response != ""
  }

  /** The truthiness test of async_should_end is weaker than reflect's strip() test: a response made
      only of whitespace ends the turn although reflect would not treat it as an answer. */
  lemma WhitespaceResponseEnds(s: State)
    requires s.response != "" && Text.IsBlank(s.response)
    ensures AsyncShouldEnd(s)
    ensures !Nodes.Answers(Response(s.response, []))
  {
  }

  /** `.get('summary', '')` on the parsed summary object. */
  function SummaryOf(obj: map<string, string>): (r: string)
    ensures "summary" !in obj ==> r == ""
    ensures "summary" in obj ==> r == obj["summary"]
  {
    if "summary" in obj then obj["summary"] else ""
  }
}
