/** Running a workflow: from a stage, execute the stage body on the current state, merge its update,
    and follow the transition table, until END. The collaborators each stage calls are replaced by an
    Env value per stage visit; the list of Envs is also the fuel, because the executor <-> reflect
    cycle has no bound of its own. */
module Engine {
  import opened Wrappers
  import opened Text
  import opened PlanState
  import opened Graph
  import Nodes
  import MainGraph
  import AsyncWorkflow
  import AsyncFunction

  /** What the collaborators return during one stage visit: the router's reply, the planner's parsed
      plan, the search outcome (serialised result or error text), the JSON object the summary call's
      reply parses to, the reflect reply, the direct answer, and the update of an opaque memory stage. A stage reads only
      its own component. */
  datatype Env = Env(
    router: Nodes.RouterReply,
    plan: Option<Plan>,
    search: Result<string, string>,
    summary: map<string, string>,
    reflect: Option<Response>,
    answer: string,
    memory: Update)

  /** main_graph.py with its own stage bodies, or graph/async_workflow.py with the bodies of
      graph/nodes.py and opaque memory stages. */
  datatype Workflow = MainFlow | AsyncFlow

  /** The update a stage returns. */
  function StageUpdate(w: Workflow, stage: Stage, s: State, e: Env): Update {
    match stage
    case Router => if w == MainFlow then MainGraph.RouterNode(s, e.router) else Nodes.RouterNode(s, e.router)
    case Planner => if w == MainFlow then MainGraph.PlannerNode(s, e.plan) else Nodes.PlannerNode(s, e.plan)
    case Executor => if w == MainFlow then MainGraph.ExecutorNode(s, e.search) else Nodes.ExecutorNode(s, e.search, AsyncFunction.SummaryOf(e.summary))
    case Reflect => if w == MainFlow then MainGraph.ReflectNode(s, e.reflect) else Nodes.ReflectNode(s, e.reflect)
    case DirectAnswer => if w == MainFlow then MainGraph.DirectAnswerNode(s, e.answer) else Nodes.DirectAnswerNode(s, e.answer)
    case MemoryRetrieve => e.memory
    case MemorySave => e.memory
    case _ => NoUpdate
  }

  /** A successful search in the asynchronous workflow records the step with the summary the summary
      object holds, or "" when it has no "summary" key, and drops the task from the plan. */
  lemma ExecutorRecordsSummary(s: State, e: Env)
    requires s.plan != [] && e.search.Ok?
    ensures var s' := Merge(s, StageUpdate(AsyncFlow, Executor, s, e));
            && s'.pastSteps == s.pastSteps + [Step(s.plan[0], if "summary" in e.summary then e.summary["summary"] else "")]
            && s'.plan == s.plan[1..]
            && ("summary" !in e.summary ==> s'.pastSteps[|s.pastSteps|].result == "")
  {
  }

  /** The successor of a stage, evaluated on the state after the stage's update was merged. */
  function Next(w: Workflow, stage: Stage, s: State): Stage {
    if w == MainFlow then MainGraph.Next(stage, s) else AsyncWorkflow.Next(stage, s)
  }

  /** The stage START leads to. */
  function Entry(w: Workflow): (st: Stage)
    ensures forall s :: Next(w, Start, s) == st
  {
    if w == MainFlow then Router else MemoryRetrieve
  }

  /** The last stage before END after a reflect that ends the turn. */
  function Exit(w: Workflow): Stage {
    if w == MainFlow then End else MemorySave
  }

  function StepState(w: Workflow, stage: Stage, s: State, e: Env): State {
    Merge(s, StageUpdate(w, stage, s, e))
  }

  datatype Status = Finished | OutOfFuel

  /** The final state, the stages visited in order with the update each returned, and whether END was
      reached before the Envs ran out. */
  datatype Run = Run(final: State, stages: seq<Stage>, updates: seq<Update>, status: Status)

  function RunFrom(w: Workflow, stage: Stage, s: State, envs: seq<Env>): (r: Run)
    ensures |r.stages| == |r.updates| <= |envs|
    decreases |envs|
  {
    if stage == End then Run(s, [], [], Finished)
    else if envs == [] then Run(s, [], [], OutOfFuel)
    else
      var u := StageUpdate(w, stage, s, envs[0]);
      var s' := Merge(s, u);
      var rest := RunFrom(w, Next(w, stage, s'), s', envs[1..]);
      Run(rest.final, [stage] + rest.stages, [u] + rest.updates, rest.status)
  }

  /** One turn: the workflow run from its entry stage. */
  function Turn(w: Workflow, s: State, envs: seq<Env>): Run {
    RunFrom(w, Entry(w), s, envs)
  }

  /** past_steps and messages never shrink during a run, whatever the stages and collaborators do. */
  lemma {:induction false} RunKeepsHistory(w: Workflow, stage: Stage, s: State, envs: seq<Env>)
    ensures s.pastSteps <= RunFrom(w, stage, s, envs).final.pastSteps
    ensures s.messages <= RunFrom(w, stage, s, envs).final.messages
    decreases |envs|
  {
    if stage != End && envs != [] {
      var s' := StepState(w, stage, s, envs[0]);
      MergeAppendsHistory(s, StageUpdate(w, stage, s, envs[0]));
      RunKeepsHistory(w, Next(w, stage, s'), s', envs[1..]);
    }
  }

  /** The steps a list of updates appends, in order. */
  function StepsOf(us: seq<Update>): seq<Step> {
    if us == [] then [] else us[0].pastSteps.GetOr([]) + StepsOf(us[1..])
  }

  lemma StepsOfCons(u: Update, us: seq<Update>)
    ensures StepsOf([u] + us) == u.pastSteps.GetOr([]) + StepsOf(us)
  {
    assert ([u] + us)[1..] == us;
  }

  /** The past steps at the end of a run are those at its start followed by every step the visited
      stages returned. */
  lemma {:induction false} RunAppendsSteps(w: Workflow, stage: Stage, s: State, envs: seq<Env>)
    ensures var r := RunFrom(w, stage, s, envs);
            r.final.pastSteps == s.pastSteps + StepsOf(r.updates)
    decreases |envs|
  {
    var r := RunFrom(w, stage, s, envs);
    if stage == End || envs == [] {
      assert s.pastSteps + [] == s.pastSteps;
    } else {
      var u := StageUpdate(w, stage, s, envs[0]);
      var s' := Merge(s, u);
      var rest := RunFrom(w, Next(w, stage, s'), s', envs[1..]);
      RunCons(w, stage, s, envs);
      RunAppendsSteps(w, Next(w, stage, s'), s', envs[1..]);
      MergeAppendsHistory(s, u);
      StepsOfCons(u, rest.updates);
      ConcatAssoc(s.pastSteps, u.pastSteps.GetOr([]), StepsOf(rest.updates));
    }
  }

  /** Executor/reflect pairs, at least one. */
  predicate Cycles(t: seq<Stage>)
    decreases |t|
  {
    |t| >= 2 && t[0] == Executor && t[1] == Reflect && (|t| == 2 || Cycles(t[2..]))
  }

  lemma {:induction false} CyclesOnlyLoop(t: seq<Stage>)
    requires Cycles(t)
    ensures forall i :: 0 <= i < |t| ==> t[i] == Executor || t[i] == Reflect
    decreases |t|
  {
    if |t| > 2 { CyclesOnlyLoop(t[2..]); }
    forall i | 0 <= i < |t| ensures t[i] == Executor || t[i] == Reflect {
      if i >= 2 { assert t[i] == t[2..][i - 2]; }
    }
  }

  /** Every stage a state can lead to from `stage`: the transition table with its decisions
      forgotten. END has no successor, because a run stops there. */
  function Succ(w: Workflow, stage: Stage): set<Stage> {
    match stage
    case End => {}
    case Start => {Entry(w)}
    case Router => {Planner, DirectAnswer}
    case Planner => {Executor}
    case Executor => {Reflect}
    case Reflect => {Executor, Exit(w)}
    case DirectAnswer => {Exit(w)}
    case MemoryRetrieve => if w == MainFlow then {End} else {Router}
    case MemorySave => {End}
  }

  lemma NextInSucc(w: Workflow, stage: Stage, s: State)
    requires stage != End
    ensures Next(w, stage, s) in Succ(w, stage)
  {
  }

  /** Consecutive stages of `t` follow the forgetful table, and END may follow the last one. */
  predicate Path(w: Workflow, t: seq<Stage>) {
    && |t| >= 1
    && (forall i :: 0 <= i < |t| - 1 ==> t[i + 1] in Succ(w, t[i]))
    && End in Succ(w, t[|t| - 1])
  }

  /** The stages of a finished run from any stage but END form a path from that stage. */
  lemma {:induction false} RunIsPath(w: Workflow, stage: Stage, s: State, envs: seq<Env>)
    requires stage != End
    ensures var t := RunFrom(w, stage, s, envs).stages;
            RunFrom(w, stage, s, envs).status == Finished ==> Path(w, t) && t[0] == stage
    decreases |envs|
  {
    if envs != [] {
      var s' := StepState(w, stage, s, envs[0]);
      var nx := Next(w, stage, s');
      NextInSucc(w, stage, s');
      var rest := RunFrom(w, nx, s', envs[1..]);
      var t := RunFrom(w, stage, s, envs).stages;
      assert t == [stage] + rest.stages;
      if nx != End && rest.status == Finished {
        RunIsPath(w, nx, s', envs[1..]);
        forall i | 0 <= i < |t| - 1 ensures t[i + 1] in Succ(w, t[i]) {
          if i > 0 { assert t[i] == rest.stages[i - 1] && t[i + 1] == rest.stages[i]; }
        }
      }
    }
  }

  /** END occurs nowhere on a path. */
  lemma PathAvoidsEnd(w: Workflow, t: seq<Stage>)
    requires Path(w, t)
    ensures forall i :: 0 <= i < |t| ==> t[i] != End
  {
    forall i | 0 <= i < |t| ensures t[i] != End {
      if i < |t| - 1 { assert t[i + 1] in Succ(w, t[i]); }
    }
  }

  lemma PathStep(w: Workflow, t: seq<Stage>, i: nat)
    requires Path(w, t) && i < |t| - 1
    ensures t[i + 1] in Succ(w, t[i])
  {
  }

  /** A stage whose only successor is END is the last one of a path. */
  lemma PathStopsAtEndOnly(w: Workflow, t: seq<Stage>, i: nat)
    requires Path(w, t) && i < |t| && Succ(w, t[i]) == {End}
    ensures |t| == i + 1
  {
    PathAvoidsEnd(w, t);
    if i < |t| - 1 {
      PathStep(w, t, i);
      assert false;
    }
  }

  lemma PathSuffix(w: Workflow, t: seq<Stage>, k: nat)
    requires Path(w, t) && k < |t|
    ensures Path(w, t[k..])
  {
    var u := t[k..];
    forall i | 0 <= i < |u| - 1 ensures u[i + 1] in Succ(w, u[i]) {
      assert u[i] == t[k + i] && u[i + 1] == t[k + i + 1];
    }
  }

  /** A path from the executor is a sequence of executor/reflect pairs, followed by memory_save in the
      asynchronous workflow. */
  lemma {:induction false} LoopPath(w: Workflow, t: seq<Stage>)
    requires Path(w, t) && t[0] == Executor
    ensures if w == MainFlow then Cycles(t)
            else |t| >= 3 && Cycles(t[..|t| - 1]) && t[|t| - 1] == MemorySave
    decreases |t|
  {
    PathAvoidsEnd(w, t);
    assert |t| >= 2 && t[1] == Reflect;
    if |t| > 2 {
      assert t[2] in Succ(w, Reflect);
      if t[2] == Executor {
        PathSuffix(w, t, 2);
        LoopPath(w, t[2..]);
        assert t[2..][2..] == t[4..];
        if w == AsyncFlow {
          assert t[..|t| - 1][2..] == t[2..][..|t[2..]| - 1];
        }
      } else {
        assert w == AsyncFlow && t[2] == MemorySave;
        PathStopsAtEndOnly(w, t, 2);
        assert t[..2] == [Executor, Reflect];
      }
    }
  }

  /** A path of the asynchronous workflow from memory_retrieve: router, then either direct_answer or
      planner followed by executor/reflect pairs, and memory_save last. */
  lemma AsyncPathShape(t: seq<Stage>)
    requires Path(AsyncFlow, t) && t[0] == MemoryRetrieve
    ensures && |t| >= 4 && t[1] == Router && t[|t| - 1] == MemorySave
            && (t[2..] == [DirectAnswer, MemorySave] || (t[2] == Planner && Cycles(t[3..|t| - 1])))
  {
    PathAvoidsEnd(AsyncFlow, t);
    assert t[1] == Router;
    assert t[2] in Succ(AsyncFlow, Router);
    if t[2] == Planner {
      assert t[3] == Executor;
      PathSuffix(AsyncFlow, t, 3);
      LoopPath(AsyncFlow, t[3..]);
      assert t[3..][..|t[3..]| - 1] == t[3..|t| - 1];
    } else {
      assert t[3] == MemorySave;
      PathStopsAtEndOnly(AsyncFlow, t, 3);
    }
  }

  /** Every finished turn of the asynchronous workflow visits memory_retrieve, then router, then either
      direct_answer or planner followed by executor/reflect pairs, and ends with memory_save. */
  lemma AsyncTurnShape(s: State, envs: seq<Env>)
    ensures var t := Turn(AsyncFlow, s, envs).stages;
            Turn(AsyncFlow, s, envs).status == Finished ==>
              && |t| >= 4 && t[0] == MemoryRetrieve && t[1] == Router && t[|t| - 1] == MemorySave
              && (t[2..] == [DirectAnswer, MemorySave] || (t[2] == Planner && Cycles(t[3..|t| - 1])))
  {
    if Turn(AsyncFlow, s, envs).status == Finished {
      RunIsPath(AsyncFlow, MemoryRetrieve, s, envs);
      AsyncPathShape(Turn(AsyncFlow, s, envs).stages);
    }
  }

  /** Hence memory_retrieve, router and memory_save are each visited exactly once in a finished
      asynchronous turn: every stage between the router and the last one plans, executes, reflects or
      answers. */
  lemma AsyncTurnVisitsOnce(s: State, envs: seq<Env>)
    requires Turn(AsyncFlow, s, envs).status == Finished
    ensures var t := Turn(AsyncFlow, s, envs).stages;
            forall i :: 2 <= i < |t| - 1 ==> t[i] in {Planner, Executor, Reflect, DirectAnswer}
  {
    AsyncTurnShape(s, envs);
    var t := Turn(AsyncFlow, s, envs).stages;
    if t[2] == Planner {
      CyclesOnlyLoop(t[3..|t| - 1]);
      forall i | 3 <= i < |t| - 1 ensures t[i] in {Planner, Executor, Reflect, DirectAnswer} {
        assert t[i] == t[3..|t| - 1][i - 3];
      }
    } else {
      assert t[2..] == [DirectAnswer, MemorySave];
      assert t[2] == DirectAnswer;
    }
  }

  /** A path of main_graph.py from the router: direct_answer, or planner followed by executor/reflect
      pairs. */
  lemma MainPathShape(t: seq<Stage>)
    requires Path(MainFlow, t) && t[0] == Router
    ensures |t| >= 2 && (t[1..] == [DirectAnswer] || (t[1] == Planner && Cycles(t[2..])))
  {
    PathAvoidsEnd(MainFlow, t);
    assert t[1] in Succ(MainFlow, Router);
    if t[1] == Planner {
      assert t[2] == Executor;
      PathSuffix(MainFlow, t, 2);
      LoopPath(MainFlow, t[2..]);
    } else {
      PathStopsAtEndOnly(MainFlow, t, 1);
    }
  }

  /** Every finished turn of main_graph.py visits router once, then either direct_answer or planner
      followed by executor/reflect pairs. */
  lemma MainTurnShape(s: State, envs: seq<Env>)
    ensures var t := Turn(MainFlow, s, envs).stages;
            Turn(MainFlow, s, envs).status == Finished ==>
              |t| >= 2 && t[0] == Router && (t[1..] == [DirectAnswer] || (t[1] == Planner && Cycles(t[2..])))
  {
    if Turn(MainFlow, s, envs).status == Finished {
      RunIsPath(MainFlow, Router, s, envs);
      MainPathShape(Turn(MainFlow, s, envs).stages);
    }
  }

  /** The executor -> reflect edge is unconditional: after a failed search reflect still runs, and
      whatever reflect decides the turn then ends, because a "continue" decision leaves the failure
      message in the response. */
  lemma SearchFailureEndsAtReflect(w: Workflow, s: State, e1: Env, e2: Env)
    requires s.plan != [] && e1.search.Err?
    ensures var s1 := StepState(w, Executor, s, e1);
            var s2 := StepState(w, Reflect, s1, e2);
            && s1.response == Nodes.SearchFailurePrefix + e1.search.error
            && Next(w, Executor, s1) == Reflect
            && Next(w, Reflect, s2) == Exit(w)
            && (s2.response == s1.response || s2.response == Nodes.ReflectDecision(e2.reflect).response)
  {
    var s1 := StepState(w, Executor, s, e1);
    var d := Nodes.ReflectDecision(e2.reflect);
    assert |s1.response| > 0;
  }

  /** Nothing bounds the executor <-> reflect cycle: with an empty plan and a reflect that keeps
      answering Response("", []) (which is also what a parse failure yields), a run never reaches END,
      however many stage visits it is allowed. */
  lemma {:induction false} EmptyPlanNeverEnds(w: Workflow, s: State, envs: seq<Env>)
    requires s.plan == [] && s.response == ""
    requires forall i :: 0 <= i < |envs| ==>
               IsBlank(Nodes.ReflectDecision(envs[i].reflect).response) && Nodes.ReflectDecision(envs[i].reflect).nextPlan == []
    ensures RunFrom(w, Executor, s, envs).status == OutOfFuel
    decreases |envs|
  {
    if |envs| >= 2 {
      var s1 := StepState(w, Executor, s, envs[0]);
      assert s1 == s;
      var s2 := StepState(w, Reflect, s1, envs[1]);
      assert s2 == s;
      assert Next(w, Reflect, s2) == Executor;
      EmptyPlanNeverEnds(w, s2, envs[2..]);
    }
  }

  /** A memory stage that only touches `memories` (what memory_retrieve and memory_save are expected
      to return). */
  predicate MemoryOnly(u: Update) {
    u == NoUpdate.(memories := u.memories)
  }

  predicate QuietMemory(envs: seq<Env>) {
    forall i :: 0 <= i < |envs| ==> MemoryOnly(envs[i].memory)
  }

  /** A finished turn recorded its exchange: either the question and the final response were
      appended to the history, or the history is unchanged and the response is a search-failure
      message. */
  predicate Recorded(s: State, f: State) {
    || f.messages == s.messages + [Message("user", s.question), Message("assistant", f.response)]
    || (f.messages == s.messages && Nodes.SearchFailurePrefix <= f.response)
  }

  /** One stage visit when the run does not stop there. */
  lemma RunStep(w: Workflow, stage: Stage, s: State, envs: seq<Env>)
    requires stage != End && envs != []
    ensures var s' := StepState(w, stage, s, envs[0]);
            var rest := RunFrom(w, Next(w, stage, s'), s', envs[1..]);
            && RunFrom(w, stage, s, envs).status == rest.status
            && RunFrom(w, stage, s, envs).final == rest.final
            && RunFrom(w, stage, s, envs).stages == [stage] + rest.stages
  {
  }

  /** One stage visit, with the update it returned. */
  lemma RunCons(w: Workflow, stage: Stage, s: State, envs: seq<Env>)
    requires stage != End && envs != []
    ensures var u := StageUpdate(w, stage, s, envs[0]);
            var rest := RunFrom(w, Next(w, stage, Merge(s, u)), Merge(s, u), envs[1..]);
            && RunFrom(w, stage, s, envs).final == rest.final
            && RunFrom(w, stage, s, envs).stages == [stage] + rest.stages
            && RunFrom(w, stage, s, envs).updates == [u] + rest.updates
  {
  }

  lemma QuietTail(envs: seq<Env>, k: nat)
    requires QuietMemory(envs) && k <= |envs|
    ensures QuietMemory(envs[k..])
  {
    forall i | 0 <= i < |envs[k..]| ensures MemoryOnly(envs[k..][i].memory) {
      assert envs[k..][i] == envs[k + i];
    }
  }

  /** A quiet memory_save changes nothing but `memories` and ends the run. */
  lemma QuietSave(s: State, envs: seq<Env>)
    requires QuietMemory(envs) && RunFrom(AsyncFlow, MemorySave, s, envs).status == Finished
    ensures var f := RunFrom(AsyncFlow, MemorySave, s, envs).final;
            f == s.(memories := f.memories)
  {
    assert MemoryOnly(envs[0].memory);
  }

  /** The executor/reflect loop of the asynchronous workflow, entered with no response yet, finishes
      only after reflect answered (the exchange is appended, with a non-blank answer) or after a search
      failure (the history is unchanged). */
  lemma {:induction false} AsyncLoopRecords(s: State, envs: seq<Env>)
    requires s.response == "" && QuietMemory(envs)
    ensures var f := RunFrom(AsyncFlow, Executor, s, envs);
            f.status == Finished ==>
              && f.final.question == s.question
              && ((f.final.messages == s.messages + [Message("user", s.question), Message("assistant", f.final.response)]
                   && !IsBlank(f.final.response))
                  || (f.final.messages == s.messages && Nodes.SearchFailurePrefix <= f.final.response))
    decreases |envs|
  {
    var w := AsyncFlow;
    if RunFrom(w, Executor, s, envs).status == Finished {
      var s1 := StepState(w, Executor, s, envs[0]);
      RunStep(w, Executor, s, envs);
      assert s1.messages == s.messages && s1.question == s.question;
      assert s1.response == "" || Nodes.SearchFailurePrefix <= s1.response;
      assert envs[1..] != [];
      RunStep(w, Reflect, s1, envs[1..]);
      var s2 := StepState(w, Reflect, s1, envs[1]);
      var d := Nodes.ReflectDecision(envs[1].reflect);
      var rest := RunFrom(w, Next(w, Reflect, s2), s2, envs[2..]);
      assert envs[1..][1..] == envs[2..];
      QuietTail(envs, 2);
      if !IsBlank(d.response) {
        assert s2.response == d.response && s2.response != "";
        QuietSave(s2, envs[2..]);
      } else if s1.response != "" {
        assert s2 == s1.(plan := d.nextPlan);
        QuietSave(s2, envs[2..]);
      } else {
        assert s2 == s1.(plan := d.nextPlan);
        AsyncLoopRecords(s2, envs[2..]);
      }
    }
  }

  /** A finished run from any stage but END used at least one Env. */
  lemma FinishedNeedsFuel(w: Workflow, stage: Stage, s: State, envs: seq<Env>)
    requires stage != End && RunFrom(w, stage, s, envs).status == Finished
    ensures envs != []
  {
  }

  /** A quiet memory_retrieve followed by the router changes only the route and the memories. */
  lemma AsyncHeadState(s: State, e0: Env, e1: Env)
    requires MemoryOnly(e0.memory)
    ensures var s2 := StepState(AsyncFlow, Router, StepState(AsyncFlow, MemoryRetrieve, s, e0), e1);
            s2 == s.(route := s2.route, memories := s2.memories)
            && s2.route == Nodes.ClassifyRoute(e1.router, DirectAnswerRoute)
  {
  }

  /** The first two stages of an asynchronous turn, after which the turn continues with the router's
      successor. */
  lemma AsyncTurnHead(s: State, envs: seq<Env>)
    requires QuietMemory(envs) && |envs| >= 2
    ensures var s2 := StepState(AsyncFlow, Router, StepState(AsyncFlow, MemoryRetrieve, s, envs[0]), envs[1]);
            var rest := RunFrom(AsyncFlow, Next(AsyncFlow, Router, s2), s2, envs[2..]);
            && s2 == s.(route := s2.route, memories := s2.memories)
            && s2.route == Nodes.ClassifyRoute(envs[1].router, DirectAnswerRoute)
            && Turn(AsyncFlow, s, envs).status == rest.status
            && Turn(AsyncFlow, s, envs).final == rest.final
            && Turn(AsyncFlow, s, envs).stages == [MemoryRetrieve, Router] + rest.stages
  {
    var w := AsyncFlow;
    RunStep(w, MemoryRetrieve, s, envs);
    var s1 := StepState(w, MemoryRetrieve, s, envs[0]);
    assert Next(w, MemoryRetrieve, s1) == Router;
    RunStep(w, Router, s1, envs[1..]);
    assert envs[1..][1..] == envs[2..];
    assert MemoryOnly(envs[0].memory);
    AsyncHeadState(s, envs[0], envs[1]);
  }

  /** A finished asynchronous turn that starts without a response, with quiet memory stages, has
      recorded its exchange. */
  lemma AsyncTurnRecords(s: State, envs: seq<Env>)
    requires s.response == "" && QuietMemory(envs)
    ensures Turn(AsyncFlow, s, envs).status == Finished ==> Recorded(s, Turn(AsyncFlow, s, envs).final)
  {
    var w := AsyncFlow;
    if Turn(w, s, envs).status == Finished {
      FinishedNeedsFuel(w, MemoryRetrieve, s, envs);
      RunStep(w, MemoryRetrieve, s, envs);
      FinishedNeedsFuel(w, Router, StepState(w, MemoryRetrieve, s, envs[0]), envs[1..]);
      AsyncTurnHead(s, envs);
      var s2 := StepState(w, Router, StepState(w, MemoryRetrieve, s, envs[0]), envs[1]);
      var nx := Next(w, Router, s2);
      assert envs[2..] != [];
      RunStep(w, nx, s2, envs[2..]);
      var s3 := StepState(w, nx, s2, envs[2]);
      assert envs[2..][1..] == envs[3..];
      QuietTail(envs, 3);
      if nx == Planner {
        assert s3.response == "" && s3.messages == s.messages && s3.question == s.question;
        AsyncLoopRecords(s3, envs[3..]);
      } else {
        assert s3.messages == s.messages + [Message("user", s.question), Message("assistant", s3.response)];
        QuietSave(s3, envs[3..]);
      }
    }
  }

  /** A direct answer: when the router's reply classifies as direct_answer, the turn visits exactly
      memory_retrieve, router, direct_answer and memory_save, the answer becomes the response, exactly
      the question and the answer are appended to the history, and the plan and past steps are
      untouched. */
  lemma DirectAnswerTurn(s: State, envs: seq<Env>)
    requires |envs| >= 4 && QuietMemory(envs)
    requires Nodes.ClassifyRoute(envs[1].router, DirectAnswerRoute) == DirectAnswerRoute
    ensures var r := Turn(AsyncFlow, s, envs);
            && r.status == Finished
            && r.stages == [MemoryRetrieve, Router, DirectAnswer, MemorySave]
            && r.final.response == envs[2].answer
            && r.final.messages == s.messages + [Message("user", s.question), Message("assistant", envs[2].answer)]
            && r.final.plan == s.plan && r.final.pastSteps == s.pastSteps
  {
    var w := AsyncFlow;
    AsyncTurnHead(s, envs);
    var s2 := StepState(w, Router, StepState(w, MemoryRetrieve, s, envs[0]), envs[1]);
    assert s2.route == DirectAnswerRoute;
    assert Next(w, Router, s2) == DirectAnswer;
    RunStep(w, DirectAnswer, s2, envs[2..]);
    var s3 := StepState(w, DirectAnswer, s2, envs[2]);
    assert envs[2..][1..] == envs[3..] && envs[3..][1..] == envs[4..];
    RunStep(w, MemorySave, s3, envs[3..]);
    assert MemoryOnly(envs[3].memory);
    var s4 := StepState(w, MemorySave, s3, envs[3]);
    assert RunFrom(w, End, s4, envs[4..]) == Run(s4, [], [], Finished);
  }
}
