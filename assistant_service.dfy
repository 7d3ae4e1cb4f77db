/** The service layer of service/assistant_service.py (streaming) and
    service/assistant_service/assistant_service.py (one-shot). Both files share the same lazy
    initialisation, the same close and the same initial turn state; they differ in what a turn
    returns: a stream of events, or one projected result. */
module Service {
  import opened Wrappers
  import opened PlanState
  import opened Graph
  import Engine

  /** The compiled workflow `_app` holds: compiled with the Postgres checkpointer, or the module-level
      compiled_async_workflow without persistence. */
  datatype App = Persistent | NonPersistent

  /** The statement of the checkpointer setup that raises, in the order they run. */
  datatype SetupFailure = ImportFails | PoolCreateFails | PoolOpenFails | SaverFails | SetupFails | CompileFails

  /** A connection pool for a database URI, and whether open() completed. */
  datatype Pool = Pool(uri: string, isOpen: bool)

  /** `if db_uri:` — the variable is set and not empty. */
  predicate Truthy(dbUri: Option<string>) {
    dbUri.Some? && dbUri.value != ""
  }

  /** The workflow chosen by the initialisation: the persistent one exactly when a URI is configured
      and no setup statement raises. */
  function InitApp(dbUri: Option<string>, failure: Option<SetupFailure>): (a: App)
    ensures a == Persistent <==> Truthy(dbUri) && failure.None?
    ensures !Truthy(dbUri) ==> a == NonPersistent
  {
    if Truthy(dbUri) && failure.None? then Persistent else NonPersistent
  }

  /** `_pool` after the initialisation: assigned once the pool constructor returns (even if open() or a
      later statement then raises), otherwise left as it was. */
  function InitPool(dbUri: Option<string>, failure: Option<SetupFailure>, prior: Option<Pool>): (p: Option<Pool>)
    ensures !Truthy(dbUri) || failure == Some(ImportFails) || failure == Some(PoolCreateFails) ==> p == prior
    ensures Truthy(dbUri) && failure.None? ==> p == Some(Pool(dbUri.value, true))
    ensures Truthy(dbUri) && failure == Some(PoolOpenFails) ==> p == Some(Pool(dbUri.value, false))
    ensures Truthy(dbUri) && failure.Some? && failure.value in {SaverFails, SetupFails, CompileFails}
            ==> p == Some(Pool(dbUri.value, true))
  {
    if !Truthy(dbUri) then prior
    else match failure
      case None => Some(Pool(dbUri.value, true))
      case Some(ImportFails) => prior
      case Some(PoolCreateFails) => prior
      case Some(PoolOpenFails) => Some(Pool(dbUri.value, false))
      case Some(_) => Some(Pool(dbUri.value, true))
  }

  /** `_checkpointer` after the initialisation: the saver over the new pool once its constructor
      returns. */
  function InitCheckpointer(dbUri: Option<string>, failure: Option<SetupFailure>, prior: Option<Pool>): (c: Option<Pool>)
    ensures !Truthy(dbUri) ==> c == prior
    ensures Truthy(dbUri) && (failure.None? || failure == Some(SetupFails) || failure == Some(CompileFails))
            ==> c == Some(Pool(dbUri.value, true))
    ensures Truthy(dbUri) && failure.Some? && failure.value in {ImportFails, PoolCreateFails, PoolOpenFails, SaverFails}
            ==> c == prior
  {
    if !Truthy(dbUri) then prior
    else match failure
      case None => Some(Pool(dbUri.value, true))
      case Some(SetupFails) => Some(Pool(dbUri.value, true))
      case Some(CompileFails) => Some(Pool(dbUri.value, true))
      case Some(_) => prior
  }

  /** The state a turn hands to the workflow: the request's question and user id, everything else
      empty. */
  function InitialTurnState(question: string, userId: int): State {
    State(question, [], [], "", "", [], userId, [])
  }

  /** The state the turn starts from: with a checkpointer the initial dictionary is merged into what
      the thread already holds; without one, or for a new thread, it is the initial state itself. */
  function TurnStart(stored: Option<State>, question: string, userId: int): State {
    match stored
    case None => InitialTurnState(question, userId)
    case Some(t) => Merge(t, AsDict(InitialTurnState(question, userId)))
  }

  /** Starting a turn keeps the stored history (past steps and messages) and resets the plan, the
      response, the route and the memories. */
  lemma TurnStartKeepsHistory(stored: State, question: string, userId: int)
    ensures var s := TurnStart(Some(stored), question, userId);
            && s.pastSteps == stored.pastSteps && s.messages == stored.messages
            && s.question == question && s.userId == userId
            && s.plan == [] && s.response == "" && s.route == "" && s.memories == []
  {
    MergeFullDict(stored, InitialTurnState(question, userId));
    assert stored.pastSteps + [] == stored.pastSteps;
    assert stored.messages + [] == stored.messages;
  }

  /** The data of a "node" event. */
  datatype NodeData = RouteData(route: string) | PlanData(plan: seq<string>) | PastStepData(pastStep: Option<seq<Step>>)

  /** The dictionaries the streaming chat yields. */
  datatype Event =
    | NodeEvent(node: string, data: NodeData)
    | ChunkEvent(response: string)
    | EndEvent(threadId: string, response: string, route: string, memories: seq<string>)

  /** The event for one node output, as service/assistant_service.py writes it: the executor event
      reads the key "past_step", which no stage ever returns (the executor returns "past_steps"), so
      its payload is always None. */
  function EventForAsWritten(threadId: string, node: string, output: Update): (e: Option<Event>)
    ensures node == "executor" ==> e == Some(NodeEvent("executor", PastStepData(None)))
  {
    if node == "executor" then Some(NodeEvent("executor", PastStepData(None)))
    else EventFor(threadId, node, output)
  }

  /** The event for one node output, with the executor event carrying the steps the executor
      returned. `.get(key, default)` is the key's value when the output mentions it. */
  function EventFor(threadId: string, node: string, output: Update): (e: Option<Event>)
    ensures node == "__end__" ==>
              e == Some(EndEvent(threadId, output.response.GetOr(""), output.route.GetOr(""), output.memories.GetOr([])))
    ensures node == "router" ==> e == Some(NodeEvent("router", RouteData(output.route.GetOr(""))))
    ensures node == "planner" ==> e == Some(NodeEvent("planner", PlanData(output.plan.GetOr([]))))
    ensures node == "executor" ==> e == Some(NodeEvent("executor", PastStepData(output.pastSteps)))
    ensures node in {"reflect", "direct_answer"} ==>
              (e.Some? <==> output.response.GetOr("") != "") && (e.Some? ==> e.value == ChunkEvent(output.response.value))
    ensures node !in {"__end__", "router", "planner", "executor", "reflect", "direct_answer"} ==> e.None?
  {
    if node == "__end__" then
      Some(EndEvent(threadId, output.response.GetOr(""), output.route.GetOr(""), output.memories.GetOr([])))
    else if node == "router" then Some(NodeEvent("router", RouteData(output.route.GetOr(""))))
    else if node == "planner" then Some(NodeEvent("planner", PlanData(output.plan.GetOr([]))))
    else if node == "executor" then Some(NodeEvent("executor", PastStepData(output.pastSteps)))
    else if node == "reflect" || node == "direct_answer" then
      var response := output.response.GetOr("");
      if response != "" then Some(ChunkEvent(response)) else None
    else None
  }

  /** The as-written executor event drops the step even when the executor returned one. */
  lemma ExecutorEventDropsStep(threadId: string, step: Step)
    ensures var output := NoUpdate.(pastSteps := Some([step]), plan := Some([]));
            && EventForAsWritten(threadId, "executor", output) == Some(NodeEvent("executor", PastStepData(None)))
            && EventFor(threadId, "executor", output) == Some(NodeEvent("executor", PastStepData(Some([step]))))
  {
  }

  /** The event for the output of a stage of the workflow, by stage rather than by name. This
      stage-indexed copy of EventFor (equal to it by StageEventByName) keeps the stream proofs cheap:
      they match on a stage instead of comparing node-name strings. */
  function StageEvent(threadId: string, stage: Stage, u: Update): Option<Event> {
    match stage
    case End => Some(EndEvent(threadId, u.response.GetOr(""), u.route.GetOr(""), u.memories.GetOr([])))
    case Router => Some(NodeEvent("router", RouteData(u.route.GetOr(""))))
    case Planner => Some(NodeEvent("planner", PlanData(u.plan.GetOr([]))))
    case Executor => Some(NodeEvent("executor", PastStepData(u.pastSteps)))
    case Reflect => if u.response.GetOr("") != "" then Some(ChunkEvent(u.response.value)) else None
    case DirectAnswer => if u.response.GetOr("") != "" then Some(ChunkEvent(u.response.value)) else None
    case _ => None
  }

  /** The event for the output of a stage as the code writes it: the executor event carries None. */
  function StageEventAsWritten(threadId: string, stage: Stage, u: Update): Option<Event> {
    if stage == Executor then Some(NodeEvent("executor", PastStepData(None))) else StageEvent(threadId, stage, u)
  }

  /** The stage-indexed mappings are the name-indexed ones applied to the stage's registered name. */
  lemma StageEventByName(threadId: string, stage: Stage, u: Update)
    ensures StageEvent(threadId, stage, u) == EventFor(threadId, StageName(stage), u)
    ensures StageEventAsWritten(threadId, stage, u) == EventForAsWritten(threadId, StageName(stage), u)
  {
  }

  /** Which executor event a stream carries: the code's, or the corrected one. */
  datatype Mapping = AsWritten | Corrected

  /** The events of one stage output, as a list of zero or one. */
  function EventsOf(m: Mapping, threadId: string, stage: Stage, u: Update): seq<Event> {
    var ev := if m == AsWritten then StageEventAsWritten(threadId, stage, u) else StageEvent(threadId, stage, u);
    if ev.Some? then [ev.value] else []
  }

  /** The events of a stream of (stage, output) pairs, in order. */
  function StreamEvents(m: Mapping, threadId: string, stages: seq<Stage>, outputs: seq<Update>): (es: seq<Event>)
    requires |stages| == |outputs|
    ensures |es| <= |stages|
  {
    if stages == [] then []
    else
      EventsOf(m, threadId, stages[0], outputs[0]) + StreamEvents(m, threadId, stages[1..], outputs[1..])
  }

  /** An executor event with its payload dropped; every other event as it is. */
  function DropSteps(e: Event): Event {
    if e.NodeEvent? && e.data.PastStepData? then e.(data := PastStepData(None)) else e
  }

  /** The code's stream is the corrected stream with every executor payload dropped: the same events
      in the same order, differing only in what the executor events carry. */
  lemma {:induction false} AsWrittenDropsSteps(threadId: string, stages: seq<Stage>, outputs: seq<Update>)
    requires |stages| == |outputs|
    ensures var a, c := StreamEvents(AsWritten, threadId, stages, outputs), StreamEvents(Corrected, threadId, stages, outputs);
            |a| == |c| && forall i :: 0 <= i < |a| ==> a[i] == DropSteps(c[i])
    decreases |stages|
  {
    if stages != [] {
      AsWrittenDropsSteps(threadId, stages[1..], outputs[1..]);
      var a, c := StreamEvents(AsWritten, threadId, stages, outputs), StreamEvents(Corrected, threadId, stages, outputs);
      var ha, hc := EventsOf(AsWritten, threadId, stages[0], outputs[0]), EventsOf(Corrected, threadId, stages[0], outputs[0]);
      var ta, tc := StreamEvents(AsWritten, threadId, stages[1..], outputs[1..]), StreamEvents(Corrected, threadId, stages[1..], outputs[1..]);
      assert |ha| == |hc| && forall i :: 0 <= i < |ha| ==> ha[i] == DropSteps(hc[i]);
      assert a == ha + ta && c == hc + tc;
      forall i | 0 <= i < |a| ensures a[i] == DropSteps(c[i]) {
        if i >= |ha| {
          assert a[i] == ta[i - |ha|] && c[i] == tc[i - |hc|];
        }
      }
    }
  }

  /** Hence the code's stream reports no step at all, whatever the run appended. */
  lemma {:induction false} AsWrittenReportsNoSteps(threadId: string, stages: seq<Stage>, outputs: seq<Update>)
    requires |stages| == |outputs|
    ensures ReportedSteps(StreamEvents(AsWritten, threadId, stages, outputs)) == []
    decreases |stages|
  {
    if stages != [] {
      AsWrittenReportsNoSteps(threadId, stages[1..], outputs[1..]);
      ReportedStepsAppend(EventsOf(AsWritten, threadId, stages[0], outputs[0]),
                          StreamEvents(AsWritten, threadId, stages[1..], outputs[1..]));
    }
  }

  /** The steps reported by the executor events of a stream, concatenated. */
  function ReportedSteps(es: seq<Event>): seq<Step> {
    if es == [] then []
    else
      (if es[0].NodeEvent? && es[0].data.PastStepData? then es[0].data.pastStep.GetOr([]) else [])
      + ReportedSteps(es[1..])
  }

  lemma {:induction false} ReportedStepsAppend(a: seq<Event>, b: seq<Event>)
    ensures ReportedSteps(a + b) == ReportedSteps(a) + ReportedSteps(b)
  {
    if a == [] {
      assert a + b == b;
    } else {
      assert (a + b)[0] == a[0];
      assert (a + b)[1..] == a[1..] + b;
      ReportedStepsAppend(a[1..], b);
    }
  }

  /** Only the executor, and the opaque memory stages, return past steps. */
  lemma OnlyExecutorAddsSteps(stage: Stage, s: State, e: Engine.Env)
    requires stage != Executor && Engine.MemoryOnly(e.memory)
    ensures Engine.StageUpdate(Engine.AsyncFlow, stage, s, e).pastSteps.None?
  {
  }


  lemma StreamCons(threadId: string, stage: Stage, u: Update, stages: seq<Stage>, outputs: seq<Update>)
    requires |stages| == |outputs|
    ensures StreamEvents(Corrected, threadId, [stage] + stages, [u] + outputs)
         == EventsOf(Corrected, threadId, stage, u) + StreamEvents(Corrected, threadId, stages, outputs)
  {
    assert ([stage] + stages)[1..] == stages && ([u] + outputs)[1..] == outputs;
  }

  /** Only executor outputs mention past steps. */
  predicate StepsFromExecutor(stages: seq<Stage>, outputs: seq<Update>)
    requires |stages| == |outputs|
  {
    forall i :: 0 <= i < |stages| && stages[i] != Executor ==> outputs[i].pastSteps.None?
  }

  /** The executor events of a stream report every step its outputs append, when only executor
      outputs append steps. */
  lemma {:induction false} StreamReportsOutputSteps(threadId: string, stages: seq<Stage>, outputs: seq<Update>)
    requires |stages| == |outputs| && StepsFromExecutor(stages, outputs)
    ensures ReportedSteps(StreamEvents(Corrected, threadId, stages, outputs)) == Engine.StepsOf(outputs)
    decreases |stages|
  {
    if stages != [] {
      assert stages == [stages[0]] + stages[1..] && outputs == [outputs[0]] + outputs[1..];
      StreamCons(threadId, stages[0], outputs[0], stages[1..], outputs[1..]);
      assert StepsFromExecutor(stages[1..], outputs[1..]) by {
        forall i | 0 <= i < |stages[1..]| && stages[1..][i] != Executor ensures outputs[1..][i].pastSteps.None? {
          assert stages[1..][i] == stages[i + 1] && outputs[1..][i] == outputs[i + 1];
        }
      }
      StreamReportsOutputSteps(threadId, stages[1..], outputs[1..]);
      ReportedStepsAppend(EventsOf(Corrected, threadId, stages[0], outputs[0]), StreamEvents(Corrected, threadId, stages[1..], outputs[1..]));
      assert ReportedSteps(EventsOf(Corrected, threadId, stages[0], outputs[0])) == outputs[0].pastSteps.GetOr([]);
    }
  }

  /** In a run of the asynchronous workflow with quiet memory stages only the executor appends steps. */
  lemma {:induction false} RunStepsFromExecutor(stage: Stage, s: State, envs: seq<Engine.Env>)
    requires Engine.QuietMemory(envs)
    ensures var r := Engine.RunFrom(Engine.AsyncFlow, stage, s, envs);
            StepsFromExecutor(r.stages, r.updates)
    decreases |envs|
  {
    var w := Engine.AsyncFlow;
    if stage != End && envs != [] {
      var u := Engine.StageUpdate(w, stage, s, envs[0]);
      var s' := Merge(s, u);
      var rest := Engine.RunFrom(w, Engine.Next(w, stage, s'), s', envs[1..]);
      Engine.RunCons(w, stage, s, envs);
      Engine.QuietTail(envs, 1);
      RunStepsFromExecutor(Engine.Next(w, stage, s'), s', envs[1..]);
      assert Engine.MemoryOnly(envs[0].memory);
      if stage != Executor {
        OnlyExecutorAddsSteps(stage, s, envs[0]);
      }
      var r := Engine.RunFrom(w, stage, s, envs);
      forall i | 0 <= i < |r.stages| && r.stages[i] != Executor ensures r.updates[i].pastSteps.None? {
        if i > 0 { assert r.stages[i] == rest.stages[i - 1] && r.updates[i] == rest.updates[i - 1]; }
      }
    }
  }

  /** With the corrected executor event, and quiet memory stages, the steps a streamed run reports
      are exactly the steps it appended to past_steps. */
  lemma StreamReportsSteps(threadId: string, stage: Stage, s: State, envs: seq<Engine.Env>)
    requires Engine.QuietMemory(envs)
    ensures var r := Engine.RunFrom(Engine.AsyncFlow, stage, s, envs);
            r.final.pastSteps == s.pastSteps + ReportedSteps(StreamEvents(Corrected, threadId, r.stages, r.updates))
  {
    var r := Engine.RunFrom(Engine.AsyncFlow, stage, s, envs);
    Engine.RunAppendsSteps(Engine.AsyncFlow, stage, s, envs);
    RunStepsFromExecutor(stage, s, envs);
    StreamReportsOutputSteps(threadId, r.stages, r.updates);
  }

  /** As written, a streamed run reports none of the steps it appends: its final past steps are the
      initial ones plus the corrected stream's steps, while the code's stream reports no step. */
  lemma StreamOmitsAppendedSteps(threadId: string, stage: Stage, s: State, envs: seq<Engine.Env>)
    requires Engine.QuietMemory(envs)
    ensures var r := Engine.RunFrom(Engine.AsyncFlow, stage, s, envs);
            && r.final.pastSteps == s.pastSteps + ReportedSteps(StreamEvents(Corrected, threadId, r.stages, r.updates))
            && ReportedSteps(StreamEvents(AsWritten, threadId, r.stages, r.updates)) == []
  {
    var r := Engine.RunFrom(Engine.AsyncFlow, stage, s, envs);
    StreamReportsSteps(threadId, stage, s, envs);
    AsWrittenReportsNoSteps(threadId, r.stages, r.updates);
  }

  /** Resuming a thread: the turn after a saved turn starts from that turn's final past steps and
      messages, so the history of the earlier start, and of whatever the thread held before, is a
      prefix of what the later turn starts with. */
  lemma ResumeKeepsHistory(stored: Option<State>, question: string, userId: int, envs: seq<Engine.Env>,
                           nextQuestion: string, nextUserId: int)
    ensures var s1 := TurnStart(stored, question, userId);
            var r1 := Engine.Turn(Engine.AsyncFlow, s1, envs);
            var s2 := TurnStart(Some(r1.final), nextQuestion, nextUserId);
            && s2.pastSteps == r1.final.pastSteps && s2.messages == r1.final.messages
            && s2.question == nextQuestion && s2.plan == [] && s2.response == ""
            && s1.pastSteps <= s2.pastSteps && s1.messages <= s2.messages
            && (stored.Some? ==> stored.value.pastSteps <= s2.pastSteps && stored.value.messages <= s2.messages)
  {
    var s1 := TurnStart(stored, question, userId);
    var r1 := Engine.Turn(Engine.AsyncFlow, s1, envs);
    TurnStartKeepsHistory(r1.final, nextQuestion, nextUserId);
    Engine.RunKeepsHistory(Engine.AsyncFlow, Engine.Entry(Engine.AsyncFlow), s1, envs);
    if stored.Some? {
      TurnStartKeepsHistory(stored.value, question, userId);
    }
  }

  /** The result of the one-shot chat: the request's thread id and three fields of the final state,
      each with its `.get` default. */
  datatype ChatResult = ChatResult(threadId: string, response: string, route: string, memories: seq<string>)

  function ProjectResult(threadId: string, result: Update): (r: ChatResult)
    ensures r.threadId == threadId
    ensures result.response.None? ==> r.response == ""
    ensures result.route.None? ==> r.route == ""
    ensures result.memories.None? ==> r.memories == []
  {
    ChatResult(threadId, result.response.GetOr(""), result.route.GetOr(""), result.memories.GetOr([]))
  }

  /** For a final state, which mentions every key, the projection reads the state's own fields, and
      it agrees with the end event EventFor builds from the same dictionary (a run never yields an
      output for END, so the stream itself carries no such event). */
  lemma ProjectFinalState(threadId: string, f: State)
    ensures ProjectResult(threadId, AsDict(f)) == ChatResult(threadId, f.response, f.route, f.memories)
    ensures var e := EventFor(threadId, "__end__", AsDict(f)).value;
            e.threadId == threadId && e.response == f.response && e.route == f.route && e.memories == f.memories
  {
  }

  /** AssistantService: the lazily initialised compiled workflow, the pool and the checkpointer, and
      (standing for the checkpointer's tables) the last state saved for each thread. */
  class AssistantService {
    var initialized: bool
    var app: Option<App>
    var pool: Option<Pool>
    var checkpointer: Option<Pool>
    var threads: map<string, State>

    constructor()
      ensures !initialized && app == None && pool == None && checkpointer == None && threads == map[]
    {
      initialized := false;
      app := None;
      pool := None;
      checkpointer := None;
      threads := map[];
    }

    /** _ensure_initialized: the first call picks the workflow and sets the flag; every later call
        changes nothing. The environment variable and the statement that raises, if any, are
        parameters. */
    method EnsureInitialized(dbUri: Option<string>, failure: Option<SetupFailure>)
      modifies this
      ensures initialized
      ensures old(initialized) ==> unchanged(this)
      ensures !old(initialized) ==>
                && app == Some(InitApp(dbUri, failure))
                && pool == InitPool(dbUri, failure, old(pool))
                && checkpointer == InitCheckpointer(dbUri, failure, old(checkpointer))
                && threads == old(threads)
    {
      if initialized {
        return;
      }
      if Truthy(dbUri) {
        if failure != Some(ImportFails) && failure != Some(PoolCreateFails) {
          pool := Some(Pool(dbUri.value, failure != Some(PoolOpenFails)));
          if failure != Some(PoolOpenFails) && failure != Some(SaverFails) {
            checkpointer := pool;
          }
        }
        if failure.None? {
          app := Some(Persistent);
        } else {
          app := Some(NonPersistent);
        }
      } else {
        app := Some(NonPersistent);
      }
      initialized := true;
    }

    /** close: drops the pool when there is one; nothing else changes, so a second close does
        nothing. */
    method Close()
      modifies this
      ensures pool == None
      ensures initialized == old(initialized) && app == old(app) && checkpointer == old(checkpointer)
      ensures threads == old(threads)
      ensures old(pool).None? ==> unchanged(this)
    {
      if pool.Some? {
        pool := None;
      }
    }

    /** The state a turn on `threadId` starts from. */
    function StartState(threadId: string, question: string, userId: int): State
      reads this
    {
      TurnStart(if app == Some(Persistent) && threadId in threads then Some(threads[threadId]) else None,
                question, userId)
    }

    /** Saves the state a run left behind, when the workflow has a checkpointer. */
    method Save(threadId: string, f: State)
      modifies this
      ensures threads == (if app == Some(Persistent) then old(threads)[threadId := f] else old(threads))
      ensures initialized == old(initialized) && app == old(app) && pool == old(pool) && checkpointer == old(checkpointer)
    {
      if app == Some(Persistent) {
        threads := threads[threadId := f];
      }
    }

    /** The one-shot chat of service/assistant_service/assistant_service.py: initialise, run a turn
        from the thread's start state, save it, and project the final state. A run that does not reach
        END raises instead of returning (None here). */
    method Chat(threadId: string, question: string, userId: int, dbUri: Option<string>,
                failure: Option<SetupFailure>, envs: seq<Engine.Env>)
      returns (result: Option<ChatResult>)
      modifies this
      ensures initialized
      ensures old(initialized) ==> app == old(app) && pool == old(pool) && checkpointer == old(checkpointer)
      ensures !old(initialized) ==>
                && app == Some(InitApp(dbUri, failure))
                && pool == InitPool(dbUri, failure, old(pool))
                && checkpointer == InitCheckpointer(dbUri, failure, old(checkpointer))
      ensures var r := Engine.Turn(Engine.AsyncFlow, old(EnsuredStart(threadId, question, userId, dbUri, failure)), envs);
              threads == if app == Some(Persistent) then old(threads)[threadId := r.final] else old(threads)
      ensures var r := Engine.Turn(Engine.AsyncFlow, old(EnsuredStart(threadId, question, userId, dbUri, failure)), envs);
              && (result.Some? <==> r.status == Engine.Finished)
              && (result.Some? ==> result.value == ProjectResult(threadId, AsDict(r.final)))
    {
      EnsureInitialized(dbUri, failure);
      var start := StartState(threadId, question, userId);
      var r := Engine.Turn(Engine.AsyncFlow, start, envs);
      Save(threadId, r.final);
      if r.status == Engine.Finished {
        result := Some(ProjectResult(threadId, AsDict(r.final)));
      } else {
        result := None;
      }
    }

    /** The streaming chat of service/assistant_service.py: the same turn, yielding the event of each
        stage output in order, with the executor events as the code writes them. */
    method ChatStream(threadId: string, question: string, userId: int, dbUri: Option<string>,
                      failure: Option<SetupFailure>, envs: seq<Engine.Env>)
      returns (events: seq<Event>)
      modifies this
      ensures initialized
      ensures old(initialized) ==> app == old(app) && pool == old(pool) && checkpointer == old(checkpointer)
      ensures !old(initialized) ==>
                && app == Some(InitApp(dbUri, failure))
                && pool == InitPool(dbUri, failure, old(pool))
                && checkpointer == InitCheckpointer(dbUri, failure, old(checkpointer))
      ensures var r := Engine.Turn(Engine.AsyncFlow, old(EnsuredStart(threadId, question, userId, dbUri, failure)), envs);
              threads == if app == Some(Persistent) then old(threads)[threadId := r.final] else old(threads)
      ensures var r := Engine.Turn(Engine.AsyncFlow, old(EnsuredStart(threadId, question, userId, dbUri, failure)), envs);
              events == StreamEvents(AsWritten, threadId, r.stages, r.updates)
    {
      EnsureInitialized(dbUri, failure);
      var start := StartState(threadId, question, userId);
      var r := Engine.Turn(Engine.AsyncFlow, start, envs);
      Save(threadId, r.final);
      events := StreamEvents(AsWritten, threadId, r.stages, r.updates);
    }

    /** The start state a turn sees once the initialisation has run with these inputs. */
    function EnsuredStart(threadId: string, question: string, userId: int, dbUri: Option<string>,
                          failure: Option<SetupFailure>): State
      reads this
    {
      var a := if initialized then app else Some(InitApp(dbUri, failure));
      TurnStart(if a == Some(Persistent) && threadId in threads then Some(threads[threadId]) else None,
                question, userId)
    }
  }
}
