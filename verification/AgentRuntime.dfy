/**
 The synchronous decide -> validate -> execute loop (agent_core/runtime/agent.py). Planner,
 validator, tools and cancellation are an arbitrary environment: each is a function of the
 state it sees, and no two iterations of a run see the same state.
 */
module AgentRuntime {
  import opened Wrappers

  // ----- data ------------------------------------------------------------

  /** JSON values, as they occur in parameters and tool data. */
  datatype Json =
    | JNull
    | JBool(b: bool)
    | JInt(n: int)
    | JStr(s: string)
    | JList(items: seq<Json>)
    | JDict(fields: map<string, Json>)

  type Params = map<string, Json>

  function Strings(xs: seq<string>): (r: seq<Json>)
    ensures |r| == |xs| && forall i :: 0 <= i < |r| ==> r[i] == JStr(xs[i])
  {
    seq(|xs|, i requires 0 <= i < |xs| => JStr(xs[i]))
  }

  datatype Decision = ToolCall(tool: string, params: Params) | FinishRun(summary: string)

  datatype ToolStatus = Ok | Error | Timeout

  datatype NmapPort = NmapPort(open: bool, port: Option<int>)
  datatype NmapHost = NmapHost(ip: Option<string>, ports: seq<NmapPort>)
  datatype HttpService = HttpService(url: Option<string>, finalUrl: Option<string>, statusCode: Option<int>)

  /** The keys of a tool's data that planners read; absent or ill-typed ones are None or empty. */
  datatype ToolData = ToolData(target: Option<string>, hosts: seq<NmapHost>, services: seq<HttpService>)

  const NO_DATA := ToolData(None, [], [])

  datatype Finding = Finding(id: string, title: string)

  datatype ToolResult = ToolResult(status: ToolStatus, summary: string, data: ToolData, findings: seq<Finding>)

  datatype Source = FromTool | FromRejection | FromError

  datatype Observation = Observation(
    step: nat, source: Source, tool: Option<string>, ok: bool, data: ToolData, findings: seq<Finding>)

  datatype StepRecord = StepRecord(
    step: nat, decision: Decision, observation: Option<Observation>, rejection: Option<string>)

  datatype RunStatus = Running | Finished | Failed | Cancelled

  datatype AgentState = AgentState(
    status: RunStatus,
    step: nat,
    maxSteps: nat,
    observations: seq<Observation>,
    findings: seq<Finding>,
    steps: seq<StepRecord>,
    error: Option<string>)

  /** For an accepted tool call, `tool` is the name of the resolved tool. */
  datatype Outcome = Accept(tool: string) | Reject(reason: string)

  datatype Env = Env(
    decide: AgentState -> Result<Decision, string>,
    validate: (Decision, AgentState) -> Outcome,
    execute: (string, Params, AgentState) -> Result<ToolResult, string>,
    cancelled: AgentState -> bool)

  datatype Event =
    | RunStarted(step: nat)
    | StepStarted(step: nat)
    | DecisionProposed(step: nat, decision: Decision)
    | DecisionRejected(step: nat, reason: string)
    | ToolStarted(step: nat, tool: string)
    | ToolFinished(step: nat, tool: string, status: ToolStatus, summary: string)
    | FindingRecorded(step: nat, finding: Finding)
    | RunFinished(step: nat, outcome: RunStatus)
    | RunFailed(step: nat)

  // ----- the loop as a function ------------------------------------------

  function NonEmpty(reason: string): string {
    if reason == "" then "rejected" else reason
  }

  /** The observation a tool execution yields; `None` data when the tool raised. */
  function ToolObservation(step: nat, tool: string, result: Result<ToolResult, string>): Observation {
    match result
    case Success(r) => Observation(step, FromTool, Some(tool), r.status == Ok, r.data, r.findings)
    case Failure(_) => Observation(step, FromError, Some(tool), false, NO_DATA, [])
  }

  function ToolEvents(step: nat, tool: string, result: Result<ToolResult, string>): seq<Event> {
    [ToolStarted(step, tool),
     match result
     case Success(r) => ToolFinished(step, tool, r.status, r.summary)
     case Failure(exc) => ToolFinished(step, tool, Error, exc)]
  }

  function ToolNameOf(d: Decision): Option<string> {
    if d.ToolCall? then Some(d.tool) else None
  }

  /** What one decision leads to: the step's record and the events between proposal and findings. */
  function Act(env: Env, s: AgentState, d: Decision): (StepRecord, seq<Event>) {
    match env.validate(d, s)
    case Reject(r) =>
      var reason := NonEmpty(r);
      var obs := Observation(s.step, FromRejection, ToolNameOf(d), false, NO_DATA, []);
      (StepRecord(s.step, d, Some(obs), Some(reason)), [DecisionRejected(s.step, reason)])
    case Accept(tool) =>
      if d.FinishRun? then (StepRecord(s.step, d, None, None), [])
      else
        var result := env.execute(tool, d.params, s);
        (StepRecord(s.step, d, Some(ToolObservation(s.step, tool, result)), None), ToolEvents(s.step, tool, result))
  }

  function FindingsOf(r: StepRecord): seq<Finding> {
    if r.observation.Some? then r.observation.value.findings else []
  }

  function FindingEvents(step: nat, findings: seq<Finding>): (r: seq<Event>)
    ensures |r| == |findings| && forall i :: 0 <= i < |r| ==> r[i] == FindingRecorded(step, findings[i])
  {
    seq(|findings|, i requires 0 <= i < |findings| => FindingRecorded(step, findings[i]))
  }

  function Recorded(s: AgentState, r: StepRecord): AgentState {
    s.(steps := s.steps + [r],
       observations := s.observations + (if r.observation.Some? then [r.observation.value] else []),
       findings := s.findings + FindingsOf(r))
  }

  predicate EndsRun(r: StepRecord) {
    r.decision.FinishRun? && r.rejection.None?
  }

  /** The state after a step: finished when the step was an accepted Finish. */
  function Settled(s: AgentState, r: StepRecord): AgentState {
    if EndsRun(r) then s.(status := Finished, error := None) else s
  }

  /** The events of a decided step, from the proposal on. */
  function StepEvents(n: nat, d: Decision, r: StepRecord, events: seq<Event>): seq<Event> {
    [DecisionProposed(n, d)] + events + FindingEvents(n, FindingsOf(r))
    + if EndsRun(r) then [RunFinished(n, Finished)] else []
  }

  lemma StepEventsSplit(n: nat, d: Decision, r: StepRecord, acted: seq<Event>)
    ensures [StepStarted(n)] + StepEvents(n, d, r, acted) ==
            [StepStarted(n), DecisionProposed(n, d)] + acted + FindingEvents(n, FindingsOf(r))
            + if EndsRun(r) then [RunFinished(n, Finished)] else []
  {
  }

  /** One iteration of the loop that reached the planner. */
  function Iterate(env: Env, s: AgentState): (r: (AgentState, seq<Event>))
    ensures r.0.step == s.step + 1 && r.0.maxSteps == s.maxSteps
  {
    var n := s.step + 1;
    var s1 := s.(step := n);
    match env.decide(s1)
    case Failure(exc) =>
      (s1.(status := Failed, error := Some("planner error: " + exc)), [StepStarted(n), RunFailed(n)])
    case Success(d) =>
      var (record, events) := Act(env, s1, d);
      (Settled(Recorded(s1, record), record), [StepStarted(n)] + StepEvents(n, d, record, events))
  }

  predicate Goes(env: Env, s: AgentState) {
    s.status == Running && !env.cancelled(s) && s.step < s.maxSteps
  }

  function Loop(env: Env, s: AgentState): (AgentState, seq<Event>)
    decreases s.maxSteps - s.step
  {
    if s.status != Running then (s, [])
    else if env.cancelled(s) then (s.(status := Cancelled, error := None), [RunFinished(s.step, Cancelled)])
    else if s.step >= s.maxSteps then
      (s.(status := Failed, error := Some("max_steps reached without Finish")), [RunFailed(s.step)])
    else
      var (s', events) := Iterate(env, s);
      var (final, rest) := Loop(env, s');
      (final, events + rest)
  }

  lemma LoopTrace(env: Env, s: AgentState)
    requires Goes(env, s)
    ensures Loop(env, s).1 == Iterate(env, s).1 + Loop(env, Iterate(env, s).0).1
  {
  }

  lemma UnfoldLoop(env: Env, s: AgentState, before: seq<Event>)
    requires Goes(env, s)
    ensures var (s', events) := Iterate(env, s);
            Loop(env, s).0 == Loop(env, s').0
            && before + Loop(env, s).1 == before + events + Loop(env, s').1
  {
    LoopTrace(env, s);
    LoopState(env, s);
    Regroup(before, Iterate(env, s).1, Loop(env, Iterate(env, s).0).1);
  }

  lemma LoopState(env: Env, s: AgentState)
    requires Goes(env, s)
    ensures Loop(env, s).0 == Loop(env, Iterate(env, s).0).0
  {
  }

  lemma Regroup(a: seq<Event>, b: seq<Event>, c: seq<Event>)
    ensures a + (b + c) == a + b + c
  {
  }

  lemma IterateFails(env: Env, s: AgentState)
    requires env.decide(s.(step := s.step + 1)).Failure?
    ensures var s1 := s.(step := s.step + 1);
            Iterate(env, s) ==
            (s1.(status := Failed, error := Some("planner error: " + env.decide(s1).error)),
             [StepStarted(s1.step), RunFailed(s1.step)])
  {
  }

  lemma IterateDecides(env: Env, s: AgentState, before: seq<Event>)
    requires env.decide(s.(step := s.step + 1)).Success?
    ensures var s1 := s.(step := s.step + 1);
            var d := env.decide(s1).value;
            var (record, events) := Act(env, s1, d);
            && Iterate(env, s).0 == Settled(Recorded(s1, record), record)
            && before + Iterate(env, s).1 ==
               before + [StepStarted(s1.step)] + StepEvents(s1.step, d, record, events)
  {
    var s1 := s.(step := s.step + 1);
    var d := env.decide(s1).value;
    var (record, events) := Act(env, s1, d);
    Regroup(before, [StepStarted(s1.step)], StepEvents(s1.step, d, record, events));
  }

  // ----- the loop as code ------------------------------------------------

  class Runtime {
    const env: Env
    var state: AgentState
    var trace: seq<Event>

    constructor (env: Env, state: AgentState)
      ensures this.env == env && this.state == state && trace == []
    {
      this.env := env;
      this.state := state;
      trace := [];
    }

    method Emit(e: Event)
      modifies this`trace
      ensures trace == old(trace) + [e]
    {
      trace := trace + [e];
    }

    method FinishWith(status: RunStatus, error: Option<string>)
      requires status != Running
      modifies this
      ensures state == old(state).(status := status, error := error)
      ensures trace == old(trace) + [if status == Failed then RunFailed(state.step) else RunFinished(state.step, status)]
    {
      state := state.(status := status, error := error);
      Emit(if status == Failed then RunFailed(state.step) else RunFinished(state.step, status));
    }

    /** Drives the state to completion; state and events are those of `Loop`. */
    method Execute()
      modifies this
      ensures state == Loop(env, old(state)).0
      ensures trace == old(trace) + [RunStarted(old(state.step))] + Loop(env, old(state)).1
      ensures state.status != Running
    {
      Emit(RunStarted(state.step));
      ghost var whole, t0 := Loop(env, state), trace;
      while state.status == Running
        invariant whole.0 == Loop(env, state).0
        invariant t0 + whole.1 == trace + Loop(env, state).1
        decreases state.maxSteps - state.step, state.status == Running
      {
        Turn();
      }
    }

    /** One turn of the loop: it stops, or takes one step. */
    method Turn()
      requires state.status == Running
      modifies this
      ensures Loop(env, state).0 == Loop(env, old(state)).0
      ensures trace + Loop(env, state).1 == old(trace) + Loop(env, old(state)).1
      ensures state.maxSteps == old(state.maxSteps)
      ensures state.status != Running || old(state.step) < state.step <= state.maxSteps
      ensures state.step >= old(state.step)
    {
      ghost var s := state;
      if env.cancelled(state) {
        FinishWith(Cancelled, None);
      } else if state.step >= state.maxSteps {
        FinishWith(Failed, Some("max_steps reached without Finish"));
      } else {
        OneStep();
        UnfoldLoop(env, s, old(trace));
      }
    }

    /** The body of the loop from `state.step += 1` on. */
    method OneStep()
      requires Goes(env, state)
      modifies this
      ensures state == Iterate(env, old(state)).0
      ensures trace == old(trace) + Iterate(env, old(state)).1
    {
      ghost var s0 := state;
      state := state.(step := state.step + 1);
      Emit(StepStarted(state.step));
      var proposal := env.decide(state);
      if proposal.Failure? {
        IterateFails(env, s0);
        FinishWith(Failed, Some("planner error: " + proposal.error));
        return;
      }
      IterateDecides(env, s0, old(trace));
      CarryOut(proposal.value);
    }

    /** The rest of the step once the planner has decided. */
    method CarryOut(decision: Decision)
      requires state.status == Running
      modifies this
      ensures var (record, events) := Act(env, old(state), decision);
              && state == Settled(Recorded(old(state), record), record)
              && trace == old(trace) + StepEvents(old(state).step, decision, record, events)
    {
      ghost var t0, s0 := trace, state;
      Emit(DecisionProposed(state.step, decision));
      var record := ActOn(decision);
      Record(record);
      if decision.FinishRun? && record.rejection.None? {
        FinishWith(Finished, None);
      }
      ghost var events, found := Act(env, s0, decision).1, FindingEvents(s0.step, FindingsOf(record));
      assert t0 + [DecisionProposed(s0.step, decision)] + events + found
          == t0 + ([DecisionProposed(s0.step, decision)] + events + found);
    }

    /** Validates the decision and, when it is accepted, carries it out. */
    method ActOn(decision: Decision) returns (record: StepRecord)
      modifies this`trace
      ensures record == Act(env, state, decision).0
      ensures trace == old(trace) + Act(env, state, decision).1
    {
      var outcome := env.validate(decision, state);
      if outcome.Reject? {
        var reason := if outcome.reason == "" then "rejected" else outcome.reason;
        Emit(DecisionRejected(state.step, reason));
        record := StepRecord(
          state.step, decision,
          Some(Observation(state.step, FromRejection, ToolNameOf(decision), false, NO_DATA, [])), Some(reason));
      } else if decision.FinishRun? {
        record := StepRecord(state.step, decision, None, None);
      } else {
        var obs := ExecuteTool(outcome.tool, decision.params);
        record := StepRecord(state.step, decision, Some(obs), None);
      }
    }

    method ExecuteTool(tool: string, params: Params) returns (obs: Observation)
      modifies this`trace
      ensures obs == ToolObservation(state.step, tool, env.execute(tool, params, state))
      ensures trace == old(trace) + ToolEvents(state.step, tool, env.execute(tool, params, state))
    {
      Emit(ToolStarted(state.step, tool));
      match env.execute(tool, params, state)
      case Failure(exc) =>
        Emit(ToolFinished(state.step, tool, Error, exc));
        obs := Observation(state.step, FromError, Some(tool), false, NO_DATA, []);
      case Success(result) =>
        Emit(ToolFinished(state.step, tool, result.status, result.summary));
        obs := Observation(state.step, FromTool, Some(tool), result.status == Ok, result.data, result.findings);
    }

    /** Appends the step, its observation and its findings, announcing each finding. */
    method Record(record: StepRecord)
      modifies this
      ensures state == Recorded(old(state), record)
      ensures trace == old(trace) + FindingEvents(state.step, FindingsOf(record))
    {
      state := state.(steps := state.steps + [record]);
      if record.observation.None? {
        assert state == Recorded(old(state), record);
        return;
      }
      var obs := record.observation.value;
      state := state.(observations := state.observations + [obs]);
      ghost var s := state;
      for i := 0 to |obs.findings|
        invariant state == s.(findings := s.findings + obs.findings[..i])
        invariant trace == old(trace) + FindingEvents(s.step, obs.findings)[..i]
      {
        state := state.(findings := state.findings + [obs.findings[i]]);
        Emit(FindingRecorded(state.step, obs.findings[i]));
        assert obs.findings[..i + 1] == obs.findings[..i] + [obs.findings[i]];
      }
      assert obs.findings[..|obs.findings|] == obs.findings;
    }
  }
}
