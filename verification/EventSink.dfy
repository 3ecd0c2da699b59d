/** The database projection of a run's events into tool-run rows (backend/services/db_sink.py). */
module EventSink {
  import opened Wrappers
  import opened Text
  import opened AgentRuntime

  const MAX_TOOL_CHARS := 50
  const MAX_SUMMARY_CHARS := 2000

  datatype RowStatus = RowRunning | RowCompleted | RowFailed | RowTimeout

  datatype ToolRun = ToolRun(tool: string, status: RowStatus, parameters: Params, summary: Option<string>)

  /** `rows` are this scan's tool runs, oldest first. */
  datatype SinkState = SinkState(proposed: map<nat, Params>, rows: seq<ToolRun>)

  function FinishStatus(s: ToolStatus): RowStatus {
    match s
    case Ok => RowCompleted
    case Error => RowFailed
    case Timeout => RowTimeout
  }

  /** Index of the newest running row of the tool, |rows| when there is none. */
  function NewestRunning(rows: seq<ToolRun>, tool: string): (i: nat)
    ensures i <= |rows|
    ensures i < |rows| ==> rows[i].tool == tool && rows[i].status == RowRunning
    ensures forall k :: 0 <= k < |rows| && (k > i || i == |rows|) ==> !(rows[k].tool == tool && rows[k].status == RowRunning)
  {
    if rows == [] then 0
    else
      var last := |rows| - 1;
      if rows[last].tool == tool && rows[last].status == RowRunning then last
      else
        var i := NewestRunning(rows[..last], tool);
        if i == last then |rows| else i
  }

  function Written(s: SinkState, e: Event): SinkState {
    match e
    case DecisionProposed(step, decision) =>
      if decision.ToolCall? then s.(proposed := s.proposed[step := decision.params]) else s
    case ToolStarted(step, tool) =>
      if tool == "" then s
      else
        var params := if step in s.proposed then s.proposed[step] else map[];
        s.(proposed := s.proposed - {step},
           rows := s.rows + [ToolRun(CapTo(tool, MAX_TOOL_CHARS), RowRunning, params, None)])
    case ToolFinished(step, tool, status, summary) =>
      var i := NewestRunning(s.rows, tool);
      if tool == "" || i == |s.rows| then s
      else s.(rows := s.rows[i := s.rows[i].(status := FinishStatus(status), summary := Some(CapTo(summary, MAX_SUMMARY_CHARS)))])
    case _ => s
  }

  function WrittenAll(s: SinkState, events: seq<Event>): SinkState {
    if events == [] then s
    else Written(WrittenAll(s, events[..|events| - 1]), events[|events| - 1])
  }

  /** The sink object: its dictionary and the scan's rows change event by event. */
  class DatabaseEventSink {
    var proposed: map<nat, Params>
    var rows: seq<ToolRun>

    function State(): SinkState
      reads this
    {
      SinkState(proposed, rows)
    }

    constructor ()
      ensures State() == SinkState(map[], [])
    {
      proposed, rows := map[], [];
    }

    method Handle(e: Event)
      modifies this
      ensures State() == Written(old(State()), e)
    {
      match e
      case DecisionProposed(step, decision) =>
        if decision.ToolCall? {
          proposed := proposed[step := decision.params];
        }
      case ToolStarted(step, tool) => OpenToolRun(step, tool);
      case ToolFinished(_, tool, status, summary) => CloseToolRun(tool, status, summary);
      case _ =>
    }

    method OpenToolRun(step: nat, tool: string)
      modifies this
      ensures State() == Written(old(State()), ToolStarted(step, tool))
    {
      if tool == "" {
        return;
      }
      var params: Params := map[];
      if step in proposed {
        params := proposed[step];
      }
      proposed := proposed - {step};
      rows := rows + [ToolRun(CapTo(tool, MAX_TOOL_CHARS), RowRunning, params, None)];
    }

    /** Looks for the newest running row of the tool, from the end. */
    method CloseToolRun(tool: string, status: ToolStatus, summary: string)
      modifies this
      ensures forall step :: State() == Written(old(State()), ToolFinished(step, tool, status, summary))
    {
      if tool == "" {
        return;
      }
      var i := |rows|;
      while i > 0 && !(rows[i - 1].tool == tool && rows[i - 1].status == RowRunning)
        invariant 0 <= i <= |rows|
        invariant forall k :: i <= k < |rows| ==> !(rows[k].tool == tool && rows[k].status == RowRunning)
      {
        i := i - 1;
      }
      if i == 0 {
        assert NewestRunning(rows, tool) == |rows|;
        return;
      }
      assert NewestRunning(rows, tool) == i - 1;
      rows := rows[i - 1 := rows[i - 1].(status := FinishStatus(status), summary := Some(CapTo(summary, MAX_SUMMARY_CHARS)))];
    }
  }

  // ----- the projection --------------------------------------------------

  /**
   The row an accepted tool call should end up as. A row whose tool name had to be cut is not
   found again when the tool finishes, so it keeps its opening status.
   */
  function RowFor(tool: string, params: Params, result: Result<ToolResult, string>): ToolRun {
    if |tool| > MAX_TOOL_CHARS then ToolRun(CapTo(tool, MAX_TOOL_CHARS), RowRunning, params, None)
    else
      match result
      case Success(r) => ToolRun(tool, FinishStatus(r.status), params, Some(CapTo(r.summary, MAX_SUMMARY_CHARS)))
      case Failure(exc) => ToolRun(tool, RowFailed, params, Some(CapTo(exc, MAX_SUMMARY_CHARS)))
  }

  /** The rows of one iteration: one for an accepted tool call, none otherwise. */
  function RowsOfStep(env: Env, s: AgentState): seq<ToolRun> {
    var s1 := s.(step := s.step + 1);
    match env.decide(s1)
    case Failure(_) => []
    case Success(d) =>
      var outcome := env.validate(d, s1);
      if d.ToolCall? && outcome.Accept? && outcome.tool != "" then
        [RowFor(outcome.tool, d.params, env.execute(outcome.tool, d.params, s1))]
      else []
  }

  /** The rows a whole run calls for: one per accepted tool call, in step order. */
  function RowsOfRun(env: Env, s: AgentState): seq<ToolRun>
    decreases s.maxSteps - s.step
  {
    if !Goes(env, s) then [] else RowsOfStep(env, s) + RowsOfRun(env, Iterate(env, s).0)
  }

  lemma {:induction false} WrittenConcat(k: SinkState, a: seq<Event>, b: seq<Event>)
    ensures WrittenAll(k, a + b) == WrittenAll(WrittenAll(k, a), b)
  {
    if b == [] {
      assert a + b == a;
    } else {
      assert (a + b)[..|a + b| - 1] == a + b[..|b| - 1];
      WrittenConcat(k, a, b[..|b| - 1]);
    }
  }

  lemma {:induction false} FindingsWriteNothing(k: SinkState, step: nat, findings: seq<Finding>)
    ensures WrittenAll(k, FindingEvents(step, findings)) == k
  {
    if findings != [] {
      var events := FindingEvents(step, findings);
      assert events[..|events| - 1] == FindingEvents(step, findings[..|findings| - 1]);
      FindingsWriteNothing(k, step, findings[..|findings| - 1]);
    }
  }

  /** Proposals still held are those of earlier steps. */
  ghost predicate Stale(k: SinkState, step: nat) {
    forall n :: n in k.proposed ==> n <= step
  }

  /** What the column width guarantees of every stored row. */
  ghost predicate NamesFit(rows: seq<ToolRun>) {
    forall i :: 0 <= i < |rows| ==> |rows[i].tool| <= MAX_TOOL_CHARS
  }

  lemma ToolEventsWriteRow(k: SinkState, step: nat, tool: string, result: Result<ToolResult, string>)
    requires tool != "" && step in k.proposed && NamesFit(k.rows)
    ensures WrittenAll(k, ToolEvents(step, tool, result)) ==
            SinkState(k.proposed - {step}, k.rows + [RowFor(tool, k.proposed[step], result)])
  {
    var events := ToolEvents(step, tool, result);
    assert events[..1] == [events[0]] && events[..1][..0] == [];
    var started := Written(k, events[0]);
    assert WrittenAll(k, events[..1]) == started;
    var i := NewestRunning(started.rows, tool);
    if |tool| <= MAX_TOOL_CHARS {
      assert started.rows[|k.rows|].tool == tool;
      assert i == |k.rows|;
    } else {
      assert forall j :: 0 <= j < |started.rows| ==> started.rows[j].tool != tool;
      assert i == |started.rows|;
    }
    assert |events| == 2 && WrittenAll(k, events) == Written(started, events[1]);
  }

  lemma ProjectIterate(env: Env, s: AgentState, k: SinkState)
    requires Stale(k, s.step) && NamesFit(k.rows)
    ensures var k' := WrittenAll(k, Iterate(env, s).1);
            k'.rows == k.rows + RowsOfStep(env, s) && Stale(k', s.step + 1) && NamesFit(k'.rows)
  {
    var n := s.step + 1;
    var s1 := s.(step := n);
    match env.decide(s1)
    case Failure(_) =>
      IterateFails(env, s);
      WrittenFailure(k, n);
    case Success(d) =>
      IterateDecides(env, s, []);
      var (record, acted) := Act(env, s1, d);
      var tail: seq<Event> := if EndsRun(record) then [RunFinished(n, Finished)] else [];
      WrittenStep(k, n, d, acted, FindingsOf(record), tail);
      StepEventsSplit(n, d, record, acted);
      ProjectAct(env, s1, d, Written(k, DecisionProposed(n, d)));
  }

  lemma WrittenFailure(k: SinkState, n: nat)
    ensures WrittenAll(k, [StepStarted(n), RunFailed(n)]) == k
  {
    WrittenConcat(k, [StepStarted(n)], [RunFailed(n)]);
    assert [StepStarted(n), RunFailed(n)] == [StepStarted(n)] + [RunFailed(n)];
    WrittenOne(k, StepStarted(n));
    WrittenOne(k, RunFailed(n));
  }

  /** Of a step's events, only the proposal and the tool events change the sink. */
  lemma WrittenStep(k: SinkState, n: nat, d: Decision, acted: seq<Event>, findings: seq<Finding>, tail: seq<Event>)
    requires tail in {[], [RunFinished(n, Finished)]}
    ensures WrittenAll(k, [StepStarted(n), DecisionProposed(n, d)] + acted + FindingEvents(n, findings) + tail)
            == WrittenAll(Written(k, DecisionProposed(n, d)), acted)
  {
    var head, found := [StepStarted(n), DecisionProposed(n, d)], FindingEvents(n, findings);
    WrittenConcat(k, head + acted + found, tail);
    WrittenConcat(k, head + acted, found);
    WrittenConcat(k, head, acted);
    assert head == [StepStarted(n)] + [DecisionProposed(n, d)];
    WrittenConcat(k, [StepStarted(n)], [DecisionProposed(n, d)]);
    WrittenOne(k, StepStarted(n));
    WrittenOne(k, DecisionProposed(n, d));
    var k2 := WrittenAll(Written(k, DecisionProposed(n, d)), acted);
    FindingsWriteNothing(k2, n, findings);
    WrittenOne(k2, RunFinished(n, Finished));
  }

  lemma WrittenOne(k: SinkState, e: Event)
    ensures WrittenAll(k, [e]) == Written(k, e)
  {
    assert [e][..0] == [];
  }

  lemma ProjectAct(env: Env, s: AgentState, d: Decision, k: SinkState)
    requires Stale(k, s.step) && NamesFit(k.rows)
    requires d.ToolCall? ==> s.step in k.proposed && k.proposed[s.step] == d.params
    ensures var k' := WrittenAll(k, Act(env, s, d).1);
            && k'.rows == k.rows + (if d.ToolCall? && env.validate(d, s).Accept? && env.validate(d, s).tool != ""
                                    then [RowFor(env.validate(d, s).tool, d.params,
                                                 env.execute(env.validate(d, s).tool, d.params, s))]
                                    else [])
            && Stale(k', s.step) && NamesFit(k'.rows)
  {
    match env.validate(d, s)
    case Reject(r) => WrittenOne(k, DecisionRejected(s.step, NonEmpty(r)));
    case Accept(tool) =>
      if d.ToolCall? {
        var result := env.execute(tool, d.params, s);
        if tool == "" {
          var events := ToolEvents(s.step, tool, result);
          assert events == [events[0]] + [events[1]];
          WrittenConcat(k, [events[0]], [events[1]]);
          WrittenOne(k, events[0]);
          WrittenOne(k, events[1]);
        } else {
          ToolEventsWriteRow(k, s.step, tool, result);
        }
      }
  }

  lemma {:induction false} ProjectLoop(env: Env, s: AgentState, k: SinkState)
    requires Stale(k, s.step) && NamesFit(k.rows)
    ensures WrittenAll(k, Loop(env, s).1).rows == k.rows + RowsOfRun(env, s)
    decreases s.maxSteps - s.step
  {
    if Goes(env, s) {
      var (s', events) := Iterate(env, s);
      var k' := WrittenAll(k, events);
      ProjectIterate(env, s, k);
      ProjectLoop(env, s', k');
      ProjectTurn(env, s, k);
    } else {
      ProjectStop(env, s, k);
    }
  }

  lemma ProjectTurn(env: Env, s: AgentState, k: SinkState)
    requires Goes(env, s)
    ensures var (s', events) := Iterate(env, s);
            WrittenAll(k, Loop(env, s).1) == WrittenAll(WrittenAll(k, events), Loop(env, s').1)
    ensures k.rows + RowsOfRun(env, s) == (k.rows + RowsOfStep(env, s)) + RowsOfRun(env, Iterate(env, s).0)
  {
    var (s', events) := Iterate(env, s);
    LoopTrace(env, s);
    WrittenConcat(k, events, Loop(env, s').1);
    RowsTurn(env, s, k.rows);
  }

  lemma RowsTurn(env: Env, s: AgentState, rows: seq<ToolRun>)
    requires Goes(env, s)
    ensures rows + RowsOfRun(env, s) == (rows + RowsOfStep(env, s)) + RowsOfRun(env, Iterate(env, s).0)
  {
    assert RowsOfRun(env, s) == RowsOfStep(env, s) + RowsOfRun(env, Iterate(env, s).0);
  }

  lemma ProjectStop(env: Env, s: AgentState, k: SinkState)
    requires !Goes(env, s)
    ensures WrittenAll(k, Loop(env, s).1).rows == k.rows + RowsOfRun(env, s)
  {
    if s.status == Running {
      WrittenOne(k, Loop(env, s).1[0]);
    }
  }

  // ----- rows and recorded steps -----------------------------------------

  /** The step when it ran a tool: an accepted call that was observed under a tool name. */
  function CallOf(r: StepRecord): seq<StepRecord> {
    if r.decision.ToolCall? && r.rejection.None? && r.observation.Some?
       && r.observation.value.tool.Some? && r.observation.value.tool.value != "" then [r]
    else []
  }

  /** The accepted tool calls among the steps, in order. */
  function AcceptedCalls(steps: seq<StepRecord>): seq<StepRecord> {
    if steps == [] then [] else CallOf(steps[0]) + AcceptedCalls(steps[1..])
  }

  /** What the row of a call tells: its tool, its own parameters, and whether it went well. */
  predicate Describes(row: ToolRun, r: StepRecord) {
    CallOf(r) == [r]
    && row.tool == CapTo(r.observation.value.tool.value, MAX_TOOL_CHARS)
    && row.parameters == r.decision.params
    && if |r.observation.value.tool.value| > MAX_TOOL_CHARS then row.status == RowRunning && row.summary == None
       else row.status != RowRunning && row.summary.Some?
            && (row.status == RowCompleted <==> r.observation.value.ok)
            && (r.observation.value.source == FromError ==> row.status == RowFailed)
  }

  predicate DescribesAll(rows: seq<ToolRun>, calls: seq<StepRecord>) {
    |rows| == |calls| && forall i :: 0 <= i < |rows| ==> Describes(rows[i], calls[i])
  }

  /** The record that one iteration adds, if it adds one. */
  function StepOf(env: Env, s: AgentState): seq<StepRecord> {
    var s1 := s.(step := s.step + 1);
    match env.decide(s1)
    case Failure(_) => []
    case Success(d) => [Act(env, s1, d).0]
  }

  lemma IterateAddsStep(env: Env, s: AgentState)
    ensures Iterate(env, s).0.steps == s.steps + StepOf(env, s)
  {
  }

  lemma StepRowDescribes(env: Env, s: AgentState)
    ensures DescribesAll(RowsOfStep(env, s), AcceptedCalls(StepOf(env, s)))
  {
    if StepOf(env, s) != [] {
      var r := StepOf(env, s)[0];
      assert AcceptedCalls([r]) == CallOf(r) by {
        assert [r][1..] == [];
      }
    }
  }

  lemma {:induction false} AcceptedConcat(a: seq<StepRecord>, b: seq<StepRecord>)
    ensures AcceptedCalls(a + b) == AcceptedCalls(a) + AcceptedCalls(b)
  {
    if a == [] {
      assert a + b == b;
    } else {
      assert (a + b)[1..] == a[1..] + b;
      AcceptedConcat(a[1..], b);
    }
  }

  /** Rows of one step in front of those of the steps after it. */
  lemma DescribesMore(
    first: seq<ToolRun>, rest: seq<ToolRun>, before: seq<StepRecord>, step: seq<StepRecord>, steps: seq<StepRecord>)
    requires DescribesAll(first, AcceptedCalls(step)) && before + step <= steps
    requires DescribesAll(rest, AcceptedCalls(steps[|before + step|..]))
    ensures before <= steps && DescribesAll(first + rest, AcceptedCalls(steps[|before|..]))
  {
    assert steps[|before|..] == step + steps[|before + step|..];
    AcceptedConcat(step, steps[|before + step|..]);
  }

  lemma StoppedSteps(env: Env, s: AgentState)
    requires !Goes(env, s)
    ensures Loop(env, s).0.steps == s.steps && RowsOfRun(env, s) == []
  {
  }

  lemma RowsOfTurn(env: Env, s: AgentState)
    requires Goes(env, s)
    ensures RowsOfRun(env, s) == RowsOfStep(env, s) + RowsOfRun(env, Iterate(env, s).0)
    ensures Loop(env, s).0 == Loop(env, Iterate(env, s).0).0
  {
  }

  /** The rows of a run are those of the accepted calls among the steps that it records. */
  lemma {:induction false} RowsAreOfCalls(env: Env, s: AgentState)
    ensures s.steps <= Loop(env, s).0.steps
    ensures DescribesAll(RowsOfRun(env, s), AcceptedCalls(Loop(env, s).0.steps[|s.steps|..]))
    decreases s.maxSteps - s.step
  {
    if Goes(env, s) {
      var s' := Iterate(env, s).0;
      RowsAreOfCalls(env, s');
      IterateAddsStep(env, s);
      StepRowDescribes(env, s);
      RowsOfTurn(env, s);
      DescribesMore(RowsOfStep(env, s), RowsOfRun(env, s'), s.steps, StepOf(env, s), Loop(env, s').0.steps);
    } else {
      StoppedSteps(env, s);
    }
  }

  /**
   The sink turns the trace of any run, with any planner, validator and tools, into exactly
   one row per accepted tool call among the run's recorded steps, in step order, with that
   step's proposed parameters and its final status. Parameters of rejected steps are never
   attached to a later row.
   */
  lemma ProjectionOfRun(env: Env, s: AgentState)
    ensures var rows := WrittenAll(SinkState(map[], []), [RunStarted(s.step)] + Loop(env, s).1).rows;
            && rows == RowsOfRun(env, s)
            && s.steps <= Loop(env, s).0.steps
            && DescribesAll(rows, AcceptedCalls(Loop(env, s).0.steps[|s.steps|..]))
  {
    var empty := SinkState(map[], []);
    WrittenConcat(empty, [RunStarted(s.step)], Loop(env, s).1);
    WrittenOne(empty, RunStarted(s.step));
    ProjectLoop(env, s, empty);
    RowsAreOfCalls(env, s);
  }

  function ToolsOfStep(env: Env, s: AgentState): seq<string> {
    var s1 := s.(step := s.step + 1);
    match env.decide(s1)
    case Failure(_) => []
    case Success(d) =>
      var outcome := env.validate(d, s1);
      if d.ToolCall? && outcome.Accept? && outcome.tool != "" then [outcome.tool] else []
  }

  /** The names of the tools a run executes, in order. */
  function ToolsOfRun(env: Env, s: AgentState): seq<string>
    decreases s.maxSteps - s.step
  {
    if !Goes(env, s) then [] else ToolsOfStep(env, s) + ToolsOfRun(env, Iterate(env, s).0)
  }

  // ----- rows that stay running ------------------------------------------

  ghost predicate NoneRunning(rows: seq<ToolRun>) {
    forall i :: 0 <= i < |rows| ==> rows[i].status != RowRunning
  }

  ghost predicate AllFit(tools: seq<string>) {
    forall i :: 0 <= i < |tools| ==> |tools[i]| <= MAX_TOOL_CHARS
  }

  lemma StepRowsAndTools(env: Env, s: AgentState)
    ensures |RowsOfStep(env, s)| == |ToolsOfStep(env, s)| <= 1
    ensures NoneRunning(RowsOfStep(env, s)) <==> AllFit(ToolsOfStep(env, s))
  {
    var rows, tools := RowsOfStep(env, s), ToolsOfStep(env, s);
    if rows != [] {
      assert rows == [rows[0]] && tools == [tools[0]];
      assert rows[0].status == RowRunning <==> |tools[0]| > MAX_TOOL_CHARS;
    }
  }

  lemma NoneRunningConcat(a: seq<ToolRun>, b: seq<ToolRun>)
    ensures NoneRunning(a + b) <==> NoneRunning(a) && NoneRunning(b)
  {
    if NoneRunning(a + b) {
      assert forall i :: 0 <= i < |a| ==> a[i] == (a + b)[i];
      assert forall i :: 0 <= i < |b| ==> b[i] == (a + b)[|a| + i];
    }
  }

  lemma AllFitConcat(a: seq<string>, b: seq<string>)
    ensures AllFit(a + b) <==> AllFit(a) && AllFit(b)
  {
    if AllFit(a + b) {
      assert forall i :: 0 <= i < |a| ==> a[i] == (a + b)[i];
      assert forall i :: 0 <= i < |b| ==> b[i] == (a + b)[|a| + i];
    }
  }

  /** After any run, no row is left `running` exactly when every executed tool's name fits the column. */
  lemma {:induction false} NoRowLeftRunningIff(env: Env, s: AgentState)
    ensures NoneRunning(RowsOfRun(env, s)) <==> AllFit(ToolsOfRun(env, s))
    ensures |RowsOfRun(env, s)| == |ToolsOfRun(env, s)|
    decreases s.maxSteps - s.step
  {
    if Goes(env, s) {
      var s' := Iterate(env, s).0;
      NoRowLeftRunningIff(env, s');
      StepRowsAndTools(env, s);
      NoneRunningConcat(RowsOfStep(env, s), RowsOfRun(env, s'));
      AllFitConcat(ToolsOfStep(env, s), ToolsOfRun(env, s'));
    }
  }

  /** The names of the tools that the backend registers, the two mocks included. */
  const SHIPPED: set<string> := {"nmap", "httpx", "nuclei", "subfinder", "dnsx", "mock_port_scan", "mock_web_probe"}

  /** The validator accepts no other tool. */
  ghost predicate OnlyShipped(env: Env) {
    forall d: Decision, s: AgentState ::
      d.ToolCall? && env.validate(d, s).Accept? ==> env.validate(d, s).tool in SHIPPED
  }

  lemma ShippedFit(tool: string)
    requires tool in SHIPPED
    ensures |tool| <= MAX_TOOL_CHARS
  {
  }

  lemma StepToolsFit(env: Env, s: AgentState)
    requires OnlyShipped(env)
    ensures AllFit(ToolsOfStep(env, s))
  {
    if ToolsOfStep(env, s) != [] {
      ShippedFit(ToolsOfStep(env, s)[0]);
    }
  }

  lemma {:induction false} RunToolsFit(env: Env, s: AgentState)
    requires OnlyShipped(env)
    ensures AllFit(ToolsOfRun(env, s))
    decreases s.maxSteps - s.step
  {
    if Goes(env, s) {
      StepToolsFit(env, s);
      RunToolsFit(env, Iterate(env, s).0);
      AllFitConcat(ToolsOfStep(env, s), ToolsOfRun(env, Iterate(env, s).0));
    }
  }

  /** No run of the shipped tools, whatever they answer or raise, leaves a row `running`. */
  lemma ShippedRowsSettle(env: Env, s: AgentState)
    requires OnlyShipped(env)
    ensures NoneRunning(WrittenAll(SinkState(map[], []), [RunStarted(s.step)] + Loop(env, s).1).rows)
  {
    ProjectionOfRun(env, s);
    RunToolsFit(env, s);
    NoRowLeftRunningIff(env, s);
  }

  /** A planner that calls one tool, a validator that accepts it, and a tool that answers. */
  function OneTool(tool: string, result: Result<ToolResult, string>): Env {
    Env(_ => Success(ToolCall(tool, map[])), (_, _) => Accept(tool), (_, _, _) => result, _ => false)
  }

  const ONE_STEP := AgentState(Running, 0, 1, [], [], [], None)

  const LONG_NAME := seq(MAX_TOOL_CHARS + 1, _ => 'a')

  /** The failing family is not empty: a tool name one character too long, whatever the tool answers. */
  lemma LongNameStaysRunning(result: Result<ToolResult, string>)
    ensures var env := OneTool(LONG_NAME, result);
            !NoneRunning(WrittenAll(SinkState(map[], []), [RunStarted(0)] + Loop(env, ONE_STEP).1).rows)
  {
    var env := OneTool(LONG_NAME, result);
    ProjectionOfRun(env, ONE_STEP);
    NoRowLeftRunningIff(env, ONE_STEP);
    assert ToolsOfStep(env, ONE_STEP) == [LONG_NAME];
    assert ToolsOfRun(env, ONE_STEP)[0] == LONG_NAME;
  }

  // ----- one call --------------------------------------------------------

  /** The text cut to a number of characters. */
  function Cut(s: string, n: nat): string {
    if |s| <= n then s else s[..n]
  }

  /** How a finished call is filed: completed, failed or timed out by what the tool said, failed when it raised. */
  lemma RowMeans(tool: string, params: Params, result: Result<ToolResult, string>)
    ensures var row := RowFor(tool, params, result);
            && row.tool == Cut(tool, 50) && row.parameters == params
            && (|tool| > 50 ==> row.status == RowRunning && row.summary == None)
            && (|tool| <= 50 ==>
                  && (row.status == RowCompleted <==> result.Success? && result.value.status == Ok)
                  && (row.status == RowTimeout <==> result.Success? && result.value.status == Timeout)
                  && (row.status == RowFailed <==> result.Failure? || result.value.status == Error)
                  && row.summary == Some(Cut(if result.Success? then result.value.summary else result.error, 2000)))
  {
  }

  /**
   The three events of a call - proposed, started, finished - add exactly one row, with the
   parameters of its own proposal and the status that the tool's answer calls for.
   */
  lemma CallLeavesRow(k: SinkState, n: nat, name: string, tool: string, params: Params, result: Result<ToolResult, string>)
    requires tool != "" && NamesFit(k.rows)
    ensures var after := WrittenAll(k, [DecisionProposed(n, ToolCall(name, params))] + ToolEvents(n, tool, result));
            && after.rows == k.rows + [RowFor(tool, params, result)]
            && after.proposed == k.proposed - {n}
  {
    var proposed := Written(k, DecisionProposed(n, ToolCall(name, params)));
    WrittenConcat(k, [DecisionProposed(n, ToolCall(name, params))], ToolEvents(n, tool, result));
    WrittenOne(k, DecisionProposed(n, ToolCall(name, params)));
    ToolEventsWriteRow(proposed, n, tool, result);
  }
}
