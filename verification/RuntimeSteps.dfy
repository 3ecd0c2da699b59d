/** One turn of the agent loop, outcome by outcome: what is recorded, executed and announced, in full. */
module RuntimeSteps {
  import opened Wrappers
  import opened AgentRuntime

  /** The three ways the loop ends before a step: no longer running, cancelled, out of budget, in that order. */
  lemma ExitMeans(env: Env, s: AgentState)
    requires s.status != Running || env.cancelled(s) || s.step >= s.maxSteps
    ensures Loop(env, s) ==
            if s.status != Running then (s, [])
            else if env.cancelled(s) then (s.(status := Cancelled, error := None), [RunFinished(s.step, Cancelled)])
            else (s.(status := Failed, error := Some("max_steps reached without Finish")), [RunFailed(s.step)])
  {
  }

  /** A planner that raises ends the run: nothing is proposed, recorded or executed. */
  lemma PlannerRaises(env: Env, s: AgentState)
    requires Goes(env, s) && env.decide(s.(step := s.step + 1)).Failure?
    ensures var s1 := s.(step := s.step + 1);
            Loop(env, s) ==
            (s1.(status := Failed, error := Some("planner error: " + env.decide(s1).error)),
             [StepStarted(s1.step), RunFailed(s1.step)])
  {
    UnfoldLoop(env, s, []);
    IterateFails(env, s);
    var s' := Iterate(env, s).0;
    ExitMeans(env, s');
    assert Iterate(env, s).1 + [] == Iterate(env, s).1;
  }

  /** The state and the events of a decided step, the events in four parts. */
  lemma DecidedMeans(env: Env, s: AgentState, d: Decision, record: StepRecord, acted: seq<Event>)
    requires Goes(env, s) && env.decide(s.(step := s.step + 1)) == Success(d)
    requires Act(env, s.(step := s.step + 1), d) == (record, acted)
    ensures var n, s' := s.step + 1, Iterate(env, s).0;
            && s' == s.(step := n, status := s'.status, error := s'.error,
                        observations := s.observations + (if record.observation.Some? then [record.observation.value] else []),
                        findings := s.findings + (if record.observation.Some? then record.observation.value.findings else []),
                        steps := s.steps + [record])
            && (if d.FinishRun? && record.rejection.None? then s'.status == Finished && s'.error == None
                else s'.status == s.status && s'.error == s.error)
            && Iterate(env, s).1 ==
               [StepStarted(n), DecisionProposed(n, d)] + acted
               + FindingEvents(n, if record.observation.Some? then record.observation.value.findings else [])
               + (if d.FinishRun? && record.rejection.None? then [RunFinished(n, Finished)] else [])
  {
    var n := s.step + 1;
    IterateDecides(env, s, []);
    StepEventsSplit(n, d, record, acted);
    assert [] + Iterate(env, s).1 == Iterate(env, s).1;
    assert [] + [StepStarted(n)] == [StepStarted(n)];
  }

  /** A rejected decision becomes an observation with its reason; no tool is run and nothing else changes. */
  lemma RejectionMeans(env: Env, s: AgentState, d: Decision, r: string)
    requires Goes(env, s) && env.decide(s.(step := s.step + 1)) == Success(d)
    requires env.validate(d, s.(step := s.step + 1)) == Reject(r)
    ensures var n, reason := s.step + 1, if r == "" then "rejected" else r;
            var tool := if d.ToolCall? then Some(d.tool) else None;
            var observation := Observation(n, FromRejection, tool, false, ToolData(None, [], []), []);
            && Iterate(env, s).0 ==
               s.(step := n, observations := s.observations + [observation],
                  steps := s.steps + [StepRecord(n, d, Some(observation), Some(reason))])
            && Iterate(env, s).1 == [StepStarted(n), DecisionProposed(n, d), DecisionRejected(n, reason)]
  {
    var n := s.step + 1;
    var (record, acted) := Act(env, s.(step := n), d);
    DecidedMeans(env, s, d, record, acted);
    assert s.findings + [] == s.findings && FindingEvents(n, []) == [];
    assert [StepStarted(n), DecisionProposed(n, d)] + acted + [] + [] == [StepStarted(n), DecisionProposed(n, d), acted[0]];
  }

  /** An accepted Finish ends the run successfully and is itself recorded. */
  lemma FinishMeans(env: Env, s: AgentState, summary: string, tool: string)
    requires Goes(env, s) && env.decide(s.(step := s.step + 1)) == Success(FinishRun(summary))
    requires env.validate(FinishRun(summary), s.(step := s.step + 1)) == Accept(tool)
    ensures var n := s.step + 1;
            Loop(env, s) ==
            (s.(step := n, status := Finished, error := None,
                steps := s.steps + [StepRecord(n, FinishRun(summary), None, None)]),
             [StepStarted(n), DecisionProposed(n, FinishRun(summary)), RunFinished(n, Finished)])
  {
    var n, d := s.step + 1, FinishRun(summary);
    DecidedMeans(env, s, d, StepRecord(n, d, None, None), []);
    assert s.findings + [] == s.findings && s.observations + [] == s.observations && FindingEvents(n, []) == [];
    assert [StepStarted(n), DecisionProposed(n, d)] + [] + [] + [RunFinished(n, Finished)] ==
           [StepStarted(n), DecisionProposed(n, d), RunFinished(n, Finished)];
    UnfoldLoop(env, s, []);
    ExitMeans(env, Iterate(env, s).0);
    assert Iterate(env, s).1 + [] == Iterate(env, s).1;
  }

  /** What a run of the tool adds to the state: one observation, its findings, and the record of the step. */
  function WithObservation(s: AgentState, n: nat, d: Decision, o: Observation): AgentState {
    s.(step := n, observations := s.observations + [o], findings := s.findings + o.findings,
       steps := s.steps + [StepRecord(n, d, Some(o), None)])
  }

  /** A tool that raises is observed as failed, without data; the run goes on. */
  lemma CallRaises(env: Env, s: AgentState, d: Decision, tool: string, exc: string)
    requires Goes(env, s) && d.ToolCall? && env.decide(s.(step := s.step + 1)) == Success(d)
    requires env.validate(d, s.(step := s.step + 1)) == Accept(tool)
    requires env.execute(tool, d.params, s.(step := s.step + 1)) == Failure(exc)
    ensures var n := s.step + 1;
            && Iterate(env, s).0 ==
               WithObservation(s, n, d, Observation(n, FromError, Some(tool), false, ToolData(None, [], []), []))
            && Iterate(env, s).1 ==
               [StepStarted(n), DecisionProposed(n, d), ToolStarted(n, tool), ToolFinished(n, tool, Error, exc)]
  {
    var n := s.step + 1;
    var o := Observation(n, FromError, Some(tool), false, ToolData(None, [], []), []);
    DecidedMeans(env, s, d, StepRecord(n, d, Some(o), None), [ToolStarted(n, tool), ToolFinished(n, tool, Error, exc)]);
    JoinedEvents(n, d, ToolStarted(n, tool), ToolFinished(n, tool, Error, exc), []);
    assert FindingEvents(n, []) == [];
  }

  /** A tool that returns is observed with its data and findings, and is ok exactly when it says so. */
  lemma CallReturns(env: Env, s: AgentState, d: Decision, tool: string, r: ToolResult)
    requires Goes(env, s) && d.ToolCall? && env.decide(s.(step := s.step + 1)) == Success(d)
    requires env.validate(d, s.(step := s.step + 1)) == Accept(tool)
    requires env.execute(tool, d.params, s.(step := s.step + 1)) == Success(r)
    ensures var n := s.step + 1;
            && Iterate(env, s).0 ==
               WithObservation(s, n, d, Observation(n, FromTool, Some(tool), r.status == Ok, r.data, r.findings))
            && Iterate(env, s).1 ==
               [StepStarted(n), DecisionProposed(n, d), ToolStarted(n, tool), ToolFinished(n, tool, r.status, r.summary)]
               + seq(|r.findings|, i requires 0 <= i < |r.findings| => FindingRecorded(n, r.findings[i]))
  {
    var n := s.step + 1;
    var o := Observation(n, FromTool, Some(tool), r.status == Ok, r.data, r.findings);
    DecidedMeans(env, s, d, StepRecord(n, d, Some(o), None),
                 [ToolStarted(n, tool), ToolFinished(n, tool, r.status, r.summary)]);
    var found := seq(|r.findings|, i requires 0 <= i < |r.findings| => FindingRecorded(n, r.findings[i]));
    assert FindingEvents(n, r.findings) == found;
    JoinedEvents(n, d, ToolStarted(n, tool), ToolFinished(n, tool, r.status, r.summary), found);
  }

  lemma JoinedEvents(n: nat, d: Decision, a: Event, b: Event, found: seq<Event>)
    ensures [StepStarted(n), DecisionProposed(n, d)] + [a, b] + found + [] ==
            [StepStarted(n), DecisionProposed(n, d), a, b] + found
    ensures found == [] ==> [StepStarted(n), DecisionProposed(n, d), a, b] + found == [StepStarted(n), DecisionProposed(n, d), a, b]
  {
  }
}
