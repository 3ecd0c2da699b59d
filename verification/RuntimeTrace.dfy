/** What every run of the agent loop guarantees about its state and its event trace. */
module RuntimeTrace {
  import opened Wrappers
  import opened AgentRuntime

  // ----- the event grammar, as an automaton that knows nothing of the loop ----

  datatype Phase =
    | Start
    | Between(step: nat)
    | Deciding(step: nat)
    | Decided(step: nat, finish: bool)
    | InTool(step: nat, tool: string)
    | Recording(step: nat)
    | Ended(outcome: RunStatus)
    | Bad

  function FromIdle(n: nat, e: Event): Phase {
    match e
    case StepStarted(k) => if k == n + 1 then Deciding(k) else Bad
    case RunFinished(k, outcome) => if k == n && outcome == Cancelled then Ended(Cancelled) else Bad
    case RunFailed(k) => if k == n then Ended(Failed) else Bad
    case _ => Bad
  }

  function Delta(q: Phase, e: Event): Phase {
    match q
    case Start => if e.RunStarted? then Between(e.step) else Bad
    case Between(n) => FromIdle(n, e)
    case Deciding(n) =>
      if e.DecisionProposed? && e.step == n then Decided(n, e.decision.FinishRun?)
      else if e == RunFailed(n) then Ended(Failed)
      else Bad
    case Decided(n, finish) =>
      if e.DecisionRejected? && e.step == n then Between(n)
      else if e.ToolStarted? && e.step == n && !finish then InTool(n, e.tool)
      else if e == RunFinished(n, Finished) && finish then Ended(Finished)
      else Bad
    case InTool(n, tool) => if e.ToolFinished? && e.step == n && e.tool == tool then Recording(n) else Bad
    case Recording(n) => if e.FindingRecorded? && e.step == n then Recording(n) else FromIdle(n, e)
    case Ended(_) => Bad
    case Bad => Bad
  }

  function Parse(q: Phase, events: seq<Event>): Phase
    decreases |events|
  {
    if events == [] then q else Parse(Delta(q, events[0]), events[1..])
  }

  lemma {:induction false} ParseConcat(q: Phase, a: seq<Event>, b: seq<Event>)
    ensures Parse(q, a + b) == Parse(Parse(q, a), b)
    decreases |a|
  {
    if a == [] {
      assert a + b == b;
    } else {
      assert (a + b)[1..] == a[1..] + b;
      ParseConcat(Delta(q, a[0]), a[1..], b);
    }
  }

  predicate Idle(q: Phase, n: nat) {
    q == Between(n) || q == Recording(n)
  }

  lemma {:induction false} ParseFindings(n: nat, findings: seq<Finding>)
    ensures Parse(Recording(n), FindingEvents(n, findings)) == Recording(n)
  {
    if findings != [] {
      assert FindingEvents(n, findings)[1..] == FindingEvents(n, findings[1..]);
      ParseFindings(n, findings[1..]);
    }
  }

  lemma ParseAct(env: Env, s: AgentState, d: Decision)
    ensures var (record, events) := Act(env, s, d);
            Parse(Decided(s.step, d.FinishRun?), events + FindingEvents(s.step, FindingsOf(record))) ==
            if record.rejection.Some? then Between(s.step)
            else if d.FinishRun? then Decided(s.step, true)
            else Recording(s.step)
  {
    var (record, events) := Act(env, s, d);
    var found := FindingEvents(s.step, FindingsOf(record));
    ParseConcat(Decided(s.step, d.FinishRun?), events, found);
    if record.rejection.Some? || d.FinishRun? {
      assert found == [];
    } else {
      assert events[1..] == [events[1]];
      ParseFindings(s.step, FindingsOf(record));
    }
  }

  lemma ParseIterate(env: Env, s: AgentState, q: Phase)
    requires s.status == Running && Idle(q, s.step)
    ensures var (s', events) := Iterate(env, s);
            if s'.status == Running then Idle(Parse(q, events), s'.step) else Parse(q, events) == Ended(s'.status)
  {
    var n := s.step + 1;
    var s1 := s.(step := n);
    match env.decide(s1)
    case Failure(_) =>
      assert [StepStarted(n), RunFailed(n)][1..] == [RunFailed(n)];
      assert Parse(Deciding(n), [RunFailed(n)]) == Ended(Failed);
    case Success(d) =>
      var (record, events) := Act(env, s1, d);
      ParseDecided(env, s1, d, q);
      StepEventsSplit(n, d, record, events);
      var all := [StepStarted(n), DecisionProposed(n, d)] + events + FindingEvents(n, FindingsOf(record));
      if EndsRun(record) {
        ParseConcat(q, all, [RunFinished(n, Finished)]);
      } else {
        assert all + [] == all;
      }
  }

  /** The events of one decided step; `s1` is the state with the step counted. */
  lemma ParseDecided(env: Env, s1: AgentState, d: Decision, q: Phase)
    requires s1.step > 0 && Idle(q, s1.step - 1)
    ensures var (record, events) := Act(env, s1, d);
            var n := s1.step;
            Parse(q, [StepStarted(n), DecisionProposed(n, d)] + events + FindingEvents(n, FindingsOf(record))) ==
            if record.rejection.Some? then Between(n) else if d.FinishRun? then Decided(n, true) else Recording(n)
  {
    var n := s1.step;
    var (record, events) := Act(env, s1, d);
    var found := FindingEvents(n, FindingsOf(record));
    var head := [StepStarted(n), DecisionProposed(n, d)];
    assert head[1..] == [DecisionProposed(n, d)];
    ParseConcat(q, head, events + found);
    ParseAct(env, s1, d);
    assert head + events + found == head + (events + found);
  }

  lemma {:induction false} ParseLoop(env: Env, s: AgentState, q: Phase)
    requires s.status == Running && Idle(q, s.step)
    ensures Parse(q, Loop(env, s).1) == Ended(Loop(env, s).0.status)
    decreases s.maxSteps - s.step
  {
    if Goes(env, s) {
      var (s', events) := Iterate(env, s);
      ParseIterate(env, s, q);
      ParseConcat(q, events, Loop(env, s').1);
      if s'.status == Running {
        ParseLoop(env, s', Parse(q, events));
      }
    }
  }

  predicate IsFinal(e: Event) {
    e.RunFinished? || e.RunFailed?
  }

  lemma {:induction false} BadStaysBad(events: seq<Event>)
    ensures Parse(Bad, events) == Bad
  {
    if events != [] {
      BadStaysBad(events[1..]);
    }
  }

  lemma {:induction false} EndedOnce(q: Phase, events: seq<Event>)
    requires !q.Ended? && Parse(q, events).Ended?
    ensures events != [] && IsFinal(events[|events| - 1])
    ensures forall i :: 0 <= i < |events| - 1 ==> !IsFinal(events[i])
    decreases |events|
  {
    var q1 := Delta(q, events[0]);
    if q1.Ended? {
      if |events| > 1 {
        BadStaysBad(events[1..][1..]);
      }
    } else {
      var rest := events[1..];
      BadStaysBad(rest);
      EndedOnce(q1, rest);
      forall i | 0 <= i < |events| - 1 ensures !IsFinal(events[i]) {
        if i > 0 {
          assert events[i] == rest[i - 1];
        }
      }
    }
  }

  /**
   Whatever planner, validator and tools do, a run started in `running` ends, and its events
   are run.started, then complete steps, then exactly one final event that matches the status.
   */
  lemma TraceGrammar(env: Env, s: AgentState)
    requires s.status == Running
    ensures
      var (final, rest) := Loop(env, s);
      var trace := [RunStarted(s.step)] + rest;
      && final.status != Running
      && Parse(Start, trace) == Ended(final.status)
      && IsFinal(trace[|trace| - 1])
      && (forall i :: 0 <= i < |trace| - 1 ==> !IsFinal(trace[i]))
      && (final.status == Failed <==> trace[|trace| - 1].RunFailed?)
  {
    var (final, rest) := Loop(env, s);
    var trace := [RunStarted(s.step)] + rest;
    assert trace[1..] == rest;
    ParseLoop(env, s, Between(s.step));
    EndedOnce(Start, trace);
    LoopEnds(env, s);
    LastEventTells(Start, trace);
  }

  lemma {:induction false} LastEventTells(q: Phase, events: seq<Event>)
    requires !q.Ended? && events != [] && Parse(q, events).Ended?
    ensures Parse(q, events).outcome == Failed <==> events[|events| - 1].RunFailed?
    decreases |events|
  {
    var q1 := Delta(q, events[0]);
    if |events| > 1 {
      if q1.Ended? {
        BadStaysBad(events[1..][1..]);
      } else {
        LastEventTells(q1, events[1..]);
      }
    }
  }

  // ----- the state -------------------------------------------------------

  /** The loop stops within the step budget, and records one step per iteration it completes. */
  lemma {:induction false} LoopEnds(env: Env, s: AgentState)
    ensures var final := Loop(env, s).0;
            && final.status != Running
            && s.step <= final.step && (s.step <= s.maxSteps ==> final.step <= s.maxSteps)
            && final.maxSteps == s.maxSteps
            && |s.steps| <= |final.steps|
            && final.step - s.step - 1 <= |final.steps| - |s.steps| <= final.step - s.step
    decreases s.maxSteps - s.step
  {
    if Goes(env, s) {
      LoopEnds(env, Iterate(env, s).0);
    }
  }

  ghost function AllFindings(observations: seq<Observation>): seq<Finding> {
    if observations == [] then []
    else AllFindings(observations[..|observations| - 1]) + observations[|observations| - 1].findings
  }

  /** The run's findings are those of its observations, in order. */
  lemma {:induction false} FindingsAreObserved(env: Env, s: AgentState)
    requires s.findings == AllFindings(s.observations)
    ensures Loop(env, s).0.findings == AllFindings(Loop(env, s).0.observations)
    decreases s.maxSteps - s.step
  {
    if Goes(env, s) {
      var s' := Iterate(env, s).0;
      if |s'.observations| > |s.observations| {
        assert s'.observations[..|s'.observations| - 1] == s.observations;
      } else {
        assert s'.observations == s.observations;
        assert s'.findings == s.findings;
      }
      FindingsAreObserved(env, s');
    }
  }

  /** The states in which a run asks for the cancel event, in order. */
  function Polled(env: Env, s: AgentState): seq<AgentState>
    decreases s.maxSteps - s.step
  {
    if s.status != Running then []
    else if Goes(env, s) then [s] + Polled(env, Iterate(env, s).0)
    else [s]
  }

  predicate SeesCancel(env: Env, states: seq<AgentState>) {
    exists i :: 0 <= i < |states| && env.cancelled(states[i])
  }

  /** The state in which the loop stopped, when the final state reports a cancellation. */
  function BeforeCancel(final: AgentState, error: Option<string>): AgentState {
    final.(status := Running, error := error)
  }

  lemma IterateKeepsError(env: Env, s: AgentState)
    requires s.status == Running
    ensures Iterate(env, s).0.status in {Running, Finished, Failed}
    ensures Iterate(env, s).0.status == Running ==> Iterate(env, s).0.error == s.error
  {
  }

  lemma PollsLater(env: Env, s: AgentState, later: seq<AgentState>)
    requires !env.cancelled(s)
    ensures SeesCancel(env, [s] + later) <==> SeesCancel(env, later)
  {
    if i :| 0 <= i < |later| && env.cancelled(later[i]) {
      assert ([s] + later)[i + 1] == later[i];
    }
  }

  /**
   A run reports `cancelled` exactly when one of its own polls saw the event set. Then it is the
   last poll, and the final state is the state of that poll, closed as cancelled.
   */
  lemma {:induction false} CancelledMeansObserved(env: Env, s: AgentState)
    requires s.status == Running
    ensures var final, polled := Loop(env, s).0, Polled(env, s);
            && (final.status == Cancelled <==> SeesCancel(env, polled))
            && (final.status == Cancelled ==>
                  polled != [] && polled[|polled| - 1] == BeforeCancel(final, s.error)
                  && env.cancelled(BeforeCancel(final, s.error)))
    decreases s.maxSteps - s.step
  {
    if Goes(env, s) {
      var s' := Iterate(env, s).0;
      IterateKeepsError(env, s);
      UnfoldLoop(env, s, []);
      PollsLater(env, s, Polled(env, s'));
      if s'.status == Running {
        CancelledMeansObserved(env, s');
      }
    } else if env.cancelled(s) {
      assert [s][0] == s;
    }
  }
}
