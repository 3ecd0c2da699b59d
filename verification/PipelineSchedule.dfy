/**
 What a run of the agent loop under the pipeline planner does, whatever the tools return and
 the gate rejects: nothing at all when the budget is too small, else the whole schedule - unless
 a snapshot host carries padding, in which case the run never gets past nmap.
 */
module PipelineSchedule {
  import opened Wrappers
  import opened Text
  import opened Targets
  import opened AgentRuntime
  import opened SafetyGates
  import opened PipelinePlanning

  // ----- the schedule ----------------------------------------------------

  datatype Slot = Scan(host: string) | Probe(tool: string)

  function ScanSlots(hosts: seq<string>): (r: seq<Slot>)
    ensures |r| == |hosts| && forall i :: 0 <= i < |r| ==> r[i] == Scan(hosts[i])
  {
    seq(|hosts|, i requires 0 <= i < |hosts| => Scan(hosts[i]))
  }

  function ProbeSlots(tools: seq<string>): (r: seq<Slot>)
    ensures |r| == |tools| && forall i :: 0 <= i < |r| ==> r[i] == Probe(tools[i])
  {
    seq(|tools|, i requires 0 <= i < |tools| => Probe(tools[i]))
  }

  /** Every snapshot host in order, then httpx, then nuclei. */
  function Schedule(p: Planner): seq<Slot> {
    ScanSlots(if Scans(p.profile) then p.hosts else []) + ProbeSlots(Probes(p.profile))
  }

  /** The part of the schedule a state has still to go through. */
  function Slots(p: Planner, s: AgentState): seq<Slot> {
    ScanSlots(PendingHosts(p, s)) + ProbeSlots(PendingProbes(p, s))
  }

  predicate Fills(d: Decision, slot: Slot) {
    match slot
    case Scan(host) => d == NmapCall(host)
    case Probe(tool) => d.ToolCall? && d.tool == tool && d.params.Keys == {"targets"}
  }

  /** One decision per slot, in order, and then the run finishes. */
  ghost predicate Follows(steps: seq<StepRecord>, slots: seq<Slot>) {
    && |steps| == |slots| + 1
    && (forall i :: 0 <= i < |slots| ==> Fills(steps[i].decision, slots[i]))
    && steps[|slots|].decision.FinishRun?
  }

  // ----- the environment -------------------------------------------------

  predicate GateOk(d: Decision, outcome: Outcome) {
    && (d.FinishRun? ==> outcome.Accept?)
    && (d.ToolCall? && outcome.Accept? ==> outcome.tool == d.tool)
  }

  /** An nmap result names no target, or the validated target of the call. */
  predicate EchoOk(params: Params, result: Result<ToolResult, string>) {
    result.Success? && result.value.data.target.Some? ==>
      HasStr(params, "target") && result.value.data.target.value == Strip(params["target"].s)
  }

  /** The planner decides, the gate is one of the two validators' shape, tools do anything, nobody cancels. */
  ghost predicate Drives(env: Env, p: Planner) {
    && (forall s: AgentState :: env.decide(s) == Success(Decide(p, s)))
    && (forall s: AgentState :: !env.cancelled(s))
    && (forall d: Decision, s: AgentState :: GateOk(d, env.validate(d, s)))
    && (forall params: Params, s: AgentState :: EchoOk(params, env.execute("nmap", params, s)))
  }

  /** The planner's hosts are those its constructor computed. */
  predicate WellPlanned(p: Planner) {
    p.hosts == PipelineHosts(p.snapshot)
  }

  lemma HostOrigin(p: Planner, h: string)
    requires WellPlanned(p) && h in p.hosts
    ensures h != "" && exists x :: NormalizeTarget(x) == h
  {
    var all := Gather(p.snapshot, HostFormOf);
    DistinctMembers(all);
    GatherIn(p.snapshot, HostFormOf, h);
  }

  lemma HostsDistinct(p: Planner)
    requires WellPlanned(p)
    ensures forall i, j :: 0 <= i < j < |p.hosts| ==> p.hosts[i] != p.hosts[j]
  {
    DistinctMembers(Gather(p.snapshot, HostFormOf));
  }

  // ----- one step --------------------------------------------------------

  /** What the step of a tool decision adds to the coverage. */
  function Contribution(r: StepRecord): set<string> {
    (if r.observation.Some? then CoveredByResult(r.observation.value) else {}) + CoveredByDecision(r.decision)
  }

  lemma ObservationOf(env: Env, p: Planner, s: AgentState, d: Decision)
    requires Drives(env, p) && d.ToolCall?
    ensures var r := Act(env, s, d).0;
            && r.decision == d && r.observation.Some? && r.observation.value.tool == Some(d.tool)
            && (d.tool != "nmap" ==> Contribution(r) == {})
            && (d.tool == "nmap" && HasStr(d.params, "target") ==>
                  CoveredByResult(r.observation.value) <= {Lower(Strip(d.params["target"].s))})
  {
    assert GateOk(d, env.validate(d, s));
    if env.validate(d, s).Accept? && d.tool == "nmap" {
      assert EchoOk(d.params, env.execute("nmap", d.params, s));
    }
  }

  lemma AfterRecord(s: AgentState, r: StepRecord)
    requires r.observation.Some?
    ensures Covered(Recorded(s, r)) == Covered(s) + Contribution(r)
    ensures DoneTools(Recorded(s, r).observations)
         == DoneTools(s.observations) + DoneTools([r.observation.value])
  {
    var s' := Recorded(s, r);
    assert s'.observations[..|s.observations|] == s.observations;
    assert s'.steps[..|s.steps|] == s.steps;
  }

  lemma IterateCall(env: Env, s: AgentState, d: Decision)
    requires s.status == Running && d.ToolCall? && env.decide(s.(step := s.step + 1)) == Success(d)
    ensures var s1 := s.(step := s.step + 1); Iterate(env, s).0 == Recorded(s1, Act(env, s1, d).0)
  {
  }

  /** A tool decision leaves the run going, one step and one observation longer. */
  lemma ToolStep(env: Env, p: Planner, s: AgentState)
    requires Drives(env, p) && s.status == Running
    requires Decide(p, s.(step := s.step + 1)).ToolCall?
    ensures var d, s' := Decide(p, s.(step := s.step + 1)), Iterate(env, s).0;
            && s'.status == Running && |s'.steps| == |s.steps| + 1 && s.steps <= s'.steps
            && s'.steps[|s.steps|].decision == d
            && DoneTools(s'.observations) == DoneTools(s.observations) + (if d.tool != "" then {d.tool} else {})
            && Covered(s') == Covered(s) + Contribution(s'.steps[|s.steps|])
            && s'.steps[|s.steps|] == Act(env, s.(step := s.step + 1), d).0
  {
    var s1 := s.(step := s.step + 1);
    var d := Decide(p, s1);
    assert env.decide(s1) == Success(d);
    var r := Act(env, s1, d).0;
    ObservationOf(env, p, s1, d);
    AfterRecord(s1, r);
    IterateCall(env, s, d);
  }

  /** An nmap call on a host of the snapshot covers the host without its padding, and nothing else. */
  lemma NmapCovers(env: Env, p: Planner, s: AgentState, h: string)
    requires Drives(env, p) && WellPlanned(p) && h in p.hosts
    ensures var r := Act(env, s, NmapCall(h)).0;
            && Contribution(r) <= {Strip(h)}
            && (Stripped(h) ==> Contribution(r) == {h})
  {
    HostOrigin(p, h);
    var x :| NormalizeTarget(x) == h;
    NormalizeTwice(x);
    NormalizedShape(x);
    StripLower(h);
    ObservationOf(env, p, s, NmapCall(h));
    if Stripped(h) {
      StripFixed(h);
    }
  }

  // ----- pending hosts ---------------------------------------------------

  lemma {:induction false} WithoutAbsent(hosts: seq<string>, covered: set<string>, x: string)
    requires x !in hosts
    ensures Without(hosts, covered + {x}) == Without(hosts, covered)
  {
    if hosts != [] {
      WithoutAbsent(hosts[1..], covered, x);
    }
  }

  lemma {:induction false} WithoutIn(hosts: seq<string>, covered: set<string>, x: string)
    ensures x in Without(hosts, covered) <==> x in hosts && x !in covered
  {
    if hosts != [] {
      WithoutIn(hosts[1..], covered, x);
      assert hosts == [hosts[0]] + hosts[1..];
    }
  }

  /** Covering the first pending host leaves the others. */
  lemma {:induction false} WithoutFirst(hosts: seq<string>, covered: set<string>)
    requires forall i, j :: 0 <= i < j < |hosts| ==> hosts[i] != hosts[j]
    requires Without(hosts, covered) != []
    ensures var w := Without(hosts, covered);
            w[0] in hosts && Without(hosts, covered + {w[0]}) == w[1..]
  {
    if hosts[0] in covered {
      assert Without(hosts, covered) == Without(hosts[1..], covered);
      WithoutFirst(hosts[1..], covered);
    } else {
      assert hosts[0] !in hosts[1..];
      WithoutAbsent(hosts[1..], covered, hosts[0]);
      assert Without(hosts, covered)[1..] == Without(hosts[1..], covered);
    }
  }

  lemma {:induction false} WithoutNothing(hosts: seq<string>)
    ensures Without(hosts, {}) == hosts
  {
    if hosts != [] {
      WithoutNothing(hosts[1..]);
    }
  }

  // ----- following the schedule ------------------------------------------

  predicate Clean(p: Planner) {
    Scans(p.profile) ==> forall h :: h in p.hosts ==> IsHostForm(h)
  }

  /** A snapshot host is a host form exactly when it carries no padding. */
  lemma CleanMeansStripped(p: Planner, h: string)
    requires WellPlanned(p) && h in p.hosts
    ensures IsHostForm(h) <==> Stripped(h)
  {
    HostOrigin(p, h);
    var x :| NormalizeTarget(x) == h;
    HostFormIsStripped(x);
  }

  predicate InBudget(p: Planner, s: AgentState) {
    (p.hosts != [] || p.discovered != []) && s.step + Remaining(p, s) + 2 <= s.maxSteps
  }

  lemma NmapTurn(env: Env, p: Planner, s: AgentState)
    requires Drives(env, p) && WellPlanned(p) && Clean(p) && s.status == Running && InBudget(p, s)
    requires PendingHosts(p, s) != []
    ensures var s' := Iterate(env, s).0;
            && s'.status == Running && |s'.steps| == |s.steps| + 1 && s.steps <= s'.steps
            && s'.steps[|s.steps|].decision == NmapCall(PendingHosts(p, s)[0])
            && PendingHosts(p, s') == PendingHosts(p, s)[1..]
            && PendingProbes(p, s') == PendingProbes(p, s)
  {
    var s1 := s.(step := s.step + 1);
    var h := PendingHosts(p, s)[0];
    assert Decide(p, s1) == NmapCall(h);
    ToolStep(env, p, s);
    PendingIsHost(p, s);
    CleanMeansStripped(p, h);
    NmapCovers(env, p, s1, h);
    HostDone(p, s, Iterate(env, s).0);
  }

  lemma PendingIsHost(p: Planner, s: AgentState)
    requires PendingHosts(p, s) != []
    ensures Scans(p.profile) && PendingHosts(p, s)[0] in p.hosts
  {
    WithoutIn(p.hosts, Covered(s), PendingHosts(p, s)[0]);
  }

  /** Covering the first pending host takes it off the list, and nothing else changes. */
  lemma HostDone(p: Planner, s: AgentState, s': AgentState)
    requires WellPlanned(p) && PendingHosts(p, s) != []
    requires Covered(s') == Covered(s) + {PendingHosts(p, s)[0]}
    requires DoneTools(s'.observations) == DoneTools(s.observations) + {"nmap"}
    ensures PendingHosts(p, s') == PendingHosts(p, s)[1..] && PendingProbes(p, s') == PendingProbes(p, s)
  {
    HostsDistinct(p);
    WithoutFirst(p.hosts, Covered(s));
  }

  lemma ProbeTurn(env: Env, p: Planner, s: AgentState)
    requires Drives(env, p) && s.status == Running && InBudget(p, s)
    requires PendingHosts(p, s) == [] && PendingProbes(p, s) != []
    ensures var s', tool := Iterate(env, s).0, PendingProbes(p, s)[0];
            && s'.status == Running && |s'.steps| == |s.steps| + 1 && s.steps <= s'.steps
            && Fills(s'.steps[|s.steps|].decision, Probe(tool))
            && PendingHosts(p, s') == []
            && PendingProbes(p, s') == PendingProbes(p, s)[1..]
  {
    var s1 := s.(step := s.step + 1);
    var tool := PendingProbes(p, s)[0];
    ProbeDecision(p, s);
    ToolStep(env, p, s);
    ObservationOf(env, p, s1, Decide(p, s1));
    assert Covered(Iterate(env, s).0) == Covered(s);
    ProbeDropped(p, s, Iterate(env, s).0);
  }

  lemma ProbeDecision(p: Planner, s: AgentState)
    requires InBudget(p, s) && PendingHosts(p, s) == [] && PendingProbes(p, s) != []
    ensures Fills(Decide(p, s.(step := s.step + 1)), Probe(PendingProbes(p, s)[0]))
    ensures PendingProbes(p, s)[0] in {"httpx", "nuclei"}
  {
    var tool := PendingProbes(p, s)[0];
    assert Decide(p, s.(step := s.step + 1)) == ProbeCall(tool, ProbeTargets(p, tool, s.observations));
  }

  lemma ProbeDropped(p: Planner, s: AgentState, s': AgentState)
    requires PendingProbes(p, s) != []
    requires DoneTools(s'.observations) == DoneTools(s.observations) + {PendingProbes(p, s)[0]}
    ensures PendingProbes(p, s') == PendingProbes(p, s)[1..]
  {
  }

  /** Step plus what remains stays constant along the schedule. */
  lemma ScheduleTurn(env: Env, p: Planner, s: AgentState)
    requires Drives(env, p) && WellPlanned(p) && Clean(p) && s.status == Running && InBudget(p, s)
    requires Remaining(p, s) > 0
    ensures var s' := Iterate(env, s).0;
            && s'.status == Running && |s'.steps| == |s.steps| + 1 && s.steps <= s'.steps
            && Fills(s'.steps[|s.steps|].decision, Slots(p, s)[0])
            && Slots(p, s') == Slots(p, s)[1..]
            && s'.step + Remaining(p, s') == s.step + Remaining(p, s)
  {
    if PendingHosts(p, s) != [] {
      NmapTurn(env, p, s);
    } else {
      ProbeTurn(env, p, s);
    }
    SlotsDrop(p, s, Iterate(env, s).0);
  }

  lemma SlotsDrop(p: Planner, s: AgentState, s': AgentState)
    requires PendingHosts(p, s) != [] ==>
               PendingHosts(p, s') == PendingHosts(p, s)[1..] && PendingProbes(p, s') == PendingProbes(p, s)
    requires PendingHosts(p, s) == [] ==>
               PendingHosts(p, s') == [] && PendingProbes(p, s) != [] && PendingProbes(p, s') == PendingProbes(p, s)[1..]
    ensures Slots(p, s) != [] && Slots(p, s') == Slots(p, s)[1..] && Remaining(p, s') + 1 == Remaining(p, s)
  {
  }

  lemma FinishTurn(env: Env, p: Planner, s: AgentState)
    requires Drives(env, p) && s.status == Running && s.step < s.maxSteps
    requires Decide(p, s.(step := s.step + 1)).FinishRun?
    ensures var final := Loop(env, s).0;
            && final.status == Finished && final.step == s.step + 1
            && |final.steps| == |s.steps| + 1 && s.steps <= final.steps
            && final.steps[|s.steps|].decision.FinishRun?
  {
    var s1 := s.(step := s.step + 1);
    var d := Decide(p, s1);
    assert env.decide(s1) == Success(d);
    assert GateOk(d, env.validate(d, s1));
    assert !env.cancelled(s);
    IterateFinish(env, s, d);
    UnfoldLoop(env, s, []);
    assert Loop(env, Iterate(env, s).0).0 == Iterate(env, s).0;
  }

  lemma IterateFinish(env: Env, s: AgentState, d: Decision)
    requires d.FinishRun? && env.decide(s.(step := s.step + 1)) == Success(d)
    requires env.validate(d, s.(step := s.step + 1)).Accept?
    ensures var s' := Iterate(env, s).0;
            && s'.status == Finished && s'.step == s.step + 1
            && |s'.steps| == |s.steps| + 1 && s.steps <= s'.steps && s'.steps[|s.steps|].decision == d
  {
  }

  /** The run from `s` on ended as scheduled. */
  ghost predicate Completes(p: Planner, s: AgentState, final: AgentState) {
    && final.status == Finished && final.step == s.step + Remaining(p, s) + 1
    && s.steps <= final.steps && Follows(final.steps[|s.steps|..], Slots(p, s))
  }

  lemma CompletesEarlier(p: Planner, s: AgentState, s': AgentState, final: AgentState)
    requires Completes(p, s', final)
    requires |s'.steps| == |s.steps| + 1 && s.steps <= s'.steps && Slots(p, s) != []
    requires Fills(s'.steps[|s.steps|].decision, Slots(p, s)[0]) && Slots(p, s') == Slots(p, s)[1..]
    requires s'.step + Remaining(p, s') == s.step + Remaining(p, s)
    ensures Completes(p, s, final)
  {
    SameStep(s.steps, s'.steps, final.steps);
    FollowsLonger(final.steps, |s.steps|, Slots(p, s));
  }

  lemma {:induction false} RunFollows(env: Env, p: Planner, s: AgentState)
    requires Drives(env, p) && WellPlanned(p) && Clean(p) && s.status == Running && InBudget(p, s)
    ensures Completes(p, s, Loop(env, s).0)
    decreases Remaining(p, s)
  {
    if Remaining(p, s) == 0 {
      FinishTurn(env, p, s);
    } else {
      var s' := Iterate(env, s).0;
      ScheduleTurn(env, p, s);
      assert !env.cancelled(s);
      UnfoldLoop(env, s, []);
      RunFollows(env, p, s');
      CompletesEarlier(p, s, s', Loop(env, s').0);
    }
  }

  lemma SameStep(a: seq<StepRecord>, b: seq<StepRecord>, c: seq<StepRecord>)
    requires a <= b <= c && |b| == |a| + 1
    ensures a <= c && c[|a|] == b[|a|]
  {
  }

  lemma FollowsLonger(steps: seq<StepRecord>, n: nat, slots: seq<Slot>)
    requires n < |steps| && slots != []
    requires Fills(steps[n].decision, slots[0]) && Follows(steps[n + 1..], slots[1..])
    ensures Follows(steps[n..], slots)
  {
    forall i | 0 <= i < |slots| ensures Fills(steps[n..][i].decision, slots[i]) {
      if i > 0 {
        assert slots[i] == slots[1..][i - 1] && steps[n..][i] == steps[n + 1..][i - 1];
      }
    }
  }

  // ----- never getting past nmap -----------------------------------------

  predicate OnlyNmap(steps: seq<StepRecord>) {
    forall i :: 0 <= i < |steps| ==> steps[i].decision.FinishRun? || steps[i].decision.tool == "nmap"
  }

  predicate AllStripped(names: set<string>) {
    forall n :: n in names ==> Stripped(n)
  }

  /** A padded host is never covered, so it stays pending. */
  lemma StuckTurn(env: Env, p: Planner, s: AgentState, h: string)
    requires Drives(env, p) && WellPlanned(p) && Scans(p.profile) && s.status == Running
    requires h in p.hosts && !Stripped(h) && AllStripped(Covered(s))
    ensures PendingHosts(p, s) != []
    ensures Decide(p, s.(step := s.step + 1)).ToolCall? ==>
              var s' := Iterate(env, s).0;
              && s'.status == Running && |s'.steps| == |s.steps| + 1 && s.steps <= s'.steps
              && s'.steps[|s.steps|].decision == NmapCall(PendingHosts(p, s)[0])
              && AllStripped(Covered(s')) && s'.step + 1 <= s.maxSteps
  {
    var s1 := s.(step := s.step + 1);
    WithoutIn(p.hosts, Covered(s), h);
    if Decide(p, s1).ToolCall? {
      var first := PendingHosts(p, s)[0];
      WithoutIn(p.hosts, Covered(s), first);
      assert Decide(p, s1) == NmapCall(first);
      ToolStep(env, p, s);
      NmapCovers(env, p, s1, first);
    }
  }

  lemma {:induction false} RunSticks(env: Env, p: Planner, s: AgentState, h: string)
    requires Drives(env, p) && WellPlanned(p) && Scans(p.profile) && s.status == Running && s.step < s.maxSteps
    requires h in p.hosts && !Stripped(h) && AllStripped(Covered(s)) && OnlyNmap(s.steps)
    ensures Loop(env, s).0.status == Finished && OnlyNmap(Loop(env, s).0.steps)
    decreases s.maxSteps - s.step
  {
    if Decide(p, s.(step := s.step + 1)).FinishRun? {
      FinishTurn(env, p, s);
      OnlyNmapSnoc(s.steps, Loop(env, s).0.steps);
    } else {
      StuckStep(env, p, s, h);
      RunSticks(env, p, Iterate(env, s).0, h);
    }
  }

  lemma OnlyNmapSnoc(a: seq<StepRecord>, b: seq<StepRecord>)
    requires OnlyNmap(a) && a <= b && |b| == |a| + 1
    requires b[|a|].decision.FinishRun? || b[|a|].decision.tool == "nmap"
    ensures OnlyNmap(b)
  {
    assert forall i :: 0 <= i < |a| ==> b[i] == a[i];
  }

  lemma StuckStep(env: Env, p: Planner, s: AgentState, h: string)
    requires Drives(env, p) && WellPlanned(p) && Scans(p.profile) && s.status == Running && s.step < s.maxSteps
    requires h in p.hosts && !Stripped(h) && AllStripped(Covered(s)) && OnlyNmap(s.steps)
    requires Decide(p, s.(step := s.step + 1)).ToolCall?
    ensures var s' := Iterate(env, s).0;
            && s'.status == Running && s'.step < s'.maxSteps && AllStripped(Covered(s')) && OnlyNmap(s'.steps)
            && Loop(env, s).0 == Loop(env, s').0
  {
    StuckTurn(env, p, s, h);
    OnlyNmapSnoc(s.steps, Iterate(env, s).0.steps);
    assert !env.cancelled(s);
    LoopState(env, s);
  }

  // ----- the theorem -----------------------------------------------------

  predicate Fresh(s: AgentState) {
    s.status == Running && s.step == 0 && s.observations == [] && s.steps == [] && s.maxSteps >= 1
  }

  lemma FreshSlots(p: Planner, s: AgentState)
    requires Fresh(s)
    ensures Slots(p, s) == Schedule(p) && Remaining(p, s) == |Schedule(p)|
  {
    WithoutNothing(p.hosts);
    assert Covered(s) == {} && DoneTools(s.observations) == {};
  }

  predicate Runs(p: Planner, s: AgentState) {
    (p.hosts != [] || p.discovered != []) && |Schedule(p)| + 2 <= s.maxSteps
  }

  /** Without enough budget for the whole schedule, or without targets, no tool is called at all. */
  lemma NothingOrAll(env: Env, p: Planner, s: AgentState)
    requires Drives(env, p) && WellPlanned(p) && Fresh(s) && !Runs(p, s)
    ensures var final := Loop(env, s).0;
            final.status == Finished && final.step == 1 && |final.steps| == 1 && final.steps[0].decision.FinishRun?
  {
    FreshSlots(p, s);
    FinishTurn(env, p, s);
  }

  /**
   With enough budget the run makes exactly the scheduled decisions, whatever the tools return
   and the gate rejects, if and only if every scanned host is a host form; otherwise no probe
   ever runs. It never fails on max_steps either way.
   */
  lemma ScheduleIff(env: Env, p: Planner, s: AgentState)
    requires Drives(env, p) && WellPlanned(p) && Fresh(s) && Runs(p, s)
    ensures var final := Loop(env, s).0;
            && final.status == Finished
            && (Clean(p) <==> Follows(final.steps, Schedule(p)))
            && (Clean(p) ==> final.step == |Schedule(p)| + 1)
            && (!Clean(p) ==> OnlyNmap(final.steps))
  {
    FreshSlots(p, s);
    var final := Loop(env, s).0;
    if Clean(p) {
      RunFollows(env, p, s);
      assert final.steps[0..] == final.steps;
    } else {
      var h :| h in p.hosts && !IsHostForm(h);
      CleanMeansStripped(p, h);
      RunSticks(env, p, s, h);
      NmapAloneMissesProbes(p, final.steps);
    }
  }

  /** The two theorems together: what an undisturbed run ends with. */
  ghost predicate AsScheduled(p: Planner, s: AgentState, final: AgentState) {
    && final.status == Finished
    && if Runs(p, s) then
         (Clean(p) <==> Follows(final.steps, Schedule(p))) && (!Clean(p) ==> OnlyNmap(final.steps))
       else
         final.step == 1 && |final.steps| == 1 && final.steps[0].decision.FinishRun?
  }

  lemma UndisturbedRun(env: Env, p: Planner, s: AgentState)
    requires Drives(env, p) && WellPlanned(p) && Fresh(s)
    ensures AsScheduled(p, s, Loop(env, s).0)
  {
    if Runs(p, s) {
      ScheduleIff(env, p, s);
    } else {
      NothingOrAll(env, p, s);
    }
  }

  lemma NmapAloneMissesProbes(p: Planner, steps: seq<StepRecord>)
    requires OnlyNmap(steps)
    ensures !Follows(steps, Schedule(p))
  {
    ProbeIsScheduled(p);
    var k := |Schedule(p)| - 1;
    var last := Schedule(p)[k];
    if k < |steps| {
      assert !Fills(steps[k].decision, last);
    }
  }

  lemma ProbeIsScheduled(p: Planner)
    ensures Schedule(p) != []
    ensures var last := Schedule(p)[|Schedule(p)| - 1];
            last.Probe? && last.tool in {"httpx", "nuclei"}
  {
  }

  /** The failing family is not empty: a URL whose host starts with a blank. */
  lemma PaddedSnapshotIsNotClean(profile: Profile, discovered: seq<string>)
    requires Scans(profile)
    ensures var snapshot := [Entry(UrlEntry, "http" + "://" + " a")];
            var p := Planner(profile, snapshot, PipelineHosts(snapshot), discovered);
            WellPlanned(p) && !Clean(p)
  {
    PaddedUrlHost();
    var snapshot := [Entry(UrlEntry, "http" + "://" + " a")];
    GatherIn(snapshot, HostFormOf, " a");
    assert snapshot[0] in snapshot;
    assert " a" in HostFormOf(snapshot[0]);
    DistinctMembers(Gather(snapshot, HostFormOf));
    OneValue(snapshot[0]);
    assert " a" in PipelineHosts(snapshot);
  }

  lemma OneValue(e: ScopeEntry)
    ensures |Distinct(Gather([e], HostFormOf))| <= 1
  {
    assert [e][..0] == [];
    GatherStep([e], 0, HostFormOf);
    assert [e][..1] == [e];
    assert Gather([e][..0], HostFormOf) == [];
  }
}
