/**
 One pipeline-mode scan end to end (backend/services/scan_manager.py): resolve the scope, run
 discovery, sanitize what it promoted, and drive the agent loop under the narrow gate - and where
 every host comes from that a tool is ever run against.
 */
module ScanPipeline {
  import opened Wrappers
  import opened Text
  import opened Hostnames
  import opened Targets
  import opened AgentRuntime
  import opened SafetyGates
  import G = GateParameters
  import T = PlannerTargets
  import P = PipelinePlanning
  import D = Discovery
  import F = DiscoveryFacts
  import A = DiscoveryAccounting
  import S = PipelineSchedule
  import E = EventSink

  // ----- provenance ------------------------------------------------------

  /** The target means a snapshot host form, or a forward-DNS answer of one. */
  ghost predicate FromSnapshot(snapshot: seq<ScopeEntry>, dns: Resolver, target: string) {
    exists a :: Authorized(snapshot, dns, a) && NormalizeTarget(a) == NormalizeTarget(target)
  }

  /** A name that is a snapshot name or lies below one, label by label. */
  predicate BelowSnapshot(snapshot: seq<ScopeEntry>, name: string) {
    exists e :: e in snapshot && ParentOf(e).Some? && IsWithinDomain(name, ParentOf(e).value)
  }

  /** The target means a name below the snapshot. */
  ghost predicate FromDiscovery(snapshot: seq<ScopeEntry>, target: string) {
    exists h :: BelowSnapshot(snapshot, h) && NormalizeTarget(h) == NormalizeTarget(target)
  }

  /** The allowlist holds exactly the authorized targets. */
  ghost predicate Resolves(allowed: seq<string>, snapshot: seq<ScopeEntry>, dns: Resolver) {
    forall t :: t in allowed <==> Authorized(snapshot, dns, t)
  }

  predicate AllBelow(snapshot: seq<ScopeEntry>, hosts: seq<string>) {
    forall h :: h in hosts ==> BelowSnapshot(snapshot, h)
  }

  // ----- promoted hosts --------------------------------------------------

  /** Whatever is sanitized lies below the snapshot. */
  lemma SanitizedBelow(hosts: seq<string>, parents: seq<string>, snapshot: seq<ScopeEntry>)
    requires P.IsParentList(snapshot, parents)
    ensures AllBelow(snapshot, P.Sanitized(hosts, parents))
  {
    var all := Gather(hosts, P.PromotedOf(parents));
    var kept := CapTo(Distinct(all), P.MAX_PROMOTED_HOSTS);
    forall h | h in P.Sanitized(hosts, parents) ensures BelowSnapshot(snapshot, h) {
      assert h in Elements(Sorted(kept));
      DistinctMembers(all);
      GatherIn(hosts, P.PromotedOf(parents), h);
      DescendantIsBelow(snapshot, parents, h);
    }
  }

  lemma DescendantIsBelow(snapshot: seq<ScopeEntry>, parents: seq<string>, h: string)
    requires P.IsParentList(snapshot, parents) && DescendsFrom(h, parents)
    ensures BelowSnapshot(snapshot, h)
  {
    var p :| p in parents && IsWithinDomain(h, p);
    assert IsParent(snapshot, p);
    var e :| e in snapshot && ParentOf(e) == Some(p);
  }

  // ----- the agent loop --------------------------------------------------

  ghost predicate TargetSound(snapshot: seq<ScopeEntry>, dns: Resolver, tool: string, target: string) {
    FromSnapshot(snapshot, dns, target) || (tool == "httpx" && FromDiscovery(snapshot, target))
  }

  /**
   Every text that the call hands to its tool has a provenance: the one target of nmap, and each
   single item of the lists of httpx and nuclei. Only httpx may go below the snapshot.
   */
  ghost predicate CallSound(snapshot: seq<ScopeEntry>, dns: Resolver, d: Decision) {
    d.ToolCall? ==>
      && (d.tool == "nmap" ==>
            && "target" in d.params && d.params["target"].JStr?
            && FromSnapshot(snapshot, dns, Strip(d.params["target"].s)))
      && (d.tool in {"httpx", "nuclei"} ==>
            && "targets" in d.params && d.params["targets"].JList?
            && forall i :: 0 <= i < |d.params["targets"].items| ==>
                 ItemSound(snapshot, dns, d.tool, d.params["targets"].items[i]))
  }

  ghost predicate ItemSound(snapshot: seq<ScopeEntry>, dns: Resolver, tool: string, item: Json) {
    item.JStr? && TargetSound(snapshot, dns, tool, Strip(item.s))
  }

  predicate Executed(step: StepRecord) {
    step.decision.ToolCall? && step.rejection.None?
  }

  ghost predicate StepsSound(snapshot: seq<ScopeEntry>, dns: Resolver, steps: seq<StepRecord>) {
    forall i :: 0 <= i < |steps| && Executed(steps[i]) ==> CallSound(snapshot, dns, steps[i].decision)
  }

  lemma PolicyTargetSound(
    snapshot: seq<ScopeEntry>, dns: Resolver, allowed: seq<string>, eligible: seq<string>, tool: string, t: string)
    requires Resolves(allowed, snapshot, dns) && AllBelow(snapshot, eligible)
    requires TargetAllowed(allowed, t) || (tool == "httpx" && Eligible(eligible, t))
    ensures TargetSound(snapshot, dns, tool, t)
  {
    if TargetAllowed(allowed, t) {
      var a :| a in allowed && NormalizeTarget(a) == NormalizeTarget(t);
      assert Authorized(snapshot, dns, a);
    } else {
      var h :| h in eligible && NormalizeTarget(h) == NormalizeTarget(t);
      assert BelowSnapshot(snapshot, h);
    }
  }

  /** An accepted call is sound, item by item. */
  lemma AcceptedIsSound(snapshot: seq<ScopeEntry>, dns: Resolver, base: Validator, eligible: seq<string>, d: Decision)
    requires Resolves(base.policy.allowed, snapshot, dns) && AllBelow(snapshot, eligible)
    requires ValidatePromoted(base, eligible, d).Accept?
    ensures CallSound(snapshot, dns, d)
  {
    if d.ToolCall? {
      if d.tool == "nmap" {
        G.NmapAccepted(base, d.params);
        AllowedIsSound(snapshot, dns, base, eligible, d.tool, d.params["target"].s);
      } else if d.tool in {"httpx", "nuclei"} {
        AcceptedItems(base, eligible, d);
        forall i | 0 <= i < |d.params["targets"].items|
          ensures ItemSound(snapshot, dns, d.tool, d.params["targets"].items[i])
        {
          AllowedIsSound(snapshot, dns, base, eligible, d.tool, d.params["targets"].items[i].s);
        }
      }
    }
  }

  lemma AcceptedItems(base: Validator, eligible: seq<string>, d: Decision)
    requires d.ToolCall? && d.tool in {"httpx", "nuclei"} && ValidatePromoted(base, eligible, d).Accept?
    ensures "targets" in d.params && d.params["targets"].JList?
    ensures forall i :: 0 <= i < |d.params["targets"].items| ==>
              && d.params["targets"].items[i].JStr?
              && (|| TargetAllowed(base.policy.allowed, d.params["targets"].items[i].s)
                  || (d.tool == "httpx" && Eligible(eligible, d.params["targets"].items[i].s)))
  {
    if d.tool == "httpx" {
      G.PromotedAccepted(base, eligible, d.params);
    } else {
      G.ListAccepted(base, d.tool, d.params);
    }
  }

  lemma AllowedIsSound(
    snapshot: seq<ScopeEntry>, dns: Resolver, base: Validator, eligible: seq<string>, tool: string, text: string)
    requires Resolves(base.policy.allowed, snapshot, dns) && AllBelow(snapshot, eligible)
    requires TargetAllowed(base.policy.allowed, text) || (tool == "httpx" && Eligible(eligible, text))
    ensures TargetSound(snapshot, dns, tool, Strip(text))
  {
    PolicyTargetSound(snapshot, dns, base.policy.allowed, eligible, tool, text);
    SamePadding(snapshot, dns, tool, text);
  }

  lemma SamePadding(snapshot: seq<ScopeEntry>, dns: Resolver, tool: string, t: string)
    requires TargetSound(snapshot, dns, tool, t)
    ensures TargetSound(snapshot, dns, tool, Strip(t))
  {
    NormalizeIgnoresPadding(t);
  }

  ghost predicate Gated(env: Env, base: Validator, eligible: seq<string>) {
    forall d: Decision, s: AgentState :: env.validate(d, s) == ValidatePromoted(base, eligible, d)
  }

  /** Along every run, whatever the planner and the tools do, executed calls are sound. */
  lemma {:induction false} RunIsSound(
    env: Env, s: AgentState, snapshot: seq<ScopeEntry>, dns: Resolver, base: Validator, eligible: seq<string>)
    requires Gated(env, base, eligible) && Resolves(base.policy.allowed, snapshot, dns) && AllBelow(snapshot, eligible)
    requires StepsSound(snapshot, dns, s.steps)
    ensures StepsSound(snapshot, dns, Loop(env, s).0.steps)
    decreases s.maxSteps - s.step
  {
    if Goes(env, s) {
      StepIsSound(env, s, snapshot, dns, base, eligible);
      UnfoldLoop(env, s, []);
      RunIsSound(env, Iterate(env, s).0, snapshot, dns, base, eligible);
    }
  }

  lemma StepIsSound(
    env: Env, s: AgentState, snapshot: seq<ScopeEntry>, dns: Resolver, base: Validator, eligible: seq<string>)
    requires Gated(env, base, eligible) && Resolves(base.policy.allowed, snapshot, dns) && AllBelow(snapshot, eligible)
    requires StepsSound(snapshot, dns, s.steps)
    ensures StepsSound(snapshot, dns, Iterate(env, s).0.steps)
  {
    E.IterateAddsStep(env, s);
    StepOfIsSound(env, s, snapshot, dns, base, eligible);
    SoundConcat(snapshot, dns, s.steps, E.StepOf(env, s));
  }

  lemma SoundConcat(snapshot: seq<ScopeEntry>, dns: Resolver, a: seq<StepRecord>, b: seq<StepRecord>)
    requires StepsSound(snapshot, dns, a) && StepsSound(snapshot, dns, b)
    ensures StepsSound(snapshot, dns, a + b)
  {
  }

  lemma StepOfIsSound(
    env: Env, s: AgentState, snapshot: seq<ScopeEntry>, dns: Resolver, base: Validator, eligible: seq<string>)
    requires Gated(env, base, eligible) && Resolves(base.policy.allowed, snapshot, dns) && AllBelow(snapshot, eligible)
    ensures StepsSound(snapshot, dns, E.StepOf(env, s))
  {
    var s1 := s.(step := s.step + 1);
    if env.decide(s1).Success? {
      var r := SoundRecord(env, s, snapshot, dns, base, eligible);
      OneSound(snapshot, dns, r);
    } else {
      NothingRecorded(env, s);
    }
  }

  lemma NothingRecorded(env: Env, s: AgentState)
    requires env.decide(s.(step := s.step + 1)).Failure?
    ensures E.StepOf(env, s) == []
  {
  }

  /** The record of a decided step. */
  lemma SoundRecord(
    env: Env, s: AgentState, snapshot: seq<ScopeEntry>, dns: Resolver, base: Validator, eligible: seq<string>)
    returns (r: StepRecord)
    requires env.decide(s.(step := s.step + 1)).Success?
    requires Gated(env, base, eligible) && Resolves(base.policy.allowed, snapshot, dns) && AllBelow(snapshot, eligible)
    ensures E.StepOf(env, s) == [r] && (Executed(r) ==> CallSound(snapshot, dns, r.decision))
  {
    var s1 := s.(step := s.step + 1);
    RecordIsSound(env, s1, env.decide(s1).value, snapshot, dns, base, eligible);
    r := Act(env, s1, env.decide(s1).value).0;
  }

  lemma OneSound(snapshot: seq<ScopeEntry>, dns: Resolver, r: StepRecord)
    requires Executed(r) ==> CallSound(snapshot, dns, r.decision)
    ensures StepsSound(snapshot, dns, [r])
  {
  }

  lemma RecordIsSound(
    env: Env, s: AgentState, d: Decision, snapshot: seq<ScopeEntry>, dns: Resolver, base: Validator,
    eligible: seq<string>)
    requires Gated(env, base, eligible) && Resolves(base.policy.allowed, snapshot, dns) && AllBelow(snapshot, eligible)
    ensures Executed(Act(env, s, d).0) ==> CallSound(snapshot, dns, Act(env, s, d).0.decision)
  {
    assert env.validate(d, s) == ValidatePromoted(base, eligible, d);
    if Executed(Act(env, s, d).0) {
      AcceptedIsSound(snapshot, dns, base, eligible, d);
    }
  }

  predicate UsesPipelineTools(steps: seq<StepRecord>) {
    forall i :: 0 <= i < |steps| && steps[i].decision.ToolCall? ==> steps[i].decision.tool in {"nmap", "httpx", "nuclei"}
  }

  ghost predicate Planned(env: Env, p: P.Planner) {
    forall s: AgentState :: env.decide(s) == Success(P.Decide(p, s))
  }

  lemma DecidedTool(p: P.Planner, s: AgentState)
    ensures P.Decide(p, s).ToolCall? ==> P.Decide(p, s).tool in {"nmap", "httpx", "nuclei"}
  {
    var probes := P.PendingProbes(p, s);
    assert probes != [] ==> probes[0] in {"httpx", "nuclei"};
  }

  /** The pipeline never reaches for any other tool. */
  lemma {:induction false} RunUsesPipelineTools(env: Env, p: P.Planner, s: AgentState)
    requires Planned(env, p) && UsesPipelineTools(s.steps)
    ensures UsesPipelineTools(Loop(env, s).0.steps)
    decreases s.maxSteps - s.step
  {
    if Goes(env, s) {
      var s1 := s.(step := s.step + 1);
      var s' := Iterate(env, s).0;
      assert env.decide(s1) == Success(P.Decide(p, s1));
      DecidedTool(p, s1);
      assert s'.steps == s.steps + [Act(env, s1, P.Decide(p, s1)).0];
      UnfoldLoop(env, s, []);
      RunUsesPipelineTools(env, p, s');
    }
  }

  // ----- discovery -------------------------------------------------------

  lemma DiscoveryParentIsBelow(snapshot: seq<ScopeEntry>, p: string)
    requires p in D.DiscoveryParents(snapshot)
    ensures exists e :: e in snapshot && ParentOf(e) == Some(p)
  {
    assert p in Elements(Sorted(Gather(snapshot, D.DiscoveryParentOf)));
    GatherIn(snapshot, D.DiscoveryParentOf, p);
    var e :| e in snapshot && p in D.DiscoveryParentOf(e);
    assert ParentOf(e) == Some(p);
  }

  /**
   The pre-stage: Subfinder is run only for targets that come from the snapshot, and every host
   in a DNSX batch lies below it.
   */
  lemma DiscoveryIsSound(w: D.World, snapshot: seq<ScopeEntry>, dns: Resolver)
    requires Resolves(w.validator.policy.allowed, snapshot, dns)
    ensures forall p :: p in D.DiscoveryParents(snapshot) && D.SubfinderAllowed(w, p) ==> FromSnapshot(snapshot, dns, p)
    ensures forall b, h :: b in D.Batches(SortedSet(D.EligibleHosts(w, D.DiscoveryParents(snapshot)))) && h in b ==>
                           BelowSnapshot(snapshot, h)
  {
    var parents := D.DiscoveryParents(snapshot);
    forall p | p in parents && D.SubfinderAllowed(w, p) ensures FromSnapshot(snapshot, dns, p) {
      A.SubfinderPermission(w, p);
      PolicyTargetSound(snapshot, dns, w.validator.policy.allowed, [], "subfinder", p);
    }
    var eligible := SortedSet(D.EligibleHosts(w, parents));
    D.HostsOfBatches(eligible);
    forall b, h | b in D.Batches(eligible) && h in b ensures BelowSnapshot(snapshot, h) {
      assert h in D.Hosts(D.Batches(eligible));
      EligibleIsBelow(w, snapshot, h);
    }
  }

  lemma EligibleIsBelow(w: D.World, snapshot: seq<ScopeEntry>, h: string)
    requires h in D.EligibleHosts(w, D.DiscoveryParents(snapshot))
    ensures BelowSnapshot(snapshot, h)
  {
    A.EligibleFrom(w, D.DiscoveryParents(snapshot), h);
    var p :| p in D.DiscoveryParents(snapshot) && IsWithinDomain(h, p);
    DiscoveryParentIsBelow(snapshot, p);
    var e :| e in snapshot && ParentOf(e) == Some(p);
  }

  /** A plain domain or host of the snapshot is in the resolved allowlist, so Subfinder may be run for it. */
  lemma PlainEntryIsPermitted(w: D.World, snapshot: seq<ScopeEntry>, dns: Resolver, x: string)
    requires Resolves(w.validator.policy.allowed, snapshot, dns) && Subfinder in w.validator.registered
    requires (Entry(DomainEntry, x) in snapshot || Entry(HostEntry, x) in snapshot) && A.IsPlainHost(x)
    ensures D.NamedBySnapshot(snapshot, x) && D.SubfinderAllowed(w, x)
  {
    NamesAreHostForms(x);
    A.NameIsDnsTarget(x);
    var e := if Entry(DomainEntry, x) in snapshot then Entry(DomainEntry, x) else Entry(HostEntry, x);
    assert e in snapshot && HasKind(e, NAMED) && NormalizeTarget(e.value) == x;
    assert x != "" by {
      assert DnsTarget("").None?;
    }
    assert Authorized(snapshot, dns, x);
    F.SubfinderAllowedIff(w, x);
  }

  /**
   What discovery promotes reaches the planner unchanged, up to its first fifty hosts, exactly
   when none of these carries a newline.
   */
  lemma PromotedPassUnchangedIff(w: D.World, snapshot: seq<ScopeEntry>, parents: seq<string>)
    requires P.IsParentList(snapshot, parents)
    ensures var promoted := D.FinalResult(w, D.DiscoveryParents(snapshot)).promoted;
            P.Sanitized(promoted, parents) == CapTo(promoted, P.MAX_PROMOTED_HOSTS) <==>
            forall h :: h in CapTo(promoted, P.MAX_PROMOTED_HOSTS) ==> '\n' !in h
  {
    var promoted := D.FinalResult(w, D.DiscoveryParents(snapshot)).promoted;
    A.PromotedSorted(w, D.DiscoveryParents(snapshot));
    forall h | h in promoted ensures P.Promotable(h, parents) {
      PromotedIsPromotable(w, snapshot, parents, h);
    }
    P.SanitizedUnchangedIff(promoted, parents);
  }

  /** With the shipped Subfinder none does, so the planner gets the first fifty hosts as they are. */
  lemma ShippedPromotedPass(w: D.World, snapshot: seq<ScopeEntry>, profile: string, parents: seq<string>)
    requires P.IsParentList(snapshot, parents) && A.Shipped(w)
    ensures var promoted := D.FinalResult(w, D.DiscoveryParents(snapshot)).promoted;
            && P.Sanitized(promoted, parents) == CapTo(promoted, P.MAX_PROMOTED_HOSTS)
            && PlannerOf(profile, snapshot, promoted, parents).discovered == CapTo(promoted, P.MAX_PROMOTED_HOSTS)
  {
    var promoted := D.FinalResult(w, D.DiscoveryParents(snapshot)).promoted;
    var first := CapTo(promoted, P.MAX_PROMOTED_HOSTS);
    forall h | h in first ensures '\n' !in h {
      A.PromotedIsPlain(w, D.DiscoveryParents(snapshot), h);
    }
    PromotedPassUnchangedIff(w, snapshot, parents);
    A.PromotedSorted(w, D.DiscoveryParents(snapshot));
    forall h | h in first ensures P.Promotable(h, parents) {
      PromotedIsPromotable(w, snapshot, parents, h);
    }
    P.SanitizedUnchangedIff(first, parents);
  }

  lemma PromotedIsPromotable(w: D.World, snapshot: seq<ScopeEntry>, parents: seq<string>, h: string)
    requires P.IsParentList(snapshot, parents)
    requires h in D.FinalResult(w, D.DiscoveryParents(snapshot)).promoted
    ensures P.Promotable(h, parents)
  {
    A.PromotedMeans(w, D.DiscoveryParents(snapshot));
    var p :| p in D.DiscoveryParents(snapshot) && A.PersistedParent(w, p, h);
    A.FoundDescends(w, p, h);
    DiscoveryParentIsBelow(snapshot, p);
    assert IsParent(snapshot, p);
  }

  /** The planner only proposes nmap on hosts that the resolved allowlist holds, so the gate takes each such call. */
  lemma PlannedNmapIsAccepted(base: Validator, snapshot: seq<ScopeEntry>, dns: Resolver, h: string)
    requires Resolves(base.policy.allowed, snapshot, dns) && Nmap in base.registered && base.policy.maxDanger == ActiveScan
    requires h in P.PipelineHosts(snapshot) && NmapTargetOk(h)
    ensures Validate(base, P.NmapCall(h)) == Accept("nmap")
  {
    var params := P.NmapCall(h).params;
    T.HostsMean(snapshot);
    var v :| (Entry(HostEntry, v) in snapshot || Entry(UrlEntry, v) in snapshot) && NormalizeTarget(v) == h;
    var e := if Entry(HostEntry, v) in snapshot then Entry(HostEntry, v) else Entry(UrlEntry, v);
    assert e in snapshot && HasKind(e, NAMED);
    assert Authorized(snapshot, dns, h);
    NmapCallFits(h);
    G.NmapAccepted(base, params);
    CheckedMeans(base, "nmap", params, []);
  }

  lemma NmapCallFits(h: string)
    requires NmapTargetOk(h)
    ensures SchemaOk(Nmap, P.NmapCall(h).params) && P.NmapCall(h).params["target"] == JStr(h)
  {
    PipelinePortsFit();
  }

  lemma PipelinePortsFit()
    ensures PortsOk(P.NMAP_PIPELINE_PORTS)
  {
    var ports := "80,443,3000,8000,8080";
    StripFixed(ports);
    assert ports[0] == '8' && !("top-" <= ports);
  }

  // ----- the scan --------------------------------------------------------

  /** The gate of a scan without promoted hosts is the plain validator. */
  lemma GateWithoutPromoted(base: Validator, d: Decision)
    ensures ValidatePromoted(base, [], d) == Validate(base, d)
  {
  }

  lemma GatedIsOk(env: Env, base: Validator, eligible: seq<string>, d: Decision, s: AgentState)
    requires Gated(env, base, eligible)
    ensures S.GateOk(d, env.validate(d, s))
    ensures d.ToolCall? && env.validate(d, s).Accept? ==> env.validate(d, s).tool in E.SHIPPED
  {
    assert env.validate(d, s) == ValidatePromoted(base, eligible, d);
    NarrowGate(base, eligible, d);
    if d.ToolCall? && env.validate(d, s).Accept? {
      AcceptedTargets(base, eligible, d, "");
    }
  }

  /** Behind the gate, with any planner and any tools, no tool-run row is left `running`. */
  lemma GatedRowsSettle(env: Env, s: AgentState, base: Validator, eligible: seq<string>)
    requires Gated(env, base, eligible)
    ensures E.NoneRunning(E.WrittenAll(E.SinkState(map[], []), [RunStarted(s.step)] + Loop(env, s).1).rows)
  {
    forall d: Decision, t: AgentState | d.ToolCall? && env.validate(d, t).Accept?
      ensures env.validate(d, t).tool in E.SHIPPED
    {
      GatedIsOk(env, base, eligible, d, t);
    }
    E.ShippedRowsSettle(env, s);
  }

  /** Nobody cancels the agent loop, and nmap names no other target than that of its call. */
  ghost predicate Undisturbed(
    execute: (string, Params, AgentState) -> Result<ToolResult, string>, cancelled: AgentState -> bool)
  {
    && (forall s: AgentState :: !cancelled(s))
    && (forall params: Params, s: AgentState :: S.EchoOk(params, execute("nmap", params, s)))
  }

  lemma GatedDrives(env: Env, p: P.Planner, base: Validator, eligible: seq<string>)
    requires Planned(env, p) && Gated(env, base, eligible) && Undisturbed(env.execute, env.cancelled)
    ensures S.Drives(env, p)
  {
    forall d: Decision, s: AgentState ensures S.GateOk(d, env.validate(d, s)) {
      GatedIsOk(env, base, eligible, d, s);
    }
  }

  function InitialState(maxSteps: nat): AgentState {
    AgentState(Running, 0, maxSteps, [], [], [], None)
  }

  /** The planner of a scan whose discovery promoted some hosts; both it and the manager sanitize them. */
  function PlannerOf(profile: string, snapshot: seq<ScopeEntry>, promoted: seq<string>, parents: seq<string>): P.Planner {
    P.Planner(P.ProfileNamed(profile), snapshot, P.PipelineHosts(snapshot),
              P.Sanitized(P.Sanitized(promoted, parents), parents))
  }

  /** What the loop runs in: the plain validator unless there are promoted hosts. */
  function LoopEnv(
    planner: P.Planner, base: Validator, eligible: seq<string>,
    execute: (string, Params, AgentState) -> Result<ToolResult, string>, cancelled: AgentState -> bool): Env
  {
    Env(s => Success(P.Decide(planner, s)),
        if eligible == [] then (d, s) => Validate(base, d) else (d, s) => ValidatePromoted(base, eligible, d),
        execute, cancelled)
  }

  lemma LoopEnvGated(
    planner: P.Planner, base: Validator, eligible: seq<string>,
    execute: (string, Params, AgentState) -> Result<ToolResult, string>, cancelled: AgentState -> bool)
    ensures var env := LoopEnv(planner, base, eligible, execute, cancelled);
            Planned(env, planner) && Gated(env, base, eligible) && env.execute == execute && env.cancelled == cancelled
  {
    var env := LoopEnv(planner, base, eligible, execute, cancelled);
    forall d: Decision, s: AgentState ensures env.validate(d, s) == ValidatePromoted(base, eligible, d) {
      GateWithoutPromoted(base, d);
    }
  }

  /** What the loop of a scan guarantees when it ended in `final`. */
  lemma LoopOfScan(
    env: Env, maxSteps: nat, p: P.Planner, snapshot: seq<ScopeEntry>, dns: Resolver, base: Validator,
    eligible: seq<string>)
    requires Planned(env, p) && S.WellPlanned(p) && Gated(env, base, eligible)
    requires Resolves(base.policy.allowed, snapshot, dns) && AllBelow(snapshot, eligible)
    ensures var final := Loop(env, InitialState(maxSteps)).0;
            && StepsSound(snapshot, dns, final.steps) && UsesPipelineTools(final.steps)
            && (Undisturbed(env.execute, env.cancelled) && maxSteps >= 1 ==>
                  S.AsScheduled(p, InitialState(maxSteps), final))
  {
    var s := InitialState(maxSteps);
    RunIsSound(env, s, snapshot, dns, base, eligible);
    RunUsesPipelineTools(env, p, s);
    if Undisturbed(env.execute, env.cancelled) && maxSteps >= 1 {
      GatedDrives(env, p, base, eligible);
      S.UndisturbedRun(env, p, s);
    }
  }

  /**
   The worker's pipeline branch. `world` supplies tools, persistence and cancellation polls for
   discovery, `execute` and `cancelled` those of the agent loop, and `cancelledBetween` the check
   in between. Subfinder and DNSX are run (`asked`, `ran`) for snapshot targets and for names below
   the snapshot only, cancelled or not. A cancelled discovery runs no pipeline; otherwise every
   executed call is sound, and undisturbed the run goes as scheduled.
   */
  method RunPipelineScan(
    snapshot: seq<ScopeEntry>, dns: Resolver, profile: string, maxSteps: nat,
    registered: set<Tool>, errorCount: Params -> nat, world: D.World, cancelledBetween: bool,
    execute: (string, Params, AgentState) -> Result<ToolResult, string>, cancelled: AgentState -> bool)
    returns (
      discovery: D.DiscoveryResult, final: Option<AgentState>, ghost asked: set<string>, ghost ran: set<seq<string>>,
      ghost gate: Validator)
    ensures gate == Validator(registered, Policy(gate.policy.allowed, ActiveScan), errorCount)
    ensures forall t :: t in gate.policy.allowed <==> Authorized(snapshot, dns, t)
    ensures forall p :: p in asked ==> FromSnapshot(snapshot, dns, p)
    ensures forall b, h :: b in ran && h in b ==> BelowSnapshot(snapshot, h)
    ensures !discovery.cancelled && Subfinder in registered ==>
              forall x :: (Entry(DomainEntry, x) in snapshot || Entry(HostEntry, x) in snapshot) && A.IsPlainHost(x) ==> x in asked
    ensures final.None? <==> discovery.cancelled || cancelledBetween
    ensures final.Some? ==> final.value.status != Running && StepsSound(snapshot, dns, final.value.steps)
    ensures final.Some? ==> UsesPipelineTools(final.value.steps)
    ensures final.Some? ==>
              forall parents :: P.IsParentList(snapshot, parents) ==>
                final.value == GatedRun(snapshot, profile, maxSteps, gate, discovery.promoted, parents, execute, cancelled)
    ensures final.Some? && Undisturbed(execute, cancelled) && maxSteps >= 1 ==>
              forall parents :: P.IsParentList(snapshot, parents) ==>
                S.AsScheduled(PlannerOf(profile, snapshot, discovery.promoted, parents), InitialState(maxSteps), final.value)
  {
    var allowed := ResolveScope(snapshot, dns);
    var base := Validator(registered, Policy(allowed, ActiveScan), errorCount);
    gate := base;
    var service := new D.DiscoveryService(world.(validator := base));
    discovery := service.Run(snapshot);
    asked, ran := service.asked, service.ran;
    DiscoveryIsSound(service.w, snapshot, dns);
    AskedSound(service.w, snapshot, dns, asked, !discovery.cancelled);
    if discovery.cancelled || cancelledBetween {
      return discovery, None, asked, ran, gate;
    }
    var state := RunLoop(snapshot, dns, profile, maxSteps, base, discovery.promoted, execute, cancelled);
    final := Some(state);
  }

  /** What the asked names are, from the contract of the run. */
  lemma AskedSound(w: D.World, snapshot: seq<ScopeEntry>, dns: Resolver, asked: set<string>, complete: bool)
    requires Resolves(w.validator.policy.allowed, snapshot, dns)
    requires forall p :: p in asked ==> D.NamedBySnapshot(snapshot, p) && D.SubfinderAllowed(w, p)
    requires complete ==> forall p :: p in asked <==> D.NamedBySnapshot(snapshot, p) && D.SubfinderAllowed(w, p)
    ensures forall p :: p in asked ==> FromSnapshot(snapshot, dns, p)
    ensures complete && Subfinder in w.validator.registered ==>
              forall x :: (Entry(DomainEntry, x) in snapshot || Entry(HostEntry, x) in snapshot) && A.IsPlainHost(x) ==> x in asked
  {
    DiscoveryIsSound(w, snapshot, dns);
    D.ParentsMean(snapshot);
    if complete && Subfinder in w.validator.registered {
      forall x | (Entry(DomainEntry, x) in snapshot || Entry(HostEntry, x) in snapshot) && A.IsPlainHost(x) ensures x in asked {
        PlainEntryIsPermitted(w, snapshot, dns, x);
      }
    }
  }

  /** A runtime of its own for the run. */
  method Drive(env: Env, s: AgentState) returns (final: AgentState)
    ensures final == Loop(env, s).0 && final.status != Running
  {
    var runtime := new Runtime(env, s);
    runtime.Execute();
    final := runtime.state;
  }

  /** The agent loop of a scan: the planner and the narrow gate both get the sanitized promoted hosts. */
  function GatedRun(
    snapshot: seq<ScopeEntry>, profile: string, maxSteps: nat, gate: Validator, promoted: seq<string>, parents: seq<string>,
    execute: (string, Params, AgentState) -> Result<ToolResult, string>, cancelled: AgentState -> bool): AgentState
  {
    Loop(LoopEnv(PlannerOf(profile, snapshot, promoted, parents), gate, P.Sanitized(promoted, parents), execute, cancelled),
         InitialState(maxSteps)).0
  }

  /** The rest of that branch: sanitize the promoted hosts, pick the gate, and run the agent loop. */
  method RunLoop(
    snapshot: seq<ScopeEntry>, ghost dns: Resolver, profile: string, maxSteps: nat, base: Validator,
    promoted: seq<string>,
    execute: (string, Params, AgentState) -> Result<ToolResult, string>, cancelled: AgentState -> bool)
    returns (final: AgentState)
    requires Resolves(base.policy.allowed, snapshot, dns)
    ensures final.status != Running && StepsSound(snapshot, dns, final.steps) && UsesPipelineTools(final.steps)
    ensures forall parents :: P.IsParentList(snapshot, parents) ==>
              final == GatedRun(snapshot, profile, maxSteps, base, promoted, parents, execute, cancelled)
    ensures Undisturbed(execute, cancelled) && maxSteps >= 1 ==>
              forall parents :: P.IsParentList(snapshot, parents) ==>
                S.AsScheduled(PlannerOf(profile, snapshot, promoted, parents), InitialState(maxSteps), final)
  {
    var eligible := P.SanitizePromotedHosts(promoted, snapshot);
    var parents := SnapshotParents(snapshot);
    SanitizedBelow(promoted, parents, snapshot);
    var planner := P.NewPlanner(profile, snapshot, eligible);
    forall other: seq<string> | P.IsParentList(snapshot, other)
      ensures planner == PlannerOf(profile, snapshot, promoted, other) && eligible == P.Sanitized(promoted, other)
    {
      assert eligible == P.Sanitized(promoted, other);
    }
    var env := LoopEnv(planner, base, eligible, execute, cancelled);
    LoopEnvGated(planner, base, eligible, execute, cancelled);
    LoopOfScan(env, maxSteps, planner, snapshot, dns, base, eligible);
    final := Drive(env, InitialState(maxSteps));
  }
}
