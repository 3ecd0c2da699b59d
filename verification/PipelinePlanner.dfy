/** The deterministic real-tool pipeline (backend/services/pipeline_planner.py). */
module PipelinePlanning {
  import opened Wrappers
  import opened Text
  import opened Hostnames
  import opened Targets
  import opened AgentRuntime
  import opened SafetyGates

  const NMAP_PIPELINE_PORTS := "80,443,3000,8000,8080"
  const MAX_STAGE_TARGETS := 10
  const MAX_PIPELINE_HOSTS := 10
  const MAX_PROMOTED_HOSTS := 50

  // ----- targets of a snapshot -------------------------------------------

  function HostFormOf(e: ScopeEntry): seq<string> {
    if HasKind(e, {HostEntry, UrlEntry}) && NormalizeTarget(e.value) != "" then [NormalizeTarget(e.value)] else []
  }

  function PipelineHosts(snapshot: seq<ScopeEntry>): seq<string> {
    CapTo(Distinct(Gather(snapshot, HostFormOf)), MAX_PIPELINE_HOSTS)
  }

  method SnapshotHosts(snapshot: seq<ScopeEntry>) returns (hosts: seq<string>)
    ensures hosts == PipelineHosts(snapshot)
  {
    hosts := CollectFirst(snapshot, HostFormOf, MAX_PIPELINE_HOSTS);
  }

  predicate IsWebUrl(value: string) {
    "http://" <= value || "https://" <= value
  }

  function SeedOf(e: ScopeEntry): seq<string> {
    if HasKind(e, {UrlEntry}) && IsWebUrl(e.value) then [e.value] else []
  }

  function WebSeeds(snapshot: seq<ScopeEntry>): seq<string> {
    CapTo(Distinct(Gather(snapshot, SeedOf)), MAX_STAGE_TARGETS)
  }

  method SnapshotWebSeeds(snapshot: seq<ScopeEntry>) returns (seeds: seq<string>)
    ensures seeds == WebSeeds(snapshot)
  {
    seeds := CollectFirst(snapshot, SeedOf, MAX_STAGE_TARGETS);
  }

  // ----- targets of earlier stages ---------------------------------------

  function IntText(n: int): string {
    if n < 0 then "-" + Digits(-n) else Digits(n)
  }

  function PortUrl(ip: string, port: int): string {
    (if port == 443 then "https" else "http") + "://" + ip + ":" + IntText(port)
  }

  function PortUrls(ip: string): NmapPort -> seq<string> {
    (p: NmapPort) => if p.open && p.port.Some? then [PortUrl(ip, p.port.value)] else []
  }

  function HostUrls(host: NmapHost): seq<string> {
    if host.ip.None? || host.ip.value == "" then [] else Gather(host.ports, PortUrls(host.ip.value))
  }

  function ObservedUrls(o: Observation): seq<string> {
    Gather(o.data.hosts, HostUrls)
  }

  /** The URLs of open ports, first come first served. */
  function NmapHttpUrls(observations: seq<Observation>): seq<string> {
    CapTo(Distinct(Gather(observations, ObservedUrls)), MAX_STAGE_TARGETS)
  }

  lemma PortStep(ip: string, ports: seq<NmapPort>, k: nat, seen: seq<string>)
    requires k < |ports|
    ensures var before, p := Distinct(seen + Gather(ports[..k], PortUrls(ip))), ports[k];
            Distinct(seen + Gather(ports[..k + 1], PortUrls(ip))) ==
            if p.open && p.port.Some? && PortUrl(ip, p.port.value) !in before
            then before + [PortUrl(ip, p.port.value)] else before
  {
    GatherStepAfter(seen, ports, k, PortUrls(ip));
  }

  lemma PortsFull(ip: string, ports: seq<NmapPort>, k: nat, seen: seq<string>)
    requires k <= |ports| && |Distinct(seen + Gather(ports[..k], PortUrls(ip)))| == MAX_STAGE_TARGETS
    ensures CapTo(Distinct(seen + Gather(ports, PortUrls(ip))), MAX_STAGE_TARGETS)
         == Distinct(seen + Gather(ports[..k], PortUrls(ip)))
  {
    GatherFullAfter(seen, ports, k, PortUrls(ip), MAX_STAGE_TARGETS);
  }

  /** The innermost loop: the ports of one host; `seen` lists what came before. */
  method AddPortUrls(ip: string, ports: seq<NmapPort>, ghost seen: seq<string>, urls: seq<string>)
    returns (r: seq<string>)
    requires urls == Distinct(seen) && |urls| < MAX_STAGE_TARGETS
    ensures r == CapTo(Distinct(seen + Gather(ports, PortUrls(ip))), MAX_STAGE_TARGETS)
  {
    r := urls;
    assert seen + [] == seen;
    for k := 0 to |ports|
      invariant r == Distinct(seen + Gather(ports[..k], PortUrls(ip))) && |r| < MAX_STAGE_TARGETS
    {
      PortStep(ip, ports, k, seen);
      var port := ports[k];
      if port.open && port.port.Some? {
        var url := PortUrl(ip, port.port.value);
        if url !in r {
          r := r + [url];
        }
        if |r| >= MAX_STAGE_TARGETS {
          PortsFull(ip, ports, k + 1, seen);
          return;
        }
      }
    }
    assert ports[..|ports|] == ports;
    assert r == CapTo(r, MAX_STAGE_TARGETS);
  }

  /** One host: nothing without an address, else its ports. */
  method AddOneHost(host: NmapHost, ghost seen: seq<string>, urls: seq<string>) returns (r: seq<string>)
    requires urls == Distinct(seen) && |urls| < MAX_STAGE_TARGETS
    ensures r == CapTo(Distinct(seen + HostUrls(host)), MAX_STAGE_TARGETS)
  {
    if host.ip.None? || host.ip.value == "" {
      assert seen + [] == seen;
      return urls;
    }
    r := AddPortUrls(host.ip.value, host.ports, seen, urls);
  }

  method AddHostUrls(hosts: seq<NmapHost>, ghost seen: seq<string>, urls: seq<string>) returns (r: seq<string>)
    requires urls == Distinct(seen) && |urls| < MAX_STAGE_TARGETS
    ensures r == CapTo(Distinct(seen + Gather(hosts, HostUrls)), MAX_STAGE_TARGETS)
  {
    r := urls;
    assert seen + [] == seen;
    for j := 0 to |hosts|
      invariant r == Distinct(seen + Gather(hosts[..j], HostUrls)) && |r| < MAX_STAGE_TARGETS
    {
      GatherNext(seen, hosts, j, HostUrls);
      r := AddOneHost(hosts[j], seen + Gather(hosts[..j], HostUrls), r);
      if |r| >= MAX_STAGE_TARGETS {
        GatherFullAfter(seen, hosts, j + 1, HostUrls, MAX_STAGE_TARGETS);
        return;
      }
    }
    assert hosts[..|hosts|] == hosts;
  }

  method CollectNmapUrls(observations: seq<Observation>) returns (urls: seq<string>)
    ensures urls == NmapHttpUrls(observations)
  {
    urls := [];
    for i := 0 to |observations|
      invariant urls == Distinct(Gather(observations[..i], ObservedUrls)) && |urls| < MAX_STAGE_TARGETS
    {
      GatherSnoc(observations, i, ObservedUrls);
      urls := AddHostUrls(observations[i].data.hosts, Gather(observations[..i], ObservedUrls), urls);
      if |urls| >= MAX_STAGE_TARGETS {
        GatherGrows(observations, i + 1, ObservedUrls);
        FullStays(Gather(observations[..i + 1], ObservedUrls), Gather(observations, ObservedUrls), MAX_STAGE_TARGETS);
        return;
      }
    }
    assert observations[..|observations|] == observations;
  }

  function ServiceUrl(s: HttpService): Option<string> {
    if s.url.Some? && s.url.value != "" then s.url
    else if s.finalUrl.Some? && s.finalUrl.value != "" then s.finalUrl
    else None
  }

  predicate IsSuccess(s: HttpService) {
    s.statusCode.Some? && 200 <= s.statusCode.value < 300
  }

  /** URLs whose first sighting answered 2xx, and the others. */
  function SplitByStatus(services: seq<HttpService>): (seq<string>, seq<string>) {
    if services == [] then ([], [])
    else
      var (ok, other) := SplitByStatus(services[..|services| - 1]);
      var s := services[|services| - 1];
      var url := ServiceUrl(s);
      if url.None? || url.value in ok || url.value in other then (ok, other)
      else if IsSuccess(s) then (ok + [url.value], other)
      else (ok, other + [url.value])
  }

  function ServicesOf(o: Observation): seq<HttpService> {
    o.data.services
  }

  function AllServices(observations: seq<Observation>): seq<HttpService> {
    Gather(observations, ServicesOf)
  }

  function HttpxUrls(observations: seq<Observation>): seq<string> {
    var (ok, other) := SplitByStatus(AllServices(observations));
    CapTo(ok + other, MAX_STAGE_TARGETS)
  }

  lemma SplitSnoc(services: seq<HttpService>, s: HttpService)
    ensures var (ok, other) := SplitByStatus(services);
            var url := ServiceUrl(s);
            SplitByStatus(services + [s]) ==
            if url.None? || url.value in ok || url.value in other then (ok, other)
            else if IsSuccess(s) then (ok + [url.value], other)
            else (ok, other + [url.value])
  {
    assert (services + [s])[..|services|] == services;
  }

  /** The services of one observation; `seen` lists those of earlier ones. */
  method SortServices(services: seq<HttpService>, ghost seen: seq<HttpService>, ok0: seq<string>, other0: seq<string>)
    returns (ok: seq<string>, other: seq<string>)
    requires (ok0, other0) == SplitByStatus(seen)
    ensures (ok, other) == SplitByStatus(seen + services)
  {
    ok, other := ok0, other0;
    assert seen + services[..0] == seen;
    for k := 0 to |services|
      invariant (ok, other) == SplitByStatus(seen + services[..k])
    {
      assert seen + services[..k + 1] == seen + services[..k] + [services[k]];
      SplitSnoc(seen + services[..k], services[k]);
      var url := ServiceUrl(services[k]);
      if url.Some? && url.value !in ok && url.value !in other {
        if IsSuccess(services[k]) {
          ok := ok + [url.value];
        } else {
          other := other + [url.value];
        }
      }
    }
    assert services[..|services|] == services;
  }

  method CollectHttpxUrls(observations: seq<Observation>) returns (urls: seq<string>)
    ensures urls == HttpxUrls(observations)
  {
    var ok: seq<string>, other: seq<string> := [], [];
    for i := 0 to |observations|
      invariant (ok, other) == SplitByStatus(AllServices(observations[..i]))
    {
      GatherSnoc(observations, i, ServicesOf);
      ok, other := SortServices(observations[i].data.services, AllServices(observations[..i]), ok, other);
    }
    assert observations[..|observations|] == observations;
    urls := CapTo(ok + other, MAX_STAGE_TARGETS);
  }

  function PlainUrls(hosts: seq<string>): (r: seq<string>)
    ensures |r| == |hosts|
    ensures forall i :: 0 <= i < |r| ==> r[i] == "http://" + hosts[i]
  {
    seq(|hosts|, i requires 0 <= i < |hosts| => "http://" + hosts[i])
  }

  function NonEmptyUrl(url: string): seq<string> {
    if url != "" then [url] else []
  }

  /** Original targets first, then promoted ones; deduplicated and capped. */
  function MergedTargets(base: seq<string>, promoted: seq<string>): seq<string> {
    CapTo(Distinct(Gather(base + promoted, NonEmptyUrl)), MAX_STAGE_TARGETS)
  }

  method MergeHttpxTargets(base: seq<string>, promoted: seq<string>) returns (merged: seq<string>)
    ensures merged == MergedTargets(base, promoted)
  {
    merged := CollectFirst(base + promoted, NonEmptyUrl, MAX_STAGE_TARGETS);
  }

  // ----- promoted hosts --------------------------------------------------

  /** The normal form of a host that is a name below a parent. */
  function PromotedOf(parents: seq<string>): string -> seq<string> {
    (host: string) =>
      var name := NormalizeHostname(host);
      if name.Some? && DescendsFrom(name.value, parents) then [name.value] else []
  }

  function Sanitized(hosts: seq<string>, parents: seq<string>): seq<string> {
    Sorted(CapTo(Distinct(Gather(hosts, PromotedOf(parents))), MAX_PROMOTED_HOSTS))
  }

  lemma {:induction false} NoParentsNoHosts(hosts: seq<string>)
    ensures Gather(hosts, PromotedOf([])) == []
  {
    if hosts != [] {
      NoParentsNoHosts(hosts[..|hosts| - 1]);
    }
  }

  /** sanitize_promoted_hosts for a list of strings and the names a snapshot holds. */
  method SanitizeBelow(hosts: seq<string>, parents: seq<string>) returns (r: seq<string>)
    ensures r == Sanitized(hosts, parents)
  {
    if parents == [] {
      NoParentsNoHosts(hosts);
      return [];
    }
    var out := CollectFirst(hosts, PromotedOf(parents), MAX_PROMOTED_HOSTS);
    r := Sorted(out);
  }

  ghost predicate IsParentList(snapshot: seq<ScopeEntry>, parents: seq<string>) {
    forall p :: p in parents <==> IsParent(snapshot, p)
  }

  /** Only which names are parents matters, not their order. */
  method SanitizePromotedHosts(hosts: seq<string>, snapshot: seq<ScopeEntry>) returns (r: seq<string>)
    ensures forall parents :: IsParentList(snapshot, parents) ==> r == Sanitized(hosts, parents)
  {
    var parents := SnapshotParents(snapshot);
    r := SanitizeBelow(hosts, parents);
    forall other: seq<string> | IsParentList(snapshot, other)
      ensures r == Sanitized(hosts, other)
    {
      SameParentsSameHosts(hosts, parents, other);
    }
  }

  lemma {:induction false} SameParentsSameHosts(hosts: seq<string>, a: seq<string>, b: seq<string>)
    requires forall p :: p in a <==> p in b
    ensures Gather(hosts, PromotedOf(a)) == Gather(hosts, PromotedOf(b))
  {
    if hosts != [] {
      SameParentsSameHosts(hosts[..|hosts| - 1], a, b);
      assert forall name :: DescendsFrom(name, a) <==> DescendsFrom(name, b);
    }
  }

  /** A host as discovery promotes it: a normal form below a parent. */
  ghost predicate Promotable(host: string, parents: seq<string>) {
    DescendsFrom(host, parents) && exists v :: NormalizeHostname(v) == Some(host)
  }

  /** Sanitizing a promotable host drops the newline it may end in, and keeps the rest. */
  lemma SanitizedOne(host: string, parents: seq<string>)
    requires Promotable(host, parents)
    ensures PromotedOf(parents)(host) == [Chomp(host)]
    ensures '\n' !in Chomp(host)
    ensures '\n' !in host <==> Chomp(host) == host
  {
    var v :| NormalizeHostname(v) == Some(host);
    Renormalized(v, host);
    var p :| p in parents && IsWithinDomain(host, p);
    SameDescent(host, Chomp(host), p);
    assert DescendsFrom(Chomp(host), parents);
  }

  lemma Renormalized(v: string, host: string)
    requires NormalizeHostname(v) == Some(host)
    ensures NormalizeHostname(host) == Some(Chomp(host)) && NormalizeHostname(Chomp(host)) == Some(Chomp(host))
    ensures '\n' !in Chomp(host)
    ensures '\n' !in host <==> Chomp(host) == host
  {
    NormalizeIdempotentIff(v, host);
    NormalForm(v, host);
    NameIsPlain(Chomp(host));
    NamesAreFixed(Chomp(host));
  }

  lemma SameDescent(a: string, b: string, p: string)
    requires NormalizeHostname(a) == NormalizeHostname(b)
    ensures IsWithinDomain(a, p) <==> IsWithinDomain(b, p)
  {
  }

  lemma PlainHostsKept(hosts: seq<string>, parents: seq<string>)
    requires forall h :: h in hosts ==> Promotable(h, parents) && '\n' !in h
    ensures Gather(hosts, PromotedOf(parents)) == hosts
  {
    forall i | 0 <= i < |hosts| ensures PromotedOf(parents)(hosts[i]) == [hosts[i]] {
      SanitizedOne(hosts[i], parents);
    }
    GatherSingletons(hosts, PromotedOf(parents), hosts);
  }

  lemma SanitizedLacksNewlines(hosts: seq<string>, parents: seq<string>, name: string)
    requires forall h :: h in hosts ==> Promotable(h, parents)
    requires name in Sanitized(hosts, parents)
    ensures '\n' !in name
  {
    var all := Gather(hosts, PromotedOf(parents));
    var kept := CapTo(Distinct(all), MAX_PROMOTED_HOSTS);
    assert name in Elements(Sorted(kept));
    assert name in kept;
    DistinctMembers(all);
    GatherIn(hosts, PromotedOf(parents), name);
    var h :| h in hosts && name in PromotedOf(parents)(h);
    SanitizedOne(h, parents);
  }

  lemma SortedPrefix(hosts: seq<string>, n: nat)
    requires StrictlySorted(hosts)
    ensures StrictlySorted(CapTo(hosts, n)) && Distinct(CapTo(hosts, n)) == CapTo(hosts, n)
  {
    var first := CapTo(hosts, n);
    forall i, j | 0 <= i < j < |first| ensures first[i] != first[j] {
      LessIrreflexive(first[i]);
    }
    DistinctFixed(first);
  }

  lemma PlainPrefixKept(hosts: seq<string>, parents: seq<string>)
    requires StrictlySorted(hosts) && forall h :: h in hosts ==> Promotable(h, parents)
    requires forall h :: h in CapTo(hosts, MAX_PROMOTED_HOSTS) ==> '\n' !in h
    ensures Sanitized(hosts, parents) == CapTo(hosts, MAX_PROMOTED_HOSTS)
  {
    var first := CapTo(hosts, MAX_PROMOTED_HOSTS);
    var f := PromotedOf(parents);
    SortedPrefix(hosts, MAX_PROMOTED_HOSTS);
    PlainHostsKept(first, parents);
    GatherGrows(hosts, |first|, f);
    assert hosts[..|first|] == first;
    if |hosts| > MAX_PROMOTED_HOSTS {
      FullStays(first, Gather(hosts, f), MAX_PROMOTED_HOSTS);
    }
    SortedFixed(first);
  }

  /** The planner takes discovery's first fifty hosts unchanged exactly when none of them has a newline. */
  lemma SanitizedUnchangedIff(hosts: seq<string>, parents: seq<string>)
    requires StrictlySorted(hosts) && forall h :: h in hosts ==> Promotable(h, parents)
    ensures Sanitized(hosts, parents) == CapTo(hosts, MAX_PROMOTED_HOSTS) <==>
            forall h :: h in CapTo(hosts, MAX_PROMOTED_HOSTS) ==> '\n' !in h
  {
    var first := CapTo(hosts, MAX_PROMOTED_HOSTS);
    if h :| h in first && '\n' in h {
      if h in Sanitized(hosts, parents) {
        SanitizedLacksNewlines(hosts, parents, h);
      }
    } else {
      PlainPrefixKept(hosts, parents);
    }
  }

  // ----- the planner -----------------------------------------------------

  datatype Profile = Recon | Web | Full

  function ProfileNamed(name: string): Profile {
    if name == "recon" then Recon else if name == "web" then Web else Full
  }

  predicate Scans(profile: Profile) {
    profile != Web
  }

  /** The stages after nmap, in order. */
  function Probes(profile: Profile): seq<string> {
    if profile == Recon then ["httpx"] else ["httpx", "nuclei"]
  }

  /** What the constructor computes; `discovered` are the sanitized promoted hosts. */
  datatype Planner = Planner(profile: Profile, snapshot: seq<ScopeEntry>, hosts: seq<string>, discovered: seq<string>)

  method NewPlanner(name: string, snapshot: seq<ScopeEntry>, promoted: seq<string>) returns (p: Planner)
    ensures p.profile == ProfileNamed(name) && p.snapshot == snapshot && p.hosts == PipelineHosts(snapshot)
    ensures forall parents :: IsParentList(snapshot, parents) ==> p.discovered == Sanitized(promoted, parents)
  {
    var hosts := SnapshotHosts(snapshot);
    var discovered := SanitizePromotedHosts(promoted, snapshot);
    p := Planner(ProfileNamed(name), snapshot, hosts, discovered);
  }

  function DoneTools(observations: seq<Observation>): set<string> {
    set o | o in observations && o.tool.Some? && o.tool.value != "" :: o.tool.value
  }

  function CoveredByResult(o: Observation): set<string> {
    if o.tool == Some("nmap") && o.data.target.Some? && o.data.target.value != "" then {Lower(o.data.target.value)}
    else {}
  }

  function CoveredByDecision(d: Decision): set<string> {
    if d.ToolCall? && d.tool == "nmap" && HasStr(d.params, "target") && NormalizeTarget(d.params["target"].s) != ""
    then {NormalizeTarget(d.params["target"].s)}
    else {}
  }

  function CoveredByResults(observations: seq<Observation>): set<string> {
    if observations == [] then {}
    else CoveredByResults(observations[..|observations| - 1]) + CoveredByResult(observations[|observations| - 1])
  }

  function CoveredByDecisions(steps: seq<StepRecord>): set<string> {
    if steps == [] then {}
    else CoveredByDecisions(steps[..|steps| - 1]) + CoveredByDecision(steps[|steps| - 1].decision)
  }

  /** Hosts with an nmap attempt behind them: by result target or by proposal. */
  function Covered(s: AgentState): set<string> {
    CoveredByResults(s.observations) + CoveredByDecisions(s.steps)
  }

  function Without(hosts: seq<string>, covered: set<string>): seq<string> {
    if hosts == [] then []
    else (if hosts[0] in covered then [] else [hosts[0]]) + Without(hosts[1..], covered)
  }

  function PendingHosts(p: Planner, s: AgentState): seq<string> {
    if Scans(p.profile) then Without(p.hosts, Covered(s)) else []
  }

  method CoveredHosts(s: AgentState) returns (covered: set<string>)
    ensures covered == Covered(s)
  {
    covered := {};
    for i := 0 to |s.observations|
      invariant covered == CoveredByResults(s.observations[..i])
    {
      assert s.observations[..i + 1][..i] == s.observations[..i];
      covered := covered + CoveredByResult(s.observations[i]);
    }
    assert s.observations[..|s.observations|] == s.observations;
    for i := 0 to |s.steps|
      invariant covered == CoveredByResults(s.observations) + CoveredByDecisions(s.steps[..i])
    {
      assert s.steps[..i + 1][..i] == s.steps[..i];
      covered := covered + CoveredByDecision(s.steps[i].decision);
    }
    assert s.steps[..|s.steps|] == s.steps;
  }

  method NmapPendingHosts(hosts: seq<string>, s: AgentState) returns (pending: seq<string>)
    ensures pending == Without(hosts, Covered(s))
  {
    var covered := CoveredHosts(s);
    pending := [];
    for i := 0 to |hosts|
      invariant pending + Without(hosts[i..], covered) == Without(hosts, covered)
    {
      var host := hosts[i];
      assert hosts[i..] == [host] + hosts[i + 1..];
      if host !in covered {
        assert pending + ([host] + Without(hosts[i + 1..], covered)) == pending + [host] + Without(hosts[i + 1..], covered);
        pending := pending + [host];
      } else {
        assert [] + Without(hosts[i + 1..], covered) == Without(hosts[i + 1..], covered);
      }
    }
  }

  function PendingProbes(p: Planner, s: AgentState): seq<string> {
    var done := DoneTools(s.observations);
    (if "httpx" in done then [] else ["httpx"])
    + (if p.profile == Recon || "nuclei" in done then [] else ["nuclei"])
  }

  function FirstNonEmpty(a: seq<string>, b: seq<string>, c: seq<string>): seq<string> {
    if a != [] then a else if b != [] then b else c
  }

  function ProbeTargets(p: Planner, tool: string, observations: seq<Observation>): seq<string> {
    if tool == "httpx" then
      MergedTargets(
        FirstNonEmpty(NmapHttpUrls(observations), WebSeeds(p.snapshot), PlainUrls(p.hosts)), PlainUrls(p.discovered))
    else if tool == "nuclei" then
      FirstNonEmpty(HttpxUrls(observations), WebSeeds(p.snapshot), PlainUrls(p.hosts))
    else []
  }

  function NmapCall(host: string): Decision {
    ToolCall("nmap", map["target" := JStr(host), "ports" := JStr(NMAP_PIPELINE_PORTS), "profile" := JStr("safe")])
  }

  function ProbeCall(tool: string, targets: seq<string>): Decision {
    ToolCall(tool, map["targets" := JList(Strings(targets))])
  }

  function Remaining(p: Planner, s: AgentState): nat {
    |PendingHosts(p, s)| + |PendingProbes(p, s)|
  }

  function Decide(p: Planner, s: AgentState): Decision {
    if p.hosts == [] && p.discovered == [] then FinishRun("nothing to run")
    else if Remaining(p, s) == 0 then FinishRun("pipeline complete")
    else if s.step + Remaining(p, s) + 1 > s.maxSteps then FinishRun("step budget reached")
    else if PendingHosts(p, s) != [] then NmapCall(PendingHosts(p, s)[0])
    else
      var tool := PendingProbes(p, s)[0];
      ProbeCall(tool, ProbeTargets(p, tool, s.observations))
  }

  /** PipelinePlanner.decide, with the loops it runs. */
  method DecideNext(p: Planner, s: AgentState) returns (d: Decision)
    ensures d == Decide(p, s)
  {
    if p.hosts == [] && p.discovered == [] {
      return FinishRun("nothing to run");
    }
    var pending: seq<string> := [];
    if Scans(p.profile) {
      pending := NmapPendingHosts(p.hosts, s);
    }
    var probes := PendingProbes(p, s);
    var remaining := |pending| + |probes|;
    if remaining == 0 {
      return FinishRun("pipeline complete");
    }
    if s.step + remaining + 1 > s.maxSteps {
      return FinishRun("step budget reached");
    }
    if pending != [] {
      return NmapCall(pending[0]);
    }
    var targets := StageTargets(p, probes[0], s.observations);
    d := ProbeCall(probes[0], targets);
  }

  method StageTargets(p: Planner, tool: string, observations: seq<Observation>) returns (targets: seq<string>)
    requires tool in {"httpx", "nuclei"}
    ensures targets == ProbeTargets(p, tool, observations)
  {
    var seeds := SnapshotWebSeeds(p.snapshot);
    if tool == "httpx" {
      var urls := CollectNmapUrls(observations);
      var base := FirstNonEmpty(urls, seeds, PlainUrls(p.hosts));
      if base == [] && p.discovered == [] {
        return [];
      }
      targets := MergeHttpxTargets(base, PlainUrls(p.discovered));
    } else {
      var urls := CollectHttpxUrls(observations);
      targets := FirstNonEmpty(urls, seeds, PlainUrls(p.hosts));
    }
  }
}
