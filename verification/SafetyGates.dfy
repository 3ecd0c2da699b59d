/**
 The gates between a planner and a tool: SafetyValidator (agent_core/safety/validator.py), the
 narrow HTTPX gate for promoted hosts (backend/services/httpx_eligibility.py) and the recheck
 inside the tools.
 */
module SafetyGates {
  import opened Wrappers
  import opened Text
  import opened Hostnames
  import opened Targets
  import opened AgentRuntime

  // ----- tools and policy ------------------------------------------------

  datatype Danger = Safe | ActiveScan | Intrusive

  function DangerRank(d: Danger): nat {
    match d
    case Safe => 0
    case ActiveScan => 1
    case Intrusive => 2
  }

  function DangerName(d: Danger): string {
    match d
    case Safe => "safe"
    case ActiveScan => "active_scan"
    case Intrusive => "intrusive"
  }

  datatype Tool = Nmap | Httpx | Nuclei | Subfinder | Dnsx

  function ToolNamed(name: string): Option<Tool> {
    if name == "nmap" then Some(Nmap)
    else if name == "httpx" then Some(Httpx)
    else if name == "nuclei" then Some(Nuclei)
    else if name == "subfinder" then Some(Subfinder)
    else if name == "dnsx" then Some(Dnsx)
    else None
  }

  function DangerOf(tool: Tool): Danger {
    if tool in {Nmap, Nuclei} then ActiveScan else Safe
  }

  datatype Policy = Policy(allowed: seq<string>, maxDanger: Danger)

  predicate DangerAllowed(policy: Policy, tool: Tool) {
    DangerRank(DangerOf(tool)) <= DangerRank(policy.maxDanger)
  }

  // ----- parameter models ------------------------------------------------

  const SHELL := ";|&`$()<>!\\'\"~"

  predicate CleanOf(s: string, bad: string) {
    forall i :: 0 <= i < |s| ==> !IsSpace(s[i]) && s[i] !in bad
  }

  predicate UrlTargetOk(raw: string) {
    var t := Strip(raw);
    t != "" && |t| <= 2048 && t[0] != '-' && CleanOf(t, SHELL)
  }

  predicate NmapTargetOk(raw: string) {
    var t := Strip(raw);
    1 <= |raw| <= 253 && t != "" && t[0] != '-' && CleanOf(t, SHELL + "*?#")
  }

  predicate PortsOk(raw: string) {
    var p := Strip(raw);
    if "top-" <= p then
      p[4..] != "" && (forall c :: c in p[4..] ==> IsDigit(c)) && 1 <= DigitsValue(p[4..]) <= 65535
    else
      p != "" && forall c :: c in p ==> IsDigit(c) || c == ',' || c == '-'
  }

  /** A DNS name as subfinder and dnsx take it: validated and brought to normal form. */
  function DnsTarget(raw: string): Option<string> {
    var v := Strip(raw);
    if v == "" || |v| > MAX_NAME || v[0] == '-' || !CleanOf(v, SHELL + ",*?#@/:+=") then None
    else
      var bare := DropRootDot(v);
      if IsIPv4(bare) || !MatchesHostnameRe(Lower(bare)) then None else Some(Lower(bare))
  }

  predicate HasStr(params: Params, key: string) {
    key in params && params[key].JStr?
  }

  predicate NmapSchemaOk(params: Params) {
    && params.Keys <= {"target", "ports", "profile"}
    && HasStr(params, "target") && NmapTargetOk(params["target"].s)
    && ("ports" in params ==> HasStr(params, "ports") && PortsOk(params["ports"].s))
    && ("profile" in params ==>
          HasStr(params, "profile") && params["profile"].s in {"safe", "version", "os", "vuln"})
  }

  /** One to twenty strings under the only key "targets". */
  predicate TargetsShape(params: Params) {
    && params.Keys == {"targets"}
    && params["targets"].JList?
    && 1 <= |params["targets"].items| <= 20
    && forall i :: 0 <= i < |params["targets"].items| ==> params["targets"].items[i].JStr?
  }

  function TargetStrings(params: Params): (r: seq<string>)
    requires TargetsShape(params)
    ensures |r| == |params["targets"].items|
    ensures forall i :: 0 <= i < |r| ==> r[i] == params["targets"].items[i].s
  {
    var items := params["targets"].items;
    seq(|items|, i requires 0 <= i < |items| => items[i].s)
  }

  /** validate_params: the tool's parameter model accepts the raw parameters. */
  predicate SchemaOk(tool: Tool, params: Params) {
    match tool
    case Nmap => NmapSchemaOk(params)
    case Subfinder =>
      params.Keys == {"domain"} && HasStr(params, "domain") && |params["domain"].s| <= 253
      && DnsTarget(params["domain"].s).Some?
    case Dnsx => TargetsShape(params) && forall t :: t in TargetStrings(params) ==> DnsTarget(t).Some?
    case _ => TargetsShape(params) && forall t :: t in TargetStrings(params) ==> UrlTargetOk(t)
  }

  /** The targets the validator checks: the raw strings. */
  function PolicyTargets(tool: Tool, params: Params): seq<string>
    requires SchemaOk(tool, params)
  {
    match tool
    case Nmap => [params["target"].s]
    case Subfinder => [params["domain"].s]
    case _ => TargetStrings(params)
  }

  function ExecutedTarget(tool: Tool, raw: string): string {
    if tool in {Subfinder, Dnsx} then
      match DnsTarget(raw)
      case Some(name) => name
      case None => raw
    else Strip(raw)
  }

  /** The targets the tool runs against: the validated strings. */
  function ExecutedTargets(tool: Tool, params: Params): (r: seq<string>)
    requires SchemaOk(tool, params)
    ensures |r| == |PolicyTargets(tool, params)|
    ensures forall i :: 0 <= i < |r| ==> r[i] == ExecutedTarget(tool, PolicyTargets(tool, params)[i])
  {
    var raw := PolicyTargets(tool, params);
    seq(|raw|, i requires 0 <= i < |raw| => ExecutedTarget(tool, raw[i]))
  }

  // ----- SafetyValidator -------------------------------------------------

  /** `errorCount` is the number pydantic reports, which only shows up in a message. */
  datatype Validator = Validator(registered: set<Tool>, policy: Policy, errorCount: Params -> nat)

  const ALLOWLIST_PHRASE := "not in the allowed targets list"

  function UnknownTool(name: string): string {
    "unknown tool: '" + name + "'"
  }

  function InvalidParameters(name: string, errors: nat): string {
    "invalid parameters for '" + name + "': " + Digits(errors) + " error(s)"
  }

  function TooDangerous(tool: Tool, policy: Policy): string {
    "danger level '" + DangerName(DangerOf(tool)) + "' exceeds policy cap '" + DangerName(policy.maxDanger) + "'"
  }

  function NotAllowed(target: string): string {
    "target '" + target + "' is " + ALLOWLIST_PHRASE
  }

  predicate Eligible(eligible: seq<string>, target: string) {
    exists h :: h in eligible && NormalizeTarget(h) == NormalizeTarget(target)
  }

  predicate MayReach(allowed: seq<string>, eligible: seq<string>, target: string) {
    TargetAllowed(allowed, target) || Eligible(eligible, target)
  }

  function FirstFailing(targets: seq<string>, ok: string -> bool): Option<string> {
    if targets == [] then None
    else if !ok(targets[0]) then Some(targets[0])
    else FirstFailing(targets[1..], ok)
  }

  lemma {:induction false} FirstFailingMeans(targets: seq<string>, ok: string -> bool)
    ensures var r := FirstFailing(targets, ok);
            (r.None? <==> forall t :: t in targets ==> ok(t)) && (r.Some? ==> r.value in targets && !ok(r.value))
  {
    if targets != [] {
      FirstFailingMeans(targets[1..], ok);
      assert targets == [targets[0]] + targets[1..];
    }
  }

  function Reach(allowed: seq<string>, eligible: seq<string>): string -> bool {
    (t: string) => MayReach(allowed, eligible, t)
  }

  /** The first target that is neither allowed nor eligible. */
  function FirstRefused(targets: seq<string>, allowed: seq<string>, eligible: seq<string>): Option<string> {
    FirstFailing(targets, Reach(allowed, eligible))
  }

  lemma FirstRefusedMeans(targets: seq<string>, allowed: seq<string>, eligible: seq<string>)
    ensures var r := FirstRefused(targets, allowed, eligible);
            && (r.None? <==> forall t :: t in targets ==> MayReach(allowed, eligible, t))
            && (r.Some? ==> r.value in targets && !MayReach(allowed, eligible, r.value))
  {
    FirstFailingMeans(targets, Reach(allowed, eligible));
  }

  /** The checks both validators make; the hosts eligible besides the policy are none for SafetyValidator. */
  function Checked(v: Validator, name: string, params: Params, eligible: seq<string>): Outcome {
    var tool := ToolNamed(name);
    if tool.None? || tool.value !in v.registered then Reject(UnknownTool(name))
    else if !SchemaOk(tool.value, params) then Reject(InvalidParameters(name, v.errorCount(params)))
    else if !DangerAllowed(v.policy, tool.value) then Reject(TooDangerous(tool.value, v.policy))
    else
      match FirstRefused(PolicyTargets(tool.value, params), v.policy.allowed, eligible)
      case Some(t) => Reject(NotAllowed(t))
      case None => Accept(name)
  }

  function Validate(v: Validator, d: Decision): Outcome {
    match d
    case FinishRun(_) => Accept("")
    case ToolCall(name, params) => Checked(v, name, params, [])
  }

  /** Everything but the allowlist lets the call through. */
  predicate Admissible(v: Validator, name: string, params: Params) {
    var tool := ToolNamed(name);
    tool.Some? && tool.value in v.registered && SchemaOk(tool.value, params) && DangerAllowed(v.policy, tool.value)
  }

  predicate Permitted(allowed: seq<string>, eligible: seq<string>, targets: seq<string>) {
    forall t :: t in targets ==> TargetAllowed(allowed, t) || Eligible(eligible, t)
  }

  /** What acceptance and rejection mean. */
  lemma CheckedMeans(v: Validator, name: string, params: Params, eligible: seq<string>)
    ensures Checked(v, name, params, eligible).Accept? <==>
              Admissible(v, name, params)
              && Permitted(v.policy.allowed, eligible, PolicyTargets(ToolNamed(name).value, params))
    ensures Checked(v, name, params, eligible).Accept? ==> Checked(v, name, params, eligible).tool == name
    ensures Checked(v, name, params, eligible).Reject? && Admissible(v, name, params) ==>
              exists t :: Checked(v, name, params, eligible).reason == NotAllowed(t)
    ensures Checked(v, name, params, eligible).Reject? && !Admissible(v, name, params) ==>
              var reason := Checked(v, name, params, eligible).reason;
              || reason == UnknownTool(name)
              || reason == InvalidParameters(name, v.errorCount(params))
              || exists tool :: reason == TooDangerous(tool, v.policy)
  {
    var tool := ToolNamed(name);
    if Admissible(v, name, params) {
      FirstRefusedMeans(PolicyTargets(tool.value, params), v.policy.allowed, eligible);
    }
  }

  // ----- PromotedHttpxValidator ------------------------------------------

  function ValidatePromoted(base: Validator, eligible: seq<string>, d: Decision): Outcome {
    var outcome := Validate(base, d);
    if d.FinishRun? || d.tool != "httpx" then outcome
    else if outcome.Accept? then outcome
    else if !Contains(outcome.reason, ALLOWLIST_PHRASE) then outcome
    else Checked(base, d.tool, d.params, eligible)
  }

  /** The run-local allowlist: the original one, then each eligible host not yet covered. */
  function RuntimeAllowed(allowed: seq<string>, eligible: seq<string>): seq<string> {
    if eligible == [] then allowed
    else
      var merged := RuntimeAllowed(allowed, eligible[..|eligible| - 1]);
      var host := eligible[|eligible| - 1];
      if TargetAllowed(merged, host) then merged else merged + [host]
  }

  method BuildHttpxRuntimePolicy(base: Policy, eligible: seq<string>) returns (derived: Policy)
    ensures derived == base.(allowed := RuntimeAllowed(base.allowed, eligible))
    ensures forall t :: TargetAllowed(derived.allowed, t) <==> TargetAllowed(base.allowed, t) || Eligible(eligible, t)
  {
    var merged := base.allowed;
    var covered := set t | t in merged :: NormalizeTarget(t);
    for i := 0 to |eligible|
      invariant merged == RuntimeAllowed(base.allowed, eligible[..i])
      invariant forall n :: n in covered <==> exists t :: t in merged && NormalizeTarget(t) == n
    {
      assert eligible[..i + 1][..i] == eligible[..i];
      var norm := NormalizeTarget(eligible[i]);
      if norm !in covered {
        merged := merged + [eligible[i]];
        covered := covered + {norm};
      }
    }
    assert eligible[..|eligible|] == eligible;
    RuntimeAllowsUnion(base.allowed, eligible);
    derived := base.(allowed := merged);
  }

  lemma {:induction false} RuntimeAllowsUnion(allowed: seq<string>, eligible: seq<string>)
    ensures forall t :: TargetAllowed(RuntimeAllowed(allowed, eligible), t) <==>
                        TargetAllowed(allowed, t) || Eligible(eligible, t)
  {
    if eligible != [] {
      var before := eligible[..|eligible| - 1];
      var host := eligible[|eligible| - 1];
      RuntimeAllowsUnion(allowed, before);
      assert eligible == before + [host];
      forall t
        ensures TargetAllowed(RuntimeAllowed(allowed, eligible), t) <==> TargetAllowed(allowed, t) || Eligible(eligible, t)
      {
        assert Eligible(eligible, t) <==> Eligible(before, t) || NormalizeTarget(host) == NormalizeTarget(t);
      }
    }
  }

  function RuntimeValidator(base: Validator, eligible: seq<string>): Validator {
    base.(policy := base.policy.(allowed := RuntimeAllowed(base.policy.allowed, eligible)))
  }

  // ----- the reason test -------------------------------------------------

  lemma UnknownLacksPhrase()
    ensures !Contains(UnknownTool("httpx"), ALLOWLIST_PHRASE)
  {
    var reason := UnknownTool("httpx");
    assert reason == "unknown tool: 'httpx'";
    assert ALLOWLIST_PHRASE[22] == 'g';
    if Contains(reason, ALLOWLIST_PHRASE) {
      ContainsChars(reason, ALLOWLIST_PHRASE, 'g');
    }
  }

  lemma DigitsLackLetter(errors: nat)
    ensures 'w' !in Digits(errors)
  {
    DigitsChars(errors);
  }

  lemma InvalidLacksLetter(errors: nat)
    ensures 'w' !in InvalidParameters("httpx", errors)
  {
    DigitsLackLetter(errors);
    JoinedLack("invalid parameters for '", "httpx", "': ", Digits(errors), " error(s)", 'w');
  }

  lemma InvalidLacksPhrase(errors: nat)
    ensures !Contains(InvalidParameters("httpx", errors), ALLOWLIST_PHRASE)
  {
    var reason := InvalidParameters("httpx", errors);
    InvalidLacksLetter(errors);
    assert ALLOWLIST_PHRASE[15] == 'w';
    if Contains(reason, ALLOWLIST_PHRASE) {
      ContainsChars(reason, ALLOWLIST_PHRASE, 'w');
    }
  }

  lemma DangerNameLacks(d: Danger)
    ensures 'w' !in DangerName(d)
  {
  }

  lemma JoinedLack(a: string, b: string, c: string, d: string, e: string, x: char)
    requires x !in a && x !in b && x !in c && x !in d && x !in e
    ensures x !in a + b + c + d + e
  {
  }

  lemma DangerLacksPhrase(tool: Tool, policy: Policy)
    ensures !Contains(TooDangerous(tool, policy), ALLOWLIST_PHRASE)
  {
    var own, cap := DangerName(DangerOf(tool)), DangerName(policy.maxDanger);
    DangerNameLacks(DangerOf(tool));
    DangerNameLacks(policy.maxDanger);
    JoinedLack("danger level '", own, "' exceeds policy cap '", cap, "'", 'w');
    assert ALLOWLIST_PHRASE[15] == 'w';
    if Contains(TooDangerous(tool, policy), ALLOWLIST_PHRASE) {
      ContainsChars(TooDangerous(tool, policy), ALLOWLIST_PHRASE, 'w');
    }
  }

  lemma NotAllowedHasPhrase(t: string)
    ensures Contains(NotAllowed(t), ALLOWLIST_PHRASE)
  {
    var head := "target '" + t + "' is ";
    assert NotAllowed(t) == head + ALLOWLIST_PHRASE;
    assert OccursAt(NotAllowed(t), ALLOWLIST_PHRASE, |head|);
  }

  /** Exactly the allowlist rejections of httpx calls mention the allowlist. */
  lemma PhraseMarksAllowlist(v: Validator, params: Params, eligible: seq<string>)
    requires Checked(v, "httpx", params, eligible).Reject?
    ensures Contains(Checked(v, "httpx", params, eligible).reason, ALLOWLIST_PHRASE) <==> Admissible(v, "httpx", params)
  {
    CheckedMeans(v, "httpx", params, eligible);
    var reason := Checked(v, "httpx", params, eligible).reason;
    if Admissible(v, "httpx", params) {
      var t :| reason == NotAllowed(t);
      NotAllowedHasPhrase(t);
    } else {
      UnknownLacksPhrase();
      InvalidLacksPhrase(v.errorCount(params));
      if tool :| reason == TooDangerous(tool, v.policy) {
        DangerLacksPhrase(tool, v.policy);
      }
    }
  }

  // ----- the narrow gate -------------------------------------------------

  /**
   The promoted gate is the original gate for everything but httpx, and on httpx it accepts
   exactly what SafetyValidator accepts under the run-local policy.
   */
  lemma NarrowGate(base: Validator, eligible: seq<string>, d: Decision)
    ensures !(d.ToolCall? && d.tool == "httpx") ==> ValidatePromoted(base, eligible, d) == Validate(base, d)
    ensures d.ToolCall? && d.tool == "httpx" ==>
              (ValidatePromoted(base, eligible, d).Accept? <==> Validate(RuntimeValidator(base, eligible), d).Accept?)
    ensures ValidatePromoted(base, eligible, d).Accept? && d.ToolCall? ==> ValidatePromoted(base, eligible, d).tool == d.tool
  {
    if d.ToolCall? {
      CheckedMeans(base, d.tool, d.params, []);
      if d.tool == "httpx" {
        PromotedAccepts(base, eligible, d.params);
        RuntimeAccepts(base, eligible, d.params);
      }
    }
  }

  lemma PromotedAccepts(base: Validator, eligible: seq<string>, params: Params)
    ensures var outcome := ValidatePromoted(base, eligible, ToolCall("httpx", params));
            && (outcome.Accept? <==> Admissible(base, "httpx", params)
                                     && Permitted(base.policy.allowed, eligible, PolicyTargets(Httpx, params)))
            && (outcome.Accept? ==> outcome.tool == "httpx")
  {
    CheckedMeans(base, "httpx", params, []);
    CheckedMeans(base, "httpx", params, eligible);
    if Checked(base, "httpx", params, []).Reject? {
      PhraseMarksAllowlist(base, params, []);
    }
  }

  lemma RuntimeAccepts(base: Validator, eligible: seq<string>, params: Params)
    ensures Validate(RuntimeValidator(base, eligible), ToolCall("httpx", params)).Accept? <==>
              Admissible(base, "httpx", params)
              && Permitted(base.policy.allowed, eligible, PolicyTargets(Httpx, params))
  {
    CheckedMeans(RuntimeValidator(base, eligible), "httpx", params, []);
    RuntimeAllowsUnion(base.policy.allowed, eligible);
    assert Admissible(RuntimeValidator(base, eligible), "httpx", params) <==> Admissible(base, "httpx", params);
  }

  /** A rejection for any other reason than the allowlist is passed on unchanged. */
  lemma OnlyAllowlistIsRescued(base: Validator, eligible: seq<string>, params: Params)
    requires ValidatePromoted(base, eligible, ToolCall("httpx", params)) != Validate(base, ToolCall("httpx", params))
    ensures Admissible(base, "httpx", params)
    ensures exists t :: t in PolicyTargets(Httpx, params) && !TargetAllowed(base.policy.allowed, t)
  {
    CheckedMeans(base, "httpx", params, []);
    PhraseMarksAllowlist(base, params, []);
  }

  /** The recheck inside the tools: skipped without an allowlist, else every executed target is in it. */
  predicate RecheckPasses(context: seq<string>, targets: seq<string>) {
    context == [] || forall t :: t in targets ==> TargetAllowed(context, t)
  }

  /** What the gate let through, target by target. */
  lemma AcceptedTargets(base: Validator, eligible: seq<string>, d: Decision, t: string)
    requires d.ToolCall? && ValidatePromoted(base, eligible, d).Accept?
    ensures ToolNamed(d.tool).Some? && SchemaOk(ToolNamed(d.tool).value, d.params)
    ensures t in PolicyTargets(ToolNamed(d.tool).value, d.params) ==>
              TargetAllowed(base.policy.allowed, t) || (d.tool == "httpx" && Eligible(eligible, t))
  {
    if d.tool == "httpx" {
      PromotedAccepts(base, eligible, d.params);
    } else {
      CheckedMeans(base, d.tool, d.params, []);
    }
  }

  /** A call accepted by the promoted gate is never refused by the recheck under the run-local policy. */
  lemma RecheckNeverRefuses(base: Validator, eligible: seq<string>, d: Decision)
    requires d.ToolCall? && d.tool in {"nmap", "httpx", "nuclei"}
    requires ValidatePromoted(base, eligible, d).Accept?
    ensures ToolNamed(d.tool).Some? && SchemaOk(ToolNamed(d.tool).value, d.params)
    ensures RecheckPasses(RuntimeAllowed(base.policy.allowed, eligible),
                          ExecutedTargets(ToolNamed(d.tool).value, d.params))
  {
    AcceptedTargets(base, eligible, d, "");
    var tool := ToolNamed(d.tool).value;
    var executed, raw := ExecutedTargets(tool, d.params), PolicyTargets(tool, d.params);
    RuntimeAllowsUnion(base.policy.allowed, eligible);
    forall i | 0 <= i < |executed|
      ensures TargetAllowed(RuntimeAllowed(base.policy.allowed, eligible), executed[i])
    {
      AcceptedTargets(base, eligible, d, raw[i]);
      NormalizeIgnoresPadding(raw[i]);
    }
  }
}
