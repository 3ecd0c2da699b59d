/**
 The gates on the raw parameters of a call: which strings each tool is authorized for, what its
 parameter model demands of them, and the texts it is run against. Everything is stated on the
 values under the parameter names, tool by tool.
 */
module GateParameters {
  import opened Wrappers
  import opened Text
  import opened Hostnames
  import opened Targets
  import opened AgentRuntime
  import opened SafetyGates

  // ----- the parameter models --------------------------------------------

  /** What every tool demands of a stripped target: no flag, no blank, no character of the list. */
  predicate PlainText(text: string, bad: string) {
    text != "" && text[0] != '-' && forall c :: c in text ==> !IsSpace(c) && c !in bad
  }

  lemma CleanMeans(text: string, bad: string)
    ensures CleanOf(text, bad) <==> forall c :: c in text ==> !IsSpace(c) && c !in bad
  {
    if CleanOf(text, bad) {
      forall c | c in text ensures !IsSpace(c) && c !in bad {
        var i :| 0 <= i < |text| && text[i] == c;
      }
    } else {
      var i :| 0 <= i < |text| && !(!IsSpace(text[i]) && text[i] !in bad);
      assert text[i] in text;
    }
  }

  lemma SameClean(text: string, a: string, b: string)
    requires forall c :: c in a <==> c in b
    ensures CleanOf(text, a) <==> CleanOf(text, b)
  {
  }

  lemma {:induction false} NmapTargetMeans(raw: string)
    ensures NmapTargetOk(raw) <==>
              1 <= |raw| <= 253 && PlainText(Strip(raw), ";|&`$()<>!\\'\"*?~#")
  {
    SameClean(Strip(raw), SHELL + "*?#", ";|&`$()<>!\\'\"*?~#");
    CleanMeans(Strip(raw), ";|&`$()<>!\\'\"*?~#");
  }

  lemma {:induction false} UrlTargetMeans(raw: string)
    ensures UrlTargetOk(raw) <==> |Strip(raw)| <= 2048 && PlainText(Strip(raw), ";|&`$()<>!\\'\"~")
  {
    CleanMeans(Strip(raw), ";|&`$()<>!\\'\"~");
  }

  /** nmap takes one target, optional ports and an optional profile. */
  lemma {:induction false} NmapSchemaMeans(params: Params)
    ensures SchemaOk(Nmap, params) <==>
              && params.Keys <= {"target", "ports", "profile"}
              && "target" in params && params["target"].JStr? && 1 <= |params["target"].s| <= 253
              && PlainText(Strip(params["target"].s), ";|&`$()<>!\\'\"*?~#")
              && ("ports" in params ==> params["ports"].JStr? && PortsOk(params["ports"].s))
              && ("profile" in params ==>
                    params["profile"] in {JStr("safe"), JStr("version"), JStr("os"), JStr("vuln")})
  {
    if "target" in params && params["target"].JStr? {
      NmapTargetMeans(params["target"].s);
    }
  }

  /** Ports are `top-n` for 1 <= n <= 65535, or digits, commas and dashes. */
  lemma PortsMean(raw: string)
    ensures PortsOk(raw) <==>
              || (exists n: nat :: 1 <= n <= 65535 && PortCount(Strip(raw), n))
              || (Strip(raw) != "" && forall c :: c in Strip(raw) ==> c in "0123456789,-")
  {
    var p := Strip(raw);
    if "top-" <= p {
      assert p[0] == 't' && p[0] in p;
      if p[4..] != "" && (forall c :: c in p[4..] ==> IsDigit(c)) {
        assert PortCount(p, DigitsValue(p[4..]));
      }
    } else {
      forall c | c in p ensures c in "0123456789,-" <==> IsDigit(c) || c == ',' || c == '-' {
        DigitLiterals(c);
      }
    }
  }

  lemma DigitLiterals(c: char)
    ensures c in "0123456789,-" <==> IsDigit(c) || c == ',' || c == '-'
  {
  }

  predicate PortCount(p: string, n: nat) {
    "top-" <= p && p[4..] != "" && (forall c :: c in p[4..] ==> IsDigit(c)) && DigitsValue(p[4..]) == n
  }

  /** httpx and nuclei take one to twenty targets, and no other parameter. */
  lemma {:induction false} ListSchemaMeans(tool: Tool, params: Params)
    requires tool in {Httpx, Nuclei}
    ensures SchemaOk(tool, params) <==>
              && params.Keys == {"targets"} && params["targets"].JList?
              && 1 <= |params["targets"].items| <= 20
              && forall i :: 0 <= i < |params["targets"].items| ==>
                   && params["targets"].items[i].JStr?
                   && |Strip(params["targets"].items[i].s)| <= 2048
                   && PlainText(Strip(params["targets"].items[i].s), ";|&`$()<>!\\'\"~")
  {
    if TargetsShape(params) {
      var items, texts := params["targets"].items, TargetStrings(params);
      forall i | 0 <= i < |items|
        ensures UrlTargetOk(items[i].s) <==>
                |Strip(items[i].s)| <= 2048 && PlainText(Strip(items[i].s), ";|&`$()<>!\\'\"~")
      {
        UrlTargetMeans(items[i].s);
      }
      if forall i :: 0 <= i < |items| ==> UrlTargetOk(items[i].s) {
        forall t | t in texts ensures UrlTargetOk(t) {
          var i :| 0 <= i < |texts| && texts[i] == t;
        }
      }
      if forall t :: t in texts ==> UrlTargetOk(t) {
        forall i | 0 <= i < |items| ensures UrlTargetOk(items[i].s) {
          assert texts[i] in texts;
        }
      }
    }
  }

  /** subfinder and dnsx take DNS names: no address, in any letter case, with or without the root dot. */
  lemma DnsTargetMeans(raw: string)
    ensures var v := Strip(raw);
            var bare := if v != "" && v[|v| - 1] == '.' then v[..|v| - 1] else v;
            DnsTarget(raw) ==
            if |v| <= 253 && PlainText(v, ";|&`$()<>!\\'\"~,*?#@/:+=") && !IsIPv4(bare) && IsName(Lower(bare))
            then Some(Lower(bare)) else None
  {
    var v := Strip(raw);
    DnsTargetUnfolds(raw);
    DnsTextMeans(v);
    BareMeans(v);
    if CleanOf(v, SHELL + ",*?#@/:+=") {
      NoFinalNewline(v);
    }
  }

  lemma DnsTargetUnfolds(raw: string)
    ensures var v := Strip(raw);
            DnsTarget(raw) ==
            if v != "" && |v| <= 253 && v[0] != '-' && CleanOf(v, SHELL + ",*?#@/:+=")
               && !IsIPv4(DropRootDot(v)) && MatchesHostnameRe(Lower(DropRootDot(v)))
            then Some(Lower(DropRootDot(v))) else None
  {
  }

  lemma {:induction false} DnsTextMeans(v: string)
    ensures v != "" && v[0] != '-' && CleanOf(v, SHELL + ",*?#@/:+=") <==> PlainText(v, ";|&`$()<>!\\'\"~,*?#@/:+=")
  {
    SameClean(v, SHELL + ",*?#@/:+=", ";|&`$()<>!\\'\"~,*?#@/:+=");
    CleanMeans(v, ";|&`$()<>!\\'\"~,*?#@/:+=");
  }

  lemma BareMeans(v: string)
    ensures DropRootDot(v) == if v != "" && v[|v| - 1] == '.' then v[..|v| - 1] else v
  {
    LastOf(v, '.');
  }

  lemma LastOf(v: string, c: char)
    ensures EndsWith(v, [c]) <==> v != "" && v[|v| - 1] == c
  {
    if v != "" {
      assert v[|v| - 1..] == [v[|v| - 1]];
    }
  }

  /** The pattern's looseness plays no part where blanks are refused. */
  lemma NoFinalNewline(v: string)
    requires CleanOf(v, SHELL + ",*?#@/:+=")
    ensures MatchesHostnameRe(Lower(DropRootDot(v))) <==> IsName(Lower(DropRootDot(v)))
  {
    var name := Lower(DropRootDot(v));
    LastOf(name, '\n');
    if name != "" {
      assert name[|name| - 1] == LowerChar(v[|name| - 1]) != '\n';
    }
  }

  // ----- what the gate accepts -------------------------------------------

  /** nmap and nuclei are active; the others are safe under every cap. */
  lemma DangerMeans(policy: Policy)
    ensures forall tool: Tool :: DangerAllowed(policy, tool) <==> (tool in {Nmap, Nuclei} ==> policy.maxDanger != Safe)
  {
  }

  /** The target is in the allowlist, host by host. */
  predicate Allowed(v: Validator, text: string) {
    exists a :: a in v.policy.allowed && NormalizeTarget(a) == NormalizeTarget(text)
  }

  predicate IsEligible(eligible: seq<string>, text: string) {
    exists h :: h in eligible && NormalizeTarget(h) == NormalizeTarget(text)
  }

  /** An nmap call is accepted exactly when the model takes it, the cap allows it and its target is allowed. */
  lemma NmapAccepted(v: Validator, params: Params)
    ensures Validate(v, ToolCall("nmap", params)).Accept? <==>
              && Nmap in v.registered && v.policy.maxDanger != Safe && SchemaOk(Nmap, params)
              && Allowed(v, params["target"].s)
  {
    CheckedMeans(v, "nmap", params, []);
    DangerMeans(v.policy);
    if SchemaOk(Nmap, params) {
      assert params["target"].s in PolicyTargets(Nmap, params);
      assert forall t :: t in PolicyTargets(Nmap, params) ==> t == params["target"].s;
      assert forall t :: !Eligible([], t);
    }
  }

  lemma SubfinderAccepted(v: Validator, params: Params)
    ensures Validate(v, ToolCall("subfinder", params)).Accept? <==>
              && Subfinder in v.registered && params.Keys == {"domain"} && params["domain"].JStr?
              && |params["domain"].s| <= 253 && DnsTarget(params["domain"].s).Some?
              && Allowed(v, params["domain"].s)
  {
    CheckedMeans(v, "subfinder", params, []);
    DangerMeans(v.policy);
    if SchemaOk(Subfinder, params) {
      assert params["domain"].s in PolicyTargets(Subfinder, params);
      assert forall t :: t in PolicyTargets(Subfinder, params) ==> t == params["domain"].s;
      assert forall t :: !Eligible([], t);
    }
  }

  /** The items of a target list, each of which the tool will be run against. */
  predicate AllItems(params: Params, ok: string -> bool) {
    && "targets" in params && params["targets"].JList?
    && forall i :: 0 <= i < |params["targets"].items| ==> params["targets"].items[i].JStr? && ok(params["targets"].items[i].s)
  }

  lemma ItemsAreTargets(tool: Tool, params: Params, ok: string -> bool)
    requires tool in {Httpx, Nuclei, Dnsx} && SchemaOk(tool, params)
    ensures (forall t :: t in PolicyTargets(tool, params) ==> ok(t)) <==> AllItems(params, ok)
  {
    var items, targets := params["targets"].items, PolicyTargets(tool, params);
    assert |targets| == |items|;
    assert forall i :: 0 <= i < |items| ==> targets[i] == items[i].s;
    if forall t :: t in targets ==> ok(t) {
      forall i | 0 <= i < |items| ensures ok(items[i].s) {
        assert targets[i] in targets;
      }
    }
  }

  /** A list call is accepted exactly when every one of its items is allowed, besides model and cap. */
  lemma ListAccepted(v: Validator, name: string, params: Params)
    requires name in {"httpx", "nuclei", "dnsx"}
    ensures Validate(v, ToolCall(name, params)).Accept? <==>
              && ToolNamed(name).value in v.registered && SchemaOk(ToolNamed(name).value, params)
              && (name == "nuclei" ==> v.policy.maxDanger != Safe)
              && forall i :: 0 <= i < |params["targets"].items| ==> Allowed(v, params["targets"].items[i].s)
  {
    CheckedMeans(v, name, params, []);
    DangerMeans(v.policy);
    var tool := ToolNamed(name).value;
    if SchemaOk(tool, params) {
      ItemsAreTargets(tool, params, (t: string) => MayReach(v.policy.allowed, [], t));
      assert forall t :: !Eligible([], t);
    }
  }

  /** Under the promoted gate an httpx call may also name eligible hosts, and nothing else. */
  lemma PromotedAccepted(base: Validator, eligible: seq<string>, params: Params)
    ensures ValidatePromoted(base, eligible, ToolCall("httpx", params)).Accept? <==>
              && Httpx in base.registered && SchemaOk(Httpx, params)
              && forall i :: 0 <= i < |params["targets"].items| ==>
                   Allowed(base, params["targets"].items[i].s) || IsEligible(eligible, params["targets"].items[i].s)
  {
    PromotedAccepts(base, eligible, params);
    DangerMeans(base.policy);
    if SchemaOk(Httpx, params) {
      ItemsAreTargets(Httpx, params, (t: string) => MayReach(base.policy.allowed, eligible, t));
    }
  }

  /** Any other name is refused: the five tools are all there are. */
  lemma OthersRefused(base: Validator, eligible: seq<string>, name: string, params: Params)
    ensures ValidatePromoted(base, eligible, ToolCall(name, params)).Accept? ==>
              name in {"nmap", "httpx", "nuclei", "subfinder", "dnsx"}
    ensures ToolNamed("nmap") == Some(Nmap) && ToolNamed("httpx") == Some(Httpx) && ToolNamed("nuclei") == Some(Nuclei)
    ensures ToolNamed("subfinder") == Some(Subfinder) && ToolNamed("dnsx") == Some(Dnsx)
  {
    CheckedMeans(base, name, params, []);
  }

  /** The item at `i` fails, and no earlier one does. */
  predicate FailsFirst(items: seq<Json>, ok: string -> bool, i: nat) {
    && i < |items| && items[i].JStr? && !ok(items[i].s)
    && forall j :: 0 <= j < i ==> items[j].JStr? && ok(items[j].s)
  }

  function Reaches(v: Validator, eligible: seq<string>): string -> bool {
    (t: string) => Allowed(v, t) || IsEligible(eligible, t)
  }

  /** A refusal by the allowlist names the first item that is neither allowed nor eligible. */
  lemma {:induction false} RefusalNamesTheFirst(v: Validator, params: Params, eligible: seq<string>)
    requires Admissible(v, "httpx", params) && Checked(v, "httpx", params, eligible).Reject?
    ensures exists i :: 0 <= i < |params["targets"].items|
                        && FailsFirst(params["targets"].items, Reaches(v, eligible), i)
                        && Checked(v, "httpx", params, eligible).reason ==
                           "target '" + params["targets"].items[i].s + "' is not in the allowed targets list"
  {
    var ok := Reach(v.policy.allowed, eligible);
    var i := FirstFailingAt(TargetStrings(params), ok);
    FailingItem(params, ok, i);
    forall t ensures ok(t) == Reaches(v, eligible)(t) {
      SameReach(v, eligible, t);
    }
    SameFailing(params["targets"].items, ok, Reaches(v, eligible), i);
    RefusalText(TargetStrings(params)[i]);
  }

  lemma SameReach(v: Validator, eligible: seq<string>, t: string)
    ensures Reach(v.policy.allowed, eligible)(t) == Reaches(v, eligible)(t)
  {
  }

  lemma SameFailing(items: seq<Json>, a: string -> bool, b: string -> bool, i: nat)
    requires FailsFirst(items, a, i) && forall t :: a(t) == b(t)
    ensures FailsFirst(items, b, i)
  {
  }

  lemma FailingItem(params: Params, ok: string -> bool, i: nat)
    requires TargetsShape(params) && i < |TargetStrings(params)| && !ok(TargetStrings(params)[i])
    requires forall j :: 0 <= j < i ==> ok(TargetStrings(params)[j])
    ensures FailsFirst(params["targets"].items, ok, i)
  {
    forall j | 0 <= j < i ensures ok(params["targets"].items[j].s) {
      assert ok(TargetStrings(params)[j]);
    }
  }

  lemma Regrouped(a: string, b: string, c: string, d: string)
    ensures a + b + c + d == a + b + (c + d)
  {
  }

  lemma RefusalText(t: string)
    ensures NotAllowed(t) == "target '" + t + "' is not in the allowed targets list"
  {
    Regrouped("target '", t, "' is ", ALLOWLIST_PHRASE);
    assert "' is " + ALLOWLIST_PHRASE == "' is not in the allowed targets list";
  }

  lemma {:induction false} FirstFailingAt(targets: seq<string>, ok: string -> bool) returns (i: nat)
    requires FirstFailing(targets, ok).Some?
    ensures i < |targets| && FirstFailing(targets, ok) == Some(targets[i])
    ensures !ok(targets[i]) && forall j :: 0 <= j < i ==> ok(targets[j])
  {
    if !ok(targets[0]) {
      i := 0;
    } else {
      var k := FirstFailingAt(targets[1..], ok);
      i := k + 1;
      assert forall j :: 0 < j < i ==> targets[j] == targets[1..][j - 1];
    }
  }

  // ----- what the tools are run against ----------------------------------

  /** One executed target per item and none besides: the stripped text, or the normal form of the name. */
  lemma ExecutedMeans(tool: Tool, params: Params)
    requires SchemaOk(tool, params)
    ensures tool == Nmap ==> ExecutedTargets(tool, params) == [Strip(params["target"].s)]
    ensures tool == Subfinder ==> ExecutedTargets(tool, params) == [Lower(DropRootDot(Strip(params["domain"].s)))]
    ensures tool in {Httpx, Nuclei, Dnsx} ==>
              var executed, items := ExecutedTargets(tool, params), params["targets"].items;
              && |executed| == |items|
              && forall i :: 0 <= i < |items| ==>
                   executed[i] == if tool == Dnsx then Lower(DropRootDot(Strip(items[i].s))) else Strip(items[i].s)
  {
    if tool == Dnsx {
      var targets := TargetStrings(params);
      forall i | 0 <= i < |targets| ensures DnsTarget(targets[i]).Some? {
        assert targets[i] in targets;
      }
    }
  }
}
