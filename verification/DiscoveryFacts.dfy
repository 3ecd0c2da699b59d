/**
 Discovery on the raw answers of its tools: when Subfinder and DNSX may be run and for what, which
 of the names they return are found, eligible and verified, and what the result reports.
 */
module DiscoveryFacts {
  import opened Wrappers
  import opened Text
  import opened Hostnames
  import opened Targets
  import opened AgentRuntime
  import opened SafetyGates
  import opened Discovery
  import A = DiscoveryAccounting
  import G = GateParameters
  import N = DnsEnrichment

  // ----- the calls -------------------------------------------------------

  /** Subfinder is run for a plain name exactly when it is registered and the name is in the allowlist. */
  lemma SubfinderAllowedIff(w: World, parent: string)
    requires A.IsPlainHost(parent)
    ensures SubfinderAllowed(w, parent) <==>
              Subfinder in w.validator.registered && G.Allowed(w.validator, parent)
    ensures SubfinderCall(parent) == ToolCall("subfinder", map["domain" := JStr(parent)])
  {
    A.NameIsDnsTarget(parent);
    G.SubfinderAccepted(w.validator, map["domain" := JStr(parent)]);
  }

  /** DNSX is only ever run for a list each of whose names stands in the batch, and for nothing else. */
  lemma DnsxIsQueryOnly(w: World, batch: seq<string>, params: Params)
    requires Validate(BatchValidator(w.validator, batch), ToolCall("dnsx", params)).Accept?
    ensures SchemaOk(Dnsx, params)
    ensures forall i :: 0 <= i < |params["targets"].items| ==>
              exists h :: h in batch && NormalizeTarget(h) == NormalizeTarget(params["targets"].items[i].s)
  {
    G.ListAccepted(BatchValidator(w.validator, batch), "dnsx", params);
  }

  /** The call for a batch names its hosts, in order. */
  lemma DnsxCallMeans(batch: seq<string>)
    ensures var d := DnsxCall(batch);
            && d.ToolCall? && d.tool == "dnsx" && d.params.Keys == {"targets"} && d.params["targets"].JList?
            && |d.params["targets"].items| == |batch|
            && forall i :: 0 <= i < |batch| ==> d.params["targets"].items[i] == JStr(batch[i])
  {
  }

  // ----- what Subfinder finds --------------------------------------------

  /** The answer is about the parent: a successful run whose domain normalizes to it. */
  predicate AnswersFor(out: SubfinderOutput, parent: string) {
    out.ok && out.domain.Some? && NormalizeHostname(out.domain.value) == Some(parent)
  }

  predicate Names(c: Candidate, h: string) {
    c.name.Some? && NormalizeHostname(c.name.value) == Some(h)
  }

  /** The entry names `h`, and `h` lies properly below the parent. */
  predicate NamesChild(c: Candidate, parent: string, h: string) {
    Names(c, h) && h != parent && IsWithinDomain(h, parent)
  }

  /** It names nothing of the kind, and is reported by its first 500 characters. */
  ghost predicate IsRejected(c: Candidate, parent: string, text: string) {
    (forall h :: !NamesChild(c, parent, h)) && text == if |c.text| <= 500 then c.text else c.text[..500]
  }

  lemma DescendantMeans(parent: string, c: Candidate)
    ensures forall h :: Descendant(parent, c) == Some(h) <==> NamesChild(c, parent, h)
    ensures Descendant(parent, c).None? <==> forall h :: !NamesChild(c, parent, h)
  {
    if Descendant(parent, c).Some? {
      assert NamesChild(c, parent, Descendant(parent, c).value);
    }
  }

  lemma ChildrenMean(parent: string, entries: seq<Candidate>, h: string)
    ensures h in DescendantsOf(parent, CapTo(entries, 500)) <==>
              exists i :: 0 <= i < |entries| && i < 500 && NamesChild(entries[i], parent, h)
  {
    var used := CapTo(entries, 500);
    forall i | 0 <= i < |entries| && i < 500 ensures entries[i] in used {
      assert used[i] == entries[i];
    }
    forall c ensures Descendant(parent, c) == Some(h) <==> NamesChild(c, parent, h) {
      DescendantMeans(parent, c);
    }
    if c :| c in used && Descendant(parent, c) == Some(h) {
      var i :| 0 <= i < |used| && used[i] == c;
      assert entries[i] == c;
    }
  }

  lemma LeftoversMean(parent: string, entries: seq<Candidate>, text: string)
    ensures text in RejectedOf(parent, CapTo(entries, 500)) <==>
              exists i :: 0 <= i < |entries| && i < 500 && IsRejected(entries[i], parent, text)
  {
    var used := CapTo(entries, 500);
    forall i | 0 <= i < |entries| && i < 500 ensures entries[i] in used {
      assert used[i] == entries[i];
    }
    forall c ensures Descendant(parent, c).None? && CapTo(c.text, 500) == text <==> IsRejected(c, parent, text) {
      DescendantMeans(parent, c);
    }
    if c :| c in used && IsRejected(c, parent, text) {
      var i :| 0 <= i < |used| && used[i] == c;
      assert entries[i] == c;
    }
  }

  /**
   Found below a parent: named by one of the first 500 entries of an answer about it, as a proper
   descendant of it.
   */
  lemma FoundIff(w: World, parent: string, h: string)
    ensures h in FoundBy(w, parent) <==>
              && SubfinderAllowed(w, parent) && AnswersFor(w.subfinder(parent), parent)
              && w.subfinder(parent).entries.Some?
              && exists i :: 0 <= i < |w.subfinder(parent).entries.value| && i < 500
                             && NamesChild(w.subfinder(parent).entries.value[i], parent, h)
  {
    EntriesMean(w, parent);
    ChildrenMean(parent, if w.subfinder(parent).entries.Some? then w.subfinder(parent).entries.value else [], h);
    assert DescendantsOf(parent, []) == {};
  }

  lemma EntriesMean(w: World, parent: string)
    ensures var out := w.subfinder(parent);
            EntriesOf(w, parent) ==
            if SubfinderAllowed(w, parent) && AnswersFor(out, parent) && out.entries.Some?
            then CapTo(out.entries.value, 500) else []
    ensures Answered(w, parent) <==> SubfinderAllowed(w, parent) && AnswersFor(w.subfinder(parent), parent)
  {
  }

  /** Rejected for a parent: the parent itself when Subfinder may not be run, else the other entries' texts. */
  lemma RejectedIff(w: World, parent: string, text: string)
    ensures text in RejectedBy(w, parent) <==>
              if !SubfinderAllowed(w, parent) then text == parent
              else
                && AnswersFor(w.subfinder(parent), parent) && w.subfinder(parent).entries.Some?
                && exists i :: 0 <= i < |w.subfinder(parent).entries.value| && i < 500
                               && IsRejected(w.subfinder(parent).entries.value[i], parent, text)
  {
    EntriesMean(w, parent);
    LeftoversMean(parent, if w.subfinder(parent).entries.Some? then w.subfinder(parent).entries.value else [], text);
    assert RejectedOf(parent, []) == {};
  }

  /** Eligible: found below some parent whose answer was also stored. */
  lemma EligibleIff(w: World, parents: seq<string>, h: string)
    ensures h in EligibleHosts(w, parents) <==>
              exists p :: p in parents && h in FoundBy(w, p) && w.persistParent(p)
  {
    if h in EligibleHosts(w, parents) {
      var p := GoodParent(w, parents, h);
      FailsMeans(w, p, h);
    }
    if p :| p in parents && h in FoundBy(w, p) && w.persistParent(p) {
      FailsMeans(w, p, h);
      FoundSomewhere(w, parents, p, h);
      MadeEligible(w, parents, p, h);
    }
  }

  lemma FailsMeans(w: World, p: string, h: string)
    requires h in FoundBy(w, p)
    ensures !ParentFails(w, p) <==> w.persistParent(p)
  {
    A.FoundDescends(w, p, h);
  }

  lemma GoodParent(w: World, parents: seq<string>, h: string) returns (p: string)
    requires h in EligibleHosts(w, parents)
    ensures p in parents && h in FoundBy(w, p) && !ParentFails(w, p)
  {
    assert IsEligible(w, parents, h);
    p :| p in parents && h in FoundBy(w, p) && !ParentFails(w, p);
  }

  lemma FoundSomewhere(w: World, parents: seq<string>, p: string, h: string)
    requires p in parents && h in FoundBy(w, p)
    ensures h in Found(w, parents)
  {
  }

  lemma MadeEligible(w: World, parents: seq<string>, p: string, h: string)
    requires p in parents && h in FoundBy(w, p) && !ParentFails(w, p) && h in Found(w, parents)
    ensures h in EligibleHosts(w, parents)
  {
    assert IsEligible(w, parents, h);
  }

  // ----- what DNSX verifies ----------------------------------------------

  /** A record of the batch's answer is the host's own: its "host" field normalizes to it. */
  predicate IsOwn(record: Json, h: string) {
    && record.JDict? && "host" in record.fields && record.fields["host"].JStr?
    && NormalizeHostname(record.fields["host"].s) == Some(h)
  }

  /** It lists an IPv4 address under "a" or an IPv6 address under "aaaa". */
  predicate ListsAddress(p6: N.Parse6, record: Json) {
    && record.JDict?
    && (|| ("a" in record.fields && record.fields["a"].JList?
            && exists i :: i in record.fields["a"].items && i.JStr? && IsIPv4(Strip(i.s)))
        || ("aaaa" in record.fields && record.fields["aaaa"].JList?
            && exists i :: i in record.fields["aaaa"].items && i.JStr? && p6(Strip(i.s)).Some?))
  }

  lemma AnswerMeans(p6: N.Parse6, record: Json)
    ensures HasAnswer(p6, record) <==> ListsAddress(p6, record)
  {
    if record.JDict? {
      assert N.ListOf(record.fields, "a") == [] || ("a" in record.fields && record.fields["a"].JList?);
      assert N.ListOf(record.fields, "aaaa") == [] || ("aaaa" in record.fields && record.fields["aaaa"].JList?);
      forall i ensures IsAddress(p6, i, true) <==> i.JStr? && IsIPv4(Strip(i.s)) {
      }
      forall i ensures IsAddress(p6, i, false) <==> i.JStr? && p6(Strip(i.s)).Some? {
      }
    }
  }

  lemma OwnRecords(h: string, records: seq<Json>)
    ensures forall r :: r in HostRecords(h, records) <==> r in records && IsOwn(r, h)
  {
    forall r ensures r in HostRecords(h, records) <==> r in records && IsOwn(r, h) {
      GatherIn(records, IfFor(h), r);
    }
  }

  /** The answer that DNSX gave for the batch, when it was run with success and returned a list. */
  ghost predicate AnsweredWith(w: World, batch: seq<string>, records: seq<Json>) {
    DnsxAllowed(w, batch) && w.dnsx(batch).ok && w.dnsx(batch).records == Some(records)
  }

  /**
   A host of a batch is verified exactly when the batch was answered, storing the host's own records
   reached at least one asset, and one of them lists an address.
   */
  lemma VerifiedIff(w: World, batch: seq<string>, h: string)
    ensures h in VerifiedIn(w, batch) <==>
              && h in batch
              && exists records :: AnsweredWith(w, batch, records) && StoredAndAnswered(w, records, h)
  {
    var records := RecordsOf(w, batch);
    if records.Some? {
      assert AnsweredWith(w, batch, records.value);
      OwnRecords(h, records.value);
      forall r: Json ensures HasAnswer(w.p6, r) <==> ListsAddress(w.p6, r) {
        AnswerMeans(w.p6, r);
      }
    }
  }

  predicate StoredAndAnswered(w: World, records: seq<Json>, h: string) {
    && w.persistHost(h, HostRecords(h, records)).Some? && w.persistHost(h, HostRecords(h, records)).value >= 1
    && exists r :: r in records && IsOwn(r, h) && ListsAddress(w.p6, r)
  }

  // ----- the result ------------------------------------------------------

  lemma ListOfSet(s: set<string>)
    ensures StrictlySorted(SortedSet(s)) && forall x :: x in SortedSet(s) <==> x in s
  {
    forall x ensures x in SortedSet(s) <==> x in s {
      assert x in SortedSet(s) <==> x in Elements(SortedSet(s));
    }
  }

  /** What an uncancelled run reports: its counters, and its lists sorted. */
  lemma ResultLists(w: World, parents: seq<string>)
    ensures var r, n := FinalResult(w, parents), |SortedSet(EligibleHosts(w, parents))|;
            && !r.cancelled && r.parents == parents && r.subfinderCalls == |parents| && r.dnsxCalls == (n + 19) / 20
            && r.discovered == (if n == 0 then [] else SortedSet(Found(w, parents)))
            && r.rejected == SortedSet(Rejected(w, parents))
  {
    CallsCounted(w, parents, SortedSet(EligibleHosts(w, parents)));
  }

  lemma CallsCounted(w: World, parents: seq<string>, eligible: seq<string>)
    requires eligible == SortedSet(EligibleHosts(w, parents))
    ensures FinalResult(w, parents).dnsxCalls == (|eligible| + 19) / 20
  {
    A.BatchesCover(eligible);
  }

  /** The lists hold every name found, unless none is eligible, and every text rejected. */
  lemma ResultMeans(w: World, parents: seq<string>)
    ensures var r, n := FinalResult(w, parents), |SortedSet(EligibleHosts(w, parents))|;
            && StrictlySorted(r.discovered) && StrictlySorted(r.rejected)
            && (forall h :: h in r.discovered <==> n > 0 && exists p :: p in parents && h in FoundBy(w, p))
            && (forall t :: t in r.rejected <==> exists p :: p in parents && t in RejectedBy(w, p))
  {
    ResultLists(w, parents);
    FoundNames(w, parents);
    RejectedTexts(w, parents);
  }

  lemma FoundMember(w: World, parents: seq<string>, h: string)
    ensures h in Found(w, parents) <==> exists p :: p in parents && h in FoundBy(w, p)
  {
  }

  lemma RejectedMember(w: World, parents: seq<string>, t: string)
    ensures t in Rejected(w, parents) <==> exists p :: p in parents && t in RejectedBy(w, p)
  {
  }

  lemma FoundNames(w: World, parents: seq<string>)
    ensures StrictlySorted(SortedSet(Found(w, parents)))
    ensures forall h :: h in SortedSet(Found(w, parents)) <==> exists p :: p in parents && h in FoundBy(w, p)
  {
    var found := Found(w, parents);
    ListOfSet(found);
    forall h ensures h in found <==> exists p :: p in parents && h in FoundBy(w, p) {
      FoundMember(w, parents, h);
    }
  }

  lemma RejectedTexts(w: World, parents: seq<string>)
    ensures StrictlySorted(SortedSet(Rejected(w, parents)))
    ensures forall t :: t in SortedSet(Rejected(w, parents)) <==> exists p :: p in parents && t in RejectedBy(w, p)
  {
    var rejected := Rejected(w, parents);
    ListOfSet(rejected);
    forall t ensures t in rejected <==> exists p :: p in parents && t in RejectedBy(w, p) {
      RejectedMember(w, parents, t);
    }
  }

  /** Promoted: verified, carried by an asset, and below a parent. */
  lemma PromotedMembers(w: World, parents: seq<string>, h: string)
    ensures var r := FinalResult(w, parents);
            h in r.promoted <==>
              h in r.verified && h in w.assetHosts(Elements(r.verified)) && DescendsFrom(h, parents)
  {
    var r := FinalResult(w, parents);
    A.ResultFields(w, parents);
    assert h in r.promoted <==> h in Elements(r.promoted);
    assert h in r.verified <==> h in Elements(r.verified);
  }
}
