/** What every uncancelled discovery run accounts for: partition, batches, promotion, permissions. */
module DiscoveryAccounting {
  import opened Wrappers
  import opened Text
  import opened Hostnames
  import opened Targets
  import opened AgentRuntime
  import opened SafetyGates
  import opened Discovery

  // ----- batches ---------------------------------------------------------

  function Flatten(batches: seq<seq<string>>): seq<string> {
    if batches == [] then [] else batches[0] + Flatten(batches[1..])
  }

  /** Batches hold one to twenty hosts, keep the order, lose nothing, and are ceil(n / 20) in number. */
  lemma {:induction false} BatchesCover(hosts: seq<string>)
    ensures Flatten(Batches(hosts)) == hosts
    ensures |Batches(hosts)| == (|hosts| + MAX_DNSX_TARGETS - 1) / MAX_DNSX_TARGETS
    ensures forall i :: 0 <= i < |Batches(hosts)| ==> 1 <= |Batches(hosts)[i]| <= MAX_DNSX_TARGETS
    decreases |hosts|
  {
    if hosts == [] {
    } else if |hosts| <= MAX_DNSX_TARGETS {
      assert Flatten([hosts]) == hosts + [];
    } else {
      var first, rest := hosts[..MAX_DNSX_TARGETS], hosts[MAX_DNSX_TARGETS..];
      BatchesCover(rest);
      assert ([first] + Batches(rest))[1..] == Batches(rest);
      assert hosts == first + rest;
    }
  }

  lemma SliceOfRest(hosts: seq<string>, n: nat, a: nat, b: nat)
    requires n <= |hosts| && a <= b <= |hosts[n..]|
    ensures hosts[n..][a..b] == hosts[n + a..n + b]
  {
  }

  lemma {:induction false} BatchIsSlice(hosts: seq<string>, i: nat)
    requires i < |Batches(hosts)|
    ensures var a := i * MAX_DNSX_TARGETS;
            a + |Batches(hosts)[i]| <= |hosts| && Batches(hosts)[i] == hosts[a..a + |Batches(hosts)[i]|]
    ensures i < |Batches(hosts)| - 1 ==> |Batches(hosts)[i]| == MAX_DNSX_TARGETS
    decreases |hosts|
  {
    if |hosts| <= MAX_DNSX_TARGETS {
      assert Batches(hosts) == [hosts] && hosts[0..|hosts|] == hosts;
    } else {
      var first, rest := hosts[..MAX_DNSX_TARGETS], hosts[MAX_DNSX_TARGETS..];
      assert Batches(hosts) == [first] + Batches(rest);
      if i > 0 {
        BatchIsSlice(rest, i - 1);
        var b, c := (i - 1) * MAX_DNSX_TARGETS, |Batches(rest)[i - 1]|;
        assert Batches(hosts)[i] == Batches(rest)[i - 1] == rest[b..b + c];
        SliceOfRest(hosts, MAX_DNSX_TARGETS, b, b + c);
      }
    }
  }

  /** No host is in two batches. */
  lemma OneBatchEach(hosts: seq<string>, i: nat, j: nat, h: string)
    requires AllDistinct(hosts) && i < j < |Batches(hosts)|
    ensures !(h in Batches(hosts)[i] && h in Batches(hosts)[j])
  {
    BatchIsSlice(hosts, i);
    BatchIsSlice(hosts, j);
    var b, c := Batches(hosts)[i], Batches(hosts)[j];
    forall x, y | 0 <= x < |b| && 0 <= y < |c| ensures b[x] != c[y] {
      assert b[x] == hosts[i * MAX_DNSX_TARGETS + x] && c[y] == hosts[j * MAX_DNSX_TARGETS + y];
    }
  }

  // ----- accounting ------------------------------------------------------

  lemma VerifiedIsEligible(w: World, parents: seq<string>)
    ensures Verified(w, parents) <= EligibleHosts(w, parents)
  {
    var eligible := SortedSet(EligibleHosts(w, parents));
    HostsOfBatches(eligible);
    VerifiedWithin(w, Batches(eligible));
  }

  lemma NoneEligible(w: World, parents: seq<string>)
    requires SortedSet(EligibleHosts(w, parents)) == []
    ensures EligibleHosts(w, parents) == {} && Verified(w, parents) == {}
  {
    assert EligibleHosts(w, parents) == Elements(SortedSet(EligibleHosts(w, parents)));
    VerifiedIsEligible(w, parents);
  }

  /** The fields of the result as sets, whether or not any host was eligible. */
  lemma ResultFields(w: World, parents: seq<string>)
    ensures var r, v := FinalResult(w, parents), Verified(w, parents);
            && Elements(r.verified) == v
            && Elements(r.unverified) == EligibleHosts(w, parents) - v
            && Elements(r.promoted) == PromotedOf(parents, v, w.assetHosts(v))
  {
    if SortedSet(EligibleHosts(w, parents)) == [] {
      NoneEligible(w, parents);
      assert PromotedOf(parents, {}, w.assetHosts({})) == {};
      assert Elements([]) == {};
    }
  }

  /** Verified and unverified hosts partition the eligible ones. */
  lemma Partition(w: World, parents: seq<string>)
    ensures var r := FinalResult(w, parents);
            && Elements(r.verified) + Elements(r.unverified) == EligibleHosts(w, parents)
            && Elements(r.verified) !! Elements(r.unverified)
  {
    ResultFields(w, parents);
    VerifiedIsEligible(w, parents);
  }

  /** Each host is verified on the strength of the one batch that asked for it. */
  lemma VerifiedByItsBatch(w: World, parents: seq<string>, h: string)
    requires h in FinalResult(w, parents).verified
    ensures exists b :: b in Batches(SortedSet(EligibleHosts(w, parents))) && h in b && h in VerifiedIn(w, b)
  {
    assert h in Elements(FinalResult(w, parents).verified);
    ResultFields(w, parents);
  }

  lemma FoundDescends(w: World, p: string, h: string)
    requires h in FoundBy(w, p)
    ensures Answered(w, p) && IsWithinDomain(h, p) && h != p && exists v :: NormalizeHostname(v) == Some(h)
  {
    var c :| c in EntriesOf(w, p) && Descendant(p, c) == Some(h);
    assert NormalizeHostname(c.name.value) == Some(h);
  }

  /**
   A promoted host was verified, is the host of an asset, and is a proper descendant of a parent
   whose discovery was allowed, answered and persisted; the final descent filter removes nothing.
   */
  lemma PromotedMeans(w: World, parents: seq<string>)
    ensures var r := FinalResult(w, parents);
            var verified := Elements(r.verified);
            && Elements(r.promoted) == verified * w.assetHosts(verified)
            && forall h :: h in r.promoted ==> PromotedFrom(w, parents, h)
  {
    var r, v := FinalResult(w, parents), Verified(w, parents);
    ResultFields(w, parents);
    VerifiedIsEligible(w, parents);
    forall h | h in v ensures DescendsFrom(h, parents) && PromotedFrom(w, parents, h) {
      EligibleFrom(w, parents, h);
    }
    forall h | h in r.promoted ensures PromotedFrom(w, parents, h) {
      assert h in Elements(r.promoted);
    }
  }

  lemma EligibleFrom(w: World, parents: seq<string>, h: string)
    requires h in EligibleHosts(w, parents)
    ensures DescendsFrom(h, parents) && PromotedFrom(w, parents, h)
  {
    var p :| p in parents && h in FoundBy(w, p) && !ParentFails(w, p);
    FoundDescends(w, p, h);
    assert PersistedParent(w, p, h);
  }

  lemma PromotedSorted(w: World, parents: seq<string>)
    ensures StrictlySorted(FinalResult(w, parents).promoted)
  {
  }

  predicate PersistedParent(w: World, p: string, h: string) {
    h in FoundBy(w, p) && SubfinderAllowed(w, p) && Answered(w, p) && w.persistParent(p) && IsWithinDomain(h, p) && h != p
  }

  predicate PromotedFrom(w: World, parents: seq<string>, h: string) {
    exists p :: p in parents && PersistedParent(w, p, h)
  }

  // ----- what the tools may be asked -------------------------------------

  lemma SubfinderPermission(w: World, parent: string)
    requires SubfinderAllowed(w, parent)
    ensures TargetAllowed(w.validator.policy.allowed, parent)
  {
    CheckedMeans(w.validator, "subfinder", map["domain" := JStr(parent)], []);
    var params := map["domain" := JStr(parent)];
    assert PolicyTargets(Subfinder, params) == [parent];
    assert parent in PolicyTargets(Subfinder, params);
  }

  lemma NameIsDnsTarget(name: string)
    requires IsName(name) && !IsDottedQuad(name)
    ensures DnsTarget(name) == Some(name)
  {
    NameIsPlain(name);
    NameChars(name);
    forall i | 0 <= i < |name| ensures !IsSpace(name[i]) && name[i] !in SHELL + ",*?#@/:+=" {
      assert name[i] in name;
      NoNameChar(name[i]);
    }
  }

  lemma NoNameChar(c: char)
    requires IsAlnum(c) || c == '-' || c == '.'
    ensures !IsSpace(c) && c !in SHELL + ",*?#@/:+="
  {
    var bad := SHELL + ",*?#@/:+=";
    assert bad == ";|&`$()<>!\\'\"~,*?#@/:+=";
  }

  predicate PlainNames(batch: seq<string>) {
    forall i :: 0 <= i < |batch| ==> IsName(batch[i]) && !IsDottedQuad(batch[i])
  }

  /** The query-only policy of a batch refuses none of its hosts: only a missing DNSX tool can. */
  lemma BatchAllowedIff(w: World, batch: seq<string>)
    requires PlainNames(batch) && 1 <= |batch| <= MAX_DNSX_TARGETS
    ensures DnsxAllowed(w, batch) <==> Dnsx in w.validator.registered
  {
    var params := map["targets" := JList(Strings(batch))];
    var v := BatchValidator(w.validator, batch);
    BatchSchema(batch, params);
    CheckedMeans(v, "dnsx", params, []);
    assert ToolNamed("dnsx") == Some(Dnsx);
  }

  lemma BatchSchema(batch: seq<string>, params: Params)
    requires PlainNames(batch) && 1 <= |batch| <= MAX_DNSX_TARGETS && params == map["targets" := JList(Strings(batch))]
    ensures SchemaOk(Dnsx, params) && PolicyTargets(Dnsx, params) == batch
    ensures Permitted(batch, [], batch)
  {
    assert params.Keys == {"targets"};
    assert TargetsShape(params);
    assert TargetStrings(params) == batch;
    forall t | t in batch ensures DnsTarget(t).Some? {
      NameIsDnsTarget(t);
    }
  }

  // ----- the shipped Subfinder -------------------------------------------

  /** The shipped tool passes every name it emits through the shape check of its own domain parameter. */
  ghost predicate IsEmitted(name: string) {
    exists raw :: DnsTarget(raw) == Some(name)
  }

  ghost predicate EmitsChecked(out: SubfinderOutput) {
    out.entries.Some? ==>
      forall i :: 0 <= i < |out.entries.value| ==>
        out.entries.value[i].name.Some? && IsEmitted(out.entries.value[i].name.value)
  }

  ghost predicate Shipped(w: World) {
    forall parent: string :: EmitsChecked(w.subfinder(parent))
  }

  /** The check refuses whitespace before it drops a root dot, so no newline gets through. */
  lemma EmittedLacksNewline(name: string)
    requires IsEmitted(name)
    ensures '\n' !in name
  {
    var raw :| DnsTarget(raw) == Some(name);
    CleanLacksNewline(Strip(raw));
  }

  lemma CleanLacksNewline(v: string)
    requires CleanOf(v, SHELL + ",*?#@/:+=")
    ensures '\n' !in Lower(DropRootDot(v))
  {
    var bare := DropRootDot(v);
    assert bare <= v;
    forall i | 0 <= i < |bare| ensures Lower(bare)[i] != '\n' {
      assert bare[i] == v[i] && v[i] in v;
    }
  }

  /** A name in normal form, which is no address and which every later normalization leaves alone. */
  predicate IsPlainHost(h: string) {
    IsName(h) && !IsDottedQuad(h) && NormalizeHostname(h) == Some(h) && '\n' !in h
  }

  lemma NormalizedPlain(value: string, h: string)
    requires '\n' !in value && NormalizeHostname(value) == Some(h)
    ensures IsPlainHost(h)
  {
    NormalForm(value, h);
    NameIsPlain(h);
    NamesAreFixed(h);
  }

  lemma FoundIsPlain(w: World, p: string, h: string)
    requires Shipped(w) && h in FoundBy(w, p)
    ensures IsPlainHost(h)
  {
    var entries := EntriesOf(w, p);
    var c :| c in entries && Descendant(p, c) == Some(h);
    var i :| 0 <= i < |entries| && entries[i] == c;
    assert EmitsChecked(w.subfinder(p));
    EmittedLacksNewline(c.name.value);
    NormalizedPlain(c.name.value, h);
  }

  /** With the shipped Subfinder every eligible host is plain. */
  lemma EligibleIsPlain(w: World, parents: seq<string>, h: string)
    requires Shipped(w) && h in EligibleHosts(w, parents)
    ensures IsPlainHost(h)
  {
    var p :| p in parents && h in FoundBy(w, p);
    FoundIsPlain(w, p, h);
  }

  /** So is every host that it promotes. */
  lemma PromotedIsPlain(w: World, parents: seq<string>, h: string)
    requires Shipped(w) && h in FinalResult(w, parents).promoted
    ensures IsPlainHost(h)
  {
    PromotedMeans(w, parents);
    var p :| p in parents && PersistedParent(w, p, h);
    FoundIsPlain(w, p, h);
  }

  /** With it, no batch is ever refused for its hosts: every one is allowed exactly when DNSX is registered. */
  lemma ShippedBatchAllowedIff(w: World, parents: seq<string>, batch: seq<string>)
    requires Shipped(w) && batch in Batches(SortedSet(EligibleHosts(w, parents)))
    ensures DnsxAllowed(w, batch) <==> Dnsx in w.validator.registered
  {
    ShippedBatchIsPlain(w, parents, batch);
    BatchAllowedIff(w, batch);
  }

  lemma ShippedBatchIsPlain(w: World, parents: seq<string>, batch: seq<string>)
    requires Shipped(w) && batch in Batches(SortedSet(EligibleHosts(w, parents)))
    ensures 1 <= |batch| <= MAX_DNSX_TARGETS && PlainNames(batch)
    ensures forall h :: h in batch ==> IsPlainHost(h)
  {
    var eligible := SortedSet(EligibleHosts(w, parents));
    BatchSize(eligible, batch);
    forall h | h in batch ensures IsPlainHost(h) {
      BatchFrom(eligible, batch, h);
      assert h in EligibleHosts(w, parents);
      EligibleIsPlain(w, parents, h);
    }
    AllPlain(batch);
  }

  lemma BatchSize(hosts: seq<string>, batch: seq<string>)
    requires batch in Batches(hosts)
    ensures 1 <= |batch| <= MAX_DNSX_TARGETS
  {
    BatchesCover(hosts);
    var i :| 0 <= i < |Batches(hosts)| && Batches(hosts)[i] == batch;
  }

  lemma BatchFrom(hosts: seq<string>, batch: seq<string>, h: string)
    requires batch in Batches(hosts) && h in batch
    ensures h in Elements(hosts)
  {
    HostsOfBatches(hosts);
    assert h in Hosts(Batches(hosts));
  }

  lemma AllPlain(batch: seq<string>)
    requires forall h :: h in batch ==> IsPlainHost(h)
    ensures PlainNames(batch)
  {
    forall i | 0 <= i < |batch| ensures IsName(batch[i]) && !IsDottedQuad(batch[i]) {
      assert IsPlainHost(batch[i]);
    }
  }
}
