/**
 The Subfinder -> DNSX pre-stage (backend/services/discovery_service.py): which hosts are
 eligible, how they are batched, and which end up promoted, with a cancel event that may be
 set before any of the polls.
 */
module Discovery {
  import opened Wrappers
  import opened Text
  import opened Hostnames
  import opened Targets
  import opened AgentRuntime
  import opened SafetyGates
  import DnsEnrichment

  const MAX_DNSX_TARGETS := 20
  const MAX_DISCOVERED_HOSTS := 500
  const MAX_ERROR_CHARS := 500

  // ----- what the tools and the store answer -----------------------------

  /** One entry of Subfinder's list: its host, when that is a string, and its textual form. */
  datatype Candidate = Candidate(name: Option<string>, text: string)

  /** `ok` is false for any failed or raising execution; `entries` is None when the field is no list. */
  datatype SubfinderOutput = SubfinderOutput(ok: bool, domain: Option<string>, entries: Option<seq<Candidate>>)

  datatype DnsxOutput = DnsxOutput(ok: bool, records: Option<seq<Json>>)

  /**
   The environment: tools by the call they get, persistence by what it is handed (raising is
   false or None), and the number of the first cancellation poll that finds the event set.
   */
  datatype World = World(
    p6: DnsEnrichment.Parse6,
    validator: Validator,
    subfinder: string -> SubfinderOutput,
    dnsx: seq<string> -> DnsxOutput,
    persistParent: string -> bool,
    persistHost: (string, seq<Json>) -> Option<int>,
    assetHosts: set<string> -> set<string>,
    cancelFrom: Option<nat>)

  // ----- parents ---------------------------------------------------------

  function DiscoveryParentOf(e: ScopeEntry): seq<string> {
    if HasKind(e, {DomainEntry, HostEntry}) && NormalizeHostname(e.value).Some? then [NormalizeHostname(e.value).value]
    else []
  }

  function DiscoveryParents(snapshot: seq<ScopeEntry>): seq<string> {
    Sorted(Gather(snapshot, DiscoveryParentOf))
  }

  /** A domain or host entry of the snapshot has this normal form. */
  ghost predicate NamedBySnapshot(snapshot: seq<ScopeEntry>, p: string) {
    exists v :: (Entry(DomainEntry, v) in snapshot || Entry(HostEntry, v) in snapshot) && NormalizeHostname(v) == Some(p)
  }

  /** The parents are exactly the names of the domain and host entries, each once. */
  lemma ParentsMean(snapshot: seq<ScopeEntry>)
    ensures forall p :: p in DiscoveryParents(snapshot) <==> NamedBySnapshot(snapshot, p)
    ensures StrictlySorted(DiscoveryParents(snapshot))
  {
    var names := Gather(snapshot, DiscoveryParentOf);
    SortedIsSorted(names);
    forall p ensures p in DiscoveryParents(snapshot) <==> NamedBySnapshot(snapshot, p) {
      assert p in Elements(Sorted(names)) <==> p in Elements(names);
      GatherIn(snapshot, DiscoveryParentOf, p);
      NamedMeans(snapshot, p);
    }
  }

  lemma EntryNames(e: ScopeEntry, p: string)
    ensures p in DiscoveryParentOf(e) <==>
              e.Entry? && (e.kind == DomainEntry || e.kind == HostEntry) && NormalizeHostname(e.value) == Some(p)
  {
  }

  lemma NamedMeans(snapshot: seq<ScopeEntry>, p: string)
    ensures NamedBySnapshot(snapshot, p) <==> exists e :: e in snapshot && p in DiscoveryParentOf(e)
  {
    if e :| e in snapshot && p in DiscoveryParentOf(e) {
      EntryNames(e, p);
      assert Entry(e.kind, e.value) in snapshot;
    }
    if NamedBySnapshot(snapshot, p) {
      var v :| (Entry(DomainEntry, v) in snapshot || Entry(HostEntry, v) in snapshot) && NormalizeHostname(v) == Some(p);
      var e := if Entry(DomainEntry, v) in snapshot then Entry(DomainEntry, v) else Entry(HostEntry, v);
      EntryNames(e, p);
    }
  }

  // ----- one parent ------------------------------------------------------

  function SubfinderCall(parent: string): Decision {
    ToolCall("subfinder", map["domain" := JStr(parent)])
  }

  predicate SubfinderAllowed(w: World, parent: string) {
    Validate(w.validator, SubfinderCall(parent)).Accept?
  }

  /** The name of a candidate as a proper descendant of the parent. */
  function Descendant(parent: string, c: Candidate): Option<string> {
    var host := if c.name.Some? then NormalizeHostname(c.name.value) else None;
    if host.None? || host.value == parent || !IsWithinDomain(host.value, parent) then None else host
  }

  function DescendantsOf(parent: string, entries: seq<Candidate>): set<string> {
    set c | c in entries && Descendant(parent, c).Some? :: Descendant(parent, c).value
  }

  function RejectedOf(parent: string, entries: seq<Candidate>): set<string> {
    set c | c in entries && Descendant(parent, c).None? :: CapTo(c.text, MAX_ERROR_CHARS)
  }

  /** The run of Subfinder for the parent produced data about the parent. */
  predicate Answered(w: World, parent: string) {
    var out := w.subfinder(parent);
    SubfinderAllowed(w, parent) && out.ok && out.domain.Some? && NormalizeHostname(out.domain.value) == Some(parent)
  }

  function EntriesOf(w: World, parent: string): seq<Candidate> {
    var out := w.subfinder(parent);
    if Answered(w, parent) && out.entries.Some? then CapTo(out.entries.value, MAX_DISCOVERED_HOSTS) else []
  }

  function FoundBy(w: World, parent: string): set<string> {
    DescendantsOf(parent, EntriesOf(w, parent))
  }

  function RejectedBy(w: World, parent: string): set<string> {
    if SubfinderAllowed(w, parent) then RejectedOf(parent, EntriesOf(w, parent)) else {parent}
  }

  predicate ParentFails(w: World, parent: string) {
    SubfinderAllowed(w, parent) && !(Answered(w, parent) && w.persistParent(parent))
  }

  /** Found below a parent whose discovery was persisted. */
  predicate IsEligible(w: World, parents: seq<string>, host: string) {
    exists p :: p in parents && host in FoundBy(w, p) && !ParentFails(w, p)
  }

  function Found(w: World, parents: seq<string>): set<string> {
    set p, h | p in parents && h in FoundBy(w, p) :: h
  }

  function EligibleHosts(w: World, parents: seq<string>): set<string> {
    set h | h in Found(w, parents) && IsEligible(w, parents, h)
  }

  // ----- one batch -------------------------------------------------------

  function BatchValidator(v: Validator, batch: seq<string>): Validator {
    v.(policy := v.policy.(allowed := batch))
  }

  function DnsxCall(batch: seq<string>): Decision {
    ToolCall("dnsx", map["targets" := JList(Strings(batch))])
  }

  predicate DnsxAllowed(w: World, batch: seq<string>) {
    Validate(BatchValidator(w.validator, batch), DnsxCall(batch)).Accept?
  }

  /** The usable records of a batch; None when the call was refused, failed, or returned no list. */
  function RecordsOf(w: World, batch: seq<string>): Option<seq<Json>> {
    if DnsxAllowed(w, batch) && w.dnsx(batch).ok then w.dnsx(batch).records else None
  }

  function IfFor(host: string): Json -> seq<Json> {
    (r: Json) => if DnsEnrichment.RecordHost(r) == Some(host) then [r] else []
  }

  function HostRecords(host: string, records: seq<Json>): seq<Json> {
    Gather(records, IfFor(host))
  }

  /** One hand-over to persistence: a host of a batch and its own records. */
  datatype Handed = Handed(host: string, records: seq<Json>)

  function HandedFor(records: seq<Json>, h: string): seq<Handed> {
    if HostRecords(h, records) == [] then [] else [Handed(h, HostRecords(h, records))]
  }

  function UpTo(f: string -> seq<Handed>, batch: seq<string>, i: nat): seq<Handed>
    requires i <= |batch|
  {
    if i == 0 then [] else UpTo(f, batch, i - 1) + f(batch[i - 1])
  }

  /** What the first hosts of a batch hand over: each of them that has records, in order. */
  function HandedUpTo(records: seq<Json>, batch: seq<string>, i: nat): seq<Handed>
    requires i <= |batch|
  {
    UpTo((h: string) => HandedFor(records, h), batch, i)
  }

  function HandedIn(w: World, batch: seq<string>): seq<Handed> {
    var records := RecordsOf(w, batch);
    if records.None? then [] else HandedUpTo(records.value, batch, |batch|)
  }

  function HandedAll(w: World, batches: seq<seq<string>>): seq<Handed> {
    if batches == [] then []
    else HandedAll(w, batches[..|batches| - 1]) + HandedIn(w, batches[|batches| - 1])
  }

  predicate IsAddress(p6: DnsEnrichment.Parse6, item: Json, v4: bool) {
    item.JStr? && if v4 then IsIPv4(Strip(item.s)) else p6(Strip(item.s)).Some?
  }

  /** The record answers with at least one valid A or AAAA value. */
  predicate HasAnswer(p6: DnsEnrichment.Parse6, record: Json) {
    record.JDict?
    && ((exists i :: i in DnsEnrichment.ListOf(record.fields, "a") && IsAddress(p6, i, true))
        || (exists i :: i in DnsEnrichment.ListOf(record.fields, "aaaa") && IsAddress(p6, i, false)))
  }

  /** The host's own records were stored on at least one asset, and one of them has an address. */
  predicate HostVerified(w: World, records: seq<Json>, host: string) {
    var own := HostRecords(host, records);
    own != [] && w.persistHost(host, own).Some? && w.persistHost(host, own).value > 0
    && exists r :: r in own && HasAnswer(w.p6, r)
  }

  function VerifiedIn(w: World, batch: seq<string>): set<string> {
    var records := RecordsOf(w, batch);
    set h | h in batch && records.Some? && HostVerified(w, records.value, h)
  }

  // ----- batches ---------------------------------------------------------

  function Batches(hosts: seq<string>): seq<seq<string>> {
    if hosts == [] then []
    else if |hosts| <= MAX_DNSX_TARGETS then [hosts]
    else [hosts[..MAX_DNSX_TARGETS]] + Batches(hosts[MAX_DNSX_TARGETS..])
  }

  function VerifiedInAll(w: World, batches: seq<seq<string>>): set<string> {
    set b, h | b in batches && h in VerifiedIn(w, b) :: h
  }

  // ----- the outcome of an uncancelled run -------------------------------

  datatype DiscoveryResult = DiscoveryResult(
    cancelled: bool,
    parents: seq<string>,
    discovered: seq<string>,
    rejected: seq<string>,
    verified: seq<string>,
    unverified: seq<string>,
    promoted: seq<string>,
    subfinderCalls: nat,
    dnsxCalls: nat)

  function Rejected(w: World, parents: seq<string>): set<string> {
    set p, h | p in parents && h in RejectedBy(w, p) :: h
  }

  function Verified(w: World, parents: seq<string>): set<string> {
    VerifiedInAll(w, Batches(SortedSet(EligibleHosts(w, parents))))
  }

  function PromotedOf(parents: seq<string>, verified: set<string>, existing: set<string>): set<string> {
    set h | h in verified && h in existing && DescendsFrom(h, parents)
  }

  function FinalResult(w: World, parents: seq<string>): DiscoveryResult {
    var eligible := SortedSet(EligibleHosts(w, parents));
    if eligible == [] then
      DiscoveryResult(false, parents, [], SortedSet(Rejected(w, parents)), [], [], [], |parents|, 0)
    else
      var verified := Verified(w, parents);
      DiscoveryResult(
        false, parents, SortedSet(Found(w, parents)), SortedSet(Rejected(w, parents)),
        SortedSet(verified), SortedSet(EligibleHosts(w, parents) - verified),
        SortedSet(PromotedOf(parents, verified, w.assetHosts(verified))),
        |parents|, |Batches(eligible)|)
  }

  // ----- collecting over the parents -------------------------------------

  function Finder(w: World): string -> set<string> {
    (p: string) => FoundBy(w, p)
  }

  predicate SomeFinds(f: string -> set<string>, parents: seq<string>, h: string) {
    exists p :: p in parents && h in f(p)
  }

  /** The sources of each host are the parents below which it was found. */
  ghost predicate SourcesOf(f: string -> set<string>, parents: seq<string>, sources: map<string, set<string>>) {
    && (forall h :: h in sources <==> SomeFinds(f, parents, h))
    && (forall h, p :: h in sources ==> (p in sources[h] <==> p in parents && h in f(p)))
  }

  ghost predicate CollectedFrom(
    w: World, parents: seq<string>, discovered: set<string>, sources: map<string, set<string>>,
    rejected: set<string>, failures: set<string>)
  {
    && discovered == Found(w, parents) && rejected == Rejected(w, parents)
    && SourcesOf(Finder(w), parents, sources)
    && forall p :: p in failures <==> p in parents && ParentFails(w, p)
  }

  ghost predicate AddedSources(
    before: map<string, set<string>>, valid: set<string>, parent: string, after: map<string, set<string>>)
  {
    && (forall h :: h in after <==> h in before || h in valid)
    && (forall h, p :: h in after ==> (p in after[h] <==> (h in before && p in before[h]) || (h in valid && p == parent)))
  }

  lemma FoundSnoc(w: World, parents: seq<string>, p: string)
    ensures Found(w, parents + [p]) == Found(w, parents) + FoundBy(w, p)
  {
  }

  lemma RejectedSnoc(w: World, parents: seq<string>, p: string)
    ensures Rejected(w, parents + [p]) == Rejected(w, parents) + RejectedBy(w, p)
  {
  }

  lemma SourcesSnoc(
    f: string -> set<string>, parents: seq<string>, p: string, s: map<string, set<string>>, s': map<string, set<string>>)
    requires SourcesOf(f, parents, s) && AddedSources(s, f(p), p, s')
    ensures SourcesOf(f, parents + [p], s')
  {
    forall h ensures h in s' <==> SomeFinds(f, parents + [p], h) {
      assert SomeFinds(f, parents + [p], h) <==> SomeFinds(f, parents, h) || h in f(p);
    }
    forall h, q | h in s' ensures q in s'[h] <==> q in parents + [p] && h in f(q) {
      if h in s {
        assert q in s[h] <==> q in parents && h in f(q);
      } else {
        assert q in parents && h in f(q) ==> SomeFinds(f, parents, h);
      }
    }
  }

  /** One more parent, with what it found, rejected, and whether it failed. */
  lemma CollectedStep(
    w: World, parents: seq<string>, p: string, discovered: set<string>, sources: map<string, set<string>>,
    sources': map<string, set<string>>, rejected: set<string>, failures: set<string>)
    requires CollectedFrom(w, parents, discovered, sources, rejected, failures)
    requires AddedSources(sources, FoundBy(w, p), p, sources')
    ensures CollectedFrom(w, parents + [p], discovered + FoundBy(w, p), sources', rejected + RejectedBy(w, p),
                          if ParentFails(w, p) then failures + {p} else failures)
  {
    FoundSnoc(w, parents, p);
    RejectedSnoc(w, parents, p);
    SourcesSnoc(Finder(w), parents, p, sources, sources');
  }

  /** A parent that found nothing leaves the sources alone. */
  lemma NothingAdded(s: map<string, set<string>>, parent: string)
    ensures AddedSources(s, {}, parent, s)
  {
  }

  /** A parent without an answer contributes no host. */
  lemma Unanswered(
    w: World, parents: seq<string>, p: string, discovered: set<string>, sources: map<string, set<string>>,
    rejected: set<string>, failures: set<string>)
    requires CollectedFrom(w, parents, discovered, sources, rejected, failures)
    ensures !SubfinderAllowed(w, p) ==> CollectedFrom(w, parents + [p], discovered, sources, rejected + {p}, failures)
    ensures SubfinderAllowed(w, p) && !Answered(w, p) ==>
              CollectedFrom(w, parents + [p], discovered, sources, rejected, failures + {p})
  {
    if !Answered(w, p) {
      assert FoundBy(w, p) == {};
      NothingAdded(sources, p);
      CollectedStep(w, parents, p, discovered, sources, sources, rejected, failures);
      assert discovered + {} == discovered && rejected + {} == rejected;
    }
  }

  /** The parents that Subfinder may be run for. */
  function PermittedParents(w: World, parents: seq<string>): set<string> {
    set p | p in parents && SubfinderAllowed(w, p)
  }

  lemma PermittedSnoc(w: World, parents: seq<string>, p: string)
    ensures PermittedParents(w, parents + [p]) ==
            PermittedParents(w, parents) + (if SubfinderAllowed(w, p) then {p} else {})
  {
  }

  /** The batches that DNSX may be run for. */
  function PermittedBatches(w: World, batches: seq<seq<string>>): set<seq<string>> {
    set b | b in batches && DnsxAllowed(w, b)
  }

  lemma PermittedBatchesSnoc(w: World, batches: seq<seq<string>>, b: seq<string>)
    ensures PermittedBatches(w, batches + [b]) ==
            PermittedBatches(w, batches) + (if DnsxAllowed(w, b) then {b} else {})
  {
  }

  lemma HandedSnoc(w: World, batches: seq<seq<string>>, b: seq<string>)
    ensures HandedAll(w, batches + [b]) == HandedAll(w, batches) + HandedIn(w, b)
  {
    assert (batches + [b])[..|batches|] == batches;
  }

  lemma {:induction false} HandedGrows(w: World, done: seq<seq<string>>, rest: seq<seq<string>>)
    ensures HandedAll(w, done) <= HandedAll(w, done + rest)
  {
    if rest == [] {
      assert done + rest == done;
    } else {
      var n := |rest| - 1;
      HandedGrows(w, done, rest[..n]);
      assert (done + rest)[..|done + rest| - 1] == done + rest[..n];
    }
  }

  lemma HandedPrefix(records: seq<Json>, batch: seq<string>, i: nat)
    requires i <= |batch|
    ensures HandedUpTo(records, batch, i) <= HandedUpTo(records, batch, |batch|)
  {
    UpToPrefix((h: string) => HandedFor(records, h), batch, i, |batch|);
  }

  lemma {:induction false} UpToPrefix(f: string -> seq<Handed>, batch: seq<string>, i: nat, n: nat)
    requires i <= n <= |batch|
    ensures UpTo(f, batch, i) <= UpTo(f, batch, n)
  {
    if i < n {
      UpToPrefix(f, batch, i, n - 1);
    }
  }

  /** The state after the first hosts of a batch, starting from `v0`, `u0` and `h0`. */
  ghost predicate HostsDone(
    w: World, records: seq<Json>, batch: seq<string>, i: nat, v0: set<string>, u0: set<string>, h0: seq<Handed>,
    v: set<string>, u: set<string>, h: seq<Handed>)
    requires i <= |batch|
  {
    && v == v0 + VerifiedAmong(w, records, batch[..i])
    && u == (u0 + Elements(batch[..i])) - VerifiedAmong(w, records, batch[..i])
    && h == h0 + HandedUpTo(records, batch, i)
  }

  lemma HostsStep(
    w: World, records: seq<Json>, batch: seq<string>, i: nat, v0: set<string>, u0: set<string>, h0: seq<Handed>,
    v: set<string>, u: set<string>, h: seq<Handed>)
    requires i < |batch| && HostsDone(w, records, batch, i, v0, u0, h0, v, u, h)
    ensures var ok := HostVerified(w, records, batch[i]);
            HostsDone(w, records, batch, i + 1, v0, u0, h0,
                      if ok then v + {batch[i]} else v,
                      if ok then u - {batch[i]} else u + {batch[i]},
                      h + HandedFor(records, batch[i]))
  {
    HandedNext(records, batch, i, h0);
    SetsStep(w, records, batch, i, v0, u0, v, u);
  }

  lemma SetsStep(
    w: World, records: seq<Json>, batch: seq<string>, i: nat, v0: set<string>, u0: set<string>, v: set<string>,
    u: set<string>)
    requires i < |batch| && v == v0 + VerifiedAmong(w, records, batch[..i])
    requires u == (u0 + Elements(batch[..i])) - VerifiedAmong(w, records, batch[..i])
    ensures var ok := HostVerified(w, records, batch[i]);
            && (if ok then v + {batch[i]} else v) == v0 + VerifiedAmong(w, records, batch[..i + 1])
            && (if ok then u - {batch[i]} else u + {batch[i]})
               == (u0 + Elements(batch[..i + 1])) - VerifiedAmong(w, records, batch[..i + 1])
  {
    AmongStep(w, records, batch, i);
    AmongWithin(w, records, batch, i);
  }

  lemma AmongWithin(w: World, records: seq<Json>, batch: seq<string>, i: nat)
    requires i < |batch|
    ensures batch[i] in VerifiedAmong(w, records, batch[..i]) ==> HostVerified(w, records, batch[i])
  {
  }

  lemma HandedNext(records: seq<Json>, batch: seq<string>, i: nat, h0: seq<Handed>)
    requires i < |batch|
    ensures h0 + HandedUpTo(records, batch, i + 1) == h0 + HandedUpTo(records, batch, i) + HandedFor(records, batch[i])
  {
    UpToNext((h: string) => HandedFor(records, h), batch, i, h0);
  }

  lemma UpToNext(f: string -> seq<Handed>, batch: seq<string>, i: nat, h0: seq<Handed>)
    requires i < |batch|
    ensures h0 + UpTo(f, batch, i + 1) == h0 + UpTo(f, batch, i) + f(batch[i])
  {
  }

  lemma BatchRefused(w: World, batch: seq<string>)
    requires RecordsOf(w, batch).None?
    ensures HandedIn(w, batch) == [] && VerifiedIn(w, batch) == {}
  {
  }

  lemma BatchRecords(w: World, batch: seq<string>, records: seq<Json>)
    requires RecordsOf(w, batch) == Some(records)
    ensures HandedIn(w, batch) == HandedUpTo(records, batch, |batch|)
    ensures VerifiedIn(w, batch) == VerifiedAmong(w, records, batch)
  {
  }

  /** The next slice of the list is its next batch, and shares no host with those before. */
  lemma BatchIsNext(eligible: seq<string>, offset: nat, end: nat, done: seq<seq<string>>)
    requires AllDistinct(eligible) && offset < |eligible|
    requires end == if |eligible| - offset <= MAX_DNSX_TARGETS then |eligible| else offset + MAX_DNSX_TARGETS
    requires done + Batches(eligible[offset..]) == Batches(eligible) && Hosts(done) == Elements(eligible[..offset])
    ensures var batch := eligible[offset..end];
            && Elements(batch) !! Hosts(done) && Hosts(done + [batch]) == Elements(eligible[..end])
            && done + [batch] + Batches(eligible[end..]) == Batches(eligible)
  {
    var batch := eligible[offset..end];
    NextBatch(eligible, offset);
    SliceIsFresh(eligible, offset, end);
    HostsSnoc(done, batch);
    assert done + ([batch] + Batches(eligible[end..])) == done + [batch] + Batches(eligible[end..]);
  }

  /** What was run and handed over for the first batches is part of what all of them call for. */
  lemma WithinAll(
    w: World, done: seq<seq<string>>, rest: seq<seq<string>>, all: seq<seq<string>>, ran: set<seq<string>>,
    handed: seq<Handed>)
    requires done + rest == all && ran <= PermittedBatches(w, done) && handed <= HandedAll(w, done)
    ensures done <= all && ran <= PermittedBatches(w, all) && handed <= HandedAll(w, all)
  {
    HandedGrows(w, done, rest);
  }

  // ----- collecting over the batches -------------------------------------

  function Hosts(batches: seq<seq<string>>): set<string> {
    set b, h | b in batches && h in b :: h
  }

  lemma VerifiedWithin(w: World, batches: seq<seq<string>>)
    ensures VerifiedInAll(w, batches) <= Hosts(batches)
  {
  }

  lemma HostsSnoc(batches: seq<seq<string>>, batch: seq<string>)
    ensures Hosts(batches + [batch]) == Hosts(batches) + Elements(batch)
  {
  }

  lemma VerifiedSnoc(w: World, batches: seq<seq<string>>, batch: seq<string>)
    ensures VerifiedInAll(w, batches + [batch]) == VerifiedInAll(w, batches) + VerifiedIn(w, batch)
  {
  }

  /** One more batch: its hosts join one side or the other. */
  lemma ResolvedStep(w: World, batches: seq<seq<string>>, batch: seq<string>)
    requires Elements(batch) !! Hosts(batches)
    ensures var v, v' := VerifiedInAll(w, batches), VerifiedInAll(w, batches + [batch]);
            && v' == v + VerifiedIn(w, batch)
            && Hosts(batches + [batch]) - v' == ((Hosts(batches) - v) + Elements(batch)) - VerifiedIn(w, batch)
            && VerifiedIn(w, batch) <= Elements(batch)
  {
    VerifiedWithin(w, batches);
    HostsSnoc(batches, batch);
    VerifiedSnoc(w, batches, batch);
    assert VerifiedIn(w, batch) <= Elements(batch);
  }

  /** Cutting a list of hosts into batches. */
  lemma NextBatch(hosts: seq<string>, offset: nat)
    requires offset < |hosts|
    ensures var n := if |hosts| - offset <= MAX_DNSX_TARGETS then |hosts| else offset + MAX_DNSX_TARGETS;
            Batches(hosts[offset..]) == [hosts[offset..n]] + Batches(hosts[n..])
  {
    var n := if |hosts| - offset <= MAX_DNSX_TARGETS then |hosts| else offset + MAX_DNSX_TARGETS;
    if n < |hosts| {
      assert hosts[offset..][MAX_DNSX_TARGETS..] == hosts[n..];
      assert hosts[offset..][..MAX_DNSX_TARGETS] == hosts[offset..n];
    } else {
      assert hosts[offset..n] == hosts[offset..];
      assert hosts[n..] == [];
    }
  }

  lemma SliceIsFresh(xs: seq<string>, i: nat, n: nat)
    requires AllDistinct(xs) && i <= n <= |xs|
    ensures Elements(xs[i..n]) !! Elements(xs[..i]) && Elements(xs[..n]) == Elements(xs[..i]) + Elements(xs[i..n])
  {
    assert xs[..n] == xs[..i] + xs[i..n];
    ElementsConcat(xs[..i], xs[i..n]);
  }

  function VerifiedAmong(w: World, records: seq<Json>, hosts: seq<string>): set<string> {
    set h | h in hosts && HostVerified(w, records, h)
  }

  lemma AmongStep(w: World, records: seq<Json>, batch: seq<string>, i: nat)
    requires i < |batch|
    ensures VerifiedAmong(w, records, batch[..i + 1]) ==
            VerifiedAmong(w, records, batch[..i]) + (if HostVerified(w, records, batch[i]) then {batch[i]} else {})
    ensures Elements(batch[..i + 1]) == Elements(batch[..i]) + {batch[i]}
  {
    assert batch[..i + 1] == batch[..i] + [batch[i]];
    ElementsConcat(batch[..i], [batch[i]]);
  }

  /** A host is eligible when some source of it is no failed parent. */
  predicate HasGoodSource(sources: map<string, set<string>>, failures: set<string>, host: string) {
    host in sources && exists p :: p in sources[host] && p !in failures
  }

  lemma GoodSource(
    f: string -> set<string>, parents: seq<string>, sources: map<string, set<string>>, failures: set<string>, h: string)
    requires SourcesOf(f, parents, sources)
    ensures HasGoodSource(sources, failures, h) <==> exists p :: p in parents && h in f(p) && p !in failures
  {
    if p :| p in parents && h in f(p) && p !in failures {
      assert SomeFinds(f, parents, h);
      assert p in sources[h];
    }
  }

  lemma GoodSourceIsEligible(
    w: World, parents: seq<string>, discovered: set<string>, sources: map<string, set<string>>,
    rejected: set<string>, failures: set<string>)
    requires CollectedFrom(w, parents, discovered, sources, rejected, failures)
    ensures (set h | h in discovered && HasGoodSource(sources, failures, h)) == EligibleHosts(w, parents)
  {
    forall h | h in discovered ensures HasGoodSource(sources, failures, h) <==> IsEligible(w, parents, h) {
      GoodSource(Finder(w), parents, sources, failures, h);
      assert forall p :: p in parents ==> (p !in failures <==> !ParentFails(w, p));
    }
  }

  // ----- the service -----------------------------------------------------

  /** The accepted result of a call, or the reason to carry on without one. */
  datatype Invocation<T> = Refused | Answer(output: T)

  class DiscoveryService {
    const w: World
    var polls: nat
    var discovered: set<string>
    var sources: map<string, set<string>>
    var rejected: set<string>
    var failures: set<string>
    var verified: set<string>
    var unverified: set<string>
    var subfinderCalls: nat
    var dnsxCalls: nat
    /** The DNSX calls proposed so far. */
    ghost var queried: seq<seq<string>>
    /** The parents that Subfinder was really run for, and the batches that DNSX was. */
    ghost var asked: set<string>
    ghost var ran: set<seq<string>>
    /** What was handed to DNS persistence so far. */
    ghost var handed: seq<Handed>

    constructor (w: World)
      ensures this.w == w && polls == 0 && discovered == {} && sources == map[] && rejected == {} && failures == {}
      ensures verified == {} && unverified == {} && subfinderCalls == 0 && dnsxCalls == 0
      ensures queried == [] && asked == {} && ran == {} && handed == []
    {
      this.w := w;
      polls, discovered, sources, rejected, failures := 0, {}, map[], {}, {};
      verified, unverified, subfinderCalls, dnsxCalls := {}, {}, 0, 0;
      queried, asked, ran, handed := [], {}, {}, [];
    }

    /** Some poll so far found the cancel event set. */
    predicate Seen()
      reads this`polls
    {
      w.cancelFrom.Some? && w.cancelFrom.value < polls
    }

    method IsCancelled() returns (b: bool)
      modifies this`polls
      ensures polls == old(polls) + 1
      ensures b == Seen() && (old(Seen()) ==> b)
    {
      b := w.cancelFrom.Some? && w.cancelFrom.value <= polls;
      polls := polls + 1;
    }

    // No tool runs and nothing is stored once a poll has seen the event: every effect requires it.

    method RunSubfinder(parent: string) returns (out: SubfinderOutput)
      requires !Seen() && SubfinderAllowed(w, parent)
      modifies this`asked
      ensures out == w.subfinder(parent) && asked == old(asked) + {parent}
    {
      asked := asked + {parent};
      out := w.subfinder(parent);
    }

    method RunDnsx(batch: seq<string>) returns (out: DnsxOutput)
      requires !Seen() && DnsxAllowed(w, batch)
      modifies this`ran
      ensures out == w.dnsx(batch) && ran == old(ran) + {batch}
    {
      ran := ran + {batch};
      out := w.dnsx(batch);
    }

    method PersistParent(parent: string) returns (stored: bool)
      requires !Seen()
      ensures stored == w.persistParent(parent)
    {
      stored := w.persistParent(parent);
    }

    method PersistHost(host: string, records: seq<Json>) returns (enriched: Option<int>)
      requires !Seen()
      modifies this`handed
      ensures enriched == w.persistHost(host, records) && handed == old(handed) + [Handed(host, records)]
    {
      handed := handed + [Handed(host, records)];
      enriched := w.persistHost(host, records);
    }

    method AssetHosts(hosts: set<string>) returns (existing: set<string>)
      requires !Seen()
      ensures existing == w.assetHosts(hosts)
    {
      existing := w.assetHosts(hosts);
    }

    method InvokeSubfinder(parent: string) returns (r: Invocation<SubfinderOutput>)
      modifies this`polls, this`asked
      ensures old(Seen()) ==> Seen()
      ensures r.Answer? ==> !Seen() && SubfinderAllowed(w, parent)
      ensures asked == if r.Answer? then old(asked) + {parent} else old(asked)
      ensures !Seen() ==> r == if SubfinderAllowed(w, parent) then Answer(w.subfinder(parent)) else Refused
    {
      var stop := IsCancelled();
      if stop {
        return Refused;
      }
      if Validate(w.validator, SubfinderCall(parent)).Reject? {
        return Refused;
      }
      stop := IsCancelled();
      if stop {
        return Refused;
      }
      var out := RunSubfinder(parent);
      r := Answer(out);
    }

    method InvokeDnsx(batch: seq<string>) returns (r: Invocation<DnsxOutput>)
      modifies this`polls, this`ran
      ensures old(Seen()) ==> Seen()
      ensures r.Answer? ==> !Seen() && DnsxAllowed(w, batch)
      ensures ran == if r.Answer? then old(ran) + {batch} else old(ran)
      ensures !Seen() ==> r == if DnsxAllowed(w, batch) then Answer(w.dnsx(batch)) else Refused
    {
      var stop := IsCancelled();
      if stop {
        return Refused;
      }
      if Validate(BatchValidator(w.validator, batch), DnsxCall(batch)).Reject? {
        return Refused;
      }
      stop := IsCancelled();
      if stop {
        return Refused;
      }
      var out := RunDnsx(batch);
      r := Answer(out);
    }

    method ValidatedDiscoveries(parent: string, entries: seq<Candidate>) returns (valid: set<string>, invalid: set<string>)
      ensures valid == DescendantsOf(parent, CapTo(entries, MAX_DISCOVERED_HOSTS))
      ensures invalid == RejectedOf(parent, CapTo(entries, MAX_DISCOVERED_HOSTS))
    {
      var used := CapTo(entries, MAX_DISCOVERED_HOSTS);
      valid, invalid := {}, {};
      for i := 0 to |used|
        invariant valid == DescendantsOf(parent, used[..i])
        invariant invalid == RejectedOf(parent, used[..i])
      {
        assert used[..i + 1] == used[..i] + [used[i]];
        var host := Descendant(parent, used[i]);
        if host.None? {
          invalid := invalid + {CapTo(used[i].text, MAX_ERROR_CHARS)};
        } else {
          valid := valid + {host.value};
        }
      }
      assert used[..|used|] == used;
    }

    /** What the parents asked so far have contributed. */
    ghost predicate Collected(parents: seq<string>)
      reads this`discovered, this`sources, this`rejected, this`failures, this`asked
    {
      CollectedFrom(w, parents, discovered, sources, rejected, failures) && asked == PermittedParents(w, parents)
    }

    method AddSources(valid: set<string>, parent: string)
      modifies this`sources
      ensures AddedSources(old(sources), valid, parent, sources)
    {
      var before := sources;
      sources := map h | h in before.Keys + valid ::
        (if h in before then before[h] else {}) + (if h in valid then {parent} else {});
    }

    /** One turn of the loop over the parents; `stopped` when it saw the cancel event before storing. */
    method AskParent(parent: string, ghost parents: seq<string>) returns (stopped: bool)
      requires !Seen() && Collected(parents)
      modifies this`polls, this`discovered, this`sources, this`rejected, this`failures, this`subfinderCalls, this`asked
      ensures stopped ==> Seen()
      ensures !Seen() ==> Collected(parents + [parent])
      ensures asked <= PermittedParents(w, parents + [parent])
      ensures subfinderCalls == old(subfinderCalls) + 1
    {
      stopped := false;
      PermittedSnoc(w, parents, parent);
      ghost var s0 := sources;
      var invocation := InvokeSubfinder(parent);
      subfinderCalls := subfinderCalls + 1;
      if invocation.Refused? {
        rejected := rejected + {parent};
        Unanswered(w, parents, parent, discovered, sources, old(rejected), failures);
        return;
      }
      var out := invocation.output;
      if !out.ok || out.domain.None? || NormalizeHostname(out.domain.value) != Some(parent) {
        failures := failures + {parent};
        Unanswered(w, parents, parent, discovered, sources, rejected, old(failures));
        return;
      }
      var valid, invalid := {}, {};
      if out.entries.Some? {
        valid, invalid := ValidatedDiscoveries(parent, out.entries.value);
      }
      discovered := discovered + valid;
      AddSources(valid, parent);
      rejected := rejected + invalid;
      var stop := IsCancelled();
      if stop {
        return true;
      }
      assert Answered(w, parent) && FoundBy(w, parent) == valid && RejectedBy(w, parent) == invalid;
      var stored := PersistParent(parent);
      if !stored {
        failures := failures + {parent};
      }
      CollectedStep(w, parents, parent, old(discovered), s0, sources, old(rejected), old(failures));
    }

    method AskParents(parents: seq<string>) returns (stopped: bool)
      requires !Seen() && Collected([])
      modifies this`polls, this`discovered, this`sources, this`rejected, this`failures, this`subfinderCalls, this`asked
      ensures stopped ==> Seen()
      ensures !Seen() ==> Collected(parents) && subfinderCalls == old(subfinderCalls) + |parents|
      ensures asked <= PermittedParents(w, parents)
    {
      for i := 0 to |parents|
        invariant !Seen() ==> Collected(parents[..i]) && subfinderCalls == old(subfinderCalls) + i
        invariant asked <= PermittedParents(w, parents[..i])
      {
        stopped := IsCancelled();
        if stopped {
          return;
        }
        assert parents[..i + 1] == parents[..i] + [parents[i]];
        stopped := AskParent(parents[i], parents[..i]);
        if stopped {
          return;
        }
      }
      stopped := false;
      assert parents[..|parents|] == parents;
    }

    /** The DNS state after some batches. */
    ghost predicate Resolved(batches: seq<seq<string>>)
      reads this`verified, this`unverified, this`queried, this`dnsxCalls, this`ran, this`handed
    {
      && verified == VerifiedInAll(w, batches)
      && unverified == Hosts(batches) - verified
      && queried == batches && dnsxCalls == |batches| && ran == PermittedBatches(w, batches)
      && handed == HandedAll(w, batches)
    }

    /** DNSX was proposed for the first batches, and run for permitted ones. */
    ghost predicate QueriedWithin(eligible: seq<string>)
      reads this`queried, this`ran, this`handed
    {
      queried <= Batches(eligible) && ran <= PermittedBatches(w, Batches(eligible))
      && handed <= HandedAll(w, Batches(eligible))
    }

    /** DNSX was proposed for every batch, and run for every permitted one. */
    ghost predicate QueriedAll(eligible: seq<string>)
      reads this`queried, this`ran, this`handed
    {
      queried == Batches(eligible) && ran == PermittedBatches(w, Batches(eligible))
      && handed == HandedAll(w, Batches(eligible))
    }

    /** One host of a batch whose records arrived; every poll comes before the effect it guards. */
    method ResolveHost(host: string, records: seq<Json>) returns (stopped: bool)
      modifies this`polls, this`verified, this`unverified, this`handed
      ensures old(Seen()) ==> Seen()
      ensures stopped ==> Seen()
      ensures !stopped ==> !Seen()
      ensures !Seen() ==>
                verified == if HostVerified(w, records, host) then old(verified) + {host} else old(verified)
      ensures !Seen() ==>
                unverified == if HostVerified(w, records, host) then old(unverified) - {host} else old(unverified) + {host}
      ensures handed == old(handed) + (if stopped then [] else HandedFor(records, host))
    {
      stopped := IsCancelled();
      if stopped {
        return;
      }
      unverified := unverified + {host};
      var own := HostRecords(host, records);
      if own == [] {
        return;
      }
      var enriched := PersistHost(host, own);
      if enriched.None? || enriched.value <= 0 {
        return;
      }
      if exists r :: r in own && HasAnswer(w.p6, r) {
        verified := verified + {host};
        unverified := unverified - {host};
      }
    }

    method ResolveHosts(batch: seq<string>, records: seq<Json>) returns (stopped: bool)
      requires !Seen()
      modifies this`polls, this`verified, this`unverified, this`handed
      ensures stopped ==> Seen()
      ensures handed <= old(handed) + HandedUpTo(records, batch, |batch|)
      ensures !Seen() ==>
                HostsDone(w, records, batch, |batch|, old(verified), old(unverified), old(handed),
                          verified, unverified, handed)
    {
      ghost var v0, u0, h0 := verified, unverified, handed;
      for i := 0 to |batch|
        invariant !Seen() && HostsDone(w, records, batch, i, v0, u0, h0, verified, unverified, handed)
      {
        HostsStep(w, records, batch, i, v0, u0, h0, verified, unverified, handed);
        HandedPrefix(records, batch, i);
        stopped := ResolveHost(batch[i], records);
        if stopped {
          return;
        }
      }
      stopped := false;
    }

    method ResolveBatch(batch: seq<string>, ghost batches: seq<seq<string>>) returns (stopped: bool)
      requires !Seen() && Resolved(batches) && Elements(batch) !! Hosts(batches)
      modifies this`polls, this`verified, this`unverified, this`dnsxCalls, this`queried, this`ran, this`handed
      ensures stopped ==> Seen()
      ensures !Seen() ==> Resolved(batches + [batch])
      ensures queried == old(queried) + [batch] && ran <= PermittedBatches(w, batches + [batch])
      ensures handed <= HandedAll(w, batches + [batch])
    {
      stopped := false;
      ResolvedStep(w, batches, batch);
      PermittedBatchesSnoc(w, batches, batch);
      HandedSnoc(w, batches, batch);
      queried := queried + [batch];
      var invocation := InvokeDnsx(batch);
      dnsxCalls := dnsxCalls + 1;
      if invocation.Refused? || !invocation.output.ok || invocation.output.records.None? {
        unverified := unverified + Elements(batch);
        if !Seen() {
          BatchRefused(w, batch);
        }
        return;
      }
      var records := invocation.output.records.value;
      BatchRecords(w, batch, records);
      stopped := ResolveHosts(batch, records);
      assert batch[..|batch|] == batch;
    }

    /** The next batch of the list, unless a poll stops the run. */
    method ResolveNext(eligible: seq<string>, offset: nat) returns (stopped: bool, end: nat)
      requires AllDistinct(eligible) && offset < |eligible|
      requires !Seen() ==> Resolved(queried)
      requires queried + Batches(eligible[offset..]) == Batches(eligible)
      requires Hosts(queried) == Elements(eligible[..offset]) && QueriedWithin(eligible)
      modifies this`polls, this`verified, this`unverified, this`dnsxCalls, this`queried, this`ran, this`handed
      ensures stopped ==> Seen()
      ensures QueriedWithin(eligible)
      ensures !stopped ==>
                && offset < end <= |eligible|
                && queried + Batches(eligible[end..]) == Batches(eligible) && Hosts(queried) == Elements(eligible[..end])
      ensures !Seen() ==> Resolved(queried)
    {
      end := if |eligible| - offset <= MAX_DNSX_TARGETS then |eligible| else offset + MAX_DNSX_TARGETS;
      stopped := IsCancelled();
      if stopped {
        return;
      }
      ghost var done := queried;
      ghost var rest := Batches(eligible[end..]);
      var batch := eligible[offset..end];
      BatchIsNext(eligible, offset, end, done);
      stopped := ResolveBatch(batch, done);
      WithinAll(w, done + [batch], rest, Batches(eligible), ran, handed);
    }

    /** Every eligible host in exactly one batch, in sorted order. */
    method ResolveAll(eligible: seq<string>) returns (stopped: bool)
      requires !Seen() && Resolved([]) && AllDistinct(eligible)
      modifies this`polls, this`verified, this`unverified, this`dnsxCalls, this`queried, this`ran, this`handed
      ensures stopped ==> Seen()
      ensures QueriedWithin(eligible)
      ensures !Seen() ==> Resolved(Batches(eligible))
    {
      stopped := false;
      var offset := 0;
      assert eligible[0..] == eligible;
      while offset < |eligible|
        invariant 0 <= offset <= |eligible| && QueriedWithin(eligible)
        invariant queried + Batches(eligible[offset..]) == Batches(eligible)
        invariant Hosts(queried) == Elements(eligible[..offset])
        invariant !Seen() ==> Resolved(queried)
      {
        stopped, offset := ResolveNext(eligible, offset);
        if stopped {
          return;
        }
      }
      assert eligible[offset..] == [];
      assert queried + [] == queried;
    }

    /** A result as the counters and sets stand; `promoted` is empty on every cancelled path. */
    method Finish(cancelled: bool, parents: seq<string>, promoted: set<string>) returns (r: DiscoveryResult)
      ensures r == DiscoveryResult(
                     cancelled, parents, SortedSet(discovered), SortedSet(rejected), SortedSet(verified),
                     SortedSet(unverified - verified), SortedSet(promoted), subfinderCalls, dnsxCalls)
    {
      r := DiscoveryResult(
        cancelled, parents, SortedSet(discovered), SortedSet(rejected), SortedSet(verified),
        SortedSet(unverified - verified), SortedSet(promoted), subfinderCalls, dnsxCalls);
    }

    predicate Untouched()
      reads this
    {
      polls == 0 && discovered == {} && sources == map[] && rejected == {} && failures == {}
      && verified == {} && unverified == {} && subfinderCalls == 0 && dnsxCalls == 0
    }

    /**
     The whole pre-stage. It reports `cancelled` exactly when some poll saw the event, promotes
     nothing then, and otherwise returns the outcome that the environment determines.
     */
    method Run(snapshot: seq<ScopeEntry>) returns (r: DiscoveryResult)
      requires Untouched() && queried == [] && asked == {} && ran == {} && handed == []
      modifies this
      ensures r.cancelled <==> Seen()
      ensures r.cancelled ==> r.promoted == []
      ensures !r.cancelled ==> r == FinalResult(w, DiscoveryParents(snapshot))
      ensures !r.cancelled ==> QueriedAll(SortedSet(EligibleHosts(w, DiscoveryParents(snapshot))))
      ensures QueriedWithin(SortedSet(EligibleHosts(w, DiscoveryParents(snapshot))))
      ensures forall p :: p in asked ==> NamedBySnapshot(snapshot, p) && SubfinderAllowed(w, p)
      ensures !r.cancelled ==> forall p :: p in asked <==> NamedBySnapshot(snapshot, p) && SubfinderAllowed(w, p)
      ensures !r.cancelled ==>
                forall v :: Entry(DomainEntry, v) in snapshot && NormalizeHostname(v).Some?
                            && SubfinderAllowed(w, NormalizeHostname(v).value) ==>
                              NormalizeHostname(v).value in asked
    {
      ParentsMean(snapshot);
      r := RunFor(DiscoveryParents(snapshot));
    }

    method RunFor(parents: seq<string>) returns (r: DiscoveryResult)
      requires Untouched() && queried == [] && asked == {} && ran == {} && handed == []
      modifies this
      ensures r.cancelled <==> Seen()
      ensures r.cancelled ==> r.promoted == []
      ensures !r.cancelled ==> r == FinalResult(w, parents) && QueriedAll(SortedSet(EligibleHosts(w, parents)))
      ensures QueriedWithin(SortedSet(EligibleHosts(w, parents)))
      ensures asked <= PermittedParents(w, parents)
      ensures !r.cancelled ==> asked == PermittedParents(w, parents)
    {
      NothingCollected(w);
      var stop := AskAll(parents);
      if stop {
        r := Finish(true, parents, {});
      } else {
        r := ResolveAndPromote(parents);
      }
    }

    /** The Subfinder half, with the polls before and after it. */
    method AskAll(parents: seq<string>) returns (stop: bool)
      requires Collected([]) && polls == 0 && subfinderCalls == 0
      modifies this`polls, this`discovered, this`sources, this`rejected, this`failures, this`subfinderCalls, this`asked
      ensures stop <==> Seen()
      ensures !stop ==> Collected(parents) && subfinderCalls == |parents|
      ensures asked <= PermittedParents(w, parents)
    {
      stop := IsCancelled();
      if !stop {
        stop := AskParents(parents);
      }
      if !stop {
        stop := IsCancelled();
      }
    }

    method ResolveAndPromote(parents: seq<string>) returns (r: DiscoveryResult)
      requires !Seen() && Collected(parents) && Resolved([]) && subfinderCalls == |parents|
      modifies this`polls, this`verified, this`unverified, this`dnsxCalls, this`queried, this`ran, this`handed
      ensures r.cancelled <==> Seen()
      ensures r.cancelled ==> r.promoted == []
      ensures !r.cancelled ==> r == FinalResult(w, parents) && QueriedAll(SortedSet(EligibleHosts(w, parents)))
      ensures QueriedWithin(SortedSet(EligibleHosts(w, parents)))
    {
      var eligible := EligibleSorted(parents);
      if eligible == [] {
        r := DiscoveryResult(false, parents, [], SortedSet(rejected), [], [], [], subfinderCalls, dnsxCalls);
      } else {
        r := PromoteAfter(parents, eligible);
      }
    }

    method EligibleSorted(parents: seq<string>) returns (eligible: seq<string>)
      requires Collected(parents)
      ensures eligible == SortedSet(EligibleHosts(w, parents))
    {
      GoodSourceIsEligible(w, parents, discovered, sources, rejected, failures);
      eligible := SortedSet(set h | h in discovered && HasGoodSource(sources, failures, h));
    }

    method PromoteAfter(parents: seq<string>, eligible: seq<string>) returns (r: DiscoveryResult)
      requires !Seen() && Collected(parents) && Resolved([]) && subfinderCalls == |parents|
      requires eligible != [] && eligible == SortedSet(EligibleHosts(w, parents))
      modifies this`polls, this`verified, this`unverified, this`dnsxCalls, this`queried, this`ran, this`handed
      ensures r.cancelled <==> Seen()
      ensures r.cancelled ==> r.promoted == []
      ensures !r.cancelled ==> r == FinalResult(w, parents) && QueriedAll(eligible)
      ensures QueriedWithin(eligible)
    {
      SortedSetDistinct(EligibleHosts(w, parents));
      var stop := ResolveThenPoll(parents, eligible);
      if stop {
        r := Finish(true, parents, {});
        return;
      }
      r := PromoteUnlessCancelled(parents, eligible);
    }

    method PromoteUnlessCancelled(parents: seq<string>, eligible: seq<string>) returns (r: DiscoveryResult)
      requires !Seen() && Collected(parents) && Resolved(Batches(eligible)) && subfinderCalls == |parents|
      requires eligible != [] && eligible == SortedSet(EligibleHosts(w, parents))
      modifies this`polls
      ensures r.cancelled <==> Seen()
      ensures r.cancelled ==> r.promoted == []
      ensures !r.cancelled ==> r == FinalResult(w, parents)
    {
      var existing := AssetHosts(verified);
      var stop := IsCancelled();
      if stop {
        r := Finish(true, parents, {});
      } else {
        r := Promote(parents, eligible, existing);
      }
    }

    method ResolveThenPoll(parents: seq<string>, eligible: seq<string>) returns (stop: bool)
      requires !Seen() && Collected(parents) && Resolved([]) && AllDistinct(eligible)
      modifies this`polls, this`verified, this`unverified, this`dnsxCalls, this`queried, this`ran, this`handed
      ensures stop <==> Seen()
      ensures !stop ==> Collected(parents) && Resolved(Batches(eligible))
      ensures QueriedWithin(eligible)
    {
      stop := ResolveAll(eligible);
      if !stop {
        stop := IsCancelled();
      }
    }

    /** The last step of an uncancelled run: what is promoted, and the result as a whole. */
    method Promote(parents: seq<string>, eligible: seq<string>, existing: set<string>) returns (r: DiscoveryResult)
      requires Collected(parents) && Resolved(Batches(eligible)) && subfinderCalls == |parents|
      requires eligible != [] && eligible == SortedSet(EligibleHosts(w, parents)) && existing == w.assetHosts(verified)
      ensures r == FinalResult(w, parents) && !r.cancelled
    {
      HostsOfBatches(eligible);
      FinalFields(w, parents, eligible, unverified);
      r := Finish(false, parents, PromotedOf(parents, verified, existing));
    }
  }

  /** The final result, spelled out for a non-empty eligible list. */
  lemma FinalFields(w: World, parents: seq<string>, eligible: seq<string>, unverified: set<string>)
    requires eligible != [] && eligible == SortedSet(EligibleHosts(w, parents))
    requires unverified == Hosts(Batches(eligible)) - VerifiedInAll(w, Batches(eligible))
    requires Hosts(Batches(eligible)) == Elements(eligible)
    ensures var v := VerifiedInAll(w, Batches(eligible));
            FinalResult(w, parents) ==
            DiscoveryResult(
              false, parents, SortedSet(Found(w, parents)), SortedSet(Rejected(w, parents)),
              SortedSet(v), SortedSet(unverified - v),
              SortedSet(PromotedOf(parents, v, w.assetHosts(v))), |parents|, |Batches(eligible)|)
  {
    var v := VerifiedInAll(w, Batches(eligible));
    assert unverified - v == EligibleHosts(w, parents) - v;
  }

  lemma NothingCollected(w: World)
    ensures CollectedFrom(w, [], {}, map[], {}, {})
    ensures VerifiedInAll(w, []) == {} && Hosts([]) == {}
  {
  }

  lemma SortedSetDistinct(s: set<string>)
    ensures AllDistinct(SortedSet(s))
  {
    var xs := SortedSet(s);
    forall i, j | 0 <= i < j < |xs| ensures xs[i] != xs[j] {
      LessIrreflexive(xs[i]);
    }
  }

  lemma {:induction false} HostsOfBatches(hosts: seq<string>)
    ensures Hosts(Batches(hosts)) == Elements(hosts)
    decreases |hosts|
  {
    if hosts == [] {
    } else if |hosts| <= MAX_DNSX_TARGETS {
    } else {
      var first, rest := hosts[..MAX_DNSX_TARGETS], hosts[MAX_DNSX_TARGETS..];
      HostsOfBatches(rest);
      assert hosts == first + rest;
      ElementsConcat(first, rest);
      HostsCons(first, Batches(rest));
    }
  }

  lemma HostsCons(first: seq<string>, rest: seq<seq<string>>)
    ensures Hosts([first] + rest) == Elements(first) + Hosts(rest)
  {
  }
}
