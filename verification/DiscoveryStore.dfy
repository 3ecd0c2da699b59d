/**
 Discovery on the real asset table (backend/services/discovery_service.py with
 backend/services/result_persistence.py): what its DNS persistence counts and finds, what is
 left on every row, and that the final asset check never takes a host away.
 */
module DiscoveryStore {
  import opened Wrappers
  import opened Text
  import opened Hostnames
  import opened Targets
  import opened AgentRuntime
  import opened Discovery
  import opened DnsEnrichment
  import Accounting = DiscoveryAccounting
  import Confluence = DnsConfluence
  import Smallest

  // ----- the calls as code -----------------------------------------------

  /** How many rows a call for some hosts concerns. */
  function Enrichable(p6: Parse6, rows: seq<AssetRow>, hosts: set<string>, records: seq<Json>): nat {
    |UpdatedRows(p6, rows, Confluence.Queried(CapTo(records, MAX_DNS_RECORDS), hosts))|
  }

  lemma {:induction false} QueriedFewer(records: seq<Json>, hosts: set<string>)
    ensures |Confluence.Queried(records, hosts)| <= |records|
  {
    if records != [] {
      QueriedFewer(records[..|records| - 1], hosts);
    }
  }

  /** The records of queried hosts, with their host normalized. */
  method BoundedRecords(used: seq<Json>, hosts: set<string>) returns (bounded: seq<Json>)
    ensures bounded == Confluence.Queried(used, hosts)
  {
    bounded := [];
    for i := 0 to |used|
      invariant bounded == Confluence.Queried(used[..i], hosts)
    {
      GatherSnoc(used, i, Confluence.QueriedIn(hosts));
      var host := RecordHost(used[i]);
      if host.Some? && host.value in hosts {
        bounded := bounded + [Confluence.Renamed(used[i], host.value)];
      }
    }
    assert used[..|used|] == used;
  }

  lemma BoundedSuffice(p6: Parse6, row: AssetRow, hosts: set<string>, records: seq<Json>)
    ensures var bounded := Confluence.Queried(CapTo(records, MAX_DNS_RECORDS), hosts);
            && CapTo(bounded, MAX_DNS_RECORDS) == bounded
            && Enriched(p6, row, bounded) == Confluence.DnsxEnriched(p6, row, hosts, records)
  {
    QueriedFewer(CapTo(records, MAX_DNS_RECORDS), hosts);
  }

  /** apply_dnsx_enrichment: the records of queried hosts, among the first 500. */
  method ApplyDnsxEnrichment(store: AssetStore, hosts: set<string>, records: seq<Json>) returns (updated: nat)
    modifies store
    ensures |store.rows| == |old(store.rows)|
    ensures forall i :: 0 <= i < |store.rows| ==>
              store.rows[i] == Confluence.DnsxEnriched(store.p6, old(store.rows[i]), hosts, records)
    ensures updated == Enrichable(store.p6, old(store.rows), hosts, records)
  {
    ghost var before := store.rows;
    var bounded := BoundedRecords(CapTo(records, MAX_DNS_RECORDS), hosts);
    forall i | 0 <= i < |before|
      ensures Enriched(store.p6, before[i], CapTo(bounded, MAX_DNS_RECORDS)) ==
              Confluence.DnsxEnriched(store.p6, before[i], hosts, records)
    {
      BoundedSuffice(store.p6, before[i], hosts, records);
    }
    QueriedFewer(CapTo(records, MAX_DNS_RECORDS), hosts);
    updated := store.ApplyDnsEnrichment(bounded);
  }

  /** The row after some hand-overs, each a call of its own. */
  function RowAfter(p6: Parse6, row: AssetRow, calls: seq<Handed>): AssetRow {
    if calls == [] then row
    else
      var last := calls[|calls| - 1];
      Confluence.DnsxEnriched(p6, RowAfter(p6, row, calls[..|calls| - 1]), {last.host}, last.records)
  }

  predicate SameHosts(a: seq<AssetRow>, b: seq<AssetRow>) {
    |a| == |b| && forall i :: 0 <= i < |a| ==> a[i].assetType == b[i].assetType && a[i].host == b[i].host
  }

  lemma {:induction false} RowAfterHost(p6: Parse6, row: AssetRow, calls: seq<Handed>)
    ensures RowAfter(p6, row, calls).assetType == row.assetType && RowAfter(p6, row, calls).host == row.host
  {
    if calls != [] {
      var last := calls[|calls| - 1];
      RowAfterHost(p6, row, calls[..|calls| - 1]);
      Confluence.EnrichedKeepsHost(p6, RowAfter(p6, row, calls[..|calls| - 1]), {last.host}, last.records);
    }
  }

  /** Which rows a call concerns depends on their hosts only, so earlier calls make no difference. */
  lemma CountByHosts(p6: Parse6, a: seq<AssetRow>, b: seq<AssetRow>, records: seq<Json>)
    requires SameHosts(a, b)
    ensures UpdatedRows(p6, a, records) == UpdatedRows(p6, b, records)
  {
    forall i: nat | i < |a| ensures TouchedBySome(p6, a[i], records) <==> TouchedBySome(p6, b[i], records) {
      forall r | r in records ensures Touches(p6, a[i], r) <==> Touches(p6, b[i], r) {
        SameMatches(p6, a[i], b[i], r);
      }
    }
  }

  /** The table after some hand-overs. */
  ghost predicate Replayed(p6: Parse6, before: seq<AssetRow>, calls: seq<Handed>, rows: seq<AssetRow>) {
    |rows| == |before| && forall i :: 0 <= i < |rows| ==> rows[i] == RowAfter(p6, before[i], calls)
  }

  lemma ReplayedHosts(p6: Parse6, before: seq<AssetRow>, calls: seq<Handed>, rows: seq<AssetRow>)
    requires Replayed(p6, before, calls, rows)
    ensures SameHosts(rows, before)
  {
    forall i | 0 <= i < |rows| ensures rows[i].assetType == before[i].assetType && rows[i].host == before[i].host {
      RowAfterHost(p6, before[i], calls);
    }
  }

  lemma RowAfterSnoc(p6: Parse6, row: AssetRow, calls: seq<Handed>, c: Handed)
    ensures RowAfter(p6, row, calls + [c]) ==
            Confluence.DnsxEnriched(p6, RowAfter(p6, row, calls), {c.host}, c.records)
  {
    assert (calls + [c])[..|calls|] == calls;
  }

  lemma ReplayedSnoc(
    p6: Parse6, before: seq<AssetRow>, calls: seq<Handed>, c: Handed, rows: seq<AssetRow>, rows': seq<AssetRow>)
    requires Replayed(p6, before, calls, rows) && |rows'| == |rows|
    requires forall i :: 0 <= i < |rows| ==> rows'[i] == Confluence.DnsxEnriched(p6, rows[i], {c.host}, c.records)
    ensures Replayed(p6, before, calls + [c], rows')
  {
    forall i | 0 <= i < |rows| ensures rows'[i] == RowAfter(p6, before[i], calls + [c]) {
      RowAfterSnoc(p6, before[i], calls, c);
    }
  }

  lemma NothingReplayed(p6: Parse6, rows: seq<AssetRow>)
    ensures Replayed(p6, rows, [], rows)
  {
  }

  function CountOf(p6: Parse6, rows: seq<AssetRow>, c: Handed): nat {
    Enrichable(p6, rows, {c.host}, c.records)
  }

  /** One more hand-over. */
  method HandOver(store: AssetStore, c: Handed, ghost before: seq<AssetRow>, ghost calls: seq<Handed>) returns (n: nat)
    requires Replayed(store.p6, before, calls, store.rows)
    modifies store
    ensures Replayed(store.p6, before, calls + [c], store.rows)
    ensures n == CountOf(store.p6, before, c)
  {
    ghost var rows := store.rows;
    ReplayedHosts(store.p6, before, calls, rows);
    CountByHosts(store.p6, rows, before, Confluence.Queried(CapTo(c.records, MAX_DNS_RECORDS), {c.host}));
    n := ApplyDnsxEnrichment(store, {c.host}, c.records);
    ReplayedSnoc(store.p6, before, calls, c, rows, store.rows);
  }

  function CounterOf(p6: Parse6, rows: seq<AssetRow>): Handed -> nat {
    (c: Handed) => CountOf(p6, rows, c)
  }

  ghost predicate CountsAre(f: Handed -> nat, calls: seq<Handed>, counts: seq<nat>) {
    |counts| == |calls| && forall k :: 0 <= k < |calls| ==> counts[k] == f(calls[k])
  }

  lemma CountsSnoc(f: Handed -> nat, calls: seq<Handed>, counts: seq<nat>, c: Handed, n: nat)
    requires CountsAre(f, calls, counts) && n == f(c)
    ensures CountsAre(f, calls + [c], counts + [n])
  {
  }

  /** The calls of a run, one after the other: each counts what it would have counted at the start. */
  method Replay(store: AssetStore, calls: seq<Handed>) returns (counts: seq<nat>)
    modifies store
    ensures Replayed(store.p6, old(store.rows), calls, store.rows)
    ensures CountsAre(CounterOf(store.p6, old(store.rows)), calls, counts)
  {
    ghost var before := store.rows;
    counts := [];
    NothingReplayed(store.p6, before);
    assert calls[..0] == [];
    for k := 0 to |calls|
      invariant Replayed(store.p6, before, calls[..k], store.rows)
      invariant CountsAre(CounterOf(store.p6, before), calls[..k], counts)
    {
      assert calls[..k + 1] == calls[..k] + [calls[k]];
      var n := HandOver(store, calls[k], before, calls[..k]);
      CountsSnoc(CounterOf(store.p6, before), calls[..k], counts, calls[k], n);
      counts := counts + [n];
    }
    assert calls[..|calls|] == calls;
  }

  predicate IsLookedUp(row: AssetRow, wanted: set<string>) {
    row.assetType in {"host", "subdomain", "domain"} && row.host.Some? && Lower(row.host.value) in wanted
  }

  /** The asset hosts among the wanted ones, normalized. */
  function ExistingHosts(rows: seq<AssetRow>, wanted: set<string>): set<string> {
    set i | 0 <= i < |rows| && IsLookedUp(rows[i], wanted) && NormalizeHostname(rows[i].host.value).Some? ::
      NormalizeHostname(rows[i].host.value).value
  }

  /** Persistence and lookup work on this table; by `Replay` its rows may be those before any call. */
  ghost predicate OnTable(w: World, rows: seq<AssetRow>) {
    && (forall h: string, own: seq<Json> :: w.persistHost(h, own) == Some(Enrichable(w.p6, rows, {h}, own)))
    && (forall hosts: set<string> :: w.assetHosts(hosts) == ExistingHosts(rows, hosts))
  }

  // ----- promotion -------------------------------------------------------

  /** Any spelling of a plain host normalizes to it. */
  lemma SpellingNormalizes(v: string, h: string)
    requires Lower(v) == h && IsName(h) && !IsDottedQuad(h)
    ensures NormalizeHostname(v) == Some(h)
  {
    NameChars(h);
    assert v != "" && LowerChar(v[0]) == h[0] && LowerChar(v[|v| - 1]) == h[|v| - 1];
    SpellingKept(v);
    SpellingLacks(v, h);
    SpellingIsNoQuad(v, h);
    NameIsPlain(h);
  }

  lemma SpellingKept(v: string)
    requires v != "" && IsAlnum(LowerChar(v[0])) && IsAlnum(LowerChar(v[|v| - 1]))
    ensures Strip(v) == v && DropRootDot(v) == v && Chomp(v) == v && v[0] != '-'
  {
  }

  lemma SpellingLacks(v: string, h: string)
    requires Lower(v) == h && IsName(h)
    ensures '@' !in v && '*' !in v && !Contains(v, "://")
  {
    NameIsPlain(h);
    KeptByLower(v, '@');
    KeptByLower(v, '*');
    KeptByLower(v, ':');
    if Contains(v, "://") {
      ContainsChars(v, "://", ':');
    }
  }

  lemma KeptByLower(v: string, c: char)
    requires LowerChar(c) == c
    ensures c in v ==> c in Lower(v)
  {
    if c in v {
      var i :| 0 <= i < |v| && v[i] == c;
      assert Lower(v)[i] == c;
    }
  }

  lemma SpellingIsNoQuad(v: string, h: string)
    requires Lower(v) == h && !IsDottedQuad(h)
    ensures !IsDottedQuad(v)
  {
    if IsDottedQuad(v) {
      QuadIsLower(v);
    }
  }

  lemma QuadIsLower(v: string)
    requires IsDottedQuad(v)
    ensures Lower(v) == v
  {
    forall i | 0 <= i < |v| ensures LowerChar(v[i]) == v[i] {
      if v[i] != '.' {
        SplitChars(v, '.', v[i]);
      }
    }
    LowerFixed(v);
  }

  /** A positive count means that some row carries the host. */
  lemma CountedHasRow(p6: Parse6, rows: seq<AssetRow>, h: string, own: seq<Json>)
    requires NormalizeHostname(h) == Some(h) && Enrichable(p6, rows, {h}, own) > 0
    ensures exists i :: 0 <= i < |rows| && Matches(rows[i], Some(h))
  {
    var used := CapTo(own, MAX_DNS_RECORDS);
    var queried := Confluence.Queried(used, {h});
    var i :| i in UpdatedRows(p6, rows, queried);
    var r :| r in queried && Touches(p6, rows[i], r);
    QueriedHost(used, h, r);
  }

  lemma QueriedHost(records: seq<Json>, h: string, r: Json)
    requires NormalizeHostname(h) == Some(h) && r in Confluence.Queried(records, {h})
    ensures RecordHost(r) == Some(h)
  {
    GatherIn(records, Confluence.QueriedIn({h}), r);
    var from :| from in records && r in Confluence.QueriedIn({h})(from);
    QueriedFrom(from, h, r);
    RenamedHost(from, h);
  }

  lemma QueriedFrom(record: Json, h: string, r: Json)
    requires r in Confluence.QueriedIn({h})(record)
    ensures record.JDict? && r == Confluence.Renamed(record, h)
  {
  }

  lemma RenamedHost(record: Json, h: string)
    requires record.JDict? && NormalizeHostname(h) == Some(h)
    ensures RecordHost(Confluence.Renamed(record, h)) == Some(h)
  {
  }

  lemma VerifiedHasAsset(w: World, rows: seq<AssetRow>, records: seq<Json>, h: string, wanted: set<string>)
    requires OnTable(w, rows) && Accounting.IsPlainHost(h) && h in wanted && HostVerified(w, records, h)
    ensures h in w.assetHosts(wanted)
  {
    var own := HostRecords(h, records);
    assert w.persistHost(h, own) == Some(Enrichable(w.p6, rows, {h}, own));
    CountedHasRow(w.p6, rows, h, own);
    var i :| 0 <= i < |rows| && Matches(rows[i], Some(h));
    SpellingNormalizes(rows[i].host.value, h);
    assert IsLookedUp(rows[i], wanted);
  }

  /** On the real table, with the shipped Subfinder, everything that DNS verified is promoted. */
  lemma PromotedIsVerified(w: World, rows: seq<AssetRow>, parents: seq<string>)
    requires OnTable(w, rows) && Accounting.Shipped(w)
    ensures FinalResult(w, parents).promoted == FinalResult(w, parents).verified
  {
    var v := Verified(w, parents);
    forall h | h in v ensures h in PromotedOf(parents, v, w.assetHosts(v)) {
      VerifiedIsPromoted(w, rows, parents, h);
    }
    assert PromotedOf(parents, v, w.assetHosts(v)) == v;
  }

  lemma VerifiedIsPromoted(w: World, rows: seq<AssetRow>, parents: seq<string>, h: string)
    requires OnTable(w, rows) && Accounting.Shipped(w) && h in Verified(w, parents)
    ensures h in w.assetHosts(Verified(w, parents)) && DescendsFrom(h, parents)
  {
    Accounting.VerifiedIsEligible(w, parents);
    Accounting.EligibleFrom(w, parents, h);
    Accounting.EligibleIsPlain(w, parents, h);
    var b :| b in Batches(SortedSet(EligibleHosts(w, parents))) && h in VerifiedIn(w, b);
    VerifiedHasAsset(w, rows, RecordsOf(w, b).value, h, Verified(w, parents));
  }

  // ----- exactly when a host is promoted ---------------------------------

  predicate HasAsset(rows: seq<AssetRow>, h: string) {
    exists i :: 0 <= i < |rows| && Matches(rows[i], Some(h))
  }

  /** Some record of the result is for the host and answers with an address. */
  predicate Answers(p6: Parse6, records: seq<Json>, h: string) {
    exists r :: r in records && RecordHost(r) == Some(h) && HasAnswer(p6, r)
  }

  lemma AddressKept(p6: Parse6, k: Key, item: Json)
    requires p6("").None? && k != Cname && IsAddress(p6, item, k == A)
    ensures NormalizedItem(p6, k)(item) != []
  {
    if k == A {
      QuadNotEmpty(Strip(item.s));
    }
  }

  lemma QuadNotEmpty(s: string)
    requires IsIPv4(s)
    ensures s != ""
  {
  }

  lemma ValueKept(p6: Parse6, k: Key, raw: seq<Json>, item: Json)
    requires item in raw && NormalizedItem(p6, k)(item) != []
    ensures Smallest.Least(Items(p6, k, raw), MAX_VALUES) != []
  {
    GatherIn(raw, NormalizedItem(p6, k), NormalizedItem(p6, k)(item)[0]);
    LeastNonEmpty(Items(p6, k, raw), MAX_VALUES);
  }

  /** A record with an address has something to store. */
  lemma AnswerIsEvidence(p6: Parse6, record: Json)
    requires p6("").None? && HasAnswer(p6, record)
    ensures !IsEmpty(EvidenceOf(p6, record.fields))
  {
    if i :| i in ListOf(record.fields, "a") && IsAddress(p6, i, true) {
      AddressKept(p6, A, i);
      ValueKept(p6, A, ListOf(record.fields, Attribute(A)) + ListOf(record.fields, Alias(A)), i);
    } else {
      var j :| j in ListOf(record.fields, "aaaa") && IsAddress(p6, j, false);
      AddressKept(p6, Aaaa, j);
      ValueKept(p6, Aaaa, ListOf(record.fields, Attribute(Aaaa)) + ListOf(record.fields, Alias(Aaaa)), j);
    }
  }

  lemma OwnMembers(h: string, records: seq<Json>, r: Json)
    ensures r in HostRecords(h, records) <==> r in records && RecordHost(r) == Some(h)
  {
    GatherIn(records, IfFor(h), r);
  }

  /** An asset of the host counts as soon as one of its records has an address. */
  lemma AnsweredIsCounted(p6: Parse6, rows: seq<AssetRow>, h: string, own: seq<Json>, r: Json)
    requires p6("").None? && NormalizeHostname(h) == Some(h) && HasAsset(rows, h) && |own| <= MAX_DNS_RECORDS
    requires r in own && RecordHost(r) == Some(h) && HasAnswer(p6, r)
    ensures Enrichable(p6, rows, {h}, own) > 0
  {
    var i: nat :| i < |rows| && Matches(rows[i], Some(h));
    RenamedQueried(h, own, r);
    AnswerTouches(p6, rows[i], r, h);
    TouchedIsCounted(p6, rows, i, Confluence.Queried(own, {h}), Confluence.Renamed(r, h));
  }

  lemma AnswerTouches(p6: Parse6, row: AssetRow, r: Json, h: string)
    requires p6("").None? && NormalizeHostname(h) == Some(h) && Matches(row, Some(h))
    requires RecordHost(r) == Some(h) && HasAnswer(p6, r)
    ensures Touches(p6, row, Confluence.Renamed(r, h))
  {
    AnswerIsEvidence(p6, r);
    Confluence.RenamedEvidence(p6, r, h);
    RenamedTouchesRow(p6, row, r, h);
  }

  lemma TouchedIsCounted(p6: Parse6, rows: seq<AssetRow>, i: nat, records: seq<Json>, r: Json)
    requires i < |rows| && r in records && Touches(p6, rows[i], r)
    ensures |UpdatedRows(p6, rows, records)| > 0
  {
    assert TouchedBySome(p6, rows[i], records);
    assert i in UpdatedRows(p6, rows, records);
  }

  lemma RenamedQueried(h: string, own: seq<Json>, r: Json)
    requires r in own && RecordHost(r) == Some(h)
    ensures Confluence.Renamed(r, h) in Confluence.Queried(own, {h})
  {
    GatherIn(own, Confluence.QueriedIn({h}), Confluence.Renamed(r, h));
    assert Confluence.Renamed(r, h) in Confluence.QueriedIn({h})(r);
  }

  lemma RenamedTouchesRow(p6: Parse6, row: AssetRow, r: Json, h: string)
    requires NormalizeHostname(h) == Some(h) && RecordHost(r) == Some(h) && Matches(row, Some(h))
    requires !IsEmpty(EvidenceOf(p6, Confluence.Renamed(r, h).fields))
    ensures Touches(p6, row, Confluence.Renamed(r, h))
  {
    RenamedHost(r, h);
  }

  lemma VerifiedIff(w: World, rows: seq<AssetRow>, records: seq<Json>, h: string)
    requires OnTable(w, rows) && w.p6("").None? && NormalizeHostname(h) == Some(h) && |records| <= MAX_DNS_RECORDS
    ensures HostVerified(w, records, h) <==> HasAsset(rows, h) && Answers(w.p6, records, h)
  {
    var own := HostRecords(h, records);
    assert w.persistHost(h, own) == Some(Enrichable(w.p6, rows, {h}, own));
    QueriedOwn(h, records);
    if HostVerified(w, records, h) {
      CountedHasRow(w.p6, rows, h, own);
      var r :| r in own && HasAnswer(w.p6, r);
      OwnMembers(h, records, r);
    }
    if HasAsset(rows, h) && Answers(w.p6, records, h) {
      var r :| r in records && RecordHost(r) == Some(h) && HasAnswer(w.p6, r);
      OwnMembers(h, records, r);
      AnsweredIsCounted(w.p6, rows, h, own, r);
    }
  }

  /** DNSX answered for the host with an address, in the batch that asked for it. */
  predicate Resolves(w: World, parents: seq<string>, h: string) {
    exists b :: b in Batches(SortedSet(EligibleHosts(w, parents))) && h in b
                && RecordsOf(w, b).Some? && Answers(w.p6, RecordsOf(w, b).value, h)
  }

  /**
   On the asset table, with the shipped tools, a host is promoted exactly when it is eligible, an
   asset carries it, and DNSX answered for it with an address.
   */
  lemma PromotedIff(w: World, rows: seq<AssetRow>, parents: seq<string>, h: string)
    requires OnTable(w, rows) && Accounting.Shipped(w) && SmallAnswers(w) && w.p6("").None?
    ensures h in FinalResult(w, parents).promoted <==>
              h in EligibleHosts(w, parents) && HasAsset(rows, h) && Resolves(w, parents, h)
  {
    PromotedIsVerified(w, rows, parents);
    Accounting.ResultFields(w, parents);
    Accounting.VerifiedIsEligible(w, parents);
    assert h in FinalResult(w, parents).verified <==> h in Elements(FinalResult(w, parents).verified);
    if h in EligibleHosts(w, parents) {
      Accounting.EligibleIsPlain(w, parents, h);
      ResolvedIsVerified(w, rows, parents, h);
    }
  }

  lemma ResolvedIsVerified(w: World, rows: seq<AssetRow>, parents: seq<string>, h: string)
    requires OnTable(w, rows) && SmallAnswers(w) && w.p6("").None? && NormalizeHostname(h) == Some(h)
    ensures h in Verified(w, parents) <==> HasAsset(rows, h) && Resolves(w, parents, h)
  {
    forall b | RecordsOf(w, b).Some? && h in b
      ensures h in VerifiedIn(w, b) <==> HasAsset(rows, h) && Answers(w.p6, RecordsOf(w, b).value, h)
    {
      assert SmallAnswer(w, b);
      VerifiedIff(w, rows, RecordsOf(w, b).value, h);
    }
  }

  // ----- the rows after a run --------------------------------------------

  lemma {:induction false} QueriedOwn(h: string, records: seq<Json>)
    ensures Confluence.Queried(HostRecords(h, records), {h}) == Confluence.Queried(records, {h})
    ensures |HostRecords(h, records)| <= |records|
  {
    if records != [] {
      var front, last := records[..|records| - 1], records[|records| - 1];
      QueriedOwn(h, front);
      GatherConcat(HostRecords(h, front), IfFor(h)(last), Confluence.QueriedIn({h}));
      OwnOne(h, last);
    }
  }

  lemma OwnOne(h: string, record: Json)
    ensures Gather(IfFor(h)(record), Confluence.QueriedIn({h})) == Confluence.QueriedIn({h})(record)
  {
    if RecordHost(record) == Some(h) {
      GatherSingle(record, Confluence.QueriedIn({h}));
    }
  }

  lemma NothingQueried(p6: Parse6, row: AssetRow)
    ensures Enriched(p6, row, []) == row
  {
  }

  /** Handing over a host's own records does what the whole result would do for that host. */
  lemma OneHandOver(p6: Parse6, row: AssetRow, records: seq<Json>, h: string)
    requires |records| <= MAX_DNS_RECORDS
    ensures RowAfter(p6, row, HandedFor(records, h)) == Confluence.DnsxEnriched(p6, row, {h}, records)
  {
    QueriedOwn(h, records);
    var own := HostRecords(h, records);
    if own == [] {
      NothingQueried(p6, row);
    } else {
      assert [Handed(h, own)][..0] == [];
      assert RowAfter(p6, row, [Handed(h, own)]) == Confluence.DnsxEnriched(p6, row, {h}, own);
    }
  }

  lemma {:induction false} RowAfterConcat(p6: Parse6, row: AssetRow, a: seq<Handed>, b: seq<Handed>)
    ensures RowAfter(p6, row, a + b) == RowAfter(p6, RowAfter(p6, row, a), b)
  {
    if b == [] {
      assert a + b == a;
    } else {
      var n := |b| - 1;
      assert (a + b)[..|a + b| - 1] == a + b[..n];
      RowAfterConcat(p6, row, a, b[..n]);
    }
  }

  lemma {:induction false} BatchHandOvers(p6: Parse6, row: AssetRow, batch: seq<string>, records: seq<Json>, n: nat)
    requires n <= |batch| && |records| <= MAX_DNS_RECORDS
    ensures RowAfter(p6, row, HandedUpTo(records, batch, n)) == Confluence.PerHost(p6, row, batch[..n], records)
  {
    if n > 0 {
      BatchHandOvers(p6, row, batch, records, n - 1);
      HandedNext(records, batch, n - 1, []);
      NextHandOver(p6, row, HandedUpTo(records, batch, n - 1), records, batch[n - 1]);
      assert [] + HandedUpTo(records, batch, n) == HandedUpTo(records, batch, n);
      assert [] + HandedUpTo(records, batch, n - 1) == HandedUpTo(records, batch, n - 1);
      Confluence.PerHostSnoc(p6, row, batch, records, n - 1);
    }
  }

  lemma NextHandOver(p6: Parse6, row: AssetRow, calls: seq<Handed>, records: seq<Json>, h: string)
    requires |records| <= MAX_DNS_RECORDS
    ensures RowAfter(p6, row, calls + HandedFor(records, h)) ==
            Confluence.DnsxEnriched(p6, RowAfter(p6, row, calls), {h}, records)
  {
    RowAfterConcat(p6, row, calls, HandedFor(records, h));
    OneHandOver(p6, RowAfter(p6, row, calls), records, h);
  }

  /** What one call for a whole batch leaves on a row. */
  function Bulk(w: World, row: AssetRow, batch: seq<string>): AssetRow {
    match RecordsOf(w, batch)
    case None => row
    case Some(records) => Confluence.DnsxEnriched(w.p6, row, Elements(batch), records)
  }

  predicate SmallAnswer(w: World, batch: seq<string>) {
    RecordsOf(w, batch).Some? ==> |RecordsOf(w, batch).value| <= MAX_DNS_RECORDS
  }

  predicate Tidy(w: World, batch: seq<string>) {
    AllDistinct(batch) && Confluence.PlainNames(Elements(batch)) && SmallAnswer(w, batch)
  }

  lemma BatchIsBulk(w: World, row: AssetRow, batch: seq<string>)
    requires Tidy(w, batch)
    ensures RowAfter(w.p6, row, HandedIn(w, batch)) == Bulk(w, row, batch)
  {
    if RecordsOf(w, batch).Some? {
      var records := RecordsOf(w, batch).value;
      BatchHandOvers(w.p6, row, batch, records, |batch|);
      assert batch[..|batch|] == batch;
      Confluence.PerHostIsBulk(w.p6, row, batch, records);
    }
  }

  predicate Concerns(row: AssetRow, batch: seq<string>) {
    exists h :: h in batch && Matches(row, Some(h))
  }

  /** A batch leaves a row alone that carries none of its hosts. */
  lemma OtherBatch(w: World, row: AssetRow, batch: seq<string>)
    requires Tidy(w, batch) && !Concerns(row, batch)
    ensures Bulk(w, row, batch) == row
  {
    if RecordsOf(w, batch).Some? {
      forall h | h in Elements(batch) ensures !Matches(row, Some(h)) {
        assert h in batch;
      }
      var used := CapTo(RecordsOf(w, batch).value, MAX_DNS_RECORDS);
      Confluence.NoRecords(w.p6, row, used, Elements(batch));
    }
  }

  /** No row carries hosts of two batches. */
  lemma OneConcern(row: AssetRow, a: seq<string>, b: seq<string>)
    requires Elements(a) !! Elements(b) && Concerns(row, a)
    ensures !Concerns(row, b)
  {
    var h :| h in a && Matches(row, Some(h));
    assert h in Elements(a);
  }

  predicate Apart(batches: seq<seq<string>>) {
    forall i, j :: 0 <= i < j < |batches| ==> Elements(batches[i]) !! Elements(batches[j])
  }

  /** Of a chain of states at most one step matters: the state is the first one, or that step's result. */
  ghost predicate LeftBy<T>(start: T, state: T, matters: nat -> bool, result: nat -> T, n: nat) {
    && ((forall i :: 0 <= i < n ==> !matters(i)) ==> state == start)
    && (forall i :: 0 <= i < n && matters(i) ==> state == result(i))
  }

  lemma {:induction false} OneStepMatters<T>(start: T, state: nat -> T, matters: nat -> bool, result: nat -> T, n: nat)
    requires state(0) == start
    requires forall k :: 0 <= k < n && !matters(k) ==> state(k + 1) == state(k)
    requires forall k :: 0 <= k < n && matters(k) && state(k) == start ==> state(k + 1) == result(k)
    requires forall i, j :: 0 <= i < j < n ==> !(matters(i) && matters(j))
    ensures LeftBy(start, state(n), matters, result, n)
  {
    if n > 0 {
      OneStepMatters(start, state, matters, result, n - 1);
    }
  }

  lemma ConcernsByHost(a: AssetRow, b: AssetRow, batch: seq<string>)
    requires a.assetType == b.assetType && a.host == b.host
    ensures Concerns(a, batch) <==> Concerns(b, batch)
  {
    forall h | h in batch ensures Matches(a, Some(h)) <==> Matches(b, Some(h)) {
    }
  }

  lemma NotBoth(row: AssetRow, a: seq<string>, b: seq<string>)
    requires Elements(a) !! Elements(b)
    ensures !(Concerns(row, a) && Concerns(row, b))
  {
    if Concerns(row, a) {
      OneConcern(row, a, b);
    }
  }

  function RowAt(w: World, row: AssetRow, batches: seq<seq<string>>, n: nat): AssetRow {
    if n <= |batches| then RowAfter(w.p6, row, HandedAll(w, batches[..n])) else row
  }

  lemma BatchStep(w: World, row: AssetRow, batches: seq<seq<string>>, n: nat)
    requires n < |batches| && Tidy(w, batches[n])
    ensures RowAt(w, row, batches, n + 1) == Bulk(w, RowAt(w, row, batches, n), batches[n])
    ensures !Concerns(row, batches[n]) ==> RowAt(w, row, batches, n + 1) == RowAt(w, row, batches, n)
  {
    var calls := HandedAll(w, batches[..n]);
    assert batches[..n + 1] == batches[..n] + [batches[n]];
    HandedSnoc(w, batches[..n], batches[n]);
    RowAfterConcat(w.p6, row, calls, HandedIn(w, batches[n]));
    BatchIsBulk(w, RowAfter(w.p6, row, calls), batches[n]);
    if !Concerns(row, batches[n]) {
      RowAfterHost(w.p6, row, calls);
      ConcernsByHost(row, RowAfter(w.p6, row, calls), batches[n]);
      OtherBatch(w, RowAfter(w.p6, row, calls), batches[n]);
    }
  }

  /** The row after the hand-overs of all batches: only the batch with its host matters, taken as one call. */
  lemma RowAfterBatches(w: World, row: AssetRow, batches: seq<seq<string>>)
    requires Apart(batches) && forall i :: 0 <= i < |batches| ==> Tidy(w, batches[i])
    ensures (forall i :: 0 <= i < |batches| ==> !Concerns(row, batches[i])) ==> RowAt(w, row, batches, |batches|) == row
    ensures forall i :: 0 <= i < |batches| && Concerns(row, batches[i]) ==>
              RowAt(w, row, batches, |batches|) == Bulk(w, row, batches[i])
  {
    var state := (n: nat) => RowAt(w, row, batches, n);
    var matters := (n: nat) => n < |batches| && Concerns(row, batches[n]);
    var result := (n: nat) => if n < |batches| then Bulk(w, row, batches[n]) else row;
    assert batches[..0] == [];
    forall k | 0 <= k < |batches|
      ensures !matters(k) ==> state(k + 1) == state(k)
      ensures matters(k) && state(k) == row ==> state(k + 1) == result(k)
    {
      BatchStep(w, row, batches, k);
    }
    forall i, j | 0 <= i < j < |batches| ensures !(matters(i) && matters(j)) {
      NotBoth(row, batches[i], batches[j]);
    }
    OneStepMatters(row, state, matters, result, |batches|);
    forall i | 0 <= i < |batches| && Concerns(row, batches[i])
      ensures RowAt(w, row, batches, |batches|) == Bulk(w, row, batches[i])
    {
      assert matters(i);
    }
  }

  ghost predicate SmallAnswers(w: World) {
    forall batch :: SmallAnswer(w, batch)
  }

  lemma BatchIsTidy(w: World, parents: seq<string>, i: nat)
    requires Accounting.Shipped(w) && SmallAnswers(w)
    requires i < |Batches(SortedSet(EligibleHosts(w, parents)))|
    ensures Tidy(w, Batches(SortedSet(EligibleHosts(w, parents)))[i])
  {
    var eligible := SortedSet(EligibleHosts(w, parents));
    var batch := Batches(eligible)[i];
    assert batch in Batches(eligible);
    Accounting.ShippedBatchIsPlain(w, parents, batch);
    SortedSetDistinct(EligibleHosts(w, parents));
    Accounting.BatchIsSlice(eligible, i);
    SliceDistinct(eligible, i * MAX_DNSX_TARGETS, i * MAX_DNSX_TARGETS + |batch|);
    forall h | h in Elements(batch) ensures NormalizeHostname(h) == Some(h) {
      assert Accounting.IsPlainHost(h);
    }
    assert SmallAnswer(w, batch);
  }

  lemma SliceDistinct(xs: seq<string>, a: nat, b: nat)
    requires AllDistinct(xs) && a <= b <= |xs|
    ensures AllDistinct(xs[a..b])
  {
  }

  lemma BatchesApart(hosts: seq<string>)
    requires AllDistinct(hosts)
    ensures Apart(Batches(hosts))
  {
    var batches := Batches(hosts);
    forall i, j | 0 <= i < j < |batches| ensures Elements(batches[i]) !! Elements(batches[j]) {
      forall h | h in Elements(batches[i]) && h in Elements(batches[j]) ensures false {
        Accounting.OneBatchEach(hosts, i, j, h);
      }
    }
  }

  /**
   What an uncancelled run leaves on a row of the table: exactly what one call for the batch of its
   host would leave, and nothing at all on a row whose host was not asked for.
   */
  lemma RunLeavesBulk(w: World, parents: seq<string>, row: AssetRow)
    requires Accounting.Shipped(w) && SmallAnswers(w)
    ensures var batches := Batches(SortedSet(EligibleHosts(w, parents)));
            var after := RowAfter(w.p6, row, HandedAll(w, batches));
            && ((forall b :: b in batches ==> !Concerns(row, b)) ==> after == row)
            && (forall b :: b in batches && Concerns(row, b) ==> after == Bulk(w, row, b))
  {
    var batches := Batches(SortedSet(EligibleHosts(w, parents)));
    forall i | 0 <= i < |batches| ensures Tidy(w, batches[i]) {
      BatchIsTidy(w, parents, i);
    }
    SortedSetDistinct(EligibleHosts(w, parents));
    BatchesApart(SortedSet(EligibleHosts(w, parents)));
    RowAfterBatches(w, row, batches);
    assert batches[..|batches|] == batches;
  }

  // ----- the run on the table --------------------------------------------

  /** The world in which DNS persistence and the asset lookup are those of a table. */
  function Tabled(world: World, rows: seq<AssetRow>): World {
    world.(persistHost := (h: string, own: seq<Json>) => Some(Enrichable(world.p6, rows, {h}, own)),
           assetHosts := (hosts: set<string>) => ExistingHosts(rows, hosts))
  }

  /** What each row of the table is left as by the hand-overs. */
  ghost predicate EachAsBulk(w: World, parents: seq<string>, rows: seq<AssetRow>, calls: seq<Handed>) {
    forall i, b :: 0 <= i < |rows| && b in Batches(SortedSet(EligibleHosts(w, parents))) && Concerns(rows[i], b) ==>
      RowAfter(w.p6, rows[i], calls) == Bulk(w, rows[i], b)
  }

  ghost predicate OthersSame(w: World, parents: seq<string>, rows: seq<AssetRow>, calls: seq<Handed>) {
    forall i :: 0 <= i < |rows| && (forall b :: b in Batches(SortedSet(EligibleHosts(w, parents))) ==> !Concerns(rows[i], b)) ==>
      RowAfter(w.p6, rows[i], calls) == rows[i]
  }

  lemma RunLeavesTable(w: World, parents: seq<string>, rows: seq<AssetRow>)
    requires Accounting.Shipped(w) && SmallAnswers(w)
    ensures var calls := HandedAll(w, Batches(SortedSet(EligibleHosts(w, parents))));
            EachAsBulk(w, parents, rows, calls) && OthersSame(w, parents, rows, calls)
  {
    forall i | 0 <= i < |rows| {
      RunLeavesBulk(w, parents, rows[i]);
    }
  }

  /**
   Discovery on a table of assets, as it stands after the Subfinder half. Uncancelled, it promotes
   every host that DNS verified, and its hand-overs leave each row as one call for the batch of its
   host would.
   */
  method DiscoverOnTable(world: World, rows: seq<AssetRow>, snapshot: seq<ScopeEntry>)
    returns (r: DiscoveryResult, ghost calls: seq<Handed>)
    requires Accounting.Shipped(world) && SmallAnswers(world)
    ensures !r.cancelled ==> r == FinalResult(Tabled(world, rows), DiscoveryParents(snapshot)) && r.promoted == r.verified
    ensures !r.cancelled ==>
              var w, parents := Tabled(world, rows), DiscoveryParents(snapshot);
              EachAsBulk(w, parents, rows, calls) && OthersSame(w, parents, rows, calls)
    ensures r.cancelled ==> r.promoted == []
  {
    var w := Tabled(world, rows);
    var service := new DiscoveryService(w);
    r := service.Run(snapshot);
    calls := service.handed;
    ghost var parents := DiscoveryParents(snapshot);
    ShippedTabled(world, rows);
    PromotedIsVerified(w, rows, parents);
    RunLeavesTable(w, parents, rows);
  }

  lemma ShippedTabled(world: World, rows: seq<AssetRow>)
    requires Accounting.Shipped(world) && SmallAnswers(world)
    ensures var w := Tabled(world, rows); Accounting.Shipped(w) && SmallAnswers(w) && OnTable(w, rows)
  {
    var w := Tabled(world, rows);
    forall parent: string ensures Accounting.EmitsChecked(w.subfinder(parent)) {
      assert Accounting.EmitsChecked(world.subfinder(parent));
    }
    forall batch ensures SmallAnswer(w, batch) {
      assert SmallAnswer(world, batch);
    }
  }
}
