/**
 Merging DNS answers into asset attributes (backend/services/result_persistence.py): what a
 sequence of records leaves behind, and when order and grouping do not matter.
 */
module DnsEnrichment {
  import opened Wrappers
  import opened Text
  import opened Hostnames
  import opened AgentRuntime
  import opened Smallest
  import opened Capping

  const MAX_DNS_RECORDS := 500
  const MAX_VALUES := 20
  const MAX_VALUE_CHARS := 255

  // ----- values ----------------------------------------------------------

  datatype Key = A | Aaaa | Cname

  function Attribute(k: Key): string {
    match k
    case A => "dns_a"
    case Aaaa => "dns_aaaa"
    case Cname => "dns_cname"
  }

  function Alias(k: Key): string {
    match k
    case A => "a"
    case Aaaa => "aaaa"
    case Cname => "cname"
  }

  const STATUS := "verification_status"

  /** The canonical text of an IPv6 literal, as ipaddress prints it; None for anything else. */
  type Parse6 = string -> Option<string>

  /** What storage keeps of one textual value; None drops it. */
  function Normalized(p6: Parse6, k: Key, item: string): Option<string> {
    var t := Strip(item);
    if t == "" then None
    else
      match k
      case A => if IsIPv4(t) then Some(CapTo(t, MAX_VALUE_CHARS)) else None
      case Aaaa => if p6(t).Some? then Some(CapTo(p6(t).value, MAX_VALUE_CHARS)) else None
      case Cname =>
        var name := NormalizeHostname(t);
        if name.None? || name.value == "" then None else Some(CapTo(name.value, MAX_VALUE_CHARS))
  }

  function NormalizedItem(p6: Parse6, k: Key): Json -> seq<string> {
    (j: Json) =>
      if j.JStr? then
        match Normalized(p6, k, j.s)
        case Some(v) => [v]
        case None => []
      else []
  }

  function Items(p6: Parse6, k: Key, values: seq<Json>): seq<string> {
    Gather(values, NormalizedItem(p6, k))
  }

  function ListOf(fields: map<string, Json>, key: string): seq<Json> {
    if key in fields && fields[key].JList? then fields[key].items else []
  }

  /** The usable values an attribute holds. */
  function Existing(p6: Parse6, attrs: map<string, Json>, k: Key): seq<string> {
    Items(p6, k, ListOf(attrs, Attribute(k)))
  }

  // ----- records ---------------------------------------------------------

  /** The usable values of one record, before any truncation. */
  datatype Evidence = Evidence(a: seq<string>, aaaa: seq<string>, cname: seq<string>)

  function Incoming(e: Evidence, k: Key): seq<string> {
    match k
    case A => e.a
    case Aaaa => e.aaaa
    case Cname => e.cname
  }

  function IncomingOf(k: Key): Evidence -> seq<string> {
    (e: Evidence) => Incoming(e, k)
  }

  /** What one record contributes to an attribute. */
  function Values(e: Evidence, k: Key): seq<string> {
    Least(Incoming(e, k), MAX_VALUES)
  }

  predicate HasAddress(e: Evidence) {
    Values(e, A) != [] || Values(e, Aaaa) != []
  }

  predicate IsEmpty(e: Evidence) {
    Values(e, A) == [] && Values(e, Aaaa) == [] && Values(e, Cname) == []
  }

  function EvidenceOf(p6: Parse6, fields: map<string, Json>): Evidence {
    Evidence(
      Items(p6, A, ListOf(fields, Attribute(A)) + ListOf(fields, Alias(A))),
      Items(p6, Aaaa, ListOf(fields, Attribute(Aaaa)) + ListOf(fields, Alias(Aaaa))),
      Items(p6, Cname, ListOf(fields, Attribute(Cname)) + ListOf(fields, Alias(Cname))))
  }

  function RecordHost(record: Json): Option<string> {
    if record.JDict? && "host" in record.fields && record.fields["host"].JStr?
    then NormalizeHostname(record.fields["host"].s)
    else None
  }

  // ----- one record on one row -------------------------------------------

  datatype AssetRow = AssetRow(assetType: string, host: Option<string>, attributes: map<string, Json>)

  predicate Matches(row: AssetRow, host: Option<string>) {
    host.Some? && row.assetType in {"host", "subdomain", "domain"} && row.host.Some? && Lower(row.host.value) == host.value
  }

  /** The record concerns the row and has something to add. */
  predicate Touches(p6: Parse6, row: AssetRow, record: Json) {
    Matches(row, RecordHost(record)) && !IsEmpty(EvidenceOf(p6, record.fields))
  }

  function MergedKey(p6: Parse6, attrs: map<string, Json>, k: Key, values: seq<string>): map<string, Json> {
    if values == [] then attrs
    else
      var existing := Least(Existing(p6, attrs, k), MAX_VALUES);
      attrs[Attribute(k) := JList(Strings(Least(existing + values, MAX_VALUES)))]
  }

  function Advanced(attrs: map<string, Json>, hasAddress: bool): map<string, Json> {
    if hasAddress && STATUS in attrs && attrs[STATUS] == JStr("unverified") then attrs[STATUS := JStr("resolved")]
    else attrs
  }

  function CapFields(attrs: map<string, Json>): map<string, Json> {
    map k | k in attrs :: CapJson(attrs[k])
  }

  function Merged(p6: Parse6, attrs: map<string, Json>, e: Evidence): map<string, Json> {
    var m := MergedKey(p6, attrs, A, Values(e, A));
    var n := MergedKey(p6, m, Aaaa, Values(e, Aaaa));
    MergedKey(p6, n, Cname, Values(e, Cname))
  }

  function Apply(p6: Parse6, attrs: map<string, Json>, e: Evidence): map<string, Json> {
    CapFields(Advanced(Merged(p6, attrs, e), HasAddress(e)))
  }

  // ----- many records ----------------------------------------------------

  function Applier(p6: Parse6): (map<string, Json>, Evidence) -> map<string, Json> {
    (attrs, e) => Apply(p6, attrs, e)
  }

  function ApplyAll(p6: Parse6, attrs: map<string, Json>, es: seq<Evidence>): map<string, Json> {
    Fold(Applier(p6), attrs, es)
  }

  /** What one record holds for a row. */
  function EvidenceIn(p6: Parse6, row: AssetRow): Json -> seq<Evidence> {
    (record: Json) => if Touches(p6, row, record) then [EvidenceOf(p6, record.fields)] else []
  }

  /** The evidence the records hold for a row, in order. */
  function EvidenceFor(p6: Parse6, row: AssetRow, records: seq<Json>): seq<Evidence> {
    Gather(records, EvidenceIn(p6, row))
  }

  function Enriched(p6: Parse6, row: AssetRow, records: seq<Json>): AssetRow {
    row.(attributes := ApplyAll(p6, row.attributes, EvidenceFor(p6, row, records)))
  }

  function Applied(p6: Parse6, row: AssetRow, e: Evidence): AssetRow {
    row.(attributes := Apply(p6, row.attributes, e))
  }

  function OnMatch(p6: Parse6, row: AssetRow, host: string, e: Evidence): AssetRow {
    if Matches(row, Some(host)) then Applied(p6, row, e) else row
  }

  /** The row after one record. */
  function After(p6: Parse6, row: AssetRow, record: Json): AssetRow {
    if Touches(p6, row, record) then Applied(p6, row, EvidenceOf(p6, record.fields)) else row
  }

  lemma AfterKnown(p6: Parse6, row: AssetRow, record: Json, host: Option<string>)
    requires host == RecordHost(record)
    ensures host.None? ==> After(p6, row, record) == row && !Touches(p6, row, record)
    ensures host.Some? ==> record.JDict?
    ensures host.Some? ==>
              var e := EvidenceOf(p6, record.fields);
              && (Touches(p6, row, record) <==> Matches(row, host) && !IsEmpty(e))
              && After(p6, row, record) == if Matches(row, host) && !IsEmpty(e) then Applied(p6, row, e) else row
  {
  }

  lemma EnrichedStep(p6: Parse6, row: AssetRow, records: seq<Json>, i: nat)
    requires i < |records|
    ensures Enriched(p6, row, records[..i + 1]) == After(p6, Enriched(p6, row, records[..i]), records[i])
  {
    GatherSnoc(records, i, EvidenceIn(p6, row));
    var es := EvidenceFor(p6, row, records[..i]);
    if Touches(p6, row, records[i]) {
      assert (es + [EvidenceOf(p6, records[i].fields)])[..|es|] == es;
    } else {
      assert es + [] == es;
    }
  }

  class AssetStore {
    const p6: Parse6
    var rows: seq<AssetRow>

    constructor (p6: Parse6, rows: seq<AssetRow>)
      ensures this.p6 == p6 && this.rows == rows
    {
      this.p6 := p6;
      this.rows := rows;
    }

    /** The loop over the rows a lookup by host returns; `change` is what the record does to a row. */
    method UpdateRows(hostname: string, change: AssetRow -> AssetRow) returns (touched: set<nat>)
      modifies this`rows
      ensures |rows| == |old(rows)|
      ensures forall i :: 0 <= i < |rows| ==>
                rows[i] == if Matches(old(rows[i]), Some(hostname)) then change(old(rows[i])) else old(rows[i])
      ensures touched == MatchedRows(old(rows), hostname)
    {
      touched := {};
      ghost var before := rows;
      for i := 0 to |rows|
        invariant |rows| == |before|
        invariant forall j :: i <= j < |rows| ==> rows[j] == before[j]
        invariant forall j :: 0 <= j < i ==>
                    rows[j] == if Matches(before[j], Some(hostname)) then change(before[j]) else before[j]
        invariant touched == MatchedRows(before[..i], hostname)
      {
        if Matches(rows[i], Some(hostname)) {
          rows := rows[i := change(rows[i])];
          touched := touched + {i};
        }
        MatchedStep(before, i, hostname);
      }
      assert before[..|before|] == before;
    }

    method EnrichRows(hostname: string, enrichment: Evidence) returns (touched: set<nat>)
      modifies this`rows
      ensures |rows| == |old(rows)|
      ensures forall i :: 0 <= i < |rows| ==> rows[i] == OnMatch(p6, old(rows[i]), hostname, enrichment)
      ensures touched == MatchedRows(old(rows), hostname)
    {
      touched := UpdateRows(hostname, row => Applied(p6, row, enrichment));
    }

    /** One record against every row it concerns; `touched` are the positions of those rows. */
    method ApplyRecord(record: Json) returns (touched: set<nat>)
      modifies this`rows
      ensures |rows| == |old(rows)|
      ensures forall i :: 0 <= i < |rows| ==> rows[i] == After(p6, old(rows[i]), record)
      ensures touched == TouchedRows(p6, old(rows), record)
    {
      ghost var before := rows;
      var hostname := RecordHost(record);
      forall i | 0 <= i < |rows| {
        AfterKnown(p6, rows[i], record, hostname);
      }
      if hostname.None? || IsEmpty(EvidenceOf(p6, record.fields)) {
        return {};
      }
      touched := EnrichRows(hostname.value, EvidenceOf(p6, record.fields));
      assert touched == TouchedRows(p6, before, record);
    }

    /** apply_dns_enrichment: every row is enriched by the first 500 records; returns how many were concerned. */
    method ApplyDnsEnrichment(records: seq<Json>) returns (updated: nat)
      modifies this`rows
      ensures |rows| == |old(rows)|
      ensures forall i :: 0 <= i < |rows| ==> rows[i] == Enriched(p6, old(rows[i]), CapTo(records, 500))
      ensures updated == |UpdatedRows(p6, old(rows), CapTo(records, 500))|
    {
      var used := CapTo(records, MAX_DNS_RECORDS);
      ghost var before := rows;
      var ids: set<nat> := {};
      assert used[..0] == [];
      for i := 0 to |used|
        invariant |rows| == |before|
        invariant forall j :: 0 <= j < |rows| ==> rows[j] == Enriched(p6, before[j], used[..i])
        invariant ids == UpdatedRows(p6, before, used[..i])
      {
        ghost var was := rows;
        var touched := ApplyRecord(used[i]);
        forall j | 0 <= j < |rows| ensures rows[j] == Enriched(p6, before[j], used[..i + 1]) {
          EnrichedStep(p6, before[j], used, i);
        }
        UpdatedStep(p6, before, was, used, i);
        ids := ids + touched;
      }
      assert used[..|used|] == used;
      updated := |ids|;
    }
  }

  function TouchedRows(p6: Parse6, rows: seq<AssetRow>, record: Json): set<nat> {
    set i: nat | i < |rows| && Touches(p6, rows[i], record)
  }

  function MatchedRows(rows: seq<AssetRow>, host: string): set<nat> {
    set i: nat | i < |rows| && Matches(rows[i], Some(host))
  }

  lemma MatchedStep(rows: seq<AssetRow>, i: nat, host: string)
    requires i < |rows|
    ensures MatchedRows(rows[..i + 1], host)
         == MatchedRows(rows[..i], host) + (if Matches(rows[i], Some(host)) then {i} else {})
  {
  }

  predicate TouchedBySome(p6: Parse6, row: AssetRow, records: seq<Json>) {
    exists r :: r in records && Touches(p6, row, r)
  }

  function UpdatedRows(p6: Parse6, rows: seq<AssetRow>, records: seq<Json>): set<nat> {
    set i: nat | i < |rows| && TouchedBySome(p6, rows[i], records)
  }

  lemma SameMatches(p6: Parse6, a: AssetRow, b: AssetRow, record: Json)
    requires a.assetType == b.assetType && a.host == b.host
    ensures Touches(p6, a, record) <==> Touches(p6, b, record)
  {
  }

  lemma UpdatedStep(p6: Parse6, before: seq<AssetRow>, was: seq<AssetRow>, records: seq<Json>, i: nat)
    requires i < |records| && |was| == |before|
    requires forall j :: 0 <= j < |was| ==> was[j].assetType == before[j].assetType && was[j].host == before[j].host
    ensures UpdatedRows(p6, before, records[..i + 1])
         == UpdatedRows(p6, before, records[..i]) + TouchedRows(p6, was, records[i])
  {
    assert records[..i + 1] == records[..i] + [records[i]];
    forall j: nat | j < |before|
      ensures TouchedBySome(p6, before[j], records[..i + 1]) <==>
              TouchedBySome(p6, before[j], records[..i]) || Touches(p6, was[j], records[i])
    {
      SameMatches(p6, before[j], was[j], records[i]);
    }
  }

  // ----- what is left behind ---------------------------------------------

  /** Storing a value and reading it back yields the value. */
  predicate IsFixed(p6: Parse6, k: Key, v: string) {
    Normalized(p6, k, v) == Some(v) && |v| <= MAX_VALUE_CHARS
  }

  predicate AllFixed(p6: Parse6, k: Key, vs: seq<string>) {
    forall i :: 0 <= i < |vs| ==> IsFixed(p6, k, vs[i])
  }

  /** Attributes as persistence leaves them: capped, and every usable value a fixed one. */
  ghost predicate Stored(p6: Parse6, attrs: map<string, Json>) {
    CapFields(attrs) == attrs && forall k: Key :: AllFixed(p6, k, Existing(p6, attrs, k))
  }

  ghost predicate Plain(p6: Parse6, e: Evidence) {
    forall k: Key :: AllFixed(p6, k, Values(e, k))
  }

  ghost predicate AllPlain(p6: Parse6, es: seq<Evidence>) {
    forall i :: 0 <= i < |es| ==> Plain(p6, es[i])
  }

  lemma FixedItems(p6: Parse6, k: Key, vs: seq<string>)
    requires AllFixed(p6, k, vs)
    ensures Items(p6, k, Strings(vs)) == vs
  {
    forall i | 0 <= i < |vs| ensures NormalizedItem(p6, k)(Strings(vs)[i]) == [vs[i]] {
      assert IsFixed(p6, k, vs[i]);
    }
    GatherSingletons(Strings(vs), NormalizedItem(p6, k), vs);
  }

  lemma FixedUnion(p6: Parse6, k: Key, a: seq<string>, b: seq<string>, n: nat)
    requires AllFixed(p6, k, a) && AllFixed(p6, k, b)
    ensures AllFixed(p6, k, Least(a + b, n))
  {
    var u := Least(a + b, n);
    forall i | 0 <= i < |u| ensures IsFixed(p6, k, u[i]) {
      assert u[i] in Elements(Sorted(a + b));
      assert u[i] in a + b;
    }
  }

  lemma FixedLeast(p6: Parse6, k: Key, a: seq<string>, n: nat)
    requires AllFixed(p6, k, a)
    ensures AllFixed(p6, k, Least(a, n))
  {
    assert a + [] == a;
    FixedUnion(p6, k, a, [], n);
  }

  lemma ShortListUncapped(p6: Parse6, k: Key, vs: seq<string>)
    requires AllFixed(p6, k, vs)
    ensures CapJson(JList(Strings(vs))) == JList(Strings(vs))
  {
    assert forall i :: 0 <= i < |vs| ==> IsFixed(p6, k, vs[i]);
  }

  lemma AttributesDiffer(k: Key, l: Key)
    ensures Attribute(k) == Attribute(l) <==> k == l
    ensures Attribute(k) != STATUS
  {
    assert "dns_a"[4] == 'a' && "dns_cname"[4] == 'c' && STATUS[0] == 'v';
  }

  /** The new content of a touched attribute: the twenty smallest of what was there and what came in. */
  function Cell(p6: Parse6, attrs: map<string, Json>, k: Key, incoming: seq<string>): Json {
    JList(Strings(Least(Existing(p6, attrs, k) + incoming, MAX_VALUES)))
  }

  lemma MergedKeyIs(p6: Parse6, attrs: map<string, Json>, k: Key, incoming: seq<string>)
    requires Stored(p6, attrs) && AllFixed(p6, k, Least(incoming, MAX_VALUES))
    ensures var m := MergedKey(p6, attrs, k, Least(incoming, MAX_VALUES));
            && Stored(p6, m)
            && m == (if incoming == [] then attrs else attrs[Attribute(k) := Cell(p6, attrs, k, incoming)])
  {
    var values := Least(incoming, MAX_VALUES);
    LeastNonEmpty(incoming, MAX_VALUES);
    if incoming != [] {
      var existing := Existing(p6, attrs, k);
      LeastAbsorbs(Least(existing, MAX_VALUES), incoming, MAX_VALUES);
      LeastAbsorbs(incoming, existing, MAX_VALUES);
      FixedUnion(p6, k, Least(existing, MAX_VALUES), values, MAX_VALUES) by { FixedLeast(p6, k, existing, MAX_VALUES); }
      CellStored(p6, attrs, k, Least(existing + incoming, MAX_VALUES));
    }
  }

  lemma LeastNonEmpty(xs: seq<string>, n: nat)
    requires n > 0
    ensures Least(xs, n) == [] <==> xs == []
  {
    if xs != [] {
      assert xs[0] in Elements(Sorted(xs));
    }
  }

  lemma FieldStored(attrs: map<string, Json>, name: string, v: Json)
    requires CapFields(attrs) == attrs && CapJson(v) == v
    ensures CapFields(attrs[name := v]) == attrs[name := v]
  {
    var m := attrs[name := v];
    forall x | x in m ensures CapJson(m[x]) == m[x] {
      if x in attrs {
        assert CapFields(attrs)[x] == attrs[x];
      }
    }
  }

  lemma CellStored(p6: Parse6, attrs: map<string, Json>, k: Key, vs: seq<string>)
    requires Stored(p6, attrs) && AllFixed(p6, k, vs)
    ensures Stored(p6, attrs[Attribute(k) := JList(Strings(vs))])
  {
    var m := attrs[Attribute(k) := JList(Strings(vs))];
    ShortListUncapped(p6, k, vs);
    FieldStored(attrs, Attribute(k), JList(Strings(vs)));
    FixedItems(p6, k, vs);
    forall l: Key ensures AllFixed(p6, l, Existing(p6, m, l)) {
      AttributesDiffer(k, l);
      if l != k {
        assert Existing(p6, m, l) == Existing(p6, attrs, l);
      }
    }
  }

  // ----- the closed form -------------------------------------------------

  predicate Same(a: map<string, Json>, b: map<string, Json>, x: string) {
    (x in a <==> x in b) && (x in a ==> a[x] == b[x])
  }

  predicate KeyLeft(p6: Parse6, attrs: map<string, Json>, k: Key, incoming: seq<string>, r: map<string, Json>) {
    if incoming == [] then Same(attrs, r, Attribute(k))
    else Attribute(k) in r && r[Attribute(k)] == Cell(p6, attrs, k, incoming)
  }

  predicate StatusLeft(attrs: map<string, Json>, anyAddress: bool, r: map<string, Json>) {
    if anyAddress && STATUS in attrs && attrs[STATUS] == JStr("unverified")
    then STATUS in r && r[STATUS] == JStr("resolved")
    else Same(attrs, r, STATUS)
  }

  const SPECIAL: set<string> := {Attribute(A), Attribute(Aaaa), Attribute(Cname), STATUS}

  ghost predicate OthersLeft(attrs: map<string, Json>, r: map<string, Json>) {
    forall x :: x !in SPECIAL ==> Same(attrs, r, x)
  }

  predicate SomeAddress(es: seq<Evidence>) {
    exists e :: e in es && HasAddress(e)
  }

  function AllIncoming(es: seq<Evidence>, k: Key): seq<string> {
    Gather(es, IncomingOf(k))
  }

  /**
   What a list of evidence leaves: each touched attribute holds the twenty smallest of the
   union of old and incoming values, `unverified` becomes `resolved` iff some record has an
   address, and nothing else changes.
   */
  ghost predicate Leaves(p6: Parse6, attrs: map<string, Json>, es: seq<Evidence>, r: map<string, Json>) {
    && (forall k: Key :: KeyLeft(p6, attrs, k, AllIncoming(es, k), r))
    && StatusLeft(attrs, SomeAddress(es), r)
    && OthersLeft(attrs, r)
  }

  lemma KeyBefore(
    p6: Parse6, attrs: map<string, Json>, m: map<string, Json>, n: map<string, Json>, k: Key, incoming: seq<string>)
    requires Same(attrs, m, Attribute(k)) && KeyLeft(p6, m, k, incoming, n)
    ensures KeyLeft(p6, attrs, k, incoming, n)
  {
    assert Existing(p6, attrs, k) == Existing(p6, m, k);
  }

  lemma KeyAfter(
    p6: Parse6, attrs: map<string, Json>, m: map<string, Json>, n: map<string, Json>, k: Key, incoming: seq<string>)
    requires KeyLeft(p6, attrs, k, incoming, m) && Same(m, n, Attribute(k))
    ensures KeyLeft(p6, attrs, k, incoming, n)
  {
  }

  ghost predicate OnlyKey(k: Key, attrs: map<string, Json>, m: map<string, Json>) {
    forall x :: x != Attribute(k) ==> Same(attrs, m, x)
  }

  lemma UpdatedKey(p6: Parse6, attrs: map<string, Json>, k: Key, incoming: seq<string>, m: map<string, Json>)
    requires m == if incoming == [] then attrs else attrs[Attribute(k) := Cell(p6, attrs, k, incoming)]
    ensures KeyLeft(p6, attrs, k, incoming, m) && OnlyKey(k, attrs, m)
  {
  }

  lemma MergedKeyLeaves(p6: Parse6, attrs: map<string, Json>, k: Key, incoming: seq<string>) returns (m: map<string, Json>)
    requires Stored(p6, attrs) && AllFixed(p6, k, Least(incoming, MAX_VALUES))
    ensures m == MergedKey(p6, attrs, k, Least(incoming, MAX_VALUES))
    ensures Stored(p6, m) && KeyLeft(p6, attrs, k, incoming, m) && OnlyKey(k, attrs, m)
  {
    m := MergedKey(p6, attrs, k, Least(incoming, MAX_VALUES));
    MergedKeyIs(p6, attrs, k, incoming);
    UpdatedKey(p6, attrs, k, incoming, m);
  }

  lemma MergedIs(p6: Parse6, attrs: map<string, Json>, e: Evidence)
    requires Stored(p6, attrs)
    requires PlainLists(p6, e.a, e.aaaa, e.cname)
    ensures var m := Merged(p6, attrs, e);
            && Stored(p6, m)
            && (forall k: Key :: KeyLeft(p6, attrs, k, Incoming(e, k), m))
            && Same(attrs, m, STATUS) && OthersLeft(attrs, m)
  {
    var m, n, r := MergedSteps(p6, attrs, e);
    MergedListwise(p6, attrs, e);
    ThreeKeys(p6, attrs, m, n, r, e);
  }

  predicate PlainLists(p6: Parse6, a: seq<string>, b: seq<string>, c: seq<string>) {
    AllFixed(p6, A, Least(a, MAX_VALUES)) && AllFixed(p6, Aaaa, Least(b, MAX_VALUES)) && AllFixed(p6, Cname, Least(c, MAX_VALUES))
  }

  function MergedLists(
    p6: Parse6, attrs: map<string, Json>, a: seq<string>, b: seq<string>, c: seq<string>): map<string, Json>
  {
    var m := MergedKey(p6, attrs, A, Least(a, MAX_VALUES));
    var n := MergedKey(p6, m, Aaaa, Least(b, MAX_VALUES));
    MergedKey(p6, n, Cname, Least(c, MAX_VALUES))
  }

  lemma MergedListwise(p6: Parse6, attrs: map<string, Json>, e: Evidence)
    ensures Merged(p6, attrs, e) == MergedLists(p6, attrs, e.a, e.aaaa, e.cname)
  {
    assert Values(e, A) == Least(e.a, MAX_VALUES) && Values(e, Aaaa) == Least(e.aaaa, MAX_VALUES);
    assert Values(e, Cname) == Least(e.cname, MAX_VALUES);
  }

  lemma PlainIsListwise(p6: Parse6, e: Evidence)
    requires Plain(p6, e)
    ensures PlainLists(p6, e.a, e.aaaa, e.cname)
  {
    assert Values(e, A) == Least(e.a, MAX_VALUES) && Values(e, Aaaa) == Least(e.aaaa, MAX_VALUES);
    assert Values(e, Cname) == Least(e.cname, MAX_VALUES);
    assert AllFixed(p6, A, Values(e, A)) && AllFixed(p6, Aaaa, Values(e, Aaaa)) && AllFixed(p6, Cname, Values(e, Cname));
  }

  lemma MergedSteps(p6: Parse6, attrs: map<string, Json>, e: Evidence)
    returns (m: map<string, Json>, n: map<string, Json>, r: map<string, Json>)
    requires Stored(p6, attrs)
    requires PlainLists(p6, e.a, e.aaaa, e.cname)
    ensures r == MergedLists(p6, attrs, e.a, e.aaaa, e.cname) && Stored(p6, r)
    ensures KeyLeft(p6, attrs, A, e.a, m) && OnlyKey(A, attrs, m)
    ensures KeyLeft(p6, m, Aaaa, e.aaaa, n) && OnlyKey(Aaaa, m, n)
    ensures KeyLeft(p6, n, Cname, e.cname, r) && OnlyKey(Cname, n, r)
  {
    m := MergedKeyLeaves(p6, attrs, A, e.a);
    n := MergedKeyLeaves(p6, m, Aaaa, e.aaaa);
    r := MergedKeyLeaves(p6, n, Cname, e.cname);
  }

  /** Three updates at different keys: each is seen where it happened. */
  lemma ThreeUpdates(attrs: map<string, Json>, m: map<string, Json>, n: map<string, Json>, r: map<string, Json>)
    requires OnlyKey(A, attrs, m) && OnlyKey(Aaaa, m, n) && OnlyKey(Cname, n, r)
    ensures Same(m, r, Attribute(A)) && Same(attrs, m, Attribute(Aaaa)) && Same(n, r, Attribute(Aaaa))
    ensures Same(attrs, n, Attribute(Cname)) && Same(attrs, r, STATUS) && OthersLeft(attrs, r)
  {
    AttributesDiffer(A, Aaaa);
    AttributesDiffer(A, Cname);
    AttributesDiffer(Aaaa, Cname);
    assert Same(m, n, Attribute(A)) && Same(n, r, Attribute(A));
    assert Same(attrs, m, Attribute(Cname)) && Same(m, n, Attribute(Cname));
    forall x | x !in {Attribute(A), Attribute(Aaaa), Attribute(Cname)} ensures Same(attrs, r, x) {
      assert Same(attrs, m, x) && Same(m, n, x) && Same(n, r, x);
    }
  }

  lemma ThreeKeys(
    p6: Parse6, attrs: map<string, Json>, m: map<string, Json>, n: map<string, Json>, r: map<string, Json>, e: Evidence)
    requires KeyLeft(p6, attrs, A, e.a, m) && OnlyKey(A, attrs, m)
    requires KeyLeft(p6, m, Aaaa, e.aaaa, n) && OnlyKey(Aaaa, m, n)
    requires KeyLeft(p6, n, Cname, e.cname, r) && OnlyKey(Cname, n, r)
    ensures forall k: Key :: KeyLeft(p6, attrs, k, Incoming(e, k), r)
    ensures Same(attrs, r, STATUS) && OthersLeft(attrs, r)
  {
    ThreeUpdates(attrs, m, n, r);
    forall k: Key ensures KeyLeft(p6, attrs, k, Incoming(e, k), r) {
      match k
      case A =>
        KeyAfter(p6, attrs, m, r, A, e.a);
      case Aaaa =>
        KeyBefore(p6, attrs, m, n, Aaaa, e.aaaa);
        KeyAfter(p6, attrs, n, r, Aaaa, e.aaaa);
      case Cname =>
        KeyBefore(p6, attrs, n, r, Cname, e.cname);
    }
  }

  lemma AdvancedIs(p6: Parse6, attrs: map<string, Json>, hasAddress: bool)
    requires Stored(p6, attrs)
    ensures var r := Advanced(attrs, hasAddress);
            && Stored(p6, r) && StatusLeft(attrs, hasAddress, r)
            && forall x :: x != STATUS ==> Same(attrs, r, x)
  {
    var r := Advanced(attrs, hasAddress);
    forall x | x in r ensures CapJson(r[x]) == r[x] {
      if x in attrs {
        assert CapFields(attrs)[x] == attrs[x];
      }
    }
    forall k: Key ensures AllFixed(p6, k, Existing(p6, r, k)) {
      AttributesDiffer(k, A);
      assert Existing(p6, r, k) == Existing(p6, attrs, k);
    }
  }

  lemma ApplyIs(p6: Parse6, attrs: map<string, Json>, e: Evidence)
    requires Stored(p6, attrs) && Plain(p6, e)
    ensures var r := Apply(p6, attrs, e);
            && Stored(p6, r)
            && (forall k: Key :: KeyLeft(p6, attrs, k, Incoming(e, k), r))
            && StatusLeft(attrs, HasAddress(e), r) && OthersLeft(attrs, r)
  {
    PlainIsListwise(p6, e);
    MergedIs(p6, attrs, e);
    AdvancedIs(p6, Merged(p6, attrs, e), HasAddress(e));
    forall k: Key ensures KeyLeft(p6, attrs, k, Incoming(e, k), Apply(p6, attrs, e)) {
      AttributesDiffer(k, A);
      assert KeyLeft(p6, attrs, k, Incoming(e, k), Merged(p6, attrs, e));
    }
  }

  lemma IncomingSnoc(es: seq<Evidence>, e: Evidence, k: Key)
    ensures AllIncoming(es + [e], k) == AllIncoming(es, k) + Incoming(e, k)
  {
    assert (es + [e])[..|es|] == es;
  }

  predicate FixedKey(p6: Parse6, attrs: map<string, Json>, k: Key, incoming: seq<string>) {
    AllFixed(p6, k, Least(Existing(p6, attrs, k) + incoming, MAX_VALUES))
  }

  lemma FixedUnionStep(p6: Parse6, k: Key, x: seq<string>, before: seq<string>, more: seq<string>)
    requires AllFixed(p6, k, Least(x + before, MAX_VALUES)) && AllFixed(p6, k, Least(more, MAX_VALUES))
    ensures Least(Least(x + before, MAX_VALUES) + more, MAX_VALUES) == Least(x + (before + more), MAX_VALUES)
    ensures AllFixed(p6, k, Least(x + (before + more), MAX_VALUES))
  {
    LeastOfThree(x, before, more, MAX_VALUES);
    FixedUnion(p6, k, Least(x + before, MAX_VALUES), Least(more, MAX_VALUES), MAX_VALUES);
  }

  lemma FixedKeyStep(p6: Parse6, attrs: map<string, Json>, k: Key, before: seq<string>, more: seq<string>)
    requires FixedKey(p6, attrs, k, before) && AllFixed(p6, k, Least(more, MAX_VALUES))
    ensures FixedKey(p6, attrs, k, before + more)
    ensures var x := Existing(p6, attrs, k);
            Least(Least(x + before, MAX_VALUES) + more, MAX_VALUES) == Least(x + (before + more), MAX_VALUES)
  {
    FixedUnionStep(p6, k, Existing(p6, attrs, k), before, more);
  }

  /** One more record on a key that earlier records have, or have not, touched. */
  lemma KeyStep(
    p6: Parse6, attrs: map<string, Json>, k: Key, before: seq<string>, more: seq<string>,
    r: map<string, Json>, r': map<string, Json>)
    requires FixedKey(p6, attrs, k, before) && AllFixed(p6, k, Least(more, MAX_VALUES))
    requires KeyLeft(p6, attrs, k, before, r) && KeyLeft(p6, r, k, more, r')
    ensures KeyLeft(p6, attrs, k, before + more, r')
  {
    if before == [] {
      KeyBefore(p6, attrs, r, r', k, more);
      assert before + more == more;
    } else if more == [] {
      KeyAfter(p6, attrs, r, r', k, before);
      assert before + more == before;
    } else {
      FixedKeyStep(p6, attrs, k, before, more);
      FixedItems(p6, k, Least(Existing(p6, attrs, k) + before, MAX_VALUES));
      assert before + more != [];
    }
  }

  lemma RecordStep(
    p6: Parse6, attrs: map<string, Json>, k: Key, front: seq<Evidence>, e: Evidence,
    r: map<string, Json>, r': map<string, Json>)
    requires Plain(p6, e) && FixedKey(p6, attrs, k, AllIncoming(front, k))
    requires KeyLeft(p6, attrs, k, AllIncoming(front, k), r) && KeyLeft(p6, r, k, Incoming(e, k), r')
    ensures KeyLeft(p6, attrs, k, AllIncoming(front + [e], k), r')
    ensures FixedKey(p6, attrs, k, AllIncoming(front + [e], k))
  {
    assert AllFixed(p6, k, Values(e, k));
    IncomingSnoc(front, e, k);
    FixedKeyStep(p6, attrs, k, AllIncoming(front, k), Incoming(e, k));
    KeyStep(p6, attrs, k, AllIncoming(front, k), Incoming(e, k), r, r');
  }

  lemma {:induction false} ClosedForm(p6: Parse6, attrs: map<string, Json>, es: seq<Evidence>)
    requires Stored(p6, attrs) && AllPlain(p6, es)
    ensures Stored(p6, ApplyAll(p6, attrs, es)) && Leaves(p6, attrs, es, ApplyAll(p6, attrs, es))
    ensures forall k: Key :: FixedKey(p6, attrs, k, AllIncoming(es, k))
  {
    if es != [] {
      var front, e := es[..|es| - 1], es[|es| - 1];
      ClosedForm(p6, attrs, front);
      var r := ApplyAll(p6, attrs, front);
      ApplyIs(p6, r, e);
      assert es == front + [e];
      forall k: Key
        ensures KeyLeft(p6, attrs, k, AllIncoming(es, k), Apply(p6, r, e)) && FixedKey(p6, attrs, k, AllIncoming(es, k))
      {
        RecordStep(p6, attrs, k, front, e, r, Apply(p6, r, e));
      }
      assert SomeAddress(es) <==> SomeAddress(front) || HasAddress(e);
    } else {
      forall k: Key ensures FixedKey(p6, attrs, k, AllIncoming(es, k)) {
        assert Existing(p6, attrs, k) + [] == Existing(p6, attrs, k);
        FixedLeast(p6, k, Existing(p6, attrs, k), MAX_VALUES);
      }
    }
  }
}
