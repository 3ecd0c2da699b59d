/** When the order and grouping of DNS records do not matter, and exactly when they do. */
module DnsConfluence {
  import opened Wrappers
  import opened Text
  import opened Hostnames
  import opened AgentRuntime
  import opened Smallest
  import opened Capping
  import opened DnsEnrichment

  // ----- the result is determined by the evidence ------------------------

  /** The same values for every attribute, in whatever order, and an address in both or neither. */
  ghost predicate SameEvidence(es: seq<Evidence>, fs: seq<Evidence>) {
    && (forall k: Key :: Elements(AllIncoming(es, k)) == Elements(AllIncoming(fs, k)))
    && (SomeAddress(es) <==> SomeAddress(fs))
  }

  lemma SameCell(p6: Parse6, attrs: map<string, Json>, k: Key, a: seq<string>, b: seq<string>)
    requires Elements(a) == Elements(b)
    ensures Cell(p6, attrs, k, a) == Cell(p6, attrs, k, b)
  {
    var x := Existing(p6, attrs, k);
    ElementsConcat(x, a);
    ElementsConcat(x, b);
    SortedBySet(x + a, x + b);
  }

  lemma SameKeyLeft(p6: Parse6, attrs: map<string, Json>, k: Key, a: seq<string>, b: seq<string>,
                    r: map<string, Json>, q: map<string, Json>)
    requires Elements(a) == Elements(b) && KeyLeft(p6, attrs, k, a, r) && KeyLeft(p6, attrs, k, b, q)
    ensures Same(r, q, Attribute(k))
  {
    SameCell(p6, attrs, k, a, b);
    assert a == [] <==> Elements(a) == {} by {
      if a != [] {
        assert a[0] in Elements(a);
      }
    }
    assert b == [] <==> Elements(b) == {} by {
      if b != [] {
        assert b[0] in Elements(b);
      }
    }
  }

  lemma LeavesUnique(p6: Parse6, attrs: map<string, Json>, es: seq<Evidence>, fs: seq<Evidence>,
                     r: map<string, Json>, q: map<string, Json>)
    requires SameEvidence(es, fs) && Leaves(p6, attrs, es, r) && Leaves(p6, attrs, fs, q)
    ensures r == q
  {
    forall x ensures Same(r, q, x) {
      if x in SPECIAL {
        if x == STATUS {
        } else {
          var k := if x == Attribute(A) then A else if x == Attribute(Aaaa) then Aaaa else Cname;
          assert x == Attribute(k);
          SameKeyLeft(p6, attrs, k, AllIncoming(es, k), AllIncoming(fs, k), r, q);
        }
      } else {
        assert Same(attrs, r, x) && Same(attrs, q, x);
      }
    }
    MapsEqual(r, q);
  }

  lemma MapsEqual(r: map<string, Json>, q: map<string, Json>)
    requires forall x :: Same(r, q, x)
    ensures r == q
  {
    assert forall x :: x in r ==> Same(r, q, x);
    assert forall x :: x in q ==> Same(r, q, x);
    assert r.Keys == q.Keys;
  }

  lemma SameResult(p6: Parse6, attrs: map<string, Json>, es: seq<Evidence>, fs: seq<Evidence>)
    requires Stored(p6, attrs) && AllPlain(p6, es) && AllPlain(p6, fs) && SameEvidence(es, fs)
    ensures ApplyAll(p6, attrs, es) == ApplyAll(p6, attrs, fs)
  {
    ClosedForm(p6, attrs, es);
    ClosedForm(p6, attrs, fs);
    LeavesUnique(p6, attrs, es, fs, ApplyAll(p6, attrs, es), ApplyAll(p6, attrs, fs));
  }

  // ----- order -----------------------------------------------------------

  lemma EvidenceMember(p6: Parse6, row: AssetRow, records: seq<Json>, e: Evidence)
    ensures e in EvidenceFor(p6, row, records) <==>
            exists r :: r in records && Touches(p6, row, r) && EvidenceOf(p6, r.fields) == e
  {
    GatherIn(records, EvidenceIn(p6, row), e);
    forall r | r in records
      ensures e in EvidenceIn(p6, row)(r) <==> Touches(p6, row, r) && EvidenceOf(p6, r.fields) == e
    {
    }
  }

  /** Every record that concerns the row carries plain values. */
  ghost predicate PlainRecords(p6: Parse6, row: AssetRow, records: seq<Json>) {
    forall r :: r in records && Touches(p6, row, r) ==> Plain(p6, EvidenceOf(p6, r.fields))
  }

  lemma EvidencePlain(p6: Parse6, row: AssetRow, records: seq<Json>)
    requires PlainRecords(p6, row, records)
    ensures AllPlain(p6, EvidenceFor(p6, row, records))
  {
    var es := EvidenceFor(p6, row, records);
    forall i | 0 <= i < |es| ensures Plain(p6, es[i]) {
      EvidenceMember(p6, row, records, es[i]);
    }
  }

  lemma SameMembersSameEvidence(es: seq<Evidence>, fs: seq<Evidence>)
    requires forall e :: e in es <==> e in fs
    ensures SameEvidence(es, fs)
  {
    forall k: Key ensures Elements(AllIncoming(es, k)) == Elements(AllIncoming(fs, k)) {
      forall v ensures v in AllIncoming(es, k) <==> v in AllIncoming(fs, k) {
        GatherIn(es, IncomingOf(k), v);
        GatherIn(fs, IncomingOf(k), v);
      }
    }
  }

  /**
   Any two lists of the same records, in any order and with any repetitions, leave the same row.
   */
  lemma OrderIndependent(p6: Parse6, row: AssetRow, records: seq<Json>, shuffled: seq<Json>)
    requires Stored(p6, row.attributes) && PlainRecords(p6, row, records)
    requires forall r :: r in records <==> r in shuffled
    ensures Enriched(p6, row, records) == Enriched(p6, row, shuffled)
  {
    var es, fs := EvidenceFor(p6, row, records), EvidenceFor(p6, row, shuffled);
    forall e ensures e in es <==> e in fs {
      EvidenceMember(p6, row, records, e);
      EvidenceMember(p6, row, shuffled, e);
    }
    SameMembersSameEvidence(es, fs);
    EvidencePlain(p6, row, records);
    EvidencePlain(p6, row, shuffled);
    SameResult(p6, row.attributes, es, fs);
  }

  /** The usable values that the records hold for one attribute of the row. */
  ghost function ValuesHeld(p6: Parse6, row: AssetRow, records: seq<Json>, k: Key): set<string> {
    Elements(AllIncoming(EvidenceFor(p6, row, records), k))
  }

  /** A touched attribute ends up as the sorted twenty smallest of the union of old and new values. */
  lemma TwentySmallest(p6: Parse6, row: AssetRow, records: seq<Json>, k: Key) returns (list: seq<string>)
    requires Stored(p6, row.attributes) && PlainRecords(p6, row, records)
    requires ValuesHeld(p6, row, records, k) != {}
    ensures Attribute(k) in Enriched(p6, row, records).attributes
    ensures Enriched(p6, row, records).attributes[Attribute(k)] == JList(Strings(list)) && StrictlySorted(list)
    ensures Elements(list) ==
            MinK(Elements(Existing(p6, row.attributes, k)) + ValuesHeld(p6, row, records, k), MAX_VALUES)
  {
    var es := EvidenceFor(p6, row, records);
    EvidencePlain(p6, row, records);
    ClosedForm(p6, row.attributes, es);
    assert KeyLeft(p6, row.attributes, k, AllIncoming(es, k), ApplyAll(p6, row.attributes, es));
    var x := Existing(p6, row.attributes, k);
    list := Least(x + AllIncoming(es, k), MAX_VALUES);
    LeastIsMinK(x + AllIncoming(es, k), MAX_VALUES);
    ElementsConcat(x, AllIncoming(es, k));
  }

  /** `unverified` becomes `resolved` exactly when some record for the row has a valid address. */
  lemma ResolvedIff(p6: Parse6, row: AssetRow, records: seq<Json>)
    requires Stored(p6, row.attributes) && PlainRecords(p6, row, records)
    requires STATUS in row.attributes && row.attributes[STATUS] == JStr("unverified")
    ensures STATUS in Enriched(p6, row, records).attributes
    ensures Enriched(p6, row, records).attributes[STATUS] == JStr("resolved") <==>
            exists r :: r in records && Touches(p6, row, r) && HasAddress(EvidenceOf(p6, r.fields))
  {
    var es := EvidenceFor(p6, row, records);
    EvidencePlain(p6, row, records);
    ClosedForm(p6, row.attributes, es);
    forall e ensures e in es <==> exists r :: r in records && Touches(p6, row, r) && EvidenceOf(p6, r.fields) == e {
      EvidenceMember(p6, row, records, e);
    }
    assert JStr("unverified") != JStr("resolved") by {
      assert "unverified"[0] == 'u' && "resolved"[0] == 'r';
    }
  }

  // ----- grouping --------------------------------------------------------

  lemma {:induction false} EvidenceOfRow(p6: Parse6, row: AssetRow, other: AssetRow, records: seq<Json>)
    requires row.assetType == other.assetType && row.host == other.host
    ensures EvidenceFor(p6, row, records) == EvidenceFor(p6, other, records)
  {
    if records != [] {
      EvidenceOfRow(p6, row, other, records[..|records| - 1]);
      SameMatches(p6, row, other, records[|records| - 1]);
    }
  }

  /** Two calls one after the other do what one call with all records does. */
  lemma GroupingIrrelevant(p6: Parse6, row: AssetRow, a: seq<Json>, b: seq<Json>)
    ensures Enriched(p6, Enriched(p6, row, a), b) == Enriched(p6, row, a + b)
  {
    GatherConcat(a, b, EvidenceIn(p6, row));
    EvidenceOfRow(p6, Enriched(p6, row, a), row, b);
    FoldConcat(Applier(p6), row.attributes, EvidenceFor(p6, row, a), EvidenceFor(p6, row, b));
  }

  // ----- one call per host -----------------------------------------------

  function Renamed(record: Json, host: string): Json
    requires record.JDict?
  {
    JDict(record.fields["host" := JStr(host)])
  }

  function QueriedIn(hosts: set<string>): Json -> seq<Json> {
    (record: Json) =>
      var host := RecordHost(record);
      if host.Some? && host.value in hosts then [Renamed(record, host.value)] else []
  }

  /** The records of a dnsx result for the queried hosts, with their host normalized. */
  function Queried(records: seq<Json>, hosts: set<string>): seq<Json> {
    Gather(records, QueriedIn(hosts))
  }

  /** apply_dnsx_enrichment for a successful result: its targets are the lookup keys, its first 500 records the data. */
  function DnsxEnriched(p6: Parse6, row: AssetRow, hosts: set<string>, records: seq<Json>): AssetRow {
    Enriched(p6, row, Queried(CapTo(records, MAX_DNS_RECORDS), hosts))
  }

  /** One call per host of a batch, in the order of the batch. */
  function PerHost(p6: Parse6, row: AssetRow, batch: seq<string>, records: seq<Json>): AssetRow {
    if batch == [] then row
    else DnsxEnriched(p6, PerHost(p6, row, batch[..|batch| - 1], records), {batch[|batch| - 1]}, records)
  }

  predicate PlainNames(hosts: set<string>) {
    forall h :: h in hosts ==> NormalizeHostname(h) == Some(h)
  }

  lemma RenamedEvidence(p6: Parse6, record: Json, host: string)
    requires record.JDict?
    ensures EvidenceOf(p6, Renamed(record, host).fields) == EvidenceOf(p6, record.fields)
  {
    assert "host"[0] == 'h';
    forall k: Key
      ensures ListOf(Renamed(record, host).fields, Attribute(k)) == ListOf(record.fields, Attribute(k))
      ensures ListOf(Renamed(record, host).fields, Alias(k)) == ListOf(record.fields, Alias(k))
    {
      assert Attribute(k)[0] == 'd' && Alias(k)[0] in {'a', 'c'};
    }
  }

  /** A record keeps its evidence and its row when its host is replaced by the normalized one. */
  lemma RenamedTouches(p6: Parse6, row: AssetRow, record: Json, h: string)
    requires NormalizeHostname(h) == Some(h) && RecordHost(record) == Some(h)
    ensures EvidenceIn(p6, row)(Renamed(record, h)) == EvidenceIn(p6, row)(record)
    ensures !Matches(row, Some(h)) ==> EvidenceIn(p6, row)(record) == []
  {
    RenamedEvidence(p6, record, h);
    assert RecordHost(Renamed(record, h)) == Some(h);
    SameTouches(p6, row, record, Renamed(record, h));
  }

  lemma SameTouches(p6: Parse6, row: AssetRow, record: Json, other: Json)
    requires RecordHost(record).Some? && RecordHost(other) == RecordHost(record)
    requires EvidenceOf(p6, other.fields) == EvidenceOf(p6, record.fields)
    ensures EvidenceIn(p6, row)(other) == EvidenceIn(p6, row)(record)
    ensures !Matches(row, RecordHost(record)) ==> EvidenceIn(p6, row)(record) == []
  {
  }

  /** The evidence one record of a dnsx result holds for a row. */
  lemma QueriedEvidence(p6: Parse6, row: AssetRow, record: Json, hosts: set<string>)
    requires PlainNames(hosts)
    ensures Gather(QueriedIn(hosts)(record), EvidenceIn(p6, row)) ==
            if RecordHost(record).Some? && RecordHost(record).value in hosts then EvidenceIn(p6, row)(record) else []
  {
    var host := RecordHost(record);
    if host.Some? && host.value in hosts {
      RenamedTouches(p6, row, record, host.value);
      GatherSingle(Renamed(record, host.value), EvidenceIn(p6, row));
    }
  }

  lemma QueriedSnoc(p6: Parse6, row: AssetRow, records: seq<Json>, hosts: set<string>)
    requires PlainNames(hosts) && records != []
    ensures var front, last := records[..|records| - 1], records[|records| - 1];
            EvidenceFor(p6, row, Queried(records, hosts)) ==
            EvidenceFor(p6, row, Queried(front, hosts))
            + if RecordHost(last).Some? && RecordHost(last).value in hosts then EvidenceIn(p6, row)(last) else []
  {
    var front, last := records[..|records| - 1], records[|records| - 1];
    GatherConcat(Queried(front, hosts), QueriedIn(hosts)(last), EvidenceIn(p6, row));
    QueriedEvidence(p6, row, last, hosts);
  }

  /** A row is concerned only by the records for its own host. */
  lemma {:induction false} OwnRecords(p6: Parse6, row: AssetRow, records: seq<Json>, hosts: set<string>, h: string)
    requires PlainNames(hosts) && h in hosts
    ensures EvidenceFor(p6, row, Queried(records, {h})) ==
            if Matches(row, Some(h)) then EvidenceFor(p6, row, Queried(records, hosts)) else []
  {
    if records != [] {
      OwnRecords(p6, row, records[..|records| - 1], hosts, h);
      QueriedSnoc(p6, row, records, {h});
      QueriedSnoc(p6, row, records, hosts);
      OwnRecord(p6, row, records[|records| - 1], hosts, h);
    }
  }

  lemma OwnRecord(p6: Parse6, row: AssetRow, record: Json, hosts: set<string>, h: string)
    requires PlainNames(hosts) && h in hosts
    ensures RecordHost(record) == Some(h) && !Matches(row, Some(h)) ==> EvidenceIn(p6, row)(record) == []
    ensures RecordHost(record).Some? && RecordHost(record) != Some(h) && Matches(row, Some(h)) ==>
              EvidenceIn(p6, row)(record) == []
  {
  }

  /**
   For up to 500 records, enriching host by host - as discovery does, so that a count can be
   attributed to one host - leaves every row of the batch as one call for the whole batch.
   */
  lemma PerHostIsBulk(p6: Parse6, row: AssetRow, batch: seq<string>, records: seq<Json>)
    requires |records| <= MAX_DNS_RECORDS && PlainNames(Elements(batch))
    requires forall i, j :: 0 <= i < j < |batch| ==> batch[i] != batch[j]
    ensures PerHost(p6, row, batch, records) == DnsxEnriched(p6, row, Elements(batch), records)
  {
    PerHostPrefix(p6, row, batch, records, |batch|);
    assert batch[..|batch|] == batch;
    if !SomeMatch(row, batch) {
      assert forall h :: h in Elements(batch) ==> !Matches(row, Some(h));
      NoRecords(p6, row, records, Elements(batch));
    }
  }

  lemma {:induction false} NoRecords(p6: Parse6, row: AssetRow, records: seq<Json>, hosts: set<string>)
    requires PlainNames(hosts) && forall h :: h in hosts ==> !Matches(row, Some(h))
    ensures EvidenceFor(p6, row, Queried(records, hosts)) == []
  {
    if records != [] {
      NoRecords(p6, row, records[..|records| - 1], hosts);
      QueriedSnoc(p6, row, records, hosts);
      var host := RecordHost(records[|records| - 1]);
      if host.Some? && host.value in hosts {
        RenamedTouches(p6, row, records[|records| - 1], host.value);
      }
    }
  }

  predicate SomeMatch(row: AssetRow, hosts: seq<string>) {
    exists i :: 0 <= i < |hosts| && Matches(row, Some(hosts[i]))
  }

  /** Distinct hosts: the last one matches only if none before it does. */
  lemma SomeMatchSnoc(row: AssetRow, hosts: seq<string>, n: nat)
    requires n < |hosts| && forall i, j :: 0 <= i < j < |hosts| ==> hosts[i] != hosts[j]
    ensures SomeMatch(row, hosts[..n + 1]) <==> SomeMatch(row, hosts[..n]) || Matches(row, Some(hosts[n]))
    ensures Matches(row, Some(hosts[n])) ==> !SomeMatch(row, hosts[..n])
  {
    if SomeMatch(row, hosts[..n]) {
      var i :| 0 <= i < n && Matches(row, Some(hosts[..n][i]));
      assert hosts[..n + 1][i] == hosts[..n][i];
    }
    if Matches(row, Some(hosts[n])) {
      assert hosts[..n + 1][n] == hosts[n];
      assert forall i :: 0 <= i < n ==> hosts[..n][i] != hosts[n];
    }
    if SomeMatch(row, hosts[..n + 1]) {
      var i :| 0 <= i < n + 1 && Matches(row, Some(hosts[..n + 1][i]));
      if i < n {
        assert hosts[..n][i] == hosts[..n + 1][i];
      }
    }
  }

  /** A batch without repeats, of names in normal form, and records that fit one bulk call. */
  predicate IsBatch(batch: seq<string>, records: seq<Json>) {
    |records| <= MAX_DNS_RECORDS && PlainNames(Elements(batch))
    && forall i, j :: 0 <= i < j < |batch| ==> batch[i] != batch[j]
  }

  /** After `n` hosts the row has been enriched exactly if its own host was among them. */
  predicate EnrichedUpTo(p6: Parse6, row: AssetRow, batch: seq<string>, records: seq<Json>, n: nat)
    requires n <= |batch|
  {
    PerHost(p6, row, batch[..n], records) ==
    if SomeMatch(row, batch[..n]) then DnsxEnriched(p6, row, Elements(batch), records) else row
  }

  lemma {:induction false} PerHostPrefix(p6: Parse6, row: AssetRow, batch: seq<string>, records: seq<Json>, n: nat)
    requires n <= |batch| && IsBatch(batch, records)
    ensures EnrichedUpTo(p6, row, batch, records, n)
  {
    if n > 0 {
      PerHostPrefix(p6, row, batch, records, n - 1);
      PerHostStep(p6, row, batch, records, n - 1);
    }
  }

  lemma PerHostStep(p6: Parse6, row: AssetRow, batch: seq<string>, records: seq<Json>, n: nat)
    requires n < |batch| && IsBatch(batch, records) && EnrichedUpTo(p6, row, batch, records, n)
    ensures EnrichedUpTo(p6, row, batch, records, n + 1)
  {
    PerHostSnoc(p6, row, batch, records, n);
    OneMoreHost(p6, row, PerHost(p6, row, batch[..n], records), batch, records, n);
  }

  lemma OneMoreHost(p6: Parse6, row: AssetRow, before: AssetRow, batch: seq<string>, records: seq<Json>, n: nat)
    requires n < |batch| && IsBatch(batch, records)
    requires before == if SomeMatch(row, batch[..n]) then DnsxEnriched(p6, row, Elements(batch), records) else row
    ensures DnsxEnriched(p6, before, {batch[n]}, records) ==
            if SomeMatch(row, batch[..n + 1]) then DnsxEnriched(p6, row, Elements(batch), records) else row
  {
    SomeMatchSnoc(row, batch, n);
    EnrichedKeepsHost(p6, row, Elements(batch), records);
    OneHostCall(p6, row, before, Elements(batch), records, batch[n]);
  }

  lemma EnrichedKeepsHost(p6: Parse6, row: AssetRow, hosts: set<string>, records: seq<Json>)
    ensures var r := DnsxEnriched(p6, row, hosts, records); r.assetType == row.assetType && r.host == row.host
  {
  }

  lemma PerHostSnoc(p6: Parse6, row: AssetRow, batch: seq<string>, records: seq<Json>, n: nat)
    requires n < |batch|
    ensures PerHost(p6, row, batch[..n + 1], records) ==
            DnsxEnriched(p6, PerHost(p6, row, batch[..n], records), {batch[n]}, records)
  {
    assert batch[..n + 1][..n] == batch[..n];
  }

  /** The call for one host: it enriches its own row as the bulk call would, and leaves any other alone. */
  lemma OneHostCall(p6: Parse6, row: AssetRow, before: AssetRow, hosts: set<string>, records: seq<Json>, h: string)
    requires |records| <= MAX_DNS_RECORDS && PlainNames(hosts) && h in hosts
    requires before.assetType == row.assetType && before.host == row.host
    ensures !Matches(row, Some(h)) ==> DnsxEnriched(p6, before, {h}, records) == before
    ensures Matches(row, Some(h)) && before == row ==>
              DnsxEnriched(p6, before, {h}, records) == DnsxEnriched(p6, row, hosts, records)
  {
    EvidenceOfRow(p6, before, row, Queried(records, {h}));
    OwnRecords(p6, row, records, hosts, h);
  }

  // ----- exactly when records commute ------------------------------------

  /** What ipaddress guarantees: the text it prints for an address is read back as that address. */
  ghost predicate Canonical6(p6: Parse6) {
    forall t: string :: p6(t).Some? ==> IsFixed(p6, Aaaa, CapTo(p6(t).value, MAX_VALUE_CHARS))
  }

  /** A kept value is read back unchanged exactly when it has no newline, which only CNAMEs can have. */
  lemma FixedIffPlain(p6: Parse6, k: Key, item: string, v: string)
    requires Canonical6(p6) && Normalized(p6, k, item) == Some(v)
    ensures |v| <= MAX_VALUE_CHARS
    ensures IsFixed(p6, k, v) <==> k != Cname || '\n' !in v
  {
    var t := Strip(item);
    match k
    case A => AddressFixed(t);
    case Aaaa =>
    case Cname => NameFixed(p6, t, v);
  }

  lemma AddressFixed(t: string)
    requires IsIPv4(t) && Stripped(t)
    ensures |t| <= MAX_VALUE_CHARS && Strip(t) == t && t != ""
  {
    JoinSplit(t, '.');
    var parts := Labels(t);
    assert forall i :: 0 <= i < 4 ==> parts[i] in parts;
    assert parts[1..][1..][1..] == parts[3..];
    assert Join(parts, '.') == parts[0] + "." + Join(parts[1..], '.');
    assert Join(parts[1..], '.') == parts[1] + "." + Join(parts[1..][1..], '.');
    assert Join(parts[1..][1..], '.') == parts[2] + "." + Join(parts[1..][1..][1..], '.');
  }

  lemma NameFixed(p6: Parse6, t: string, v: string)
    requires NormalizeHostname(t).Some? && v == CapTo(NormalizeHostname(t).value, MAX_VALUE_CHARS)
    ensures |v| <= MAX_NAME && v == NormalizeHostname(t).value
    ensures Normalized(p6, Cname, v) == Some(Chomp(v))
    ensures IsFixed(p6, Cname, v) <==> '\n' !in v
    ensures IsFixed(p6, Cname, Chomp(v))
  {
    ShortName(t);
    StoredName(t, v);
    KeptName(p6, Chomp(v));
    KeptName(p6, v);
  }

  lemma ShortName(t: string)
    requires NormalizeHostname(t).Some?
    ensures |NormalizeHostname(t).value| <= MAX_NAME
  {
  }

  /** A normal form without its padding, and what normalizing it again gives. */
  lemma StoredName(t: string, v: string)
    requires NormalizeHostname(t) == Some(v)
    ensures NormalizeHostname(Strip(v)) == Some(Chomp(v)) && Strip(v) != "" && Chomp(v) != ""
    ensures NormalizeHostname(Strip(Chomp(v))) == Some(Chomp(v)) && Chomp(Chomp(v)) == Chomp(v)
    ensures '\n' !in v <==> Chomp(v) == v
  {
    NormalForm(t, v);
    NameIsPlain(Chomp(v));
    NamesAreFixed(Chomp(v));
    NameChars(Chomp(v));
    if v != Chomp(v) {
      StripNewline(Chomp(v));
      assert v[|v| - 1] == '\n';
    }
  }

  lemma KeptName(p6: Parse6, v: string)
    requires |v| <= MAX_NAME && Strip(v) != "" && Chomp(v) != "" && NormalizeHostname(Strip(v)) == Some(Chomp(v))
    ensures Normalized(p6, Cname, v) == Some(Chomp(v))
    ensures IsFixed(p6, Cname, v) <==> Chomp(v) == v
  {
  }

  lemma KeptOrigin(p6: Parse6, fields: map<string, Json>, k: Key, v: string)
    requires v in Values(EvidenceOf(p6, fields), k)
    ensures exists item :: Normalized(p6, k, item) == Some(v)
  {
    var raw := ListOf(fields, Attribute(k)) + ListOf(fields, Alias(k));
    assert Incoming(EvidenceOf(p6, fields), k) == Items(p6, k, raw);
    assert v in Elements(Sorted(Items(p6, k, raw)));
    ItemOrigin(p6, k, raw, v);
  }

  lemma ItemOrigin(p6: Parse6, k: Key, raw: seq<Json>, v: string)
    requires v in Items(p6, k, raw)
    ensures exists item :: Normalized(p6, k, item) == Some(v)
  {
    GatherIn(raw, NormalizedItem(p6, k), v);
    var j :| j in raw && v in NormalizedItem(p6, k)(j);
    assert Normalized(p6, k, j.s) == Some(v);
  }

  predicate NoNewlines(vs: seq<string>) {
    forall i :: 0 <= i < |vs| ==> '\n' !in vs[i]
  }

  /** A record is plain exactly when none of the CNAMEs it contributes ends in a newline. */
  lemma PlainIff(p6: Parse6, fields: map<string, Json>)
    requires Canonical6(p6)
    ensures Plain(p6, EvidenceOf(p6, fields)) <==> NoNewlines(Values(EvidenceOf(p6, fields), Cname))
  {
    var e := EvidenceOf(p6, fields);
    forall k: Key ensures AllFixed(p6, k, Values(e, k)) <==> k != Cname || NoNewlines(Values(e, k)) {
      var vs := Values(e, k);
      forall i | 0 <= i < |vs| ensures IsFixed(p6, k, vs[i]) <==> k != Cname || '\n' !in vs[i] {
        KeptOrigin(p6, fields, k, vs[i]);
        var item :| Normalized(p6, k, item) == Some(vs[i]);
        FixedIffPlain(p6, k, item, vs[i]);
      }
    }
    assert AllFixed(p6, Cname, Values(e, Cname)) <==> NoNewlines(Values(e, Cname));
  }

  /**
   Which attributes the theorems above apply to: capped ones whose stored CNAMEs have no newline.
   Enrichment by plain records leads only to such attributes again (`ClosedForm`).
   */
  lemma StoredIff(p6: Parse6, attrs: map<string, Json>)
    requires Canonical6(p6)
    ensures Stored(p6, attrs) <==> CapFields(attrs) == attrs && NoNewlines(Existing(p6, attrs, Cname))
  {
    forall k: Key
      ensures AllFixed(p6, k, Existing(p6, attrs, k)) <==> k != Cname || NoNewlines(Existing(p6, attrs, k))
    {
      var vs := Existing(p6, attrs, k);
      forall i | 0 <= i < |vs| ensures IsFixed(p6, k, vs[i]) <==> k != Cname || '\n' !in vs[i] {
        ItemOrigin(p6, k, ListOf(attrs, Attribute(k)), vs[i]);
        var item :| Normalized(p6, k, item) == Some(vs[i]);
        FixedIffPlain(p6, k, item, vs[i]);
      }
    }
    assert AllFixed(p6, Cname, Existing(p6, attrs, Cname)) <==> NoNewlines(Existing(p6, attrs, Cname));
  }

  function CnameList(p6: Parse6, attrs: map<string, Json>, vs: seq<string>): seq<string> {
    Least(Least(Existing(p6, attrs, Cname), MAX_VALUES) + vs, MAX_VALUES)
  }

  predicate AllShort(vs: seq<string>) {
    forall i :: 0 <= i < |vs| ==> |vs[i]| <= MAX_VALUE_CHARS
  }

  /** The CNAME attribute after one record, whatever was stored before. */
  lemma CnameAfter(p6: Parse6, attrs: map<string, Json>, e: Evidence)
    requires Values(e, Cname) != [] && AllShort(CnameList(p6, attrs, Values(e, Cname)))
    ensures var r := Apply(p6, attrs, e);
            Attribute(Cname) in r && r[Attribute(Cname)] == JList(Strings(CnameList(p6, attrs, Values(e, Cname))))
  {
    AttributesDiffer(Cname, Cname);
    CnameOnceMerged(p6, attrs, e);
    ShortUncapped(CnameList(p6, attrs, Values(e, Cname)));
  }

  lemma CnameOnceMerged(p6: Parse6, attrs: map<string, Json>, e: Evidence)
    requires Values(e, Cname) != []
    ensures var m := Merged(p6, attrs, e);
            Attribute(Cname) in m && m[Attribute(Cname)] == JList(Strings(CnameList(p6, attrs, Values(e, Cname))))
  {
    var n := AddressesMerged(p6, attrs, e);
    CnameMerged(p6, attrs, n, Values(e, Cname));
    assert Merged(p6, attrs, e) == MergedKey(p6, n, Cname, Values(e, Cname));
  }

  /** The attributes once the addresses of a record are merged; its CNAMEs come last. */
  function AddressesMerged(p6: Parse6, attrs: map<string, Json>, e: Evidence): (n: map<string, Json>)
    ensures Same(attrs, n, Attribute(Cname))
  {
    AttributesDiffer(A, Cname);
    AttributesDiffer(Aaaa, Cname);
    var m := MergedKey(p6, attrs, A, Values(e, A));
    assert Same(attrs, m, Attribute(Cname));
    MergedKey(p6, m, Aaaa, Values(e, Aaaa))
  }

  lemma CnameMerged(p6: Parse6, attrs: map<string, Json>, n: map<string, Json>, vs: seq<string>)
    requires Same(attrs, n, Attribute(Cname)) && vs != []
    ensures MergedKey(p6, n, Cname, vs) == n[Attribute(Cname) := JList(Strings(CnameList(p6, attrs, vs)))]
  {
    assert Existing(p6, n, Cname) == Existing(p6, attrs, Cname);
  }

  lemma ShortUncapped(vs: seq<string>)
    requires AllShort(vs)
    ensures CapJson(JList(Strings(vs))) == JList(Strings(vs))
  {
  }

  // ----- the counterexample family ---------------------------------------

  /** Values of one record whose kept CNAMEs are `vs`: as stored, each is a name, perhaps with a newline. */
  ghost predicate KeptCnames(p6: Parse6, vs: seq<string>) {
    && StrictlySorted(vs) && 0 < |vs| <= MAX_VALUES
    && forall i :: 0 <= i < |vs| ==> IsCname(p6, vs[i])
  }

  /** A value that some item of a record normalizes to. */
  ghost predicate IsCname(p6: Parse6, v: string) {
    exists item :: Normalized(p6, Cname, item) == Some(v)
  }

  lemma CnameFacts(p6: Parse6, v: string)
    requires IsCname(p6, v)
    ensures |v| <= MAX_NAME && Normalized(p6, Cname, v) == Some(Chomp(v)) && IsFixed(p6, Cname, Chomp(v))
    ensures '\n' !in Chomp(v) && ('\n' !in v ==> Chomp(v) == v)
  {
    var item :| Normalized(p6, Cname, item) == Some(v);
    NameFixed(p6, Strip(item), v);
    NormalForm(Strip(item), v);
    NameIsPlain(Chomp(v));
  }

  /** Reading stored CNAMEs back loses every newline. */
  lemma ReadBack(p6: Parse6, vs: seq<string>, w: string)
    requires KeptCnames(p6, vs) && w in Items(p6, Cname, Strings(vs))
    ensures '\n' !in w
  {
    GatherIn(Strings(vs), NormalizedItem(p6, Cname), w);
    var j :| j in Strings(vs) && w in NormalizedItem(p6, Cname)(j);
    var i :| 0 <= i < |vs| && Strings(vs)[i] == j;
    CnameFacts(p6, vs[i]);
  }

  lemma LeastWithin(xs: seq<string>, k: nat, v: string)
    requires v in Least(xs, k)
    ensures v in xs
  {
    assert v in Elements(Sorted(xs));
  }

  /** The smallest of a list stays among the smallest when one more value joins. */
  lemma FirstStays(c: string, vs: seq<string>, k: nat)
    requires StrictlySorted(vs) && vs != [] && k >= 2
    ensures vs[0] in Least([c] + vs, k)
  {
    var u := [c] + vs;
    LeastIsMinK(u, k);
    forall y | y in Below(Elements(u), vs[0]) ensures y == c {
      if y != c {
        assert y in vs;
        var i :| 0 <= i < |vs| && vs[i] == y;
        if i > 0 {
          LessTransitive(vs[i], vs[0], vs[i]);
        }
        LessIrreflexive(vs[i]);
      }
    }
    SizeMonotone(Below(Elements(u), vs[0]), {c});
    assert vs[0] in Elements(Least(u, k));
  }

  lemma Repeated(vs: seq<string>, k: nat)
    requires StrictlySorted(vs) && 0 < |vs| <= k
    ensures Least([vs[0]] + vs, k) == vs
  {
    assert Elements([vs[0]] + vs) == Elements(vs);
    SortedBySet([vs[0]] + vs, vs);
    LeastFixed(vs, k);
  }

  /** A stored value and its chomped form side by side: a newline survives the merge. */
  lemma NewlineSurvives(p6: Parse6, vs: seq<string>)
    requires KeptCnames(p6, vs) && !NoNewlines(vs)
    ensures !NoNewlines(Least([Chomp(vs[0])] + vs, MAX_VALUES))
  {
    CnameFacts(p6, vs[0]);
    if '\n' in vs[0] {
      FirstStays(Chomp(vs[0]), vs, MAX_VALUES);
    } else {
      Repeated(vs, MAX_VALUES);
    }
  }

  lemma Swapped(p6: Parse6, e: Evidence)
    requires KeptCnames(p6, Values(e, Cname)) && !NoNewlines(Values(e, Cname))
    ensures var f := Evidence([], [], [Chomp(Values(e, Cname)[0])]);
            && Plain(p6, f) && Stored(p6, map[])
            && Apply(p6, Apply(p6, map[], e), f) != Apply(p6, Apply(p6, map[], f), e)
  {
    var vs := Values(e, Cname);
    var c := Chomp(vs[0]);
    var f := Evidence([], [], [c]);
    CnameFacts(p6, vs[0]);
    ChompedIsPlain(p6, c);
    FirstThenChomped(p6, e, f);
    ChompedThenFirst(p6, e, f);
    NewlineSurvives(p6, vs);
    StringsInjective(CnameList(p6, Apply(p6, map[], e), [c]), Least([c] + vs, MAX_VALUES));
  }

  lemma StringsInjective(a: seq<string>, b: seq<string>)
    ensures Strings(a) == Strings(b) <==> a == b
  {
    if Strings(a) == Strings(b) {
      assert |a| == |Strings(a)| == |Strings(b)| == |b|;
      forall i | 0 <= i < |a| ensures a[i] == b[i] {
        assert Strings(a)[i] == Strings(b)[i];
      }
    }
  }

  lemma ChompedIsPlain(p6: Parse6, c: string)
    requires IsFixed(p6, Cname, c)
    ensures Plain(p6, Evidence([], [], [c])) && Values(Evidence([], [], [c]), Cname) == [c] && Stored(p6, map[])
  {
    LeastFixed([c], MAX_VALUES);
    var f := Evidence([], [], [c]);
    forall k: Key ensures AllFixed(p6, k, Values(f, k)) {
    }
  }

  lemma FirstThenChomped(p6: Parse6, e: Evidence, f: Evidence)
    requires KeptCnames(p6, Values(e, Cname)) && f == Evidence([], [], [Chomp(Values(e, Cname)[0])])
    requires Values(f, Cname) == f.cname && IsFixed(p6, Cname, f.cname[0])
    ensures var r := Apply(p6, Apply(p6, map[], e), f);
            var list := CnameList(p6, Apply(p6, map[], e), f.cname);
            && NoNewlines(list)
            && Attribute(Cname) in r && r[Attribute(Cname)] == JList(Strings(list))
  {
    var vs := Values(e, Cname);
    FirstOnEmpty(p6, e);
    var r := Apply(p6, map[], e);
    var list := CnameList(p6, r, f.cname);
    forall i | 0 <= i < |list| ensures '\n' !in list[i] && |list[i]| <= MAX_VALUE_CHARS {
      LeastWithin(Least(Existing(p6, r, Cname), MAX_VALUES) + f.cname, MAX_VALUES, list[i]);
      if list[i] in f.cname {
        CnameFacts(p6, vs[0]);
      } else {
        LeastWithin(Existing(p6, r, Cname), MAX_VALUES, list[i]);
        ReadBack(p6, vs, list[i]);
        ItemOrigin(p6, Cname, Strings(vs), list[i]);
        CnameFacts(p6, list[i]);
      }
    }
    CnameAfter(p6, r, f);
  }

  lemma FirstOnEmpty(p6: Parse6, e: Evidence)
    requires KeptCnames(p6, Values(e, Cname))
    ensures var r := Apply(p6, map[], e);
            Attribute(Cname) in r && r[Attribute(Cname)] == JList(Strings(Values(e, Cname)))
  {
    var vs := Values(e, Cname);
    assert Existing(p6, map[], Cname) == [];
    assert Least([], MAX_VALUES) + vs == vs;
    LeastFixed(vs, MAX_VALUES);
    forall i | 0 <= i < |vs| ensures |vs[i]| <= MAX_VALUE_CHARS {
      CnameFacts(p6, vs[i]);
    }
    CnameAfter(p6, map[], e);
  }

  lemma ChompedThenFirst(p6: Parse6, e: Evidence, f: Evidence)
    requires KeptCnames(p6, Values(e, Cname)) && f == Evidence([], [], [Chomp(Values(e, Cname)[0])])
    requires Values(f, Cname) == f.cname && IsFixed(p6, Cname, f.cname[0])
    ensures var q := Apply(p6, Apply(p6, map[], f), e);
            && Attribute(Cname) in q
            && q[Attribute(Cname)] == JList(Strings(Least(f.cname + Values(e, Cname), MAX_VALUES)))
  {
    var vs := Values(e, Cname);
    assert KeptCnames(p6, f.cname) by {
      assert Normalized(p6, Cname, f.cname[0]) == Some(f.cname[0]);
    }
    FirstOnEmpty(p6, f);
    var r := Apply(p6, map[], f);
    FixedItems(p6, Cname, f.cname);
    assert Existing(p6, r, Cname) == f.cname;
    LeastFixed(f.cname, MAX_VALUES);
    var list := CnameList(p6, r, vs);
    assert list == Least(f.cname + vs, MAX_VALUES);
    forall i | 0 <= i < |list| ensures |list[i]| <= MAX_VALUE_CHARS {
      LeastWithin(f.cname + vs, MAX_VALUES, list[i]);
      if list[i] in vs {
        CnameFacts(p6, list[i]);
      }
    }
    CnameAfter(p6, r, e);
  }

  /** The record can trade places with any plain record, whatever is stored. */
  ghost predicate Commutes(p6: Parse6, e: Evidence) {
    forall attrs: map<string, Json>, f: Evidence :: Stored(p6, attrs) && Plain(p6, f) ==>
      Apply(p6, Apply(p6, attrs, e), f) == Apply(p6, Apply(p6, attrs, f), e)
  }

  lemma PlainCommutes(p6: Parse6, e: Evidence, attrs: map<string, Json>, f: Evidence)
    requires Plain(p6, e) && Plain(p6, f) && Stored(p6, attrs)
    ensures Apply(p6, Apply(p6, attrs, e), f) == Apply(p6, Apply(p6, attrs, f), e)
  {
    TwoSteps(p6, attrs, e, f);
    TwoSteps(p6, attrs, f, e);
    PairSwaps(p6, attrs, [e, f], [f, e], e, f);
  }

  lemma PairSwaps(p6: Parse6, attrs: map<string, Json>, es: seq<Evidence>, fs: seq<Evidence>, e: Evidence, f: Evidence)
    requires es == [e, f] && fs == [f, e] && Plain(p6, e) && Plain(p6, f) && Stored(p6, attrs)
    ensures ApplyAll(p6, attrs, es) == ApplyAll(p6, attrs, fs)
  {
    assert forall g :: g in es <==> g == e || g == f;
    assert forall g :: g in fs <==> g == e || g == f;
    SameMembersSameEvidence(es, fs);
    SameResult(p6, attrs, es, fs);
  }

  lemma TwoSteps(p6: Parse6, attrs: map<string, Json>, e: Evidence, f: Evidence)
    ensures ApplyAll(p6, attrs, [e, f]) == Apply(p6, Apply(p6, attrs, e), f)
  {
    assert [e, f][..1] == [e] && [e][..0] == [];
    assert Fold(Applier(p6), attrs, [e]) == Apply(p6, attrs, e);
  }

  /**
   Order-independence fails for exactly one family: records that contribute a CNAME with a
   newline before its root dot, which is stored with the newline and read back without it.
   */
  lemma CommutesIff(p6: Parse6, fields: map<string, Json>)
    requires Canonical6(p6)
    ensures Commutes(p6, EvidenceOf(p6, fields)) <==> NoNewlines(Values(EvidenceOf(p6, fields), Cname))
  {
    var e := EvidenceOf(p6, fields);
    PlainIff(p6, fields);
    if NoNewlines(Values(e, Cname)) {
      forall attrs: map<string, Json>, f: Evidence | Stored(p6, attrs) && Plain(p6, f)
        ensures Apply(p6, Apply(p6, attrs, e), f) == Apply(p6, Apply(p6, attrs, f), e)
      {
        PlainCommutes(p6, e, attrs, f);
      }
    } else {
      RecordKept(p6, fields);
      Swapped(p6, e);
    }
  }

  lemma RecordKept(p6: Parse6, fields: map<string, Json>)
    requires Values(EvidenceOf(p6, fields), Cname) != []
    ensures KeptCnames(p6, Values(EvidenceOf(p6, fields), Cname))
  {
    ValuesSorted(EvidenceOf(p6, fields), Cname);
    CnameOrigins(p6, fields, Values(EvidenceOf(p6, fields), Cname));
  }

  lemma ValuesSorted(e: Evidence, k: Key)
    ensures StrictlySorted(Values(e, k)) && |Values(e, k)| <= MAX_VALUES
  {
    LeastIsMinK(Incoming(e, k), MAX_VALUES);
  }

  lemma CnameOrigins(p6: Parse6, fields: map<string, Json>, vs: seq<string>)
    requires vs == Values(EvidenceOf(p6, fields), Cname)
    ensures forall i :: 0 <= i < |vs| ==> IsCname(p6, vs[i])
  {
    forall i | 0 <= i < |vs| ensures IsCname(p6, vs[i]) {
      assert vs[i] in vs;
      KeptOrigin(p6, fields, Cname, vs[i]);
    }
  }

  /** The failing family is not empty: one record with one CNAME suffices. */
  lemma NewlineRecordDoesNotCommute(p6: Parse6)
    requires Canonical6(p6)
    ensures var fields := map["cname" := JList([JStr("a\n.")])];
            !Commutes(p6, EvidenceOf(p6, fields))
  {
    var fields := map["cname" := JList([JStr("a\n.")])];
    NewlineRecordCnames(p6, fields);
    LeastFixed(["a\n"], MAX_VALUES);
    assert Values(EvidenceOf(p6, fields), Cname)[0] == "a\n";
    CommutesIff(p6, fields);
  }

  lemma NewlineRecordCnames(p6: Parse6, fields: map<string, Json>)
    requires fields == map["cname" := JList([JStr("a\n.")])]
    ensures Incoming(EvidenceOf(p6, fields), Cname) == ["a\n"]
  {
    NewlineItem(p6);
    assert |Attribute(Cname)| != |"cname"|;
    assert ListOf(fields, Attribute(Cname)) == [] && ListOf(fields, Alias(Cname)) == [JStr("a\n.")];
    assert ListOf(fields, Attribute(Cname)) + ListOf(fields, Alias(Cname)) == [JStr("a\n.")];
    GatherSingle(JStr("a\n."), NormalizedItem(p6, Cname));
  }

  lemma NewlineItem(p6: Parse6)
    ensures NormalizedItem(p6, Cname)(JStr("a\n.")) == ["a\n"]
  {
    NormalizeNotIdempotent();
    assert Strip("a\n.") == "a\n.";
    CnameItem(p6, "a\n.", "a\n");
  }

  lemma CnameItem(p6: Parse6, item: string, name: string)
    requires Strip(item) == item && item != "" && NormalizeHostname(item) == Some(name)
    requires 0 < |name| <= MAX_VALUE_CHARS
    ensures NormalizedItem(p6, Cname)(JStr(item)) == [name]
  {
    assert Normalized(p6, Cname, item) == Some(name);
  }
}
