/**
 What DNS answers leave in the columns of an asset, on the raw records: IPv4 addresses under
 "dns_a", IPv6 addresses under "dns_aaaa", names under "dns_cname", and the status.
 */
module DnsColumns {
  import opened Wrappers
  import opened Text
  import opened Hostnames
  import opened AgentRuntime
  import opened Smallest
  import opened DnsEnrichment
  import opened DnsConfluence

  function Short(s: string): string {
    if |s| <= 255 then s else s[..255]
  }

  /** The value that a column keeps of one item of a list. */
  ghost predicate Yields(p6: Parse6, column: string, item: Json, v: string) {
    item.JStr?
    && (|| (column == "dns_a" && IsIPv4(Strip(item.s)) && v == Short(Strip(item.s)))
        || (column == "dns_aaaa" && Strip(item.s) != "" && p6(Strip(item.s)).Some? && v == Short(p6(Strip(item.s)).value))
        || (column == "dns_cname" && NormalizeHostname(Strip(item.s)).Some? && v == Short(NormalizeHostname(Strip(item.s)).value)))
  }

  /** The list under a key has an item that yields the value. */
  ghost predicate ListsUnder(p6: Parse6, fields: map<string, Json>, key: string, column: string, v: string) {
    key in fields && fields[key].JList? && exists item :: item in fields[key].items && Yields(p6, column, item, v)
  }

  /** A record answers for a column under the column's own name or under its short one. */
  ghost predicate Answers(p6: Parse6, fields: map<string, Json>, column: string, v: string) {
    || ListsUnder(p6, fields, column, column, v)
    || (column == "dns_a" && ListsUnder(p6, fields, "a", column, v))
    || (column == "dns_aaaa" && ListsUnder(p6, fields, "aaaa", column, v))
    || (column == "dns_cname" && ListsUnder(p6, fields, "cname", column, v))
  }

  /** The record is about the row: a name asset whose host, in lower case, is the record's name. */
  ghost predicate Concerns(row: AssetRow, record: Json) {
    && row.assetType in {"host", "subdomain", "domain"} && row.host.Some?
    && record.JDict? && "host" in record.fields && record.fields["host"].JStr?
    && NormalizeHostname(record.fields["host"].s) == Some(Lower(row.host.value))
  }

  ghost predicate Offered(p6: Parse6, row: AssetRow, records: seq<Json>, column: string, v: string) {
    exists r :: r in records && Concerns(row, r) && Answers(p6, r.fields, column, v)
  }

  ghost predicate Had(p6: Parse6, row: AssetRow, column: string, v: string) {
    ListsUnder(p6, row.attributes, column, column, v)
  }

  // ----- columns and keys ------------------------------------------------

  ghost predicate KeyOf(k: Key, column: string) {
    (k == A && column == "dns_a") || (k == Aaaa && column == "dns_aaaa") || (k == Cname && column == "dns_cname")
  }

  lemma ValidNamesAreNotEmpty(t: string)
    ensures NormalizeHostname(t).Some? ==> t != "" && NormalizeHostname(t).value != ""
  {
  }

  lemma NoEmptyAddress()
    ensures !IsIPv4("")
  {
    assert |Labels("")| == 1;
  }

  lemma ItemMeans(p6: Parse6, k: Key, column: string, item: Json, v: string)
    requires KeyOf(k, column)
    ensures v in NormalizedItem(p6, k)(item) <==> Yields(p6, column, item, v)
  {
    if item.JStr? {
      ValidNamesAreNotEmpty(Strip(item.s));
      NoEmptyAddress();
    }
  }

  lemma ListMeans(p6: Parse6, k: Key, column: string, key: string, fields: map<string, Json>, v: string)
    requires KeyOf(k, column)
    ensures v in Items(p6, k, ListOf(fields, key)) <==> ListsUnder(p6, fields, key, column, v)
  {
    var items := ListOf(fields, key);
    GatherIn(items, NormalizedItem(p6, k), v);
    forall item ensures v in NormalizedItem(p6, k)(item) <==> Yields(p6, column, item, v) {
      ItemMeans(p6, k, column, item, v);
    }
  }

  lemma BothLists(p6: Parse6, k: Key, a: seq<Json>, b: seq<Json>)
    ensures forall v :: v in Items(p6, k, a + b) <==> v in Items(p6, k, a) || v in Items(p6, k, b)
  {
    GatherConcat(a, b, NormalizedItem(p6, k));
  }

  lemma IncomingMeans(p6: Parse6, k: Key, column: string, fields: map<string, Json>, v: string)
    requires KeyOf(k, column)
    ensures v in Incoming(EvidenceOf(p6, fields), k) <==> Answers(p6, fields, column, v)
  {
    var alias := match k case A => "a" case Aaaa => "aaaa" case Cname => "cname";
    ListMeans(p6, k, column, column, fields, v);
    ListMeans(p6, k, column, alias, fields, v);
    BothLists(p6, k, ListOf(fields, column), ListOf(fields, alias));
  }

  lemma SomethingOffered(e: Evidence, k: Key, v: string)
    requires v in Incoming(e, k)
    ensures !IsEmpty(e) && Values(e, k) != []
  {
    LeastNonEmpty(Incoming(e, k), MAX_VALUES);
  }

  lemma TouchesMeans(p6: Parse6, row: AssetRow, record: Json)
    ensures Touches(p6, row, record) <==> Concerns(row, record) && !IsEmpty(EvidenceOf(p6, record.fields))
  {
  }

  lemma HeldMeans(p6: Parse6, row: AssetRow, records: seq<Json>, k: Key, column: string, v: string)
    requires KeyOf(k, column)
    ensures v in ValuesHeld(p6, row, records, k) <==> Offered(p6, row, records, column, v)
  {
    var es := EvidenceFor(p6, row, records);
    GatherIn(es, IncomingOf(k), v);
    if e :| e in es && v in Incoming(e, k) {
      EvidenceMember(p6, row, records, e);
      var r :| r in records && Touches(p6, row, r) && EvidenceOf(p6, r.fields) == e;
      TouchesMeans(p6, row, r);
      IncomingMeans(p6, k, column, r.fields, v);
    }
    if r :| r in records && Concerns(row, r) && Answers(p6, r.fields, column, v) {
      IncomingMeans(p6, k, column, r.fields, v);
      SomethingOffered(EvidenceOf(p6, r.fields), k, v);
      TouchesMeans(p6, row, r);
      EvidenceMember(p6, row, records, EvidenceOf(p6, r.fields));
      assert v in IncomingOf(k)(EvidenceOf(p6, r.fields));
    }
  }

  /** A dnsx result counts only for the hosts that were queried, each record under its normalized host. */
  lemma QueriedMeans(records: seq<Json>, hosts: set<string>, r: Json)
    ensures r in Queried(records, hosts) <==> exists q :: q in records && IsRenamed(q, hosts, r)
  {
    GatherIn(records, QueriedIn(hosts), r);
    forall q ensures r in QueriedIn(hosts)(q) <==> IsRenamed(q, hosts, r) {
    }
  }

  ghost predicate IsRenamed(q: Json, hosts: set<string>, r: Json) {
    && q.JDict? && "host" in q.fields && q.fields["host"].JStr? && NormalizeHostname(q.fields["host"].s).Some?
    && var h := NormalizeHostname(q.fields["host"].s).value;
       h in hosts && r == JDict(q.fields["host" := JStr(h)])
  }

  // ----- the columns after the records -----------------------------------

  /** Sorted, at most twenty, all of them candidates; whatever is left out comes after all twenty. */
  ghost predicate SmallestOf(list: seq<string>, candidate: string -> bool) {
    && StrictlySorted(list) && 1 <= |list| <= 20
    && (forall i :: 0 <= i < |list| ==> candidate(list[i]))
    && (forall v :: candidate(v) && v !in list ==> |list| == 20 && Less(list[19], v))
  }

  lemma LeastIsSmallest(xs: seq<string>, candidate: string -> bool)
    requires xs != [] && forall v :: v in xs <==> candidate(v)
    ensures SmallestOf(Least(xs, 20), candidate)
  {
    var all, list := Sorted(xs), Least(xs, 20);
    LeastNonEmpty(xs, 20);
    SortedIsSorted(xs);
    forall v ensures v in all <==> candidate(v) {
      assert v in Elements(all) <==> v in Elements(xs);
    }
    forall i | 0 <= i < |list| ensures candidate(list[i]) {
      assert list[i] == all[i] && all[i] in all;
    }
    forall i | |list| <= i < |all| ensures |list| == 20 && Less(list[19], all[i]) {
      assert list[19] == all[19];
    }
    assert forall i :: 0 <= i < |list| ==> all[i] in list;
  }

  /** What a column may hold afterwards: what was offered, and what it had. */
  ghost function Candidates(p6: Parse6, row: AssetRow, records: seq<Json>, column: string): string -> bool {
    v => Offered(p6, row, records, column, v) || Had(p6, row, column, v)
  }

  lemma IncomingOffered(p6: Parse6, row: AssetRow, records: seq<Json>, k: Key, column: string)
    requires KeyOf(k, column)
    ensures forall v :: v in AllIncoming(EvidenceFor(p6, row, records), k) <==> Offered(p6, row, records, column, v)
  {
    var incoming := AllIncoming(EvidenceFor(p6, row, records), k);
    forall v ensures v in incoming <==> Offered(p6, row, records, column, v) {
      HeldMeans(p6, row, records, k, column, v);
      assert v in Elements(incoming) <==> v in incoming;
    }
  }

  lemma AllCandidates(p6: Parse6, row: AssetRow, records: seq<Json>, k: Key, column: string)
    requires KeyOf(k, column)
    ensures var all := Existing(p6, row.attributes, k) + AllIncoming(EvidenceFor(p6, row, records), k);
            forall v :: v in all <==> Candidates(p6, row, records, column)(v)
  {
    IncomingOffered(p6, row, records, k, column);
    forall v ensures v in Existing(p6, row.attributes, k) <==> Had(p6, row, column, v) {
      ListMeans(p6, k, column, column, row.attributes, v);
    }
  }

  /**
   A column that no record for the row answers stays as it is; one that is answered ends up as the
   sorted twenty smallest of what it had and what was offered.
   */
  lemma ColumnMeans(p6: Parse6, row: AssetRow, records: seq<Json>, column: string)
    requires Stored(p6, row.attributes) && PlainRecords(p6, row, records)
    requires column in {"dns_a", "dns_aaaa", "dns_cname"}
    ensures var after := Enriched(p6, row, records).attributes;
            if exists v :: Offered(p6, row, records, column, v) then
              && column in after
              && (exists list :: after[column] == JList(Strings(list))
                                 && SmallestOf(list, Candidates(p6, row, records, column)))
            else Same(row.attributes, after, column)
  {
    var k := if column == "dns_a" then A else if column == "dns_aaaa" then Aaaa else Cname;
    var before, incoming := Existing(p6, row.attributes, k), AllIncoming(EvidenceFor(p6, row, records), k);
    IncomingOffered(p6, row, records, k, column);
    ColumnLeft(p6, row, records, k, column);
    if incoming != [] {
      SomethingIn(incoming);
      AllCandidates(p6, row, records, k, column);
      LeastIsSmallest(before + incoming, Candidates(p6, row, records, column));
    }
  }

  lemma SomethingIn(xs: seq<string>)
    requires xs != []
    ensures exists v :: v in xs
  {
    assert xs[0] in xs;
  }

  lemma ColumnLeft(p6: Parse6, row: AssetRow, records: seq<Json>, k: Key, column: string)
    requires Stored(p6, row.attributes) && PlainRecords(p6, row, records) && KeyOf(k, column)
    ensures var incoming, after := AllIncoming(EvidenceFor(p6, row, records), k), Enriched(p6, row, records).attributes;
            if incoming == [] then Same(row.attributes, after, column)
            else
              && column in after
              && after[column] == JList(Strings(Least(Existing(p6, row.attributes, k) + incoming, 20)))
  {
    var es := EvidenceFor(p6, row, records);
    EvidencePlain(p6, row, records);
    ClosedForm(p6, row.attributes, es);
    assert KeyLeft(p6, row.attributes, k, AllIncoming(es, k), ApplyAll(p6, row.attributes, es));
  }

  lemma LeastMember(xs: seq<string>, n: nat)
    requires Least(xs, n) != []
    ensures Least(xs, n)[0] in xs
  {
    assert Least(xs, n)[0] in Elements(Sorted(xs));
  }

  lemma KeyHasValue(p6: Parse6, fields: map<string, Json>, k: Key, column: string)
    requires KeyOf(k, column)
    ensures Values(EvidenceOf(p6, fields), k) != [] <==> exists v :: Answers(p6, fields, column, v)
  {
    var e := EvidenceOf(p6, fields);
    if Values(e, k) != [] {
      LeastMember(Incoming(e, k), MAX_VALUES);
      IncomingMeans(p6, k, column, fields, Values(e, k)[0]);
    }
    if v :| Answers(p6, fields, column, v) {
      IncomingMeans(p6, k, column, fields, v);
      SomethingOffered(e, k, v);
    }
  }

  /** The record is about the row and lists an address: IPv4 under "dns_a" or "a", or IPv6 under "dns_aaaa" or "aaaa". */
  ghost predicate ListsAddress(p6: Parse6, row: AssetRow, record: Json) {
    Concerns(row, record) && exists v :: Answers(p6, record.fields, "dns_a", v) || Answers(p6, record.fields, "dns_aaaa", v)
  }

  ghost predicate AddressOffered(p6: Parse6, row: AssetRow, records: seq<Json>) {
    exists r :: r in records && ListsAddress(p6, row, r)
  }

  lemma RecordHasAddress(p6: Parse6, row: AssetRow, record: Json)
    ensures Touches(p6, row, record) && HasAddress(EvidenceOf(p6, record.fields)) <==> ListsAddress(p6, row, record)
  {
    TouchesMeans(p6, row, record);
    if Concerns(row, record) {
      KeyHasValue(p6, record.fields, A, "dns_a");
      KeyHasValue(p6, record.fields, Aaaa, "dns_aaaa");
    }
  }

  lemma AddressMeans(p6: Parse6, row: AssetRow, records: seq<Json>)
    ensures SomeAddress(EvidenceFor(p6, row, records)) <==> AddressOffered(p6, row, records)
  {
    var es := EvidenceFor(p6, row, records);
    if e :| e in es && HasAddress(e) {
      EvidenceMember(p6, row, records, e);
      var r :| r in records && Touches(p6, row, r) && EvidenceOf(p6, r.fields) == e;
      RecordHasAddress(p6, row, r);
    }
    if r :| r in records && ListsAddress(p6, row, r) {
      RecordHasAddress(p6, row, r);
      EvidenceMember(p6, row, records, EvidenceOf(p6, r.fields));
    }
  }

  /**
   The status advances from "unverified" to "resolved" exactly when some record for the row lists an
   address; any other status, and every other attribute, stays as it is.
   */
  lemma StatusMeans(p6: Parse6, row: AssetRow, records: seq<Json>)
    requires Stored(p6, row.attributes) && PlainRecords(p6, row, records)
    ensures var before, after := row.attributes, Enriched(p6, row, records).attributes;
            && (if "verification_status" in before && before["verification_status"] == JStr("unverified")
                   && AddressOffered(p6, row, records) then
                  "verification_status" in after && after["verification_status"] == JStr("resolved")
                else Same(before, after, "verification_status"))
            && (forall x :: x !in {"dns_a", "dns_aaaa", "dns_cname", "verification_status"} ==> Same(before, after, x))
    ensures Enriched(p6, row, records).assetType == row.assetType && Enriched(p6, row, records).host == row.host
  {
    AddressMeans(p6, row, records);
    OtherColumnsLeft(p6, row, records);
    StatusFrom(row.attributes, Enriched(p6, row, records).attributes, SomeAddress(EvidenceFor(p6, row, records)));
  }

  lemma OtherColumnsLeft(p6: Parse6, row: AssetRow, records: seq<Json>)
    requires Stored(p6, row.attributes) && PlainRecords(p6, row, records)
    ensures var before, after := row.attributes, Enriched(p6, row, records).attributes;
            StatusLeft(before, SomeAddress(EvidenceFor(p6, row, records)), after) && OthersLeft(before, after)
  {
    EvidencePlain(p6, row, records);
    ClosedForm(p6, row.attributes, EvidenceFor(p6, row, records));
  }

  lemma StatusFrom(before: map<string, Json>, after: map<string, Json>, anyAddress: bool)
    requires StatusLeft(before, anyAddress, after) && OthersLeft(before, after)
    ensures if "verification_status" in before && before["verification_status"] == JStr("unverified") && anyAddress then
              "verification_status" in after && after["verification_status"] == JStr("resolved")
            else Same(before, after, "verification_status")
    ensures forall x :: x !in {"dns_a", "dns_aaaa", "dns_cname", "verification_status"} ==> Same(before, after, x)
  {
    assert SPECIAL == {"dns_a", "dns_aaaa", "dns_cname", "verification_status"};
  }
}
