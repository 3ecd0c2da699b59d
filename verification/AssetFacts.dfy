/**
 Which assets a Subfinder answer becomes, and which rows and links persisting leaves, stated on the
 answer and the rows themselves.
 */
module AssetFacts {
  import opened Wrappers
  import opened Text
  import opened Hostnames
  import opened AssetForest

  // ----- what Subfinder's answer becomes ---------------------------------

  lemma NameAsset(name: string)
    requires IsName(name)
    ensures AssetName(name) == name && AssetName(name + "\n") == name
  {
    NameIsPlain(name);
    NameChars(name);
    StripNewline(name);
    NoTrailingDot(name);
  }

  lemma NameIsGood(name: string)
    requires IsName(name)
    ensures !BadAssetName(name)
  {
    NameIsPlain(name);
    NameChars(name);
  }

  /** A name in normal form, but for a final newline, is its own asset value. */
  lemma NormalAsset(value: string, n: string)
    requires NormalizeHostname(value) == Some(n)
    ensures AssetName(n) == Chomp(n) && !BadAssetName(Chomp(n))
  {
    NormalForm(value, n);
    NameAsset(Chomp(n));
    NameIsGood(Chomp(n));
  }

  lemma NoTrailingDot(name: string)
    requires name != "" && IsAlnum(name[|name| - 1])
    ensures WithoutTrailingDots(name) == name
  {
    assert name[|name| - 1..] == [name[|name| - 1]];
  }

  /** One of the listed hosts is a proper descendant of the domain, and this is its asset. */
  predicate FromHost(hosts: seq<Option<string>>, name: string, d: Derived) {
    exists i :: 0 <= i < |hosts| && IsFromHost(hosts[i], name, d)
  }

  predicate IsFromHost(host: Option<string>, name: string, d: Derived) {
    && host.Some? && NormalizeHostname(host.value).Some?
    && var h := NormalizeHostname(host.value).value;
       h != name && IsWithinDomain(h, name)
       && d == Derived(SubdomainAsset, Chomp(h), Some(Identity(DomainAsset, Chomp(name))))
  }

  lemma SubdomainGiven(name: string, v: string, h: string)
    requires NormalizeHostname(v) == Some(h) && AssetName(h) == Chomp(h) && !BadAssetName(Chomp(h))
    requires AssetName(name) == Chomp(name)
    ensures SubdomainOf(name)(Some(v)) ==
            if h != name && IsWithinDomain(h, name)
            then [Derived(SubdomainAsset, Chomp(h), Some(Identity(DomainAsset, Chomp(name))))] else []
  {
  }

  lemma SubdomainMeans(domain: string, name: string, host: Option<string>, d: Derived)
    requires NormalizeHostname(domain) == Some(name)
    ensures d in SubdomainOf(name)(host) <==> IsFromHost(host, name, d)
  {
    if host.Some? && NormalizeHostname(host.value).Some? {
      NormalAsset(domain, name);
      NormalAsset(host.value, NormalizeHostname(host.value).value);
      SubdomainGiven(name, host.value, NormalizeHostname(host.value).value);
    }
  }

  /**
   An answer about a snapshot parent becomes the domain asset, first, and one subdomain asset for
   each listed proper descendant; an answer about anything else becomes nothing.
   */
  lemma SubfinderAssetsMean(domain: Option<string>, parents: seq<string>, hosts: seq<Option<string>>)
    ensures var ds := SubfinderAssets(domain, parents, hosts);
            if domain.Some? && NormalizeHostname(domain.value).Some? && NormalizeHostname(domain.value).value in parents then
              var name := NormalizeHostname(domain.value).value;
              && ds != [] && ds[0] == Derived(DomainAsset, Chomp(name), None)
              && forall d :: d in ds[1..] <==> FromHost(hosts, name, d)
            else ds == []
  {
    if domain.Some? && NormalizeHostname(domain.value).Some? && NormalizeHostname(domain.value).value in parents {
      var name := NormalizeHostname(domain.value).value;
      NormalAsset(domain.value, name);
      SubdomainsMean(domain.value, name, hosts);
      var subs := Gather(hosts, SubdomainOf(name));
      assert ([Derived(DomainAsset, Chomp(name), None)] + subs)[1..] == subs;
    }
  }

  lemma SubdomainsMean(domain: string, name: string, hosts: seq<Option<string>>)
    requires NormalizeHostname(domain) == Some(name)
    ensures forall d :: d in Gather(hosts, SubdomainOf(name)) <==> FromHost(hosts, name, d)
  {
    forall d ensures d in Gather(hosts, SubdomainOf(name)) <==> FromHost(hosts, name, d) {
      GatherIn(hosts, SubdomainOf(name), d);
      forall host ensures d in SubdomainOf(name)(host) <==> IsFromHost(host, name, d) {
        SubdomainMeans(domain, name, host, d);
      }
      if FromHost(hosts, name, d) {
        var i :| 0 <= i < |hosts| && IsFromHost(hosts[i], name, d);
        assert hosts[i] in hosts;
      }
    }
  }

  // ----- what persisting leaves ------------------------------------------

  function Cut(s: string): string {
    if |s| <= 500 then s else s[..500]
  }

  /** The identity under which a derived asset is stored. */
  function StoredAs(d: Derived): Identity {
    Identity(d.assetType, Cut(d.value))
  }

  predicate HasRow(rows: seq<AssetRow>, x: Identity) {
    exists k :: 0 <= k < |rows| && rows[k].identity == x
  }

  /** The first derived asset with its identity. */
  predicate FirstWithIdentity(ds: seq<Derived>, i: nat) {
    i < |ds| && forall j :: 0 <= j < i ==> StoredAs(ds[j]) != StoredAs(ds[i])
  }

  /** The link of a row: the other row with the wanted identity, if there is one. */
  predicate LinkedBy(rows: seq<AssetRow>, k: nat, hint: Option<Identity>)
    requires k < |rows|
  {
    if hint.None? then rows[k].parent == None
    else
      var wanted := Identity(hint.value.assetType, Cut(hint.value.value));
      && (rows[k].parent.Some? ==>
            rows[k].parent.value < |rows| && rows[k].parent.value != k && rows[rows[k].parent.value].identity == wanted)
      && (rows[k].parent.None? ==> forall j :: 0 <= j < |rows| && j != k ==> rows[j].identity != wanted)
  }

  lemma {:induction false} NewOnesMean(known: seq<Identity>, ds: seq<Derived>, k: nat) returns (i: nat)
    requires k < |NewOnes(known, ds)|
    ensures FirstWithIdentity(ds, i) && ds[i] == NewOnes(known, ds)[k] && StoredAs(ds[i]) !in known
  {
    var front, last := ds[..|ds| - 1], ds[|ds| - 1];
    assert ds == front + [last];
    var r := NewOnes(known, front);
    if k < |r| {
      i := NewOnesMean(known, front, k);
      assert ds[i] == front[i];
    } else {
      i := |ds| - 1;
      forall j | 0 <= j < i ensures StoredAs(ds[j]) != StoredAs(last) {
        AllKnown(known, front, ds[j]);
        assert IdentityOf(ds[j]) in known + DerivedIdentities(r);
      }
    }
  }

  lemma IdentitiesHold(rows: seq<AssetRow>, x: Identity)
    ensures x in Identities(rows) <==> HasRow(rows, x)
  {
    if HasRow(rows, x) {
      var k :| 0 <= k < |rows| && rows[k].identity == x;
      assert Identities(rows)[k] == x;
    }
  }

  lemma KnownAfter(known: seq<Identity>, ds: seq<Derived>, x: Identity)
    ensures x in known + DerivedIdentities(NewOnes(known, ds)) <==>
              x in known || exists i :: 0 <= i < |ds| && StoredAs(ds[i]) == x
  {
    var n := NewOnes(known, ds);
    if i :| 0 <= i < |ds| && StoredAs(ds[i]) == x {
      AllKnown(known, ds, ds[i]);
      assert IdentityOf(ds[i]) == x;
    }
    if x in DerivedIdentities(n) {
      var k :| 0 <= k < |n| && DerivedIdentities(n)[k] == x;
      var i := NewOnesMean(known, ds, k);
      assert StoredAs(ds[i]) == x;
    }
  }

  /** After persisting, exactly the old identities and those of the derived assets have a row. */
  lemma PersistedIdentitiesMean(rows: seq<AssetRow>, ds: seq<Derived>, x: Identity)
    ensures rows <= Persisted(rows, ds)
    ensures HasRow(Persisted(rows, ds), x) <==> HasRow(rows, x) || exists i :: 0 <= i < |ds| && StoredAs(ds[i]) == x
  {
    PersistedIdentities(rows, ds);
    IdentitiesHold(rows, x);
    IdentitiesHold(Persisted(rows, ds), x);
    KnownAfter(Identities(rows), ds, x);
  }

  lemma NewRow(rows: seq<AssetRow>, ds: seq<Derived>, m: nat)
    requires AllDistinct(Identities(rows)) && m < |NewOnes(Identities(rows), ds)|
    ensures var after, d := Persisted(rows, ds), NewOnes(Identities(rows), ds)[m];
            && |rows| + m < |after|
            && after[|rows| + m] == AssetRow(StoredAs(d), ParentOf(Identities(after), d, |rows| + m))
            && AllDistinct(Identities(after))
  {
    PersistedIdentities(rows, ds);
    NewOnesDistinct(Identities(rows), ds);
  }

  /** Each new row comes from the first derived asset with its identity, and is linked as that one wants. */
  lemma PersistedRowMeans(rows: seq<AssetRow>, ds: seq<Derived>, k: nat) returns (i: nat)
    requires AllDistinct(Identities(rows))
    requires |rows| <= k < |Persisted(rows, ds)|
    ensures FirstWithIdentity(ds, i) && Persisted(rows, ds)[k].identity == StoredAs(ds[i])
    ensures LinkedBy(Persisted(rows, ds), k, ds[i].hint)
    ensures !HasRow(rows, StoredAs(ds[i]))
  {
    NewRow(rows, ds, k - |rows|);
    i := NewOnesMean(Identities(rows), ds, k - |rows|);
    IdentitiesHold(rows, StoredAs(ds[i]));
    LinkMeans(Persisted(rows, ds), Identities(Persisted(rows, ds)), ds[i], k);
  }

  lemma LinkMeans(after: seq<AssetRow>, ids: seq<Identity>, d: Derived, k: nat)
    requires ids == Identities(after) && AllDistinct(ids) && k < |after| && after[k].parent == ParentOf(ids, d, k)
    ensures LinkedBy(after, k, d.hint)
  {
    if d.hint.Some? {
      var wanted := Identity(d.hint.value.assetType, Cut(d.hint.value.value));
      assert Wanted(d) == Some(wanted);
      var p := IdOf(ids, wanted);
      forall j | 0 <= j < |after| && after[j].identity == wanted ensures p == Some(j) {
        assert ids[j] == wanted;
      }
    }
  }
}
