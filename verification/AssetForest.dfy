/** Persisting derived assets and their parent links (backend/services/result_persistence.py). */
module AssetForest {
  import opened Wrappers
  import opened Text
  import opened Hostnames

  const MAX_ASSETS_PER_RUN := 500
  const MAX_VALUE := 500

  datatype AssetType = HostAsset | SubdomainAsset | DomainAsset | ServiceAsset | UrlAsset | EndpointAsset

  /** What makes an asset the same asset within a scan. */
  datatype Identity = Identity(assetType: AssetType, value: string)

  /** A derived asset; `hint` names the parent it would like to be linked to. */
  datatype Derived = Derived(assetType: AssetType, value: string, hint: Option<Identity>)

  /** A row of one scan; its id is its position, and rows are never deleted. */
  datatype AssetRow = AssetRow(identity: Identity, parent: Option<nat>)

  function IdentityOf(d: Derived): Identity {
    Identity(d.assetType, CapTo(d.value, MAX_VALUE))
  }

  function Wanted(d: Derived): Option<Identity> {
    if d.hint.Some? then Some(Identity(d.hint.value.assetType, CapTo(d.hint.value.value, MAX_VALUE))) else None
  }

  // ----- what a run derives from subfinder -------------------------------

  predicate BadAssetName(name: string) {
    name == "" || |name| > MAX_NAME || ' ' in name || Contains(name, "://") || '*' in name
  }

  function WithoutTrailingDots(s: string): string {
    if EndsWith(s, ".") then WithoutTrailingDots(s[..|s| - 1]) else s
  }

  function AssetName(raw: string): string {
    WithoutTrailingDots(Lower(Strip(raw)))
  }

  /** One subdomain of an accepted domain; an unusable name is dropped. */
  function SubdomainOf(domain: string): Option<string> -> seq<Derived> {
    (raw: Option<string>) =>
      var host := if raw.Some? then NormalizeHostname(raw.value) else None;
      if host.None? || host.value == domain || !IsWithinDomain(host.value, domain) || BadAssetName(AssetName(host.value))
      then []
      else [Derived(SubdomainAsset, AssetName(host.value), Some(Identity(DomainAsset, AssetName(domain))))]
  }

  /** _subfinder_assets: nothing unless the domain is a snapshot parent; then the domain before its subdomains. */
  function SubfinderAssets(domain: Option<string>, parents: seq<string>, hosts: seq<Option<string>>): seq<Derived> {
    var name := if domain.Some? then NormalizeHostname(domain.value) else None;
    if name.None? || name.value !in parents || BadAssetName(AssetName(name.value)) then []
    else [Derived(DomainAsset, AssetName(name.value), None)] + Gather(hosts, SubdomainOf(name.value))
  }

  /** Whatever wants a parent comes after something that is that parent. */
  predicate ParentsFirst(ds: seq<Derived>) {
    forall j :: 0 <= j < |ds| && ds[j].assetType == SubdomainAsset ==>
      exists i :: 0 <= i < j && Wanted(ds[j]) == Some(IdentityOf(ds[i])) && ds[i].assetType == DomainAsset
  }

  /** Hints only lead from subdomains to domains and from endpoints to pages. */
  predicate TypedHint(d: Derived) {
    d.hint.Some? ==> LinkOk(d.assetType, d.hint.value.assetType)
  }

  predicate LinkOk(child: AssetType, parent: AssetType) {
    (child == SubdomainAsset && parent == DomainAsset) || (child == EndpointAsset && parent == UrlAsset)
  }

  predicate IsSubdomainOf(name: string, d: Derived) {
    d.assetType == SubdomainAsset && d.hint == Some(Identity(DomainAsset, AssetName(name)))
  }

  lemma SubdomainsHint(name: string, hosts: seq<Option<string>>, d: Derived)
    requires d in Gather(hosts, SubdomainOf(name))
    ensures IsSubdomainOf(name, d)
  {
    GatherIn(hosts, SubdomainOf(name), d);
  }

  lemma DomainFirst(name: string, ds: seq<Derived>)
    requires ds != [] && ds[0] == Derived(DomainAsset, AssetName(name), None)
    requires forall j :: 1 <= j < |ds| ==> IsSubdomainOf(name, ds[j])
    ensures ParentsFirst(ds) && forall i :: 0 <= i < |ds| ==> TypedHint(ds[i])
  {
    forall j | 0 <= j < |ds| && ds[j].assetType == SubdomainAsset
      ensures exists i :: 0 <= i < j && Wanted(ds[j]) == Some(IdentityOf(ds[i])) && ds[i].assetType == DomainAsset
    {
      assert Wanted(ds[j]) == Some(IdentityOf(ds[0]));
    }
  }

  lemma SubfinderShape(domain: Option<string>, parents: seq<string>, hosts: seq<Option<string>>)
    ensures var ds := SubfinderAssets(domain, parents, hosts);
            ParentsFirst(ds) && forall i :: 0 <= i < |ds| ==> TypedHint(ds[i])
  {
    if SubfinderAssets(domain, parents, hosts) != [] {
      DomainAndSubdomains(NormalizeHostname(domain.value).value, hosts);
    }
  }

  lemma DomainAndSubdomains(name: string, hosts: seq<Option<string>>)
    ensures var ds := [Derived(DomainAsset, AssetName(name), None)] + Gather(hosts, SubdomainOf(name));
            ParentsFirst(ds) && forall i :: 0 <= i < |ds| ==> TypedHint(ds[i])
  {
    var subs := Gather(hosts, SubdomainOf(name));
    var ds := [Derived(DomainAsset, AssetName(name), None)] + subs;
    forall j | 1 <= j < |ds| ensures IsSubdomainOf(name, ds[j]) {
      assert ds[j] == subs[j - 1];
      SubdomainsHint(name, hosts, subs[j - 1]);
    }
    DomainFirst(name, ds);
  }

  /** Cutting the list of derived assets keeps parents before children. */
  lemma CutKeepsParents(ds: seq<Derived>, n: nat)
    requires ParentsFirst(ds)
    ensures ParentsFirst(CapTo(ds, n))
  {
  }

  lemma JoinKeepsParents(a: seq<Derived>, b: seq<Derived>)
    requires ParentsFirst(a) && ParentsFirst(b)
    ensures ParentsFirst(a + b)
  {
    var ds := a + b;
    forall j | 0 <= j < |ds| && ds[j].assetType == SubdomainAsset
      ensures exists i :: 0 <= i < j && Wanted(ds[j]) == Some(IdentityOf(ds[i])) && ds[i].assetType == DomainAsset
    {
      if j < |a| {
        var i :| 0 <= i < j && Wanted(a[j]) == Some(IdentityOf(a[i])) && a[i].assetType == DomainAsset;
        assert ds[i] == a[i];
      } else {
        var k := j - |a|;
        var i :| 0 <= i < k && Wanted(b[k]) == Some(IdentityOf(b[i])) && b[i].assetType == DomainAsset;
        assert ds[|a| + i] == b[i];
      }
    }
  }

  // ----- what a whole run derives ----------------------------------------

  /** An observation as the asset pass sees it: Subfinder's data, or the assets of another tool. */
  datatype Observed =
    | BySubfinder(domain: Option<string>, hosts: seq<Option<string>>)
    | ByOther(assets: seq<Derived>)

  /** Other tools yield no subdomains, and hint only from endpoints to pages. */
  predicate Plausible(o: Observed) {
    o.ByOther? ==>
      forall i :: 0 <= i < |o.assets| ==> o.assets[i].assetType != SubdomainAsset && TypedHint(o.assets[i])
  }

  function AssetsOf(o: Observed, parents: seq<string>): seq<Derived> {
    match o
    case BySubfinder(domain, hosts) => SubfinderAssets(domain, parents, hosts)
    case ByOther(assets) => assets
  }

  /** The assets of all observations of a run, in order. */
  function Joined(observations: seq<Observed>, parents: seq<string>): seq<Derived> {
    if observations == [] then []
    else Joined(observations[..|observations| - 1], parents) + AssetsOf(observations[|observations| - 1], parents)
  }

  predicate AllTyped(ds: seq<Derived>) {
    forall i :: 0 <= i < |ds| ==> TypedHint(ds[i])
  }

  lemma AssetsShape(o: Observed, parents: seq<string>)
    requires Plausible(o)
    ensures ParentsFirst(AssetsOf(o, parents)) && AllTyped(AssetsOf(o, parents))
  {
    if o.BySubfinder? {
      SubfinderShape(o.domain, parents, o.hosts);
    }
  }

  lemma {:induction false} JoinedShape(observations: seq<Observed>, parents: seq<string>)
    requires forall i :: 0 <= i < |observations| ==> Plausible(observations[i])
    ensures ParentsFirst(Joined(observations, parents)) && AllTyped(Joined(observations, parents))
  {
    if observations != [] {
      var front, last := observations[..|observations| - 1], observations[|observations| - 1];
      JoinedShape(front, parents);
      AssetsShape(last, parents);
      JoinKeepsParents(Joined(front, parents), AssetsOf(last, parents));
    }
  }

  /** Whatever a run observes, its capped list of assets has every domain before its subdomains. */
  lemma RunShape(observations: seq<Observed>, parents: seq<string>)
    requires forall i :: 0 <= i < |observations| ==> Plausible(observations[i])
    ensures var ds := CapTo(Joined(observations, parents), MAX_ASSETS_PER_RUN);
            ParentsFirst(ds) && AllTyped(ds)
  {
    JoinedShape(observations, parents);
    CutKeepsParents(Joined(observations, parents), MAX_ASSETS_PER_RUN);
  }

  lemma PrefixCut(a: seq<Derived>, b: seq<Derived>, n: nat)
    requires a <= b && |a| >= n
    ensures CapTo(a, n) == CapTo(b, n)
  {
    assert a[..n] == b[..n];
  }

  lemma {:induction false} JoinedGrows(observations: seq<Observed>, parents: seq<string>, n: nat)
    requires n <= |observations|
    ensures Joined(observations[..n], parents) <= Joined(observations, parents)
  {
    if n == |observations| {
      assert observations[..n] == observations;
    } else {
      var front := observations[..|observations| - 1];
      JoinedGrows(front, parents, n);
      assert front[..n] == observations[..n];
    }
  }

  // ----- persisting ------------------------------------------------------

  function Identities(rows: seq<AssetRow>): (r: seq<Identity>)
    ensures |r| == |rows| && forall i :: 0 <= i < |r| ==> r[i] == rows[i].identity
  {
    seq(|rows|, i requires 0 <= i < |rows| => rows[i].identity)
  }

  function DerivedIdentities(ds: seq<Derived>): (r: seq<Identity>)
    ensures |r| == |ds| && forall i :: 0 <= i < |r| ==> r[i] == IdentityOf(ds[i])
  {
    seq(|ds|, i requires 0 <= i < |ds| => IdentityOf(ds[i]))
  }

  /** The derived assets that become rows: the first of each identity that is not there yet. */
  function NewOnes(known: seq<Identity>, ds: seq<Derived>): seq<Derived> {
    if ds == [] then []
    else
      var r := NewOnes(known, ds[..|ds| - 1]);
      var d := ds[|ds| - 1];
      if IdentityOf(d) in known || IdentityOf(d) in DerivedIdentities(r) then r else r + [d]
  }

  lemma AppendDistinct(known: seq<Identity>, r: seq<Derived>, d: Derived)
    requires AllDistinct(known + DerivedIdentities(r))
    requires IdentityOf(d) !in known && IdentityOf(d) !in DerivedIdentities(r)
    ensures AllDistinct(known + DerivedIdentities(r + [d]))
  {
    assert known + DerivedIdentities(r + [d]) == known + DerivedIdentities(r) + [IdentityOf(d)];
  }

  /** No identity gets a second row. */
  lemma {:induction false} NewOnesDistinct(known: seq<Identity>, ds: seq<Derived>)
    requires AllDistinct(known)
    ensures AllDistinct(known + DerivedIdentities(NewOnes(known, ds)))
  {
    if ds == [] {
      assert known + DerivedIdentities([]) == known;
    } else {
      NewOnesDistinct(known, ds[..|ds| - 1]);
      var r, d := NewOnes(known, ds[..|ds| - 1]), ds[|ds| - 1];
      if IdentityOf(d) !in known && IdentityOf(d) !in DerivedIdentities(r) {
        AppendDistinct(known, r, d);
      }
    }
  }

  /** The id of the row with an identity; ids are positions. */
  function IdOf(ids: seq<Identity>, x: Identity): (r: Option<nat>)
    ensures r.Some? ==> r.value < |ids| && ids[r.value] == x
    ensures r.None? <==> x !in ids
  {
    if ids == [] then None
    else if ids[|ids| - 1] == x then Some(|ids| - 1)
    else
      assert ids == ids[..|ids| - 1] + [ids[|ids| - 1]];
      IdOf(ids[..|ids| - 1], x)
  }

  /** The parent a row gets: the row it wants, when that exists and is another one. */
  function ParentOf(ids: seq<Identity>, d: Derived, own: nat): Option<nat> {
    var wanted := Wanted(d);
    if wanted.None? then None
    else
      var p := IdOf(ids, wanted.value);
      if p == Some(own) then None else p
  }

  function Persisted(rows: seq<AssetRow>, ds: seq<Derived>): (r: seq<AssetRow>)
    ensures |r| == |rows| + |NewOnes(Identities(rows), ds)| && rows <= r
    ensures var n := NewOnes(Identities(rows), ds);
            var ids := Identities(rows) + DerivedIdentities(n);
            forall k :: 0 <= k < |n| ==> r[|rows| + k] == AssetRow(IdentityOf(n[k]), ParentOf(ids, n[k], |rows| + k))
  {
    var n := NewOnes(Identities(rows), ds);
    var ids := Identities(rows) + DerivedIdentities(n);
    rows + seq(|n|, k requires 0 <= k < |n| => AssetRow(IdentityOf(n[k]), ParentOf(ids, n[k], |rows| + k)))
  }

  class AssetTable {
    var rows: seq<AssetRow>

    constructor ()
      ensures rows == []
    {
      rows := [];
    }

    /**
     persist_assets_from_observations: it stops deriving once the cap is reached, which makes no
     difference. Returns rows inserted.
     */
    method PersistObservations(observations: seq<Observed>, parents: seq<string>) returns (inserted: nat)
      requires AllDistinct(Identities(rows))
      modifies this
      ensures rows == Persisted(old(rows), CapTo(Joined(observations, parents), 500))
      ensures inserted == |rows| - |old(rows)|
      ensures AllDistinct(Identities(rows))
    {
      var derived: seq<Derived> := [];
      var i := 0;
      while i < |observations| && |derived| < MAX_ASSETS_PER_RUN
        invariant 0 <= i <= |observations|
        invariant derived == Joined(observations[..i], parents)
      {
        assert observations[..i + 1][..i] == observations[..i];
        derived := derived + AssetsOf(observations[i], parents);
        i := i + 1;
      }
      assert observations[..|observations|] == observations;
      JoinedGrows(observations, parents, i);
      if i < |observations| {
        PrefixCut(derived, Joined(observations, parents), MAX_ASSETS_PER_RUN);
      }
      inserted := Persist(derived);
    }

    /** The part after the derivation; returns rows inserted. */
    method Persist(derived: seq<Derived>) returns (inserted: nat)
      requires AllDistinct(Identities(rows))
      modifies this
      ensures rows == Persisted(old(rows), CapTo(derived, 500))
      ensures inserted == |rows| - |old(rows)|
      ensures AllDistinct(Identities(rows))
    {
      var ds := CapTo(derived, MAX_ASSETS_PER_RUN);
      ghost var before := rows;
      var pending: seq<Derived> := [];
      var known := Identities(rows);
      var first := |rows|;
      for i := 0 to |ds|
        invariant pending == NewOnes(Identities(before), ds[..i])
        invariant known == Identities(before) + DerivedIdentities(pending)
        invariant rows == before + Unlinked(pending)
      {
        assert ds[..i + 1][..i] == ds[..i];
        if IdentityOf(ds[i]) !in known {
          Appended(before, pending, ds[i]);
          rows := rows + [AssetRow(IdentityOf(ds[i]), None)];
          known := known + [IdentityOf(ds[i])];
          pending := pending + [ds[i]];
        }
      }
      assert ds[..|ds|] == ds;
      inserted := |pending|;
      LinkAll(first, known, pending, before);
      IsPersisted(before, ds, rows);
      PersistedIdentities(before, ds);
      NewOnesDistinct(Identities(before), ds);
    }

    /** The second loop: links are resolved once every row has its id. */
    method LinkAll(first: nat, known: seq<Identity>, pending: seq<Derived>, ghost before: seq<AssetRow>)
      requires first == |before| && rows == before + Unlinked(pending)
      modifies this
      ensures |rows| == first + |pending| && before <= rows
      ensures forall k :: 0 <= k < |pending| ==> rows[first + k] == Linked(known, pending, first, k)
    {
      var links := [];
      for k := 0 to |pending|
        invariant |links| == k && forall j :: 0 <= j < k ==> links[j] == Linked(known, pending, first, j)
        invariant rows == before + links + Unlinked(pending)[k..]
      {
        var linked := rows[first + k].(parent := ParentOf(known, pending[k], first + k));
        assert rows[first + k] == Unlinked(pending)[k];
        assert rows[first + k := linked] == before + (links + [linked]) + Unlinked(pending)[k + 1..];
        rows := rows[first + k := linked];
        links := links + [linked];
      }
    }
  }

  function Linked(known: seq<Identity>, pending: seq<Derived>, first: nat, k: nat): AssetRow
    requires k < |pending|
  {
    AssetRow(IdentityOf(pending[k]), ParentOf(known, pending[k], first + k))
  }

  lemma IsPersisted(before: seq<AssetRow>, ds: seq<Derived>, rows: seq<AssetRow>)
    requires var n := NewOnes(Identities(before), ds);
             && |rows| == |before| + |n| && before <= rows
             && forall k :: 0 <= k < |n| ==>
                  rows[|before| + k] == Linked(Identities(before) + DerivedIdentities(n), n, |before|, k)
    ensures rows == Persisted(before, ds)
  {
    var after := Persisted(before, ds);
    forall i | 0 <= i < |rows| ensures rows[i] == after[i] {
      if i >= |before| {
        var n, k := NewOnes(Identities(before), ds), i - |before|;
        assert rows[|before| + k] == Linked(Identities(before) + DerivedIdentities(n), n, |before|, k);
        assert after[|before| + k] == Linked(Identities(before) + DerivedIdentities(n), n, |before|, k);
      }
    }
  }

  function Unlinked(ds: seq<Derived>): (r: seq<AssetRow>)
    ensures |r| == |ds| && forall i :: 0 <= i < |r| ==> r[i] == AssetRow(IdentityOf(ds[i]), None)
  {
    seq(|ds|, i requires 0 <= i < |ds| => AssetRow(IdentityOf(ds[i]), None))
  }

  lemma Appended(before: seq<AssetRow>, pending: seq<Derived>, d: Derived)
    ensures before + Unlinked(pending) + [AssetRow(IdentityOf(d), None)] == before + Unlinked(pending + [d])
    ensures DerivedIdentities(pending + [d]) == DerivedIdentities(pending) + [IdentityOf(d)]
    ensures Identities(before) + DerivedIdentities(pending) + [IdentityOf(d)]
         == Identities(before) + DerivedIdentities(pending + [d])
  {
  }

  lemma PersistedIdentities(rows: seq<AssetRow>, ds: seq<Derived>)
    ensures Identities(Persisted(rows, ds)) == Identities(rows) + DerivedIdentities(NewOnes(Identities(rows), ds))
  {
  }

  // ----- what persisting guarantees --------------------------------------

  lemma {:induction false} AllKnown(known: seq<Identity>, ds: seq<Derived>, d: Derived)
    requires d in ds
    ensures IdentityOf(d) in known + DerivedIdentities(NewOnes(known, ds))
  {
    var front, last := ds[..|ds| - 1], ds[|ds| - 1];
    var r := NewOnes(known, front);
    assert ds == front + [last];
    if d in front {
      AllKnown(known, front, d);
    }
    if IdentityOf(last) !in known && IdentityOf(last) !in DerivedIdentities(r) {
      assert DerivedIdentities(r + [last]) == DerivedIdentities(r) + [IdentityOf(last)];
    }
  }

  lemma {:induction false} NothingNew(known: seq<Identity>, ds: seq<Derived>)
    requires forall d :: d in ds ==> IdentityOf(d) in known
    ensures NewOnes(known, ds) == []
  {
    if ds != [] {
      NothingNew(known, ds[..|ds| - 1]);
      assert ds[|ds| - 1] in ds;
    }
  }

  /** Persisting the same assets again inserts nothing and changes no row. */
  lemma PersistTwice(rows: seq<AssetRow>, ds: seq<Derived>)
    ensures Persisted(Persisted(rows, ds), ds) == Persisted(rows, ds)
  {
    var after := Persisted(rows, ds);
    PersistedIdentities(rows, ds);
    forall d | d in ds ensures IdentityOf(d) in Identities(after) {
      AllKnown(Identities(rows), ds, d);
    }
    NothingNew(Identities(after), ds);
    assert Persisted(after, ds) == after + [];
  }

  /** Every link leads to a row of the table, from a subdomain to a domain or an endpoint to a page. */
  predicate LinksTyped(rows: seq<AssetRow>) {
    forall i :: 0 <= i < |rows| && rows[i].parent.Some? ==>
      rows[i].parent.value < |rows| && LinkOk(rows[i].identity.assetType, rows[rows[i].parent.value].identity.assetType)
  }

  lemma {:induction false} NewFromDerived(known: seq<Identity>, ds: seq<Derived>, d: Derived)
    requires d in NewOnes(known, ds)
    ensures d in ds
  {
    if ds != [] {
      var front, last := ds[..|ds| - 1], ds[|ds| - 1];
      assert ds == front + [last];
      if d in NewOnes(known, front) {
        NewFromDerived(known, front, d);
      }
    }
  }

  /** A parent that is found has the type the hint asks for. */
  lemma ParentTyped(ids: seq<Identity>, d: Derived, own: nat)
    requires TypedHint(d) && ParentOf(ids, d, own).Some?
    ensures ParentOf(ids, d, own).value < |ids|
    ensures LinkOk(d.assetType, ids[ParentOf(ids, d, own).value].assetType)
  {
  }

  lemma NewHintTyped(known: seq<Identity>, ds: seq<Derived>, d: Derived)
    requires d in NewOnes(known, ds) && forall i :: 0 <= i < |ds| ==> TypedHint(ds[i])
    ensures TypedHint(d)
  {
    NewFromDerived(known, ds, d);
    var j :| 0 <= j < |ds| && ds[j] == d;
  }

  lemma RowTyped(after: seq<AssetRow>, ids: seq<Identity>, d: Derived, i: nat)
    requires i < |after| && Identities(after) == ids && TypedHint(d)
    requires after[i] == AssetRow(IdentityOf(d), ParentOf(ids, d, i)) && after[i].parent.Some?
    ensures after[i].parent.value < |after|
    ensures LinkOk(after[i].identity.assetType, after[after[i].parent.value].identity.assetType)
  {
    ParentTyped(ids, d, i);
    var p := after[i].parent.value;
    assert Identities(after)[p] == after[p].identity;
  }

  lemma NewRowTyped(rows: seq<AssetRow>, ds: seq<Derived>, k: nat)
    requires k < |NewOnes(Identities(rows), ds)| && Persisted(rows, ds)[|rows| + k].parent.Some?
    requires forall j :: 0 <= j < |ds| ==> TypedHint(ds[j])
    ensures var after := Persisted(rows, ds);
            var i := |rows| + k;
            && after[i].parent.value < |after|
            && LinkOk(after[i].identity.assetType, after[after[i].parent.value].identity.assetType)
  {
    var n := NewOnes(Identities(rows), ds);
    NewHintTyped(Identities(rows), ds, n[k]);
    PersistedIdentities(rows, ds);
    RowTyped(Persisted(rows, ds), Identities(rows) + DerivedIdentities(n), n[k], |rows| + k);
  }

  lemma LinksStayTyped(rows: seq<AssetRow>, ds: seq<Derived>)
    requires LinksTyped(rows) && forall i :: 0 <= i < |ds| ==> TypedHint(ds[i])
    ensures LinksTyped(Persisted(rows, ds))
  {
    var after := Persisted(rows, ds);
    forall i | 0 <= i < |after| && after[i].parent.Some?
      ensures after[i].parent.value < |after|
      ensures LinkOk(after[i].identity.assetType, after[after[i].parent.value].identity.assetType)
    {
      if i < |rows| {
        assert after[i] == rows[i];
        assert after[rows[i].parent.value] == rows[rows[i].parent.value];
      } else {
        NewRowTyped(rows, ds, i - |rows|);
      }
    }
  }

  /** Typed links cannot close a cycle: a parent never has a parent. */
  lemma ParentsAreRoots(rows: seq<AssetRow>, i: nat)
    requires LinksTyped(rows) && i < |rows| && rows[i].parent.Some?
    ensures rows[rows[i].parent.value].parent.None? && rows[i].parent.value != i
  {
  }

  /** Every inserted subdomain is linked to a domain row of the same scan. */
  lemma SubdomainsAreLinked(rows: seq<AssetRow>, ds: seq<Derived>, i: nat)
    requires ParentsFirst(ds) && |rows| <= i < |Persisted(rows, ds)|
    requires Persisted(rows, ds)[i].identity.assetType == SubdomainAsset
    ensures var after := Persisted(rows, ds);
            && after[i].parent.Some? && after[i].parent.value < |after|
            && after[after[i].parent.value].identity.assetType == DomainAsset
  {
    var after := Persisted(rows, ds);
    var n := NewOnes(Identities(rows), ds);
    var ids := Identities(rows) + DerivedIdentities(n);
    PersistedIdentities(rows, ds);
    var d := n[i - |rows|];
    NewFromDerived(Identities(rows), ds, d);
    var j :| 0 <= j < |ds| && ds[j] == d;
    var p :| 0 <= p < j && Wanted(ds[j]) == Some(IdentityOf(ds[p])) && ds[p].assetType == DomainAsset;
    AllKnown(Identities(rows), ds, ds[p]);
    assert Wanted(d).value in ids;
    assert Identities(after)[after[i].parent.value] == Wanted(d).value;
  }

  /**
   What persisting the observations of any run leaves: links stay typed, so no link closes a
   cycle, and every subdomain row it adds is linked to a domain row.
   */
  lemma ObservedAssetsAreLinked(rows: seq<AssetRow>, observations: seq<Observed>, parents: seq<string>)
    requires LinksTyped(rows)
    requires forall i :: 0 <= i < |observations| ==> Plausible(observations[i])
    ensures var after := Persisted(rows, CapTo(Joined(observations, parents), MAX_ASSETS_PER_RUN));
            && LinksTyped(after)
            && forall i :: |rows| <= i < |after| && after[i].identity.assetType == SubdomainAsset ==>
                 && after[i].parent.Some? && after[i].parent.value < |after|
                 && after[after[i].parent.value].identity.assetType == DomainAsset
  {
    var ds := CapTo(Joined(observations, parents), MAX_ASSETS_PER_RUN);
    var after := Persisted(rows, ds);
    RunShape(observations, parents);
    LinksStayTyped(rows, ds);
    forall i | |rows| <= i < |after| && after[i].identity.assetType == SubdomainAsset
      ensures after[i].parent.Some? && after[i].parent.value < |after|
      ensures after[after[i].parent.value].identity.assetType == DomainAsset
    {
      SubdomainsAreLinked(rows, ds, i);
    }
  }
}
