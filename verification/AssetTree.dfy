/**
 The attack-surface tree (frontend/src/components/assets/AttackSurfaceTree.tsx): the hierarchy
 built from parent links, and the filter that keeps the ancestors of every match.
 */
module AssetTree {
  import opened Wrappers
  import opened Text

  type Id = string

  datatype Asset = Asset(id: Id, parent: Option<Id>)

  function Ids(assets: seq<Asset>): (r: seq<Id>)
    ensures |r| == |assets| && forall i :: 0 <= i < |r| ==> r[i] == assets[i].id
  {
    seq(|assets|, i requires 0 <= i < |assets| => assets[i].id)
  }

  /** A link counts when it is set and leads to an asset of the list. */
  predicate HangsBelow(known: set<Id>, a: Asset) {
    a.parent.Some? && a.parent.value != "" && a.parent.value in known
  }

  /** Which asset each linked asset hangs below; roots are absent. */
  function Links(known: set<Id>, assets: seq<Asset>): map<Id, Id> {
    if assets == [] then map[]
    else
      var a := assets[|assets| - 1];
      var m := Links(known, assets[..|assets| - 1]);
      if HangsBelow(known, a) then m[a.id := a.parent.value] else m
  }

  function Up(assets: seq<Asset>): map<Id, Id> {
    Links(Elements(Ids(assets)), assets)
  }

  /** The assets with a given link, in list order; None selects the roots. */
  function Below(nodes: seq<Id>, up: map<Id, Id>, parent: Option<Id>): seq<Id> {
    if nodes == [] then []
    else
      var x := nodes[|nodes| - 1];
      Below(nodes[..|nodes| - 1], up, parent)
      + if (if x in up then Some(up[x]) else None) == parent then [x] else []
  }

  function Roots(nodes: seq<Id>, up: map<Id, Id>): seq<Id> {
    Below(nodes, up, None)
  }

  function Children(nodes: seq<Id>, up: map<Id, Id>, id: Id): seq<Id> {
    Below(nodes, up, Some(id))
  }

  lemma {:induction false} BelowMembers(nodes: seq<Id>, up: map<Id, Id>, parent: Option<Id>)
    requires AllDistinct(nodes)
    ensures var r := Below(nodes, up, parent);
            && AllDistinct(r)
            && forall x :: x in r <==> x in nodes && (if x in up then Some(up[x]) else None) == parent
  {
    if nodes != [] {
      var front, last := nodes[..|nodes| - 1], nodes[|nodes| - 1];
      BelowMembers(front, up, parent);
      assert nodes == front + [last];
      assert last !in front;
    }
  }

  lemma {:induction false} LinksOf(known: set<Id>, assets: seq<Asset>)
    requires AllDistinct(Ids(assets))
    ensures var m := Links(known, assets);
            && (forall i :: 0 <= i < |assets| ==> (assets[i].id in m <==> HangsBelow(known, assets[i])))
            && (forall i :: 0 <= i < |assets| && HangsBelow(known, assets[i]) ==> m[assets[i].id] == assets[i].parent.value)
            && (forall x :: x in m ==> x in Ids(assets) && m[x] in known)
  {
    if assets != [] {
      var front, a := assets[..|assets| - 1], assets[|assets| - 1];
      assert Ids(front) == Ids(assets)[..|front|];
      assert Ids(assets) == Ids(front) + [a.id];
      LinksOf(known, front);
      forall i | 0 <= i < |front| ensures assets[i].id != a.id {
        assert Ids(assets)[i] != Ids(assets)[|front|];
      }
    }
  }

  /** The lists keep the order of the assets. */
  lemma {:induction false} BelowInOrder(nodes: seq<Id>, up: map<Id, Id>, parent: Option<Id>, i: nat, j: nat)
    returns (a: nat, b: nat)
    requires i < j < |Below(nodes, up, parent)|
    ensures a < b < |nodes| && nodes[a] == Below(nodes, up, parent)[i] && nodes[b] == Below(nodes, up, parent)[j]
  {
    var n := |nodes| - 1;
    var front := Below(nodes[..n], up, parent);
    if j < |front| {
      a, b := BelowInOrder(nodes[..n], up, parent, i, j);
    } else {
      a := BelowAt(nodes[..n], up, parent, i);
      b := n;
    }
  }

  lemma {:induction false} BelowAt(nodes: seq<Id>, up: map<Id, Id>, parent: Option<Id>, i: nat) returns (a: nat)
    requires i < |Below(nodes, up, parent)|
    ensures a < |nodes| && nodes[a] == Below(nodes, up, parent)[i]
  {
    var n := |nodes| - 1;
    if i < |Below(nodes[..n], up, parent)| {
      a := BelowAt(nodes[..n], up, parent, i);
    } else {
      a := n;
    }
  }

  /** Where an asset is shown: below the listed asset its link names, and at the root without such a link. */
  lemma HierarchyMeans(assets: seq<Asset>, i: nat)
    requires AllDistinct(Ids(assets)) && i < |assets|
    ensures var ids, up, link := Ids(assets), Up(assets), assets[i].parent;
            && (assets[i].id in Roots(ids, up) <==> link.None? || link.value == "" || link.value !in ids)
            && (forall id :: assets[i].id in Children(ids, up, id) <==> link == Some(id) && id != "" && id in ids)
  {
    var ids, up := Ids(assets), Up(assets);
    LinksOf(Elements(ids), assets);
    assert ids[i] == assets[i].id;
    BelowMembers(ids, up, None);
    forall id ensures assets[i].id in Children(ids, up, id) <==> assets[i].parent == Some(id) && id != "" && id in ids {
      BelowMembers(ids, up, Some(id));
    }
  }

  // ----- building the hierarchy ------------------------------------------

  /** The children lists while the links of the first assets are connected. */
  ghost predicate Connected(
    known: set<Id>, up: map<Id, Id>, done: seq<Id>, roots: seq<Id>, children: map<Id, seq<Id>>)
  {
    && children.Keys == known && roots == Roots(done, up)
    && forall id :: id in known ==> children[id] == Children(done, up, id)
  }

  lemma BelowSnoc(done: seq<Id>, x: Id, up: map<Id, Id>, parent: Option<Id>)
    ensures Below(done + [x], up, parent) ==
            Below(done, up, parent) + if (if x in up then Some(up[x]) else None) == parent then [x] else []
  {
    assert (done + [x])[..|done|] == done;
  }

  lemma IdsSnoc(assets: seq<Asset>, i: nat)
    requires i < |assets|
    ensures Ids(assets)[..i + 1] == Ids(assets)[..i] + [assets[i].id]
  {
  }

  method Register(assets: seq<Asset>) returns (children: map<Id, seq<Id>>)
    ensures children.Keys == Elements(Ids(assets)) && forall id :: id in children ==> children[id] == []
  {
    children := map[];
    for i := 0 to |assets|
      invariant children.Keys == Elements(Ids(assets)[..i])
      invariant forall id :: id in children ==> children[id] == []
    {
      assert Ids(assets)[..i + 1] == Ids(assets)[..i] + [assets[i].id];
      ElementsConcat(Ids(assets)[..i], [assets[i].id]);
      children := children[assets[i].id := []];
    }
    assert Ids(assets)[..|assets|] == Ids(assets);
  }

  /** One asset more, on the list of its parent or among the roots. */
  lemma ConnectedStep(known: set<Id>, up: map<Id, Id>, done: seq<Id>, roots: seq<Id>, children: map<Id, seq<Id>>, x: Id)
    requires Connected(known, up, done, roots, children)
    ensures x in up && up[x] in known ==>
              Connected(known, up, done + [x], roots, children[up[x] := children[up[x]] + [x]])
    ensures x !in up ==> Connected(known, up, done + [x], roots + [x], children)
  {
    BelowSnoc(done, x, up, None);
    forall id | id in known
      ensures Children(done + [x], up, id) ==
              Children(done, up, id) + if x in up && up[x] == id then [x] else []
    {
      BelowSnoc(done, x, up, Some(id));
    }
  }

  /** Roots and children lists as the links say, in list order; nothing is inferred. */
  method BuildHierarchy(assets: seq<Asset>) returns (roots: seq<Id>, children: map<Id, seq<Id>>)
    requires AllDistinct(Ids(assets))
    ensures roots == Roots(Ids(assets), Up(assets))
    ensures children.Keys == Elements(Ids(assets))
    ensures forall id :: id in children ==> children[id] == Children(Ids(assets), Up(assets), id)
  {
    ghost var known, up, ids := Elements(Ids(assets)), Up(assets), Ids(assets);
    children := Register(assets);
    roots := [];
    LinksOf(known, assets);
    assert ids[..0] == [];
    for i := 0 to |assets|
      invariant Connected(known, up, ids[..i], roots, children)
    {
      var a := assets[i];
      IdsSnoc(assets, i);
      ConnectedStep(known, up, ids[..i], roots, children, a.id);
      if a.parent.Some? && a.parent.value != "" && a.parent.value in children {
        children := children[a.parent.value := children[a.parent.value] + [a.id]];
      } else {
        roots := roots + [a.id];
      }
    }
    assert ids[..|assets|] == ids;
  }

  // ----- every asset exactly once ----------------------------------------

  /** Links stay inside the list and climb in rank: no cycles. */
  ghost predicate Acyclic(nodes: seq<Id>, up: map<Id, Id>, rank: map<Id, nat>, bound: nat) {
    && (forall x :: x in nodes ==> x in rank && rank[x] < bound)
    && forall x :: x in up ==> x in nodes && up[x] in nodes && rank[up[x]] < rank[x]
  }

  ghost predicate AtLevel(nodes: seq<Id>, rank: map<Id, nat>, cs: seq<Id>, level: nat) {
    forall i :: 0 <= i < |cs| ==> cs[i] in nodes && cs[i] in rank && level <= rank[cs[i]]
  }

  lemma ChildrenLevel(nodes: seq<Id>, up: map<Id, Id>, rank: map<Id, nat>, bound: nat, id: Id)
    requires AllDistinct(nodes) && Acyclic(nodes, up, rank, bound) && id in nodes
    ensures AtLevel(nodes, rank, Children(nodes, up, id), rank[id] + 1)
  {
    BelowMembers(nodes, up, Some(id));
    var cs := Children(nodes, up, id);
    forall i | 0 <= i < |cs| ensures cs[i] in nodes && rank[id] + 1 <= rank[cs[i]] {
      assert cs[i] in cs;
    }
  }

  /** How often a walk sees `x`. */
  ghost function Times(
    nodes: seq<Id>, up: map<Id, Id>, rank: map<Id, nat>, bound: nat, cs: seq<Id>, level: nat, x: Id): nat
    requires AllDistinct(nodes) && Acyclic(nodes, up, rank, bound) && AtLevel(nodes, rank, cs, level)
    decreases bound - level, |cs|
  {
    if cs == [] then 0
    else
      ChildrenLevel(nodes, up, rank, bound, cs[0]);
      (if cs[0] == x then 1 else 0)
      + Times(nodes, up, rank, bound, Children(nodes, up, cs[0]), rank[cs[0]] + 1, x)
      + Times(nodes, up, rank, bound, cs[1..], level, x)
  }

  /** What is seen when the subtrees of a list of nodes are walked from top to bottom. */
  ghost function Walk(
    nodes: seq<Id>, up: map<Id, Id>, rank: map<Id, nat>, bound: nat, cs: seq<Id>, level: nat): (r: seq<Id>)
    requires AllDistinct(nodes) && Acyclic(nodes, up, rank, bound) && AtLevel(nodes, rank, cs, level)
    ensures forall x :: multiset(r)[x] == Times(nodes, up, rank, bound, cs, level, x)
    decreases bound - level, |cs|
  {
    if cs == [] then []
    else
      ChildrenLevel(nodes, up, rank, bound, cs[0]);
      [cs[0]]
      + Walk(nodes, up, rank, bound, Children(nodes, up, cs[0]), rank[cs[0]] + 1)
      + Walk(nodes, up, rank, bound, cs[1..], level)
  }

  /** `a` is `x` or one of its ancestors. */
  ghost predicate IsAncestor(nodes: seq<Id>, up: map<Id, Id>, rank: map<Id, nat>, bound: nat, a: Id, x: Id)
    requires Acyclic(nodes, up, rank, bound)
    decreases if x in rank then rank[x] else 0
  {
    a == x || (x in up && IsAncestor(nodes, up, rank, bound, a, up[x]))
  }

  lemma {:induction false} AncestorRank(nodes: seq<Id>, up: map<Id, Id>, rank: map<Id, nat>, bound: nat, a: Id, x: Id)
    requires Acyclic(nodes, up, rank, bound) && IsAncestor(nodes, up, rank, bound, a, x) && x in nodes
    ensures a in nodes && rank[a] <= rank[x]
    decreases if x in rank then rank[x] else 0
  {
    if a != x {
      AncestorRank(nodes, up, rank, bound, a, up[x]);
    }
  }

  /** The child of `a` on the way to its descendant `x`. */
  ghost function Toward(nodes: seq<Id>, up: map<Id, Id>, rank: map<Id, nat>, bound: nat, a: Id, x: Id): (c: Id)
    requires Acyclic(nodes, up, rank, bound) && a != x && IsAncestor(nodes, up, rank, bound, a, x)
    ensures c in up && up[c] == a
    decreases if x in rank then rank[x] else 0
  {
    if up[x] == a then x else Toward(nodes, up, rank, bound, a, up[x])
  }

  /** Of the children of `a`, exactly the one toward `x` is an ancestor of `x`. */
  lemma {:induction false} ChildToward(
    nodes: seq<Id>, up: map<Id, Id>, rank: map<Id, nat>, bound: nat, a: Id, c: Id, x: Id)
    requires Acyclic(nodes, up, rank, bound) && c in up && up[c] == a && x in nodes
    ensures IsAncestor(nodes, up, rank, bound, c, x) <==>
              a != x && IsAncestor(nodes, up, rank, bound, a, x) && Toward(nodes, up, rank, bound, a, x) == c
    decreases if x in rank then rank[x] else 0
  {
    if x in up {
      ChildToward(nodes, up, rank, bound, a, c, up[x]);
      if IsAncestor(nodes, up, rank, bound, a, up[x]) {
        AncestorRank(nodes, up, rank, bound, a, up[x]);
      }
    }
  }

  ghost function RootOf(nodes: seq<Id>, up: map<Id, Id>, rank: map<Id, nat>, bound: nat, x: Id): (r: Id)
    requires Acyclic(nodes, up, rank, bound) && x in nodes
    ensures r in nodes && r !in up
    decreases if x in rank then rank[x] else 0
  {
    if x in up then RootOf(nodes, up, rank, bound, up[x]) else x
  }

  lemma {:induction false} RootAbove(nodes: seq<Id>, up: map<Id, Id>, rank: map<Id, nat>, bound: nat, r: Id, x: Id)
    requires Acyclic(nodes, up, rank, bound) && x in nodes && r !in up
    ensures IsAncestor(nodes, up, rank, bound, r, x) <==> r == RootOf(nodes, up, rank, bound, x)
    decreases if x in rank then rank[x] else 0
  {
    if x in up {
      RootAbove(nodes, up, rank, bound, r, up[x]);
    }
  }

  /** How many members of a list are ancestors of `x`. */
  ghost function AncestorsIn(nodes: seq<Id>, up: map<Id, Id>, rank: map<Id, nat>, bound: nat, cs: seq<Id>, x: Id): nat
    requires Acyclic(nodes, up, rank, bound)
  {
    if cs == [] then 0
    else (if IsAncestor(nodes, up, rank, bound, cs[0], x) then 1 else 0) + AncestorsIn(nodes, up, rank, bound, cs[1..], x)
  }

  lemma {:induction false} OnlyOne(
    nodes: seq<Id>, up: map<Id, Id>, rank: map<Id, nat>, bound: nat, cs: seq<Id>, x: Id, t: Option<Id>)
    requires Acyclic(nodes, up, rank, bound) && AllDistinct(cs)
    requires forall i :: 0 <= i < |cs| ==> (IsAncestor(nodes, up, rank, bound, cs[i], x) <==> t == Some(cs[i]))
    ensures AncestorsIn(nodes, up, rank, bound, cs, x) == if t.Some? && t.value in cs then 1 else 0
  {
    if cs != [] {
      OnlyOne(nodes, up, rank, bound, cs[1..], x, t);
      assert cs == [cs[0]] + cs[1..];
      assert cs[0] !in cs[1..];
    }
  }

  lemma ChildrenAbove(nodes: seq<Id>, up: map<Id, Id>, rank: map<Id, nat>, bound: nat, a: Id, x: Id)
    requires AllDistinct(nodes) && Acyclic(nodes, up, rank, bound) && a in nodes && x in nodes
    ensures AncestorsIn(nodes, up, rank, bound, Children(nodes, up, a), x) + (if a == x then 1 else 0)
         == if IsAncestor(nodes, up, rank, bound, a, x) then 1 else 0
  {
    BelowMembers(nodes, up, Some(a));
    var cs := Children(nodes, up, a);
    var t := if a != x && IsAncestor(nodes, up, rank, bound, a, x) then Some(Toward(nodes, up, rank, bound, a, x)) else None;
    forall i | 0 <= i < |cs| ensures IsAncestor(nodes, up, rank, bound, cs[i], x) <==> t == Some(cs[i]) {
      assert cs[i] in cs;
      ChildToward(nodes, up, rank, bound, a, cs[i], x);
    }
    OnlyOne(nodes, up, rank, bound, cs, x, t);
  }

  /** A walk sees `x` once for every ancestor it starts from. */
  lemma {:induction false} TimesIsAncestors(
    nodes: seq<Id>, up: map<Id, Id>, rank: map<Id, nat>, bound: nat, cs: seq<Id>, level: nat, x: Id)
    requires AllDistinct(nodes) && Acyclic(nodes, up, rank, bound) && AtLevel(nodes, rank, cs, level) && x in nodes
    ensures Times(nodes, up, rank, bound, cs, level, x) == AncestorsIn(nodes, up, rank, bound, cs, x)
    decreases bound - level, |cs|
  {
    if cs != [] {
      var c := cs[0];
      ChildrenLevel(nodes, up, rank, bound, c);
      TimesIsAncestors(nodes, up, rank, bound, Children(nodes, up, c), rank[c] + 1, x);
      TimesIsAncestors(nodes, up, rank, bound, cs[1..], level, x);
      ChildrenAbove(nodes, up, rank, bound, c, x);
    }
  }

  lemma WalkCount(
    nodes: seq<Id>, up: map<Id, Id>, rank: map<Id, nat>, bound: nat, cs: seq<Id>, level: nat, x: Id)
    requires AllDistinct(nodes) && Acyclic(nodes, up, rank, bound) && AtLevel(nodes, rank, cs, level) && x in nodes
    ensures multiset(Walk(nodes, up, rank, bound, cs, level))[x] == AncestorsIn(nodes, up, rank, bound, cs, x)
  {
    TimesIsAncestors(nodes, up, rank, bound, cs, level, x);
  }

  lemma {:induction false} WalkWithin(
    nodes: seq<Id>, up: map<Id, Id>, rank: map<Id, nat>, bound: nat, cs: seq<Id>, level: nat, x: Id)
    requires AllDistinct(nodes) && Acyclic(nodes, up, rank, bound) && AtLevel(nodes, rank, cs, level)
    requires x in Walk(nodes, up, rank, bound, cs, level)
    ensures x in nodes
    decreases bound - level, |cs|
  {
    var c := cs[0];
    ChildrenLevel(nodes, up, rank, bound, c);
    var inner := Walk(nodes, up, rank, bound, Children(nodes, up, c), rank[c] + 1);
    if x in inner {
      WalkWithin(nodes, up, rank, bound, Children(nodes, up, c), rank[c] + 1, x);
    } else if x != c {
      WalkWithin(nodes, up, rank, bound, cs[1..], level, x);
    }
  }

  lemma {:induction false} DistinctCount(nodes: seq<Id>, x: Id)
    requires AllDistinct(nodes)
    ensures multiset(nodes)[x] == if x in nodes then 1 else 0
  {
    if nodes != [] {
      DistinctCount(nodes[1..], x);
      assert nodes == [nodes[0]] + nodes[1..];
      assert nodes[0] !in nodes[1..];
    }
  }

  lemma RootsLevel(nodes: seq<Id>, up: map<Id, Id>, rank: map<Id, nat>, bound: nat)
    requires AllDistinct(nodes) && Acyclic(nodes, up, rank, bound)
    ensures AtLevel(nodes, rank, Roots(nodes, up), 0)
  {
    BelowMembers(nodes, up, None);
    var rs := Roots(nodes, up);
    assert forall i :: 0 <= i < |rs| ==> rs[i] in rs;
  }

  /** Without cycles the tree shows every asset exactly once: nothing is lost, nothing is repeated. */
  lemma TreeConserves(nodes: seq<Id>, up: map<Id, Id>, rank: map<Id, nat>, bound: nat)
    requires AllDistinct(nodes) && Acyclic(nodes, up, rank, bound)
    ensures AtLevel(nodes, rank, Roots(nodes, up), 0)
    ensures multiset(Walk(nodes, up, rank, bound, Roots(nodes, up), 0)) == multiset(nodes)
  {
    RootsLevel(nodes, up, rank, bound);
    BelowMembers(nodes, up, None);
    var rs := Roots(nodes, up);
    var walk := Walk(nodes, up, rank, bound, rs, 0);
    forall x ensures multiset(walk)[x] == multiset(nodes)[x] {
      DistinctCount(nodes, x);
      if x in nodes {
        WalkCount(nodes, up, rank, bound, rs, 0, x);
        forall i | 0 <= i < |rs|
          ensures IsAncestor(nodes, up, rank, bound, rs[i], x) <==> Some(RootOf(nodes, up, rank, bound, x)) == Some(rs[i])
        {
          assert rs[i] in rs;
          RootAbove(nodes, up, rank, bound, rs[i], x);
        }
        OnlyOne(nodes, up, rank, bound, rs, x, Some(RootOf(nodes, up, rank, bound, x)));
      } else if x in walk {
        WalkWithin(nodes, up, rank, bound, rs, 0, x);
      }
    }
  }

  // ----- the filter ------------------------------------------------------

  predicate Closed(up: map<Id, Id>, s: set<Id>) {
    forall x :: x in s && x in up ==> up[x] in s
  }

  /** The included ids whose parent is still missing. */
  ghost predicate OnlyOpen(up: map<Id, Id>, included: set<Id>, open: set<Id>) {
    forall x :: x in included && x in up && up[x] !in included ==> x in open
  }

  ghost predicate WithinEvery(up: map<Id, Id>, matches: set<Id>, included: set<Id>) {
    forall s: set<Id> :: matches <= s && Closed(up, s) ==> included <= s
  }

  /**
   Walking up from each match and stopping at the first ancestor already included yields the
   least set with the matches that holds the parent of each of its members. It ends on any
   links, cyclic ones included.
   */
  method IncludeAncestors(nodes: seq<Id>, up: map<Id, Id>, matches: seq<Id>) returns (included: set<Id>)
    requires forall x :: x in up ==> x in nodes && up[x] in nodes
    requires forall i :: 0 <= i < |matches| ==> matches[i] in nodes
    ensures Elements(matches) <= included && Closed(up, included) && WithinEvery(up, Elements(matches), included)
  {
    included := Elements(matches);
    for i := 0 to |matches|
      invariant Elements(matches) <= included <= Elements(nodes)
      invariant OnlyOpen(up, included, Elements(matches[i..]))
      invariant WithinEvery(up, Elements(matches), included)
    {
      var current := matches[i];
      assert matches[i..] == [matches[i]] + matches[i + 1..];
      while current in up
        invariant Elements(matches) <= included <= Elements(nodes) && current in included
        invariant OnlyOpen(up, included, Elements(matches[i + 1..]) + {current})
        invariant WithinEvery(up, Elements(matches), included)
        decreases Elements(nodes) - included
      {
        var parent := up[current];
        if parent in included {
          break;
        }
        StillWithin(up, Elements(matches), included, current);
        included := included + {parent};
        current := parent;
      }
    }
    assert matches[|matches|..] == [];
  }

  lemma StillWithin(up: map<Id, Id>, matches: set<Id>, included: set<Id>, current: Id)
    requires WithinEvery(up, matches, included) && current in included && current in up
    ensures WithinEvery(up, matches, included + {up[current]})
  {
    forall s: set<Id> | matches <= s && Closed(up, s) ensures included + {up[current]} <= s {
      assert included <= s;
    }
  }

  function Kept(assets: seq<Asset>, included: set<Id>): seq<Asset> {
    if assets == [] then []
    else
      Kept(assets[..|assets| - 1], included)
      + if assets[|assets| - 1].id in included then [assets[|assets| - 1]] else []
  }

  lemma {:induction false} KeptMembers(assets: seq<Asset>, included: set<Id>, a: Asset)
    ensures a in Kept(assets, included) <==> a in assets && a.id in included
  {
    if assets != [] {
      KeptMembers(assets[..|assets| - 1], included, a);
      assert assets == assets[..|assets| - 1] + [assets[|assets| - 1]];
    }
  }

  lemma IdOfMember(assets: seq<Asset>, id: Id)
    ensures id in Elements(Ids(assets)) <==> exists a :: a in assets && a.id == id
  {
    if id in Ids(assets) {
      var i :| 0 <= i < |assets| && Ids(assets)[i] == id;
      assert assets[i] in assets;
    }
    if a :| a in assets && a.id == id {
      var i :| 0 <= i < |assets| && assets[i] == a;
      assert Ids(assets)[i] == id;
    }
  }

  /** In the filtered tree an asset is a root exactly when it is one in the full tree. */
  lemma FilteredRoots(assets: seq<Asset>, included: set<Id>, a: Asset)
    requires AllDistinct(Ids(assets)) && Closed(Up(assets), included)
    requires a in assets && a.id in included
    ensures var known := Elements(Ids(assets));
            HangsBelow(Elements(Ids(Kept(assets, included))), a) <==> HangsBelow(known, a)
  {
    var known := Elements(Ids(assets));
    var kept := Kept(assets, included);
    LinksOf(known, assets);
    var i :| 0 <= i < |assets| && assets[i] == a;
    if HangsBelow(known, a) {
      var p := a.parent.value;
      assert Up(assets)[a.id] == p;
      IdOfMember(assets, p);
      var b :| b in assets && b.id == p;
      KeptMembers(assets, included, b);
      IdOfMember(kept, p);
    }
    if HangsBelow(Elements(Ids(kept)), a) {
      var p := a.parent.value;
      IdOfMember(kept, p);
      var b :| b in kept && b.id == p;
      KeptMembers(assets, included, b);
      IdOfMember(assets, p);
    }
  }
}
