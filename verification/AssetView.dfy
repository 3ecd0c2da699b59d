/**
 From the rows that persistence leaves (backend/services/result_persistence.py) to the tree that
 is shown of them (frontend/src/components/assets/AttackSurfaceTree.tsx).
 */
module AssetView {
  import opened Wrappers
  import opened Text
  import opened AssetTree
  import opened AssetCycles
  import Forest = AssetForest

  /** Row ids as texts: never empty, and different for different rows. */
  ghost predicate Naming(name: nat -> Id) {
    (forall i: nat :: name(i) != "") && forall i: nat, j: nat :: name(i) == name(j) ==> i == j
  }

  function ListingOf(rows: seq<Forest.AssetRow>, name: nat -> Id): (r: seq<Asset>)
    ensures |r| == |rows|
    ensures forall i :: 0 <= i < |r| ==>
              r[i] == Asset(name(i), if rows[i].parent.Some? then Some(name(rows[i].parent.value)) else None)
  {
    seq(|rows|, i requires 0 <= i < |rows| =>
      Asset(name(i), if rows[i].parent.Some? then Some(name(rows[i].parent.value)) else None))
  }

  /** Linked rows lie one level below the others. */
  ghost function Levels(rows: seq<Forest.AssetRow>, name: nat -> Id): (r: map<Id, nat>)
    requires Naming(name)
    ensures forall i: nat :: i < |rows| ==> name(i) in r && r[name(i)] == if rows[i].parent.Some? then 1 else 0
  {
    if rows == [] then map[]
    else
      var n := |rows| - 1;
      Levels(rows[..n], name)[name(n) := if rows[n].parent.Some? then 1 else 0]
  }

  lemma ListingDistinct(rows: seq<Forest.AssetRow>, name: nat -> Id)
    requires Naming(name)
    ensures AllDistinct(Ids(ListingOf(rows, name)))
  {
  }

  /** Typed links, as persistence leaves them, close no cycle in the tree. */
  lemma ListingAcyclic(rows: seq<Forest.AssetRow>, name: nat -> Id)
    requires Naming(name) && Forest.LinksTyped(rows)
    ensures var assets := ListingOf(rows, name);
            AllDistinct(Ids(assets)) && Acyclic(Ids(assets), Up(assets), Levels(rows, name), 2)
  {
    var assets := ListingOf(rows, name);
    var up, levels := Up(assets), Levels(rows, name);
    ListingDistinct(rows, name);
    LinksOf(Elements(Ids(assets)), assets);
    forall x | x in up ensures up[x] in Ids(assets) && levels[up[x]] < levels[x] {
      var i :| 0 <= i < |assets| && Ids(assets)[i] == x;
      LinkLevels(rows, name, i);
    }
  }

  lemma LinkLevels(rows: seq<Forest.AssetRow>, name: nat -> Id, i: nat)
    requires Naming(name) && Forest.LinksTyped(rows) && i < |rows| && rows[i].parent.Some?
    ensures var p := rows[i].parent.value;
            && p < |rows| && name(p) in Ids(ListingOf(rows, name))
            && name(i) in Levels(rows, name) && name(p) in Levels(rows, name)
            && Levels(rows, name)[name(p)] < Levels(rows, name)[name(i)]
  {
    var p := rows[i].parent.value;
    Forest.ParentsAreRoots(rows, i);
    assert Ids(ListingOf(rows, name))[p] == name(p);
  }

  /** The rows after persisting the observations of one pass after the other. */
  function RowsAfter(passes: seq<seq<Forest.Observed>>, parents: seq<string>): seq<Forest.AssetRow> {
    if passes == [] then []
    else
      Forest.Persisted(RowsAfter(passes[..|passes| - 1], parents),
                       CapTo(Forest.Joined(passes[|passes| - 1], parents), Forest.MAX_ASSETS_PER_RUN))
  }

  ghost predicate AllPlausible(passes: seq<seq<Forest.Observed>>) {
    forall i, j :: 0 <= i < |passes| && 0 <= j < |passes[i]| ==> Forest.Plausible(passes[i][j])
  }

  lemma {:induction false} RowsTyped(passes: seq<seq<Forest.Observed>>, parents: seq<string>)
    requires AllPlausible(passes)
    ensures Forest.LinksTyped(RowsAfter(passes, parents))
  {
    if passes != [] {
      var front, last := passes[..|passes| - 1], passes[|passes| - 1];
      RowsTyped(front, parents);
      Forest.ObservedAssetsAreLinked(RowsAfter(front, parents), last, parents);
    }
  }

  /**
   Whatever the passes of a scan observe - Subfinder's during discovery, all others at the end -
   the tree of its assets shows every one of them exactly once, two levels deep at most.
   */
  lemma EveryAssetShownOnce(passes: seq<seq<Forest.Observed>>, parents: seq<string>, name: nat -> Id, depth: nat)
    requires AllPlausible(passes) && Naming(name) && depth >= 2
    ensures var assets := ListingOf(RowsAfter(passes, parents), name);
            var nodes, up := Ids(assets), Up(assets);
            multiset(WalkTo(nodes, up, Roots(nodes, up), depth)) == multiset(nodes)
  {
    var rows := RowsAfter(passes, parents);
    var assets := ListingOf(rows, name);
    RowsTyped(passes, parents);
    ListingAcyclic(rows, name);
    TreeConserves(Ids(assets), Up(assets), Levels(rows, name), 2);
    AcyclicWalk(Ids(assets), Up(assets), Levels(rows, name), 2, Roots(Ids(assets), Up(assets)), 0, depth);
  }
}
