/**
 The attack-surface tree on any links, cyclic ones included: exactly the assets whose climb ends
 at a root are shown, and all are exactly when there is no cycle
 (frontend/src/components/assets/AttackSurfaceTree.tsx).
 */
module AssetCycles {
  import opened Wrappers
  import opened Text
  import opened AssetTree
  import Smallest

  /** The asset `n` links above `x`, as far as the links go. */
  function Climb(up: map<Id, Id>, x: Id, n: nat): Option<Id> {
    if n == 0 then Some(x)
    else
      match Climb(up, x, n - 1)
      case None => None
      case Some(y) => if y in up then Some(up[y]) else None
  }

  /** The climb from `x` ends at a root after `n` links. */
  predicate EndsIn(up: map<Id, Id>, x: Id, n: nat)
    decreases n
  {
    if n == 0 then x !in up else x in up && EndsIn(up, up[x], n - 1)
  }

  ghost predicate Anchored(up: map<Id, Id>, x: Id) {
    exists n: nat :: EndsIn(up, x, n)
  }

  lemma {:induction false} EndsOnce(up: map<Id, Id>, x: Id, n: nat, m: nat)
    requires EndsIn(up, x, n) && EndsIn(up, x, m)
    ensures n == m
    decreases n
  {
    if n > 0 && m > 0 {
      EndsOnce(up, up[x], n - 1, m - 1);
    }
  }

  ghost function Height(up: map<Id, Id>, x: Id): (n: nat)
    requires Anchored(up, x)
    ensures EndsIn(up, x, n)
  {
    var n: nat :| EndsIn(up, x, n);
    n
  }

  /** A linked asset is anchored exactly when its parent is, one link lower. */
  lemma AnchoredUp(up: map<Id, Id>, x: Id)
    requires x in up
    ensures Anchored(up, x) <==> Anchored(up, up[x])
    ensures Anchored(up, x) ==> Height(up, x) == Height(up, up[x]) + 1
  {
    if Anchored(up, x) {
      var n := Height(up, x);
      assert n > 0 && EndsIn(up, up[x], n - 1);
      EndsOnce(up, up[x], n - 1, Height(up, up[x]));
    }
    if Anchored(up, up[x]) {
      assert EndsIn(up, x, Height(up, up[x]) + 1);
    }
  }

  ghost function InSight(nodes: seq<Id>, up: map<Id, Id>): seq<Id> {
    if nodes == [] then []
    else
      var x := nodes[|nodes| - 1];
      InSight(nodes[..|nodes| - 1], up) + if Anchored(up, x) then [x] else []
  }

  lemma {:induction false} InSightMembers(nodes: seq<Id>, up: map<Id, Id>)
    requires AllDistinct(nodes)
    ensures AllDistinct(InSight(nodes, up))
    ensures forall x :: x in InSight(nodes, up) <==> x in nodes && Anchored(up, x)
  {
    if nodes != [] {
      var front, last := nodes[..|nodes| - 1], nodes[|nodes| - 1];
      InSightMembers(front, up);
      assert nodes == front + [last];
      assert last !in front;
    }
  }

  ghost function LinksInSight(up: map<Id, Id>): map<Id, Id> {
    map x | x in up && Anchored(up, x) :: up[x]
  }

  ghost predicate LinksWithin(nodes: seq<Id>, up: map<Id, Id>) {
    forall x :: x in up ==> x in nodes && up[x] in nodes
  }

  ghost function Heights(kept: seq<Id>, up: map<Id, Id>): map<Id, nat>
    requires forall x :: x in kept ==> Anchored(up, x)
  {
    map x | x in kept :: Height(up, x)
  }

  /** A bound on the heights. */
  ghost function Tallest(kept: seq<Id>, up: map<Id, Id>): (bound: nat)
    requires forall x :: x in kept ==> Anchored(up, x)
    ensures forall x :: x in kept ==> Height(up, x) < bound
  {
    if kept == [] then 0
    else
      var last := kept[|kept| - 1];
      assert kept == kept[..|kept| - 1] + [last];
      var b := Tallest(kept[..|kept| - 1], up);
      if b > Height(up, last) then b else Height(up, last) + 1
  }

  /** The anchored assets with their links have no cycle. */
  lemma InSightAcyclic(nodes: seq<Id>, up: map<Id, Id>)
    requires AllDistinct(nodes) && LinksWithin(nodes, up)
    ensures forall x :: x in InSight(nodes, up) ==> Anchored(up, x)
    ensures var kept := InSight(nodes, up);
            AllDistinct(kept) && Acyclic(kept, LinksInSight(up), Heights(kept, up), Tallest(kept, up))
  {
    InSightMembers(nodes, up);
    var kept := InSight(nodes, up);
    forall x | x in LinksInSight(up)
      ensures x in kept && up[x] in kept && Heights(kept, up)[up[x]] < Heights(kept, up)[x]
    {
      AnchoredUp(up, x);
    }
  }

  /** What hangs below an anchored asset, or below nothing, is anchored; the rest is not in sight. */
  lemma {:induction false} BelowInSight(nodes: seq<Id>, up: map<Id, Id>, parent: Option<Id>)
    requires parent.Some? ==> Anchored(up, parent.value)
    ensures Below(InSight(nodes, up), LinksInSight(up), parent) == Below(nodes, up, parent)
  {
    if nodes != [] {
      var front, x := nodes[..|nodes| - 1], nodes[|nodes| - 1];
      BelowInSight(front, up, parent);
      LinkInSight(up, x, parent);
      if Anchored(up, x) {
        assert InSight(nodes, up)[..|InSight(nodes, up)| - 1] == InSight(front, up);
      } else {
        assert InSight(nodes, up) == InSight(front, up);
      }
    }
  }

  lemma LinkInSight(up: map<Id, Id>, x: Id, parent: Option<Id>)
    requires parent.Some? ==> Anchored(up, parent.value)
    ensures x in LinksInSight(up) <==> x in up && Anchored(up, x)
    ensures (if x in up then Some(up[x]) else None) == parent ==> Anchored(up, x)
  {
    if x in up {
      AnchoredUp(up, x);
    } else {
      assert EndsIn(up, x, 0);
    }
  }

  /** What is seen from a list of nodes when the subtrees are opened to some depth, on any links. */
  ghost function WalkTo(nodes: seq<Id>, up: map<Id, Id>, cs: seq<Id>, depth: nat): seq<Id>
    decreases depth, |cs|
  {
    if cs == [] || depth == 0 then []
    else
      [cs[0]] + WalkTo(nodes, up, Children(nodes, up, cs[0]), depth - 1) + WalkTo(nodes, up, cs[1..], depth)
  }

  /** Without cycles, and deep enough, it is the walk of the tree. */
  lemma {:induction false} AcyclicWalk(
    nodes: seq<Id>, up: map<Id, Id>, rank: map<Id, nat>, bound: nat, cs: seq<Id>, level: nat, depth: nat)
    requires AllDistinct(nodes) && Acyclic(nodes, up, rank, bound) && AtLevel(nodes, rank, cs, level)
    requires depth >= bound - level
    ensures WalkTo(nodes, up, cs, depth) == Walk(nodes, up, rank, bound, cs, level)
    decreases bound - level, |cs|
  {
    if cs != [] {
      ChildrenLevel(nodes, up, rank, bound, cs[0]);
      AcyclicWalk(nodes, up, rank, bound, Children(nodes, up, cs[0]), rank[cs[0]] + 1, depth - 1);
      AcyclicWalk(nodes, up, rank, bound, cs[1..], level, depth);
    }
  }

  /** Deep enough, it is the walk of the anchored assets. */
  lemma {:induction false} WalkIsInSight(
    nodes: seq<Id>, up: map<Id, Id>, rank: map<Id, nat>, bound: nat, cs: seq<Id>, level: nat, depth: nat)
    requires AllDistinct(InSight(nodes, up)) && Acyclic(InSight(nodes, up), LinksInSight(up), rank, bound)
    requires AtLevel(InSight(nodes, up), rank, cs, level) && depth >= bound - level
    requires forall x :: x in InSight(nodes, up) ==> Anchored(up, x)
    ensures WalkTo(nodes, up, cs, depth) == Walk(InSight(nodes, up), LinksInSight(up), rank, bound, cs, level)
    decreases bound - level, |cs|
  {
    if cs != [] {
      var kept, c := InSight(nodes, up), cs[0];
      ChildrenLevel(kept, LinksInSight(up), rank, bound, c);
      BelowInSight(nodes, up, Some(c));
      WalkIsInSight(nodes, up, rank, bound, Children(kept, LinksInSight(up), c), rank[c] + 1, depth - 1);
      WalkIsInSight(nodes, up, rank, bound, cs[1..], level, depth);
    }
  }

  /**
   On any links, cyclic ones included, opening the tree far enough shows exactly the anchored
   assets, each once, and opening it further shows nothing more.
   */
  lemma TreeShowsAnchored(nodes: seq<Id>, up: map<Id, Id>) returns (enough: nat)
    requires AllDistinct(nodes) && LinksWithin(nodes, up)
    ensures forall depth: nat, x: Id | depth >= enough ::
              multiset(WalkTo(nodes, up, Roots(nodes, up), depth))[x] == if x in nodes && Anchored(up, x) then 1 else 0
  {
    InSightAcyclic(nodes, up);
    InSightMembers(nodes, up);
    var kept, links := InSight(nodes, up), LinksInSight(up);
    var rank, bound := Heights(kept, up), Tallest(kept, up);
    TreeConserves(kept, links, rank, bound);
    BelowInSight(nodes, up, None);
    enough := bound;
    forall depth: nat, x: Id | depth >= enough
      ensures multiset(WalkTo(nodes, up, Roots(nodes, up), depth))[x] == if x in nodes && Anchored(up, x) then 1 else 0
    {
      WalkIsInSight(nodes, up, rank, bound, Roots(kept, links), 0, depth);
      DistinctCount(kept, x);
    }
  }

  lemma {:induction false} OnlyAnchoredShown(nodes: seq<Id>, up: map<Id, Id>, cs: seq<Id>, depth: nat, x: Id)
    requires AllDistinct(nodes) && (forall i :: 0 <= i < |cs| ==> Anchored(up, cs[i]))
    requires x in WalkTo(nodes, up, cs, depth)
    ensures Anchored(up, x)
    decreases depth, |cs|
  {
    var children := Children(nodes, up, cs[0]);
    if x in WalkTo(nodes, up, children, depth - 1) {
      BelowMembers(nodes, up, Some(cs[0]));
      forall i | 0 <= i < |children| ensures Anchored(up, children[i]) {
        assert children[i] in children;
        AnchoredUp(up, children[i]);
      }
      OnlyAnchoredShown(nodes, up, children, depth - 1, x);
    } else if x != cs[0] {
      OnlyAnchoredShown(nodes, up, cs[1..], depth, x);
    }
  }

  // ----- cycles ----------------------------------------------------------

  /** Following the links from an asset never leads back to it. */
  ghost predicate NoCycle(up: map<Id, Id>) {
    forall x: Id, n: nat :: n > 0 ==> Climb(up, x, n) != Some(x)
  }

  lemma {:induction false} ClimbOn(up: map<Id, Id>, x: Id, y: Id, n: nat, m: nat)
    requires Climb(up, x, n) == Some(y)
    ensures Climb(up, x, n + m) == Climb(up, y, m)
    decreases m
  {
    if m > 0 {
      ClimbOn(up, x, y, n, m - 1);
    }
  }

  /** A climb that ends passes every asset on its way. */
  lemma {:induction false} ClimbEnds(up: map<Id, Id>, x: Id, y: Id, n: nat, h: nat)
    requires Climb(up, x, n) == Some(y) && EndsIn(up, x, h)
    ensures n <= h && EndsIn(up, y, h - n)
    decreases n
  {
    if n > 0 {
      var before := Climb(up, x, n - 1).value;
      ClimbEnds(up, x, before, n - 1, h);
    }
  }

  /** An asset on a link cycle, or below one, is never shown, however far the tree is opened. */
  lemma CycleIsHidden(nodes: seq<Id>, up: map<Id, Id>, x: Id, k: nat, y: Id, n: nat, depth: nat)
    requires AllDistinct(nodes) && Climb(up, x, k) == Some(y) && n > 0 && Climb(up, y, n) == Some(y)
    ensures !Anchored(up, x) && x !in WalkTo(nodes, up, Roots(nodes, up), depth)
  {
    if Anchored(up, x) {
      ClimbEnds(up, x, y, k, Height(up, x));
      ClimbEnds(up, y, y, n, Height(up, x) - k);
      EndsOnce(up, y, Height(up, x) - k, Height(up, x) - k - n);
    }
    var roots := Roots(nodes, up);
    BelowMembers(nodes, up, None);
    forall i | 0 <= i < |roots| ensures Anchored(up, roots[i]) {
      assert roots[i] in roots;
      assert EndsIn(up, roots[i], 0);
    }
    if x in WalkTo(nodes, up, roots, depth) {
      OnlyAnchoredShown(nodes, up, roots, depth, x);
    }
  }

  /** An asset that is not anchored can be climbed from without end, within the list. */
  lemma {:induction false} ClimbsForever(nodes: seq<Id>, up: map<Id, Id>, x: Id, n: nat)
    requires LinksWithin(nodes, up) && x in nodes && !Anchored(up, x)
    ensures var y := Climb(up, x, n); y.Some? && y.value in nodes && !Anchored(up, y.value)
  {
    if n > 0 {
      ClimbsForever(nodes, up, x, n - 1);
      var y := Climb(up, x, n - 1).value;
      if y !in up {
        assert EndsIn(up, y, 0);
      } else {
        AnchoredUp(up, y);
      }
    }
  }

  lemma FewerThan(xs: seq<Id>, nodes: seq<Id>)
    requires AllDistinct(xs) && AllDistinct(nodes) && forall x :: x in xs ==> x in nodes
    ensures |xs| <= |nodes|
  {
    Smallest.DistinctSize(xs);
    Smallest.DistinctSize(nodes);
    assert Elements(xs) <= Elements(nodes);
    Smallest.SizeMonotone(Elements(xs), Elements(nodes));
  }

  /** An endless climb within a finite list runs into a cycle. */
  lemma UnanchoredHasCycle(nodes: seq<Id>, up: map<Id, Id>, x: Id)
    requires AllDistinct(nodes) && LinksWithin(nodes, up) && x in nodes && !Anchored(up, x)
    ensures !NoCycle(up)
  {
    forall n: nat ensures Climb(up, x, n).Some? && Climb(up, x, n).value in nodes {
      ClimbsForever(nodes, up, x, n);
    }
    var path := seq(|nodes| + 1, n requires n >= 0 => Climb(up, x, n).value);
    if AllDistinct(path) {
      FewerThan(path, nodes);
    } else {
      var i, j :| 0 <= i < j < |path| && path[i] == path[j];
      ClimbOn(up, x, path[i], i, j - i);
      assert Climb(up, path[i], j - i) == Some(path[i]);
    }
  }

  lemma AnchoredHasNoCycle(nodes: seq<Id>, up: map<Id, Id>)
    requires LinksWithin(nodes, up) && forall x :: x in nodes ==> Anchored(up, x)
    ensures NoCycle(up)
  {
    forall x: Id, n: nat | n > 0 ensures Climb(up, x, n) != Some(x) {
      if Climb(up, x, n) == Some(x) {
        FirstLink(up, x, n);
        ClimbEnds(up, x, x, n, Height(up, x));
        EndsOnce(up, x, Height(up, x), Height(up, x) - n);
      }
    }
  }

  lemma {:induction false} FirstLink(up: map<Id, Id>, x: Id, n: nat)
    requires n > 0 && Climb(up, x, n).Some?
    ensures x in up
  {
    if n > 1 {
      FirstLink(up, x, n - 1);
    }
  }

  /**
   Opened far enough, the tree shows every asset, and each exactly once, if and only if the links
   have no cycle.
   */
  lemma TreeShowsAllIff(nodes: seq<Id>, up: map<Id, Id>) returns (enough: nat)
    requires AllDistinct(nodes) && LinksWithin(nodes, up)
    ensures forall depth: nat | depth >= enough ::
              multiset(WalkTo(nodes, up, Roots(nodes, up), depth)) == multiset(nodes) <==> NoCycle(up)
  {
    enough := TreeShowsAnchored(nodes, up);
    forall depth: nat | depth >= enough
      ensures multiset(WalkTo(nodes, up, Roots(nodes, up), depth)) == multiset(nodes) <==> NoCycle(up)
    {
      var shown := WalkTo(nodes, up, Roots(nodes, up), depth);
      forall x ensures multiset(nodes)[x] == if x in nodes then 1 else 0 {
        DistinctCount(nodes, x);
      }
      if x :| x in nodes && !Anchored(up, x) {
        UnanchoredHasCycle(nodes, up, x);
        assert multiset(shown)[x] == 0 && multiset(nodes)[x] == 1;
      } else {
        AnchoredHasNoCycle(nodes, up);
        forall x ensures multiset(shown)[x] == multiset(nodes)[x] {
        }
      }
    }
  }
}
