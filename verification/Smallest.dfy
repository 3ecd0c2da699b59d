/** The least `k` strings of a collection, and why merging them is insensitive to order and grouping. */
module Smallest {
  import opened Text

  /** sorted(set(values))[:k] */
  function Least(xs: seq<string>, k: nat): seq<string> {
    CapTo(Sorted(xs), k)
  }

  function Below(s: set<string>, x: string): set<string> {
    set y | y in s && Less(y, x)
  }

  /** The elements with fewer than `k` smaller ones: a definition that mentions no order of arrival. */
  function MinK(s: set<string>, k: nat): set<string> {
    set x | x in s && |Below(s, x)| < k
  }

  // ----- cardinalities ---------------------------------------------------

  lemma {:induction false} SizeMonotone(a: set<string>, b: set<string>)
    requires a <= b
    ensures |a| <= |b|
  {
    if a != {} {
      var x :| x in a;
      SizeMonotone(a - {x}, b - {x});
    }
  }

  lemma {:induction false} DistinctSize(s: seq<string>)
    requires forall i, j :: 0 <= i < j < |s| ==> s[i] != s[j]
    ensures |Elements(s)| == |s|
  {
    if s == [] {
      assert Elements(s) == {};
    } else {
      var front, last := s[..|s| - 1], s[|s| - 1];
      DistinctSize(front);
      assert s == front + [last];
      ElementsConcat(front, [last]);
      assert last !in front;
      assert Elements(s) == Elements(front) + {last};
    }
  }

  lemma SortedDistinct(s: seq<string>)
    requires StrictlySorted(s)
    ensures forall i, j :: 0 <= i < j < |s| ==> s[i] != s[j]
  {
    forall i, j | 0 <= i < j < |s| ensures s[i] != s[j] {
      LessIrreflexive(s[i]);
    }
  }

  /** In a sorted list an element has as many smaller ones as its index says. */
  lemma RankIsIndex(s: seq<string>, i: nat)
    requires StrictlySorted(s) && i < |s|
    ensures |Below(Elements(s), s[i])| == i
  {
    SortedDistinct(s);
    forall y | y in Elements(s) ensures Less(y, s[i]) <==> y in s[..i] {
      var j :| 0 <= j < |s| && s[j] == y;
      if j < i {
        assert y == s[..i][j];
      } else {
        if Less(s[j], s[i]) {
          if i < j {
            LessTransitive(s[i], s[j], s[i]);
          }
          LessIrreflexive(s[i]);
        }
      }
    }
    assert Below(Elements(s), s[i]) == Elements(s[..i]);
    DistinctSize(s[..i]);
  }

  lemma FrontIsMinK(s: seq<string>, k: nat)
    requires StrictlySorted(s)
    ensures Elements(CapTo(s, k)) == MinK(Elements(s), k)
  {
    forall x | x in Elements(s) ensures x in Elements(CapTo(s, k)) <==> x in MinK(Elements(s), k) {
      var i :| 0 <= i < |s| && s[i] == x;
      RankIsIndex(s, i);
      if i < k {
        assert x == CapTo(s, k)[i];
      } else if x in CapTo(s, k) {
        var j :| 0 <= j < |CapTo(s, k)| && CapTo(s, k)[j] == x;
        LessIrreflexive(s[j]);
      }
    }
  }

  /** The least `k` values, however they are listed. */
  lemma LeastIsMinK(xs: seq<string>, k: nat)
    ensures Elements(Least(xs, k)) == MinK(Elements(xs), k)
    ensures StrictlySorted(Least(xs, k))
  {
    SortedIsSorted(xs);
    FrontIsMinK(Sorted(xs), k);
  }

  // ----- merging ---------------------------------------------------------

  /** Dropped values are dropped for good: below any of them lie `k` values that were kept. */
  lemma KeptBelow(b: seq<string>, k: nat, x: string)
    requires |Below(Elements(b), x)| >= k
    ensures |Below(MinK(Elements(b), k), x)| >= k
  {
    var s := Sorted(b);
    SortedIsSorted(b);
    FrontIsMinK(s, k);
    SortedDistinct(s);
    DistinctSize(s);
    SizeMonotone(Below(Elements(s), x), Elements(s));
    DistinctSize(CapTo(s, k));
    if Below(MinK(Elements(b), k), x) != MinK(Elements(b), k) {
      var z :| z in MinK(Elements(b), k) && !Less(z, x);
      LessTotal(z, x);
      forall y | y in Below(Elements(b), x) ensures y in Below(Elements(b), z) {
        if z != x {
          LessTransitive(y, x, z);
        }
      }
      SizeMonotone(Below(Elements(b), x), Below(Elements(b), z));
    }
  }

  lemma KeptAgree(b: seq<string>, k: nat, x: string)
    requires |Below(Elements(b), x)| < k
    ensures Below(MinK(Elements(b), k), x) == Below(Elements(b), x)
  {
    forall y | y in Below(Elements(b), x) ensures y in MinK(Elements(b), k) {
      forall z | z in Below(Elements(b), y) ensures z in Below(Elements(b), x) {
        LessTransitive(z, y, x);
      }
      SizeMonotone(Below(Elements(b), y), Below(Elements(b), x));
    }
  }

  /** Truncating a part first makes no difference. */
  lemma MinKAbsorbs(a: set<string>, b: seq<string>, k: nat)
    ensures MinK(a + MinK(Elements(b), k), k) == MinK(a + Elements(b), k)
  {
    var bs := Elements(b);
    var kept := MinK(bs, k);
    forall x ensures x in MinK(a + kept, k) <==> x in MinK(a + bs, k) {
      assert Below(a + bs, x) == Below(a, x) + Below(bs, x);
      assert Below(a + kept, x) == Below(a, x) + Below(kept, x);
      SizeMonotone(Below(a + kept, x), Below(a + bs, x));
      SizeMonotone(Below(bs, x), Below(a + bs, x));
      SizeMonotone(Below(kept, x), Below(a + kept, x));
      if |Below(bs, x)| < k {
        KeptAgree(b, k, x);
      } else {
        KeptBelow(b, k, x);
      }
    }
  }

  /** Least-of-union depends on the values only, and absorbs an earlier truncation. */
  lemma LeastAbsorbs(a: seq<string>, b: seq<string>, k: nat)
    ensures Least(a + Least(b, k), k) == Least(a + b, k)
    ensures Least(Least(b, k) + a, k) == Least(b + a, k)
  {
    LeastAbsorbsRight(a, b, k);
    LeastAbsorbsLeft(b, a, k);
  }

  lemma LeastAbsorbsRight(a: seq<string>, b: seq<string>, k: nat)
    ensures Least(a + Least(b, k), k) == Least(a + b, k)
  {
    LeastIsMinK(b, k);
    MinKAbsorbs(Elements(a), b, k);
    ElementsConcat(a, Least(b, k));
    ElementsConcat(a, b);
    LeastBySet(a + Least(b, k), a + b, k);
  }

  lemma LeastAbsorbsLeft(b: seq<string>, a: seq<string>, k: nat)
    ensures Least(Least(b, k) + a, k) == Least(b + a, k)
  {
    LeastAbsorbsRight(a, b, k);
    LeastCommutes(Least(b, k), a, k);
    LeastCommutes(b, a, k);
  }

  lemma LeastCommutes(a: seq<string>, b: seq<string>, k: nat)
    ensures Least(a + b, k) == Least(b + a, k)
  {
    ElementsConcat(a, b);
    ElementsConcat(b, a);
    assert Elements(b) + Elements(a) == Elements(a) + Elements(b);
    LeastBySet(a + b, b + a, k);
  }

  /** Merging can be done in steps, truncating at each of them. */
  lemma LeastOfThree(a: seq<string>, b: seq<string>, c: seq<string>, k: nat)
    ensures Least(Least(a + b, k) + c, k) == Least(a + (b + c), k)
    ensures Least(Least(a + b, k) + Least(c, k), k) == Least(a + (b + c), k)
  {
    assert a + b + c == a + (b + c);
    LeastAbsorbsLeft(a + b, c, k);
    LeastAbsorbsRight(Least(a + b, k), c, k);
  }

  lemma LeastBySet(a: seq<string>, b: seq<string>, k: nat)
    requires MinK(Elements(a), k) == MinK(Elements(b), k)
    ensures Least(a, k) == Least(b, k)
  {
    LeastIsMinK(a, k);
    LeastIsMinK(b, k);
    SortedUnique(Least(a, k), Least(b, k));
  }

  lemma LeastFixed(xs: seq<string>, k: nat)
    requires StrictlySorted(xs) && |xs| <= k
    ensures Least(xs, k) == xs
  {
    SortedFixed(xs);
  }
}
